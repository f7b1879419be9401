/** The parts of MainActivity.kt that drive the player: they overwrite the
    service's playlist and index in place and then, except after a catalog
    reload, send ACTION_PLAY to the service. */
module Activity {
  import opened Models
  import Playback
  import Selection
  import Service

  class MainActivity {
    /** The list the song adapter shows. */
    var songs: seq<Song>
    /** The service the activity starts commands on. */
    const service: Service.MusicService

    constructor (service: Service.MusicService)
      ensures this.service == service && songs == []
    {
      this.service := service;
      songs := [];
    }

    /** The click handler given to the song adapter. Returns the message it
        shows, if any. */
    method OnSongSelected(selectedSong: Song) returns (message: Option<string>)
      requires service.Valid()
      modifies service
      ensures service.Valid()
      ensures service.State() == Selection.SongClick(old(service.State()), selectedSong)
      ensures message == if selectedSong.uri in old(service.playlist) then None else Some(Selection.NOT_IN_PLAYLIST)
    {
      var index := Selection.IndexOf(service.playlist, selectedSong.uri);
      if index >= 0 {
        service.currentIndex := index;
        service.OnStartCommand(Some(Playback.ACTION_PLAY));
        message := None;
      } else {
        message := Some(Selection.NOT_IN_PLAYLIST);
      }
    }

    /** `handleExternalIntent`, run from `onCreate` and `onNewIntent`. */
    method HandleExternalIntent(intent: Option<Intent>)
      requires service.Valid()
      modifies service
      ensures service.Valid()
      ensures service.State() == Selection.ExternalIntent(old(service.State()), intent)
    {
      if intent.None? {
        return;
      }
      var finalUri := Selection.ExternalLocator(intent.value);
      if finalUri.Some? {
        service.playlist := [finalUri.value];
        service.currentIndex := 0;
        service.OnStartCommand(Some(Playback.ACTION_PLAY));
      }
    }

    /** The end of `loadSongsFromDevice`, given the rows the media query
        returned: the adapter and the playlist receive the same songs. */
    method LoadSongsFromDevice(loaded: seq<Song>)
      modifies this, service
      ensures songs == loaded
      ensures service.Valid()
      ensures service.State() == Selection.SongsLoaded(old(service.State()), loaded)
      ensures |service.playlist| == |songs|
      ensures forall k :: 0 <= k < |songs| ==> service.playlist[k] == songs[k].uri
    {
      songs := loaded;
      service.playlist := Selection.SongLocators(loaded);
      service.currentIndex := 0;
    }
  }
}
