/** MusicService.kt as a class whose methods update its fields in place.
    The process-wide companion fields (playlist, index, published title)
    live on the one service object together with the decoder session and
    the remembered title. Every method keeps the state invariant and leaves
    exactly the state the matching function of module Playback describes. */
module Service {
  import opened Models
  import Playback

  class MusicService {
    var playlist: seq<Locator>
    var currentIndex: int
    /** `_currentSongTitle.value`, the title observers see. */
    var currentSongTitle: string
    var mediaPlayer: Playback.Session
    var songTitle: string
    /** The notification last handed to `startForeground` or `notify`. */
    var notification: Option<Playback.Notification>

    function State(): Playback.ServiceState
      reads this
    {
      Playback.ServiceState(playlist, currentIndex, currentSongTitle, mediaPlayer, songTitle, notification)
    }

    predicate Valid()
      reads this
    {
      Playback.Valid(State())
    }

    constructor ()
      ensures Valid() && State() == Playback.Initial()
    {
      playlist := [];
      currentIndex := 0;
      currentSongTitle := Playback.NO_TRACK;
      mediaPlayer := Playback.NoSession;
      songTitle := Playback.NO_TRACK;
      notification := None;
    }

    /** `onStartCommand`: dispatch on the action tag of the intent, if any. */
    method OnStartCommand(action: Option<string>)
      requires Valid()
      modifies this
      ensures Valid() && State() == Playback.StartCommand(old(State()), action)
    {
      if action == Some(Playback.ACTION_PLAY) {
        if |playlist| > 0 {
          PlaySong(playlist[currentIndex]);
        }
      } else if action == Some(Playback.ACTION_TOGGLE_PLAYBACK) {
        TogglePlayback();
      } else if action == Some(Playback.ACTION_NEXT) {
        NextTrack();
      }
    }

    /** `playSong`: release the previous decoder and start preparing `uri`.
        The result arrives later as the OnPrepared event. */
    method PlaySong(uri: Locator)
      modifies this`mediaPlayer
      ensures State() == Playback.PlaySong(old(State()), uri)
    {
      mediaPlayer := Playback.Preparing(uri);
    }

    /** The prepared listener installed by `playSong`. */
    method OnPrepared(retriever: Locator -> Option<string>)
      requires Valid()
      modifies this
      ensures Valid() && State() == Playback.OnPrepared(old(State()), retriever)
    {
      if mediaPlayer.Preparing? {
        var source := mediaPlayer.source;
        mediaPlayer := Playback.Started(source, true);
        songTitle := Playback.SongTitle(retriever, source);
        currentSongTitle := songTitle;
        var n := CreateNotification();
        notification := Some(n);
      }
    }

    /** `togglePlayback`. */
    method TogglePlayback()
      requires Valid()
      modifies this
      ensures Valid() && State() == Playback.TogglePlayback(old(State()))
    {
      if mediaPlayer != Playback.NoSession {
        if Playback.IsPlaying(mediaPlayer) {
          mediaPlayer := Playback.Started(mediaPlayer.source, false);
          currentSongTitle := Playback.PAUSED_PREFIX + songTitle;
        } else {
          mediaPlayer := Playback.Start(mediaPlayer);
          currentSongTitle := songTitle;
        }
        UpdateNotification();
      }
    }

    /** `nextTrack`. */
    method NextTrack()
      requires Valid()
      modifies this
      ensures Valid() && State() == Playback.NextTrack(old(State()))
    {
      if |playlist| == 0 {
        return;
      }
      currentIndex := (currentIndex + 1) % |playlist|;
      PlaySong(playlist[currentIndex]);
    }

    /** `onCompletion`. */
    method OnCompletion()
      requires Valid()
      modifies this
      ensures Valid() && State() == Playback.OnCompletion(old(State()))
    {
      // the decoder has finished its track before it calls back
      mediaPlayer := Playback.Finish(mediaPlayer);
      NextTrack();
    }

    /** `createNotification`: reads the state, changes nothing. */
    method CreateNotification() returns (n: Playback.Notification)
      ensures n == Playback.CreateNotification(State())
    {
      n := Playback.CreateNotification(State());
    }

    /** `updateNotification`: post a notification built from the current state. */
    method UpdateNotification()
      modifies this`notification
      ensures notification == Some(Playback.CreateNotification(State()))
      ensures State() == old(State()).(notification := notification)
    {
      var n := CreateNotification();
      notification := Some(n);
    }
  }
}
