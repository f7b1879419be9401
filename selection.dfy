/** The three places in MainActivity.kt that rewrite the service's playlist
    and index, as functions of the controller state: choosing a catalog
    row, an external open request, and the end of a catalog reload. */
module Selection {
  import opened Models
  import Playback

  /** Key of the string extra an external request may carry. */
  const SONG_URI_KEY := "SONG_URI"
  /** Message shown when a chosen row is not in the playlist. */
  const NOT_IN_PLAYLIST := "Трек не найден в плейлисте"

  /** `List.indexOf`: the first position of `x` in `xs`, or -1. */
  function IndexOf(xs: seq<Locator>, x: Locator): (r: int)
    ensures -1 <= r < |xs|
    ensures r == -1 <==> x !in xs
    ensures 0 <= r ==> xs[r] == x && x !in xs[..r]
  {
    if |xs| == 0 then -1
    else if xs[0] == x then 0
    else
      var k := IndexOf(xs[1..], x);
      if k < 0 then -1
      else
        assert xs[..k + 1] == [xs[0]] + xs[1..][..k];
        k + 1
  }

  /** `songs.map { it.uri }`: the locators of the catalog, in catalog order. */
  function SongLocators(songs: seq<Song>): (r: seq<Locator>)
    ensures |r| == |songs|
    ensures forall k :: 0 <= k < |songs| ==> r[k] == songs[k].uri
  {
    if |songs| == 0 then [] else [songs[0].uri] + SongLocators(songs[1..])
  }

  /** `dataUri ?: songUriString?.let { Uri.parse(it) }`: the data locator
      wins; otherwise the parsed extra; otherwise nothing. */
  function ExternalLocator(intent: Intent): (r: Option<Locator>)
    ensures intent.data.Some? ==> r == intent.data
    ensures intent.data.None? ==> (r.Some? <==> SONG_URI_KEY in intent.extras)
    ensures intent.data.None? && r.Some? ==> r.value == Parse(intent.extras[SONG_URI_KEY])
  {
    match intent.data
    case Some(uri) => Some(uri)
    case None =>
      match GetStringExtra(intent, SONG_URI_KEY)
      case Some(text) => Some(Parse(text))
      case None => None
  }

  /** The row-click handler: jump to the first playlist entry holding the
      song's locator and send ACTION_PLAY; if there is none, only a message
      is shown. */
  function SongClick(s: Playback.ServiceState, song: Song): (r: Playback.ServiceState)
    requires Playback.Valid(s)
    ensures Playback.Valid(r)
    ensures song.uri !in s.playlist ==> r == s
    ensures song.uri in s.playlist ==>
      && 0 <= r.currentIndex < |s.playlist|
      && s.playlist[r.currentIndex] == song.uri
      && song.uri !in s.playlist[..r.currentIndex]
      && r.mediaPlayer == Playback.Preparing(song.uri)
      && r == s.(currentIndex := r.currentIndex, mediaPlayer := r.mediaPlayer)
  {
    var index := IndexOf(s.playlist, song.uri);
    if index >= 0 then Playback.StartCommand(s.(currentIndex := index), Some(Playback.ACTION_PLAY))
    else s
  }

  /** `handleExternalIntent`: a request that names a track replaces the
      playlist by that single track, points the index at it and sends
      ACTION_PLAY; a null intent or one without a locator changes nothing. */
  function ExternalIntent(s: Playback.ServiceState, intent: Option<Intent>): (r: Playback.ServiceState)
    requires Playback.Valid(s)
    ensures Playback.Valid(r)
    ensures intent.None? ==> r == s
    ensures intent.Some? && ExternalLocator(intent.value).None? ==> r == s
    ensures intent.Some? && ExternalLocator(intent.value).Some? ==>
      var uri := ExternalLocator(intent.value).value;
      && r.playlist == [uri] && r.currentIndex == 0
      && r.mediaPlayer == Playback.Preparing(uri)
      && r == s.(playlist := [uri], currentIndex := 0, mediaPlayer := r.mediaPlayer)
  {
    if intent.None? then s
    else
      match ExternalLocator(intent.value)
      case Some(uri) => Playback.StartCommand(s.(playlist := [uri], currentIndex := 0), Some(Playback.ACTION_PLAY))
      case None => s
  }

  /** The end of `loadSongsFromDevice`: the playlist becomes the catalog's
      locators in catalog order and the index 0. No command is sent, so the
      session and the titles are untouched. */
  function SongsLoaded(s: Playback.ServiceState, songs: seq<Song>): (r: Playback.ServiceState)
    ensures Playback.Valid(r)
    ensures |r.playlist| == |songs| && r.currentIndex == 0
    ensures forall k :: 0 <= k < |songs| ==> r.playlist[k] == songs[k].uri
    ensures r == s.(playlist := r.playlist, currentIndex := 0)
  {
    s.(playlist := SongLocators(songs), currentIndex := 0)
  }

  /** A request that names a track always leaves a one-entry playlist,
      whatever the playlist was before. */
  lemma ExternalIntentReplacesPlaylist(s: Playback.ServiceState, intent: Intent)
    requires Playback.Valid(s) && ExternalLocator(intent).Some?
    ensures |ExternalIntent(s, Some(intent)).playlist| == 1
    ensures ExternalIntent(s, Some(intent)).currentIndex == 0
  {
  }
}
