/** The playback controller of MusicService.kt as a pure state machine.
    Each function gives the state after one command or decoder event; the
    class in module Service performs the same steps in place and is proved
    against these functions. */
module Playback {
  import opened Models

  const ACTION_PLAY := "ACTION_PLAY"
  const ACTION_TOGGLE_PLAYBACK := "ACTION_TOGGLE_PLAYBACK"
  const ACTION_NEXT := "ACTION_NEXT"

  /** Initial value of both the remembered and the published title. */
  const NO_TRACK := "Нет трека"
  /** Prefix of the published title while paused. */
  const PAUSED_PREFIX := "Пауза: "
  /** Title used when the track's metadata has none. */
  const UNKNOWN_TRACK := "Неизвестный трек"

  const APP_NAME := "CustomPlayer"
  const LABEL_PAUSE := "Пауза"
  const LABEL_PLAY := "Воспроизвести"
  const LABEL_NEXT := "Следующий"

  /** The single decoder session. A released decoder is gone: it is simply
      replaced, and its callbacks are never delivered again. */
  datatype Session =
    | NoSession
    | Preparing(source: Locator)
    | Started(source: Locator, playing: bool)

  /** `mediaPlayer?.isPlaying == true` */
  predicate IsPlaying(p: Session)
  {
    p.Started? && p.playing
  }

  /** A notification button: its title and the action tag its tap delivers. */
  datatype NotificationAction = NotificationAction(title: string, action: string)

  /** The parts of the foreground notification the controller chooses. */
  datatype Notification = Notification(
    contentTitle: string,
    contentText: string,
    playPause: NotificationAction,
    next: NotificationAction,
    ongoing: bool)

  /** Everything the controller owns: the process-wide playlist, index and
      published title, the decoder session, the remembered title, and the
      notification last posted (None before the first one). */
  datatype ServiceState = ServiceState(
    playlist: seq<Locator>,
    currentIndex: int,
    currentSongTitle: string,
    mediaPlayer: Session,
    songTitle: string,
    notification: Option<Notification>)

  /** The state invariant: whenever the playlist is non-empty the index
      addresses one of its entries, so `playlist[currentIndex]` is safe. */
  predicate Valid(s: ServiceState)
  {
    0 <= s.currentIndex && (|s.playlist| > 0 ==> s.currentIndex < |s.playlist|)
  }

  /** The state at process start. */
  function Initial(): (s: ServiceState)
    ensures Valid(s) && s.playlist == [] && s.currentIndex == 0
    ensures s.mediaPlayer == NoSession && s.notification == None
    ensures s.songTitle == NO_TRACK && s.currentSongTitle == NO_TRACK
  {
    ServiceState([], 0, NO_TRACK, NoSession, NO_TRACK, None)
  }

  /** `getSongTitle`: the metadata title of `uri`, or the placeholder. */
  function SongTitle(retriever: Locator -> Option<string>, uri: Locator): (t: string)
    ensures retriever(uri).Some? ==> t == retriever(uri).value
    ensures retriever(uri).None? ==> t == UNKNOWN_TRACK
  {
    match retriever(uri)
    case Some(title) => title
    case None => UNKNOWN_TRACK
  }

  /** `createNotification`: the play/pause button and the ongoing flag follow
      whether the decoder is playing; the body is the remembered title. */
  function CreateNotification(s: ServiceState): (n: Notification)
    ensures n.ongoing <==> IsPlaying(s.mediaPlayer)
    ensures n.playPause.title == (if IsPlaying(s.mediaPlayer) then LABEL_PAUSE else LABEL_PLAY)
    ensures n.playPause.action == ACTION_TOGGLE_PLAYBACK
    ensures n.next == NotificationAction(LABEL_NEXT, ACTION_NEXT)
    ensures n.contentTitle == APP_NAME && n.contentText == s.songTitle
  {
    var playing := IsPlaying(s.mediaPlayer);
    var playPause :=
      if playing then NotificationAction(LABEL_PAUSE, ACTION_TOGGLE_PLAYBACK)
      else NotificationAction(LABEL_PLAY, ACTION_TOGGLE_PLAYBACK);
    Notification(APP_NAME, s.songTitle, playPause, NotificationAction(LABEL_NEXT, ACTION_NEXT), playing)
  }

  /** `playSong`: the old decoder is released and a new one starts preparing
      `uri`; nothing else changes until it reports that it is prepared. */
  function PlaySong(s: ServiceState, uri: Locator): (r: ServiceState)
    ensures r.mediaPlayer == Preparing(uri)
    ensures r.(mediaPlayer := s.mediaPlayer) == s
  {
    s.(mediaPlayer := Preparing(uri))
  }

  /** The prepared callback of the session created by `playSong`: start the
      output, read the title from the metadata, publish it and post the
      notification. Only the current, still preparing session reports it. */
  function OnPrepared(s: ServiceState, retriever: Locator -> Option<string>): (r: ServiceState)
    ensures !s.mediaPlayer.Preparing? ==> r == s
    ensures s.mediaPlayer.Preparing? ==>
      && r.mediaPlayer == Started(s.mediaPlayer.source, true)
      && r.songTitle == SongTitle(retriever, s.mediaPlayer.source)
      && r.currentSongTitle == r.songTitle
      && r.notification == Some(CreateNotification(r))
      && r.playlist == s.playlist && r.currentIndex == s.currentIndex
  {
    match s.mediaPlayer
    case Preparing(src) =>
      var title := SongTitle(retriever, src);
      var started := s.(mediaPlayer := Started(src, true), songTitle := title, currentSongTitle := title);
      started.(notification := Some(CreateNotification(started)))
    case _ => s
  }

  /** The decoder's answer to `start()`: a paused session plays again; a
      session that is still preparing cannot start yet and stays preparing. */
  function Start(p: Session): Session
  {
    match p
    case Started(src, _) => Started(src, true)
    case _ => p
  }

  /** `togglePlayback`. It tests only `isPlaying`, so a session that is
      still preparing takes the resume branch and republishes `songTitle`. */
  function TogglePlayback(s: ServiceState): (r: ServiceState)
    ensures s.mediaPlayer == NoSession ==> r == s
    ensures IsPlaying(s.mediaPlayer) ==>
      r.mediaPlayer == Started(s.mediaPlayer.source, false) && r.currentSongTitle == PAUSED_PREFIX + s.songTitle
    ensures s.mediaPlayer != NoSession && !IsPlaying(s.mediaPlayer) ==> r.currentSongTitle == s.songTitle
    ensures s.mediaPlayer.Started? && !s.mediaPlayer.playing ==> r.mediaPlayer == Started(s.mediaPlayer.source, true)
    ensures s.mediaPlayer.Preparing? ==> r.mediaPlayer == s.mediaPlayer
    ensures s.mediaPlayer != NoSession ==> r.notification == Some(CreateNotification(r))
    ensures r.playlist == s.playlist && r.currentIndex == s.currentIndex && r.songTitle == s.songTitle
  {
    if s.mediaPlayer == NoSession then s
    else
      var toggled :=
        if IsPlaying(s.mediaPlayer) then
          s.(mediaPlayer := Started(s.mediaPlayer.source, false), currentSongTitle := PAUSED_PREFIX + s.songTitle)
        else
          s.(mediaPlayer := Start(s.mediaPlayer), currentSongTitle := s.songTitle);
      toggled.(notification := Some(CreateNotification(toggled)))
  }

  /** `nextTrack`: on a non-empty playlist advance the index circularly and
      start preparing the entry it now addresses. */
  function NextTrack(s: ServiceState): (r: ServiceState)
    requires Valid(s)
    ensures Valid(r)
    ensures |s.playlist| == 0 ==> r == s
    ensures |s.playlist| > 0 ==>
      && r.currentIndex == (s.currentIndex + 1) % |s.playlist|
      && r.mediaPlayer == Preparing(s.playlist[r.currentIndex])
      && r.(currentIndex := s.currentIndex, mediaPlayer := s.mediaPlayer) == s
  {
    if |s.playlist| == 0 then s
    else
      var i := (s.currentIndex + 1) % |s.playlist|;
      PlaySong(s.(currentIndex := i), s.playlist[i])
  }

  /** The decoder reaching the end of its track: it stops playing (its
      `isPlaying` turns false) but keeps its source; `start()` would
      replay it. A session that never started is unaffected. */
  function Finish(p: Session): (q: Session)
    ensures !IsPlaying(q)
    ensures p.Started? ==> q == Started(p.source, false)
    ensures !p.Started? ==> q == p
  {
    match p
    case Started(src, _) => Started(src, false)
    case _ => p
  }

  /** `onCompletion`: called once the decoder has finished its track, it
      advances exactly as `nextTrack`. On an empty playlist `nextTrack`
      returns at once, so the finished decoder stays stopped. */
  function OnCompletion(s: ServiceState): (r: ServiceState)
    requires Valid(s)
    ensures Valid(r)
    ensures |s.playlist| == 0 ==> r == s.(mediaPlayer := Finish(s.mediaPlayer))
    ensures |s.playlist| > 0 ==>
      && r.currentIndex == (s.currentIndex + 1) % |s.playlist|
      && r.mediaPlayer == Preparing(s.playlist[r.currentIndex])
      && r.(currentIndex := s.currentIndex, mediaPlayer := s.mediaPlayer) == s
  {
    NextTrack(s.(mediaPlayer := Finish(s.mediaPlayer)))
  }

  /** `onStartCommand`: dispatch on the intent's action; a null intent, a
      null action and any other tag are ignored. */
  function StartCommand(s: ServiceState, action: Option<string>): (r: ServiceState)
    requires Valid(s)
    ensures Valid(r)
    ensures action == Some(ACTION_PLAY) && |s.playlist| == 0 ==> r == s
    ensures action == Some(ACTION_PLAY) && |s.playlist| > 0 ==>
      r.mediaPlayer == Preparing(s.playlist[s.currentIndex]) && r.(mediaPlayer := s.mediaPlayer) == s
    ensures action == Some(ACTION_TOGGLE_PLAYBACK) ==> r == TogglePlayback(s)
    ensures action == Some(ACTION_NEXT) ==> r == NextTrack(s)
    ensures action !in {Some(ACTION_PLAY), Some(ACTION_TOGGLE_PLAYBACK), Some(ACTION_NEXT)} ==> r == s
  {
    if action == Some(ACTION_PLAY) then
      if |s.playlist| > 0 then PlaySong(s, s.playlist[s.currentIndex]) else s
    else if action == Some(ACTION_TOGGLE_PLAYBACK) then
      TogglePlayback(s)
    else if action == Some(ACTION_NEXT) then
      NextTrack(s)
    else
      s
  }

  /** `nextTrack` applied `k` times. */
  function NextTrackTimes(s: ServiceState, k: nat): (r: ServiceState)
    requires Valid(s)
    ensures Valid(r) && r.playlist == s.playlist
  {
    if k == 0 then s else NextTrack(NextTrackTimes(s, k - 1))
  }

  /** On a non-empty playlist completion and the "next" command have the
      same effect: the new session replaces the finished one either way. */
  lemma CompletionIsNext(s: ServiceState)
    requires Valid(s) && |s.playlist| > 0
    ensures OnCompletion(s) == StartCommand(s, Some(ACTION_NEXT))
  {
  }

  /** On an empty playlist they differ: "next" leaves a playing decoder
      playing, while completion leaves it stopped, so a later toggle
      restarts the track and publishes the plain title instead of pausing. */
  lemma CompletionDiffersOnEmptyPlaylist(s: ServiceState)
    requires Valid(s) && |s.playlist| == 0 && IsPlaying(s.mediaPlayer)
    ensures StartCommand(s, Some(ACTION_NEXT)) == s
    ensures OnCompletion(s).mediaPlayer == Started(s.mediaPlayer.source, false)
    ensures OnCompletion(s) != StartCommand(s, Some(ACTION_NEXT))
    ensures TogglePlayback(OnCompletion(s)).mediaPlayer == s.mediaPlayer
    ensures TogglePlayback(OnCompletion(s)).currentSongTitle == s.songTitle
    ensures TogglePlayback(StartCommand(s, Some(ACTION_NEXT))).currentSongTitle == PAUSED_PREFIX + s.songTitle
  {
  }

  /** One step of the circular index, without the remainder operator. */
  lemma WrapAround(j: int, n: int)
    requires 0 <= j < n
    ensures (j + 1) % n == if j + 1 < n then j + 1 else 0
  {
  }

  /** Within one lap the index moves forward by one per step and wraps once. */
  lemma {:induction false} NextTrackTimesIndex(s: ServiceState, k: nat)
    requires Valid(s) && |s.playlist| > 0 && k <= |s.playlist|
    ensures NextTrackTimes(s, k).currentIndex ==
      if s.currentIndex + k < |s.playlist| then s.currentIndex + k
      else s.currentIndex + k - |s.playlist|
  {
    if k > 0 {
      NextTrackTimesIndex(s, k - 1);
      var prev := NextTrackTimes(s, k - 1);
      assert NextTrackTimes(s, k) == NextTrack(prev);
      WrapAround(prev.currentIndex, |s.playlist|);
    }
  }

  /** Advancing as many times as the playlist is long returns to the start,
      and the session then prepares the track it started from. */
  lemma NextTrackCircular(s: ServiceState)
    requires Valid(s) && |s.playlist| > 0
    ensures NextTrackTimes(s, |s.playlist|).currentIndex == s.currentIndex
    ensures NextTrackTimes(s, |s.playlist|).mediaPlayer == Preparing(s.playlist[s.currentIndex])
  {
    NextTrackTimesIndex(s, |s.playlist|);
  }

  /** Pausing and resuming a playing session restores the session and
      publishes the plain title again; the remembered title never changes. */
  lemma ToggleTwiceFromPlaying(s: ServiceState)
    requires IsPlaying(s.mediaPlayer)
    ensures TogglePlayback(TogglePlayback(s)).mediaPlayer == s.mediaPlayer
    ensures TogglePlayback(TogglePlayback(s)).currentSongTitle == s.songTitle
    ensures TogglePlayback(TogglePlayback(s)).songTitle == s.songTitle
  {
  }

  /** The notification's button reads "Пауза" exactly when it is ongoing. */
  lemma NotificationPauseIffOngoing(s: ServiceState)
    ensures CreateNotification(s).playPause.title == LABEL_PAUSE <==> CreateNotification(s).ongoing
  {
  }
}
