/** The whole player as one sequential stream of events: the commands the
    service receives, the two decoder callbacks, notification taps that go
    through the receiver, and the activity's three playlist updates. All of
    them run on the one main-thread callback context, so a run is a fold of
    single steps. */
module Player {
  import opened Models
  import Playback
  import Relay
  import Selection

  datatype Event =
    | ServiceCommand(action: Option<string>)  // onStartCommand, e.g. from the in-app buttons
    | DecoderPrepared                         // the prepared listener of the current session
    | DecoderCompletion                       // onCompletion of the current session
    | NotificationTap(action: Option<string>) // a broadcast to NotificationActionReceiver
    | SongSelected(song: Song)                // the adapter's click handler
    | ExternalRequest(intent: Option<Intent>) // handleExternalIntent
    | CatalogLoaded(songs: seq<Song>)         // the end of loadSongsFromDevice

  /** A notification tap: what the receiver forwards reaches the service. */
  function Tap(s: Playback.ServiceState, action: Option<string>): (r: Playback.ServiceState)
    requires Playback.Valid(s)
    ensures Playback.Valid(r)
  {
    match Relay.OnReceive(action)
    case Some(forwarded) => Playback.StartCommand(s, Some(forwarded))
    case None => s
  }

  /** One event. `retriever` is the metadata lookup used when a session
      reports that it is prepared. */
  function Step(retriever: Locator -> Option<string>, s: Playback.ServiceState, e: Event): (r: Playback.ServiceState)
    requires Playback.Valid(s)
    ensures Playback.Valid(r)
  {
    match e
    case ServiceCommand(action) => Playback.StartCommand(s, action)
    case DecoderPrepared => Playback.OnPrepared(s, retriever)
    case DecoderCompletion => Playback.OnCompletion(s)
    case NotificationTap(action) => Tap(s, action)
    case SongSelected(song) => Selection.SongClick(s, song)
    case ExternalRequest(intent) => Selection.ExternalIntent(s, intent)
    case CatalogLoaded(songs) => Selection.SongsLoaded(s, songs)
  }

  /** The state after the events `es`, in order. Every event keeps the
      invariant, so the index lookups of ACTION_PLAY and `nextTrack` stay in
      bounds along any run. */
  function Run(retriever: Locator -> Option<string>, s: Playback.ServiceState, es: seq<Event>): (r: Playback.ServiceState)
    requires Playback.Valid(s)
    ensures Playback.Valid(r)
    decreases |es|
  {
    if |es| == 0 then s else Run(retriever, Step(retriever, s, es[0]), es[1..])
  }

  /** A run from process start is always in a valid state. */
  lemma ReachableStatesValid(retriever: Locator -> Option<string>, es: seq<Event>)
    ensures Playback.Valid(Run(retriever, Playback.Initial(), es))
  {
  }

  /** A tap on a notification button does exactly what the in-app button
      sending the same tag does; any other tap changes nothing. */
  lemma TapMatchesButton(retriever: Locator -> Option<string>, s: Playback.ServiceState, action: Option<string>)
    requires Playback.Valid(s)
    ensures action == Some(Playback.ACTION_TOGGLE_PLAYBACK) || action == Some(Playback.ACTION_NEXT) ==>
      Step(retriever, s, NotificationTap(action)) == Step(retriever, s, ServiceCommand(action))
    ensures !(action == Some(Playback.ACTION_TOGGLE_PLAYBACK) || action == Some(Playback.ACTION_NEXT)) ==>
      Step(retriever, s, NotificationTap(action)) == s
  {
  }

  /** On a non-empty playlist natural completion and a "next" command lead
      to the same state; on an empty one completion only stops the decoder. */
  lemma CompletionMatchesNextCommand(retriever: Locator -> Option<string>, s: Playback.ServiceState)
    requires Playback.Valid(s)
    ensures |s.playlist| > 0 ==>
      Step(retriever, s, DecoderCompletion) == Step(retriever, s, ServiceCommand(Some(Playback.ACTION_NEXT)))
    ensures |s.playlist| == 0 ==>
      Step(retriever, s, DecoderCompletion) == s.(mediaPlayer := Playback.Finish(s.mediaPlayer))
  {
    if |s.playlist| > 0 {
      Playback.CompletionIsNext(s);
    }
  }

  /** A track keeps playing after a catalog reload that found no songs; when
      it ends nothing follows, and the toggle button then replays it with the
      plain title and an ongoing notification showing "Пауза". */
  lemma CompletionAfterEmptyReload(retriever: Locator -> Option<string>, a: Locator)
    ensures
      var s := Run(retriever, Playback.Initial(),
        [ExternalRequest(Some(Intent(None, Some(a), map[]))), DecoderPrepared, CatalogLoaded([]),
         DecoderCompletion, ServiceCommand(Some(Playback.ACTION_TOGGLE_PLAYBACK))]);
      && s.playlist == [] && s.mediaPlayer == Playback.Started(a, true)
      && s.currentSongTitle == s.songTitle == Playback.SongTitle(retriever, a)
      && s.notification.Some? && s.notification.value.ongoing
      && s.notification.value.playPause.title == Playback.LABEL_PAUSE
  {
    var s0 := Playback.Initial();
    var s1 := Step(retriever, s0, ExternalRequest(Some(Intent(None, Some(a), map[]))));
    assert s1.mediaPlayer == Playback.Preparing(a);
    var s2 := Step(retriever, s1, DecoderPrepared);
    assert s2.mediaPlayer == Playback.Started(a, true);
    var s3 := Step(retriever, s2, CatalogLoaded([]));
    assert s3.playlist == [];
    var s4 := Step(retriever, s3, DecoderCompletion);
    assert s4.mediaPlayer == Playback.Started(a, false);
    var s5 := Step(retriever, s4, ServiceCommand(Some(Playback.ACTION_TOGGLE_PLAYBACK)));
    var es := [ExternalRequest(Some(Intent(None, Some(a), map[]))), DecoderPrepared, CatalogLoaded([]),
               DecoderCompletion, ServiceCommand(Some(Playback.ACTION_TOGGLE_PLAYBACK))];
    assert es[4..][1..] == [] && es[3..][1..] == es[4..] && es[2..][1..] == es[3..] && es[1..][1..] == es[2..];
    assert Run(retriever, s4, es[4..]) == s5;
    assert Run(retriever, s3, es[3..]) == s5;
    assert Run(retriever, s2, es[2..]) == s5;
    assert Run(retriever, s1, es[1..]) == s5;
  }

  /** No session has reported that it is prepared yet: the titles still hold
      their initial value and no session has started. */
  predicate NothingPrepared(s: Playback.ServiceState)
  {
    && s.songTitle == Playback.NO_TRACK
    && s.currentSongTitle == Playback.NO_TRACK
    && !s.mediaPlayer.Started?
  }

  /** Every event other than DecoderPrepared keeps NothingPrepared. */
  lemma StepKeepsNothingPrepared(retriever: Locator -> Option<string>, s: Playback.ServiceState, e: Event)
    requires Playback.Valid(s) && NothingPrepared(s) && !e.DecoderPrepared?
    ensures NothingPrepared(Step(retriever, s, e))
  {
  }

  /** Until the first prepared callback, both the remembered and the
      published title are "Нет трека", even if the user toggles playback of
      a session that is still preparing. */
  lemma {:induction false} NoTitleBeforePrepared(retriever: Locator -> Option<string>, s: Playback.ServiceState, es: seq<Event>)
    requires Playback.Valid(s) && NothingPrepared(s)
    requires forall k :: 0 <= k < |es| ==> !es[k].DecoderPrepared?
    ensures NothingPrepared(Run(retriever, s, es))
    decreases |es|
  {
    if |es| > 0 {
      StepKeepsNothingPrepared(retriever, s, es[0]);
      NoTitleBeforePrepared(retriever, Step(retriever, s, es[0]), es[1..]);
    }
  }

  /** From process start in particular. */
  lemma NoTitleBeforeFirstPrepared(retriever: Locator -> Option<string>, es: seq<Event>)
    requires forall k :: 0 <= k < |es| ==> !es[k].DecoderPrepared?
    ensures Run(retriever, Playback.Initial(), es).songTitle == Playback.NO_TRACK
    ensures Run(retriever, Playback.Initial(), es).currentSongTitle == Playback.NO_TRACK
  {
    NoTitleBeforePrepared(retriever, Playback.Initial(), es);
  }

  /** Two tracks, the first one playing: its natural end moves on to the
      second without any explicit command. */
  lemma CompletionAdvancesToSecond(retriever: Locator -> Option<string>, a: Locator, b: Locator, s: Playback.ServiceState)
    requires s.playlist == [a, b] && s.currentIndex == 0 && s.mediaPlayer == Playback.Started(a, true)
    ensures Step(retriever, s, DecoderCompletion).currentIndex == 1
    ensures Step(retriever, s, DecoderCompletion).mediaPlayer == Playback.Preparing(b)
  {
  }

  /** Running one more event after a run is one more step. */
  lemma {:induction false} RunAppend(retriever: Locator -> Option<string>, s: Playback.ServiceState, es: seq<Event>, e: Event)
    requires Playback.Valid(s)
    ensures Run(retriever, s, es + [e]) == Step(retriever, Run(retriever, s, es), e)
    decreases |es|
  {
    if |es| > 0 {
      assert (es + [e])[1..] == es[1..] + [e];
      RunAppend(retriever, Step(retriever, s, es[0]), es[1..], e);
    }
  }

  /** `k` presses of "next". */
  function NextPresses(k: nat): (es: seq<Event>)
    ensures |es| == k
    ensures forall j :: 0 <= j < k ==> es[j] == ServiceCommand(Some(Playback.ACTION_NEXT))
  {
    if k == 0 then [] else NextPresses(k - 1) + [ServiceCommand(Some(Playback.ACTION_NEXT))]
  }

  /** Pressing "next" `k` times is `nextTrack` applied `k` times. */
  lemma {:induction false} NextPressesAdvance(retriever: Locator -> Option<string>, s: Playback.ServiceState, k: nat)
    requires Playback.Valid(s)
    ensures Run(retriever, s, NextPresses(k)) == Playback.NextTrackTimes(s, k)
  {
    if k > 0 {
      NextPressesAdvance(retriever, s, k - 1);
      RunAppend(retriever, s, NextPresses(k - 1), ServiceCommand(Some(Playback.ACTION_NEXT)));
    }
  }

  /** Pressing "next" as many times as the playlist is long comes back to
      the track the run started from. */
  lemma NextPressesCircular(retriever: Locator -> Option<string>, s: Playback.ServiceState)
    requires Playback.Valid(s) && |s.playlist| > 0
    ensures Run(retriever, s, NextPresses(|s.playlist|)).currentIndex == s.currentIndex
    ensures Run(retriever, s, NextPresses(|s.playlist|)).playlist == s.playlist
  {
    NextPressesAdvance(retriever, s, |s.playlist|);
    Playback.NextTrackCircular(s);
  }
}
