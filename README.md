# CustomPlayer playback controller in Dafny

A Dafny model of the playback controller of the CustomPlayer Android audio
player, with proofs about it. The controller is the background service
`MusicService`. It holds the process-wide playlist of track locators, the
current index and the published "current title". It also holds at most one
decoder session and the remembered song title. Three things drive it:

- the service commands `ACTION_PLAY`, `ACTION_TOGGLE_PLAYBACK` and `ACTION_NEXT`;
- the decoder's "prepared" and "completion" callbacks;
- the activity's three playlist updates (choosing a catalog row, an external
  open request, the end of a catalog reload) and notification button taps,
  which the receiver filters before passing them on.

Modules:

- `Models` (models.dfy): the catalog record `Song`, the opaque `Locator`
  (a URI with equality only), the parts of an `Intent` the player reads, and
  `Option`.
- `Playback` (playback.dfy): the service as a pure state machine over
  `ServiceState`. It holds the invariant `Valid` ("non-empty playlist ⇒
  0 ≤ currentIndex < |playlist|"), one function per command or event, and
  lemmas about them.
- `Service` (service.dfy): class `MusicService`. Its fields are the
  controller state, and its methods update them in place. Each method keeps
  `Valid()` and ensures `State() == Playback.X(old(State()))`.
- `Relay` (relay.dfy): `NotificationActionReceiver.onReceive` as a function
  from an action tag to the forwarded tag or nothing.
- `Selection` (selection.dfy): the activity's three playlist updates as
  functions of the controller state, plus `indexOf`, `songs.map { it.uri }`
  and the choice of an external request's locator.
- `Activity` (activity.dfy): class `MainActivity`, whose handlers rewrite
  the service's playlist and index and send `ACTION_PLAY`. Each handler is
  proved against its `Selection` function.
- `Player` (player.dfy): the whole system as one serialized event stream
  (`Step`, `Run`). It holds the run-level results: every run keeps the
  invariant, notification taps act like the in-app buttons, the titles are
  "Нет трека" until the first prepared callback, and pressing "next" n times
  on an n-entry playlist comes back to the start.

Modelling choices:

- The decoder is an abstract `Session`: `NoSession`, `Preparing(source)` or
  `Started(source, playing)`. `isPlaying` is `Started(_, true)`.
- `playSong` replaces the session, and a released decoder never calls back.
  So `DecoderPrepared` and `DecoderCompletion` always refer to the current
  session. A prepared event when no session is preparing changes nothing.
- `togglePlayback` tests only `isPlaying`, so a session that is still
  preparing takes the "resume" branch: the published title becomes
  `songTitle` and the notification is reposted with "Воспроизвести".
  MediaPlayer does not accept `start()` before preparation finishes, so the
  model's decoder stays `Preparing` (its error state is not modelled).
- Three helpers stand for platform calls: `Playback.IsPlaying` is
  `mediaPlayer?.isPlaying == true` (MusicService.kt:105, 129, 174);
  `Playback.Start` is the decoder's answer to `start()` (MusicService.kt:109);
  `Playback.Finish` is the decoder reaching the end of its track before
  `onCompletion` runs; `Models.Parse` is `Uri.parse`.
- The metadata retriever is a function `Locator -> Option<string>` given to
  the prepared event. Its `None` result gives the title "Неизвестный трек".
- The companion fields (`playlist`, `currentIndex`, `_currentSongTitle`)
  and the instance fields (`mediaPlayer`, `songTitle`) are fields of the one
  service object. The last notification posted is kept as the field
  `notification`.
- A command the activity starts with `startForegroundService` is modelled
  as delivered at once (see "## Left out"). All events run on one
  serialized context.
- The index is a Kotlin `Int`. Under the invariant, `currentIndex + 1` is at
  most the playlist's size, so it never overflows. On those non-negative
  operands Kotlin's `%` and Dafny's `%` agree.
- A catalog reload does not send `ACTION_PLAY` (MainActivity.kt:261-266).
  Only the row click and the external request do. After a reload the old
  session keeps playing while the index is reset to 0.

## Model

| member | source | states |
|---|---|---|
| `Playback.Initial` | app/src/main/java/com/example/customplayer/MusicService.kt:28-36 | at process start the playlist is empty, the index is 0, there is no session and no notification, both titles are "Нет трека", and the invariant holds |
| `Playback.SongTitle` | app/src/main/java/com/example/customplayer/MusicService.kt:191-198 | the title is the metadata title when there is one, otherwise "Неизвестный трек" |
| `Playback.CreateNotification` | app/src/main/java/com/example/customplayer/MusicService.kt:128-177 | the toggle button reads "Пауза" and the notification is ongoing exactly when the session is playing, otherwise the button reads "Воспроизвести"; the buttons carry the toggle and next tags; the text is `songTitle` |
| `Playback.NotificationPauseIffOngoing` | app/src/main/java/com/example/customplayer/MusicService.kt:129-174 | the "Пауза" button and the ongoing flag always appear together |
| `Playback.PlaySong` | app/src/main/java/com/example/customplayer/MusicService.kt:68-98 | the session becomes a new preparing session bound to the given locator, and nothing else changes |
| `Playback.OnPrepared` | app/src/main/java/com/example/customplayer/MusicService.kt:78-88 | a preparing session starts playing; `songTitle` and the published title both become the metadata title of its locator; a notification for the new state is posted; playlist and index are untouched; with no preparing session nothing changes |
| `Playback.TogglePlayback` | app/src/main/java/com/example/customplayer/MusicService.kt:103-114 | with no session nothing changes; a playing session is paused and "Пауза: " + songTitle is published; a paused session resumes and a preparing one stays preparing, and either way songTitle is published; the notification is reposted; playlist, index and songTitle are untouched |
| `Playback.ToggleTwiceFromPlaying` | app/src/main/java/com/example/customplayer/MusicService.kt:103-114 | pausing and then resuming a playing session restores the session and publishes the plain title again |
| `Playback.NextTrack` | app/src/main/java/com/example/customplayer/MusicService.kt:119-123 | keeps the invariant; on an empty playlist nothing changes; otherwise the index becomes (index + 1) mod size, a session preparing the entry at the new index replaces the old one, and nothing else changes |
| `Playback.OnCompletion` | app/src/main/java/com/example/customplayer/MusicService.kt:203-205 | keeps the invariant; on an empty playlist only the finished decoder stops and nothing else changes; otherwise the index becomes (index + 1) mod size and a session preparing the new entry replaces the finished one, with nothing else changed |
| `Playback.Finish` | app/src/main/java/com/example/customplayer/MusicService.kt:203 | a decoder that reaches the end of its track is no longer playing and keeps its source; a session that never started is unaffected |
| `Playback.CompletionIsNext` | app/src/main/java/com/example/customplayer/MusicService.kt:57-59 | on a non-empty playlist completion has exactly the effect of the ACTION_NEXT command |
| `Playback.CompletionDiffersOnEmptyPlaylist` | app/src/main/java/com/example/customplayer/MusicService.kt:120 | on an empty playlist ACTION_NEXT changes nothing while completion stops the decoder, so a following toggle replays the track with the plain title instead of pausing with "Пауза: " |
| `Playback.StartCommand` | app/src/main/java/com/example/customplayer/MusicService.kt:46-62 | keeps the invariant; ACTION_PLAY on an empty playlist changes nothing, and on a non-empty one prepares `playlist[currentIndex]` and changes nothing else; the toggle and next tags run togglePlayback and nextTrack; any other tag or a missing one changes nothing |
| `Playback.NextTrackTimes` | app/src/main/java/com/example/customplayer/MusicService.kt:119-123 | advancing any number of times keeps the invariant and the playlist |
| `Playback.NextTrackTimesIndex` | app/src/main/java/com/example/customplayer/MusicService.kt:121 | within one lap of the playlist each advance moves the index forward by one, wrapping to 0 once past the end |
| `Playback.NextTrackCircular` | app/src/main/java/com/example/customplayer/MusicService.kt:119-123 | advancing as many times as the playlist is long returns the index to its start, and the session then prepares the starting track |
| `Service.MusicService.constructor` | app/src/main/java/com/example/customplayer/MusicService.kt:28-36 | the new service holds the initial state |
| `Service.MusicService.OnStartCommand` | app/src/main/java/com/example/customplayer/MusicService.kt:46-62 | keeps the invariant and leaves exactly the state `Playback.StartCommand` gives |
| `Service.MusicService.PlaySong` | app/src/main/java/com/example/customplayer/MusicService.kt:68-98 | changes only the session, to the state `Playback.PlaySong` gives |
| `Service.MusicService.OnPrepared` | app/src/main/java/com/example/customplayer/MusicService.kt:78-88 | keeps the invariant and leaves exactly the state `Playback.OnPrepared` gives |
| `Service.MusicService.TogglePlayback` | app/src/main/java/com/example/customplayer/MusicService.kt:103-114 | keeps the invariant and leaves exactly the state `Playback.TogglePlayback` gives |
| `Service.MusicService.NextTrack` | app/src/main/java/com/example/customplayer/MusicService.kt:119-123 | keeps the invariant and leaves exactly the state `Playback.NextTrack` gives |
| `Service.MusicService.OnCompletion` | app/src/main/java/com/example/customplayer/MusicService.kt:203-205 | stops the finished decoder, then runs nextTrack; keeps the invariant and leaves exactly the state `Playback.OnCompletion` gives |
| `Service.MusicService.CreateNotification` | app/src/main/java/com/example/customplayer/MusicService.kt:128-177 | returns the notification `Playback.CreateNotification` describes for the current state and changes nothing |
| `Service.MusicService.UpdateNotification` | app/src/main/java/com/example/customplayer/MusicService.kt:182-186 | posts the notification for the current state and changes nothing else |
| `Relay.OnReceive` | app/src/main/java/com/example/customplayer/NotificationActionReceiver.kt:9-19 | a tag is forwarded exactly when it is ACTION_TOGGLE_PLAYBACK or ACTION_NEXT, and then unchanged; anything else is dropped |
| `Relay.PlayIsDropped` | app/src/main/java/com/example/customplayer/NotificationActionReceiver.kt:10-18 | ACTION_PLAY arriving at the receiver is not forwarded |
| `Relay.NotificationButtonsForwarded` | app/src/main/java/com/example/customplayer/MusicService.kt:129-147 | both buttons of any notification the service builds pass the receiver's filter with their own tag |
| `Models.GetStringExtra` | app/src/main/java/com/example/customplayer/MainActivity.kt:176 | the extra is present exactly when its key is, and is then its value |
| `Selection.IndexOf` | app/src/main/java/com/example/customplayer/MainActivity.kt:71 | the result is -1 exactly when the locator is absent; otherwise the entry there is the locator and no earlier entry is |
| `Selection.SongLocators` | app/src/main/java/com/example/customplayer/MainActivity.kt:265 | the locators list has the catalog's length, and its entry k is the locator of song k |
| `Selection.ExternalLocator` | app/src/main/java/com/example/customplayer/MainActivity.kt:175-178 | the intent's data locator wins; without it, the parsed "SONG_URI" extra; without both, nothing |
| `Selection.SongClick` | app/src/main/java/com/example/customplayer/MainActivity.kt:70-81 | keeps the invariant; a song absent from the playlist changes nothing; a present one sets the index to its first position and prepares it, and changes nothing else |
| `Selection.ExternalIntent` | app/src/main/java/com/example/customplayer/MainActivity.kt:171-188 | keeps the invariant; a null intent or one without a locator changes nothing; otherwise the playlist becomes that one locator, the index 0, and it is prepared, with titles untouched |
| `Selection.ExternalIntentReplacesPlaylist` | app/src/main/java/com/example/customplayer/MainActivity.kt:179-181 | a request naming a track leaves a one-entry playlist at index 0, whatever the playlist was before |
| `Selection.SongsLoaded` | app/src/main/java/com/example/customplayer/MainActivity.kt:264-266 | keeps the invariant; the playlist becomes the catalog's locators in catalog order, the index becomes 0, and nothing else changes |
| `Activity.MainActivity.constructor` | app/src/main/java/com/example/customplayer/MainActivity.kt:70 | the adapter starts with no songs |
| `Activity.MainActivity.OnSongSelected` | app/src/main/java/com/example/customplayer/MainActivity.kt:70-81 | leaves the service in the state `Selection.SongClick` gives, and returns the "not in playlist" message exactly when the song is absent |
| `Activity.MainActivity.HandleExternalIntent` | app/src/main/java/com/example/customplayer/MainActivity.kt:171-188 | leaves the service in the state `Selection.ExternalIntent` gives |
| `Activity.MainActivity.LoadSongsFromDevice` | app/src/main/java/com/example/customplayer/MainActivity.kt:261-266 | the adapter gets the loaded songs and the service the state `Selection.SongsLoaded` gives, so `playlist[k]` is the locator of `songs[k]` for every k |
| `Player.Tap` | app/src/main/java/com/example/customplayer/NotificationActionReceiver.kt:13-16 | a notification tap keeps the invariant |
| `Player.Step` | app/src/main/java/com/example/customplayer/MusicService.kt:46-62 | every command, decoder event, tap and activity update keeps the invariant |
| `Player.Run` | app/src/main/java/com/example/customplayer/MusicService.kt:49-50 | every run from a valid state ends valid, so the lookups `playlist[currentIndex]` stay in bounds |
| `Player.ReachableStatesValid` | app/src/main/java/com/example/customplayer/MusicService.kt:31-32 | every state reachable from process start satisfies the invariant |
| `Player.TapMatchesButton` | app/src/main/java/com/example/customplayer/MainActivity.kt:129-147 | a tap carrying the toggle or next tag has the same effect as the in-app button that sends it; any other tap changes nothing |
| `Player.CompletionMatchesNextCommand` | app/src/main/java/com/example/customplayer/MusicService.kt:203-205 | on a non-empty playlist natural completion and the "next" command lead to the same state; on an empty one completion only stops the decoder |
| `Player.CompletionAfterEmptyReload` | app/src/main/java/com/example/customplayer/MusicService.kt:103-111 | open track A, let it prepare, reload an empty catalog, let A end and toggle: A plays again, the published title is its plain title and the notification shows "Пауза" and is ongoing |
| `Player.StepKeepsNothingPrepared` | app/src/main/java/com/example/customplayer/MusicService.kt:103-111 | no event except a prepared callback sets either title or starts a session, even a toggle of a preparing session |
| `Player.NoTitleBeforePrepared` | app/src/main/java/com/example/customplayer/MusicService.kt:80-84 | along a run without a prepared callback both titles stay "Нет трека" and no session starts |
| `Player.NoTitleBeforeFirstPrepared` | app/src/main/java/com/example/customplayer/MusicService.kt:28-36 | from process start, both titles are "Нет трека" until the first prepared callback |
| `Player.CompletionAdvancesToSecond` | app/src/main/java/com/example/customplayer/MusicService.kt:203-205 | with playlist [A, B] playing A, the end of A prepares B at index 1 |
| `Player.NextPresses` | app/src/main/java/com/example/customplayer/MainActivity.kt:139-146 | k presses of the "Next" button are k ACTION_NEXT commands |
| `Player.NextPressesAdvance` | app/src/main/java/com/example/customplayer/MusicService.kt:57-59 | pressing "next" k times is nextTrack applied k times |
| `Player.NextPressesCircular` | app/src/main/java/com/example/customplayer/MusicService.kt:119-123 | pressing "next" as many times as the playlist is long returns to the starting index with the playlist unchanged |

## Left out

- Layouts, `RecyclerView`, `SongAdapter`, Toasts and the LiveData observer are UI glue. The published title is a plain field, and the adapter's list is the field `MainActivity.songs`.
- `checkPermissions`, the permission launcher and the media-store query loop in `loadSongsFromDevice` are platform I/O. The loaded songs are an input to `LoadSongsFromDevice`. So `onCreate`'s order (reload, then external request) is not modelled.
- Decoding, audio output and the metadata retriever's I/O are foreign calls. Only the session states and the lookup `Locator -> Option<string>` remain.
- Decoder failures: the source registers no error listener, so a session may stay `Preparing` forever. The decoder's error state, including the one `start()` on a preparing session causes, is not modelled.
- Exceptions from `setDataSource` are not modelled. The source does not catch them.
- Notification channel creation, `PendingIntent` flags, `Build.VERSION` branches, bitmaps and the delivery by `startForeground`/`notify` are platform plumbing. Only the chosen labels, tags, text and ongoing flag are modelled.
- `serviceJob`/`serviceScope`, coroutines and concurrency carry no logic. Events form one sequential stream.
- `onDestroy`, `onBind` and the service being recreated are lifecycle plumbing. The companion fields would then outlive the instance fields; the model has a single service instance.
- `Uri.parse` and `toString` are treated as inverse: a locator is an opaque value with equality.
- Playback.TogglePlayback: the `start()` call on a session that is still preparing is kept only through its visible effects (the published title and the reposted notification); the decoder is left `Preparing`, because MediaPlayer does not start before preparation finishes and its resulting error state is not modelled.
- Selection.SongClick and Selection.ExternalIntent deliver the `ACTION_PLAY` they start at once. In the source it arrives later on the main thread, so a completion or a notification "next" handled after the index is written (MainActivity.kt:73, 181) and before the command is not modelled; there it would advance the index first, and the track after the chosen one would play.
