/** NotificationActionReceiver.kt: a stateless filter between notification
    button taps and the service. */
module Relay {
  import opened Models
  import Playback

  /** `onReceive`: the toggle and next tags are passed on to the service
      unchanged; every other tag, and a missing one, is dropped. */
  function OnReceive(action: Option<string>): (forwarded: Option<string>)
    ensures forwarded.Some? <==>
      action == Some(Playback.ACTION_TOGGLE_PLAYBACK) || action == Some(Playback.ACTION_NEXT)
    ensures forwarded.Some? ==> forwarded == action
  {
    match action
    case Some(tag) =>
      if tag == Playback.ACTION_TOGGLE_PLAYBACK || tag == Playback.ACTION_NEXT then Some(tag) else None
    case None => None
  }

  /** The play tag is not among those the receiver forwards. */
  lemma PlayIsDropped()
    ensures OnReceive(Some(Playback.ACTION_PLAY)) == None
  {
  }

  /** Both buttons of every notification the service posts survive the
      filter, each with its own tag. */
  lemma NotificationButtonsForwarded(s: Playback.ServiceState)
    ensures OnReceive(Some(Playback.CreateNotification(s).playPause.action)) == Some(Playback.ACTION_TOGGLE_PLAYBACK)
    ensures OnReceive(Some(Playback.CreateNotification(s).next.action)) == Some(Playback.ACTION_NEXT)
  {
  }
}
