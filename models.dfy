/** Value types shared by the service, the activity and the receiver:
    the catalog record, the opaque track locator and the parts of an
    Android intent that the player reads. */
module Models {

  datatype Option<+T> = None | Some(value: T)

  /** An opaque reference to a playable audio resource (an android.net.Uri).
      The player only compares locators and hands them to the decoder. */
  datatype Locator = Locator(text: string)

  /** `Uri.parse`: every string names some locator; parsing is not modelled further. */
  function Parse(s: string): Locator
  {
    Locator(s)
  }

  /** One catalog row (models/Song.kt). */
  datatype Song = Song(id: int, title: string, uri: Locator)

  /** What the player reads from an incoming intent: its action tag,
      its data locator and its string extras. */
  datatype Intent = Intent(action: Option<string>, data: Option<Locator>, extras: map<string, string>)

  /** `Intent.getStringExtra(key)`: the extra, or null when it is absent. */
  function GetStringExtra(intent: Intent, key: string): (r: Option<string>)
    ensures r.Some? <==> key in intent.extras
    ensures r.Some? ==> r.value == intent.extras[key]
  {
    if key in intent.extras then Some(intent.extras[key]) else None
  }
}
