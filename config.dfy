/** The host application's settings, read-only for the storage core. */
module Config {
  import opened Wrappers

  /** The extension's settings: a missing key reads as `null`. */
  type Settings = map<string, string>

  /** `$settings->get($key)`. */
  function Get(settings: Settings, key: string): (v: Option<string>)
    ensures v.Some? <==> key in settings
    ensures v.Some? ==> v.value == settings[key]
  {
    if key in settings then Some(settings[key]) else None
  }
}
