/**
 * The slice of a server configuration the supervisor reads: the app's name and
 * its free-form startup options.
 */
module ServerConfig {
  import opened Wrappers

  /** `IServerConfig`: `Name` and the `Options` name/value collection. */
  datatype Config = Config(name: string, options: map<string, string>)

  /** `options.GetValue(key)`: the stored value, or null when the key is absent. */
  function GetValue(options: map<string, string>, key: string): (r: Option<string>)
    ensures r.Some? <==> key in options
    ensures r.Some? ==> r.value == options[key]
  {
    if key in options then Some(options[key]) else None
  }

  /** `options.GetValue(key, default)`: the stored value, or `default` when the key is absent. */
  function GetValueOr(options: map<string, string>, key: string, default: string): (r: string)
    ensures key in options ==> r == options[key]
    ensures key !in options ==> r == default
  {
    GetValue(options, key).GetOr(default)
  }
}
