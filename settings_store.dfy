/**
 * The application's `QSettings`: a store from keys to strings, read with a
 * default for absent keys and written one key at a time.
 */
module SettingsStore {
  /** `settings.value(key, default)` on the store's contents. */
  function Lookup(values: map<string, string>, key: string, default: string): (r: string)
    ensures key in values ==> r == values[key]
    ensures key !in values ==> r == default
  {
    if key in values then values[key] else default
  }

  class Store {
    var values: map<string, string>

    constructor (initial: map<string, string>)
      ensures values == initial
    {
      values := initial;
    }

    /** `settings.setValue(key, value)`. */
    method SetValue(key: string, value: string)
      modifies this
      ensures values == old(values)[key := value]
    {
      values := values[key := value];
    }
  }
}
