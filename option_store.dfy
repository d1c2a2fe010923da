/** The host application's option store, reduced to what the registry uses:
    a map from option name to the record stored under it. The record a plugin
    registry stores is its map of setting values; the serialised text form is
    not modelled, so serialising and unserialising are the identity. */
module Options {
  import opened Wrappers
  import opened PhpValues

  /** The record stored for one plugin: setting values by storage key. */
  type Blob = map<string, Value>

  class OptionStore {
    var options: map<string, Blob>

    constructor ()
      ensures options == map[]
    {
      options := map[];
    }

    method Get(name: string) returns (r: Option<Blob>)
      ensures r.Some? <==> name in options
      ensures r.Some? ==> r.value == options[name]
    {
      r := if name in options then Some(options[name]) else None;
    }

    method Set(name: string, value: Blob)
      modifies this
      ensures options == old(options)[name := value]
    {
      options := options[name := value];
    }

    method Delete(name: string)
      modifies this
      ensures options == old(options) - {name}
    {
      options := options - {name};
    }
  }
}
