/** `java.util.Properties` as the core uses it: string keys mapped to string values,
    read with getProperty and updated in place with setProperty. Default tables are
    not used anywhere in the core and are not modelled. */
module Props {
  import opened Wrappers

  class Properties {
    var entries: map<string, string>

    constructor ()
      ensures entries == map[]
    {
      entries := map[];
    }

    /** getProperty: the value, or None where Java returns null. */
    function GetProperty(key: string): Option<string>
      reads this
    {
      if key in entries then Some(entries[key]) else None
    }

    /** setProperty: adds the key or overwrites its value; nothing else changes. */
    method SetProperty(key: string, value: string)
      modifies this
      ensures entries == old(entries)[key := value]
    {
      entries := entries[key := value];
    }
  }
}
