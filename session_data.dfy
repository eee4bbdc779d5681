/**
  `SessionData`: a typed view over a session's data dict.  The view does not
  copy the dict it is given, so writes through the view are visible to every
  holder of the dict, including through `raw()`.
 */
module SessionDataView {
  import opened Values
  import opened Session

  /** A mutable Python dict of session data. */
  class DataDict {
    var entries: Data

    constructor(initial: Data)
      ensures entries == initial
    {
      entries := initial;
    }
  }

  class SessionData {
    /** The wrapped dict itself, not a copy. */
    const data: DataDict

    constructor(d: DataDict)
      ensures data == d
    {
      data := d;
    }

    /** `get(key, default)`: the stored value when `key` is present, otherwise `default`. */
    function Get(key: string, default: Json): (v: Json)
      reads data
      ensures key in data.entries ==> v == data.entries[key]
      ensures key !in data.entries ==> v == default
    {
      if key in data.entries then data.entries[key] else default
    }

    /** `set(key, value)`: writes into the wrapped dict in place. */
    method Set(key: string, value: Json)
      modifies data
      ensures data.entries == old(data.entries)[key := value]
    {
      data.entries := data.entries[key := value];
    }

    /** `raw()`: the wrapped dict. */
    function Raw(): (d: DataDict)
      ensures d == data
    {
      data
    }
  }

  /** After `set(k, v)`, `get(k)` gives `v`, other keys keep their values, and the write shows through `raw()` and the original dict. */
  method SetThenGet(view: SessionData, key: string, value: Json, other: string, default: Json)
    requires other != key
    modifies view.data
    ensures view.Get(key, default) == value
    ensures view.Get(other, default) == old(view.Get(other, default))
    ensures view.Raw().entries == old(view.data.entries)[key := value]
  {
    view.Set(key, value);
  }

  /** A view built over a dict writes into that same dict. */
  method ViewAliasesDict(initial: Data, key: string, value: Json) returns (d: DataDict, view: SessionData)
    ensures fresh(d) && view.Raw() == d
    ensures d.entries == initial[key := value]
  {
    d := new DataDict(initial);
    view := new SessionData(d);
    view.Set(key, value);
  }
}
