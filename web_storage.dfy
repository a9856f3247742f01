/** The browser's session storage: string keys mapped to string values. */
module WebStorage {
  import opened Wrappers

  class SessionStorage {
    var items: map<string, string>

    constructor ()
      ensures items == map[]
    {
      items := map[];
    }

    /** `sessionStorage.getItem(key)`: `None` plays the part of `null`. */
    function GetItem(key: string): (r: Option<string>)
      reads this
      ensures r.Some? <==> key in items
      ensures r.Some? ==> r.value == items[key]
    {
      if key in items then Some(items[key]) else None
    }

    /** `sessionStorage.setItem(key, value)`: overwrites one slot and nothing else. */
    method SetItem(key: string, value: string)
      modifies this
      ensures items == old(items)[key := value]
    {
      items := items[key := value];
    }
  }

  /** The truthiness of a stored value as JavaScript sees it: not `null` and not "". */
  predicate Present(v: Option<string>) {
    v.Some? && v.value != ""
  }
}
