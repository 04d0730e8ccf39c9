/** The browser's per-tab session storage: string values under string keys. */
module SessionStorage {
  import opened Common

  /** `getItem`: the value under `key`, or null when there is none. */
  function Get(items: map<string, string>, key: string): (r: Option<string>)
    ensures r.Some? <==> key in items
    ensures r.Some? ==> r.value == items[key]
  {
    if key in items then Some(items[key]) else None
  }

  class Storage {
    var items: map<string, string>

    constructor()
      ensures items == map[]
    {
      items := map[];
    }

    method GetItem(key: string) returns (r: Option<string>)
      ensures r == Get(items, key)
    {
      r := if key in items then Some(items[key]) else None;
    }

    method SetItem(key: string, value: string)
      modifies this
      ensures items == old(items)[key := value]
    {
      items := items[key := value];
    }

    method RemoveItem(key: string)
      modifies this
      ensures items == old(items) - {key}
    {
      items := items - {key};
    }
  }
}
