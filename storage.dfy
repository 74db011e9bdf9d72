/** The browser's sessionStorage: one string-to-string map shared by every
    component of the page. */
module Storage {
  import opened Base

  /** `getItem`: the stored string, or absent. */
  function Lookup(items: map<string, string>, key: string): Option<string>
  {
    if key in items then Some(items[key]) else None
  }

  class SessionStorage {
    var items: map<string, string>

    constructor (items: map<string, string>)
      ensures this.items == items
    {
      this.items := items;
    }

    method GetItem(key: string) returns (v: Option<string>)
      ensures v.Some? <==> key in items
      ensures v.Some? ==> v.value == items[key]
    {
      v := Lookup(items, key);
    }

    method SetItem(key: string, value: string)
      modifies this
      ensures items == old(items)[key := value]
    {
      items := items[key := value];
    }

    method RemoveItem(key: string)
      modifies this
      ensures items == old(items) - {key}
    {
      items := items - {key};
    }
  }
}
