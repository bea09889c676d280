/** Values and objects shared by every part of the model: an optional value (a JavaScript
    `null`/`undefined` or a value), the outcome of an awaited call, and the browser's
    `localStorage`, which several components read and write in place. */
module Common {

  datatype Option<+T> = None | Some(value: T)

  /** How an awaited promise settles: it resolves, or it rejects (the caller sees a throw). */
  datatype Outcome = Resolved | Rejected

  /** `localStorage.getItem(key)`: `None` stands for JavaScript's `null`. */
  function Lookup(items: map<string, string>, key: string): (r: Option<string>)
    ensures r.Some? <==> key in items
    ensures r.Some? ==> r.value == items[key]
  {
    if key in items then Some(items[key]) else None
  }

  /** A stored value used as a condition (`if (stored) …`): `null` and `""` are falsy. */
  predicate Truthy(v: Option<string>) {
    v.Some? && v.value != ""
  }

  /** The browser's `localStorage`: one string-to-string map shared by every component. */
  class LocalStorage {
    var items: map<string, string>

    constructor (initial: map<string, string>)
      ensures items == initial
    {
      items := initial;
    }

    method GetItem(key: string) returns (r: Option<string>)
      ensures r == Lookup(items, key)
    {
      r := Lookup(items, key);
    }

    method SetItem(key: string, value: string)
      modifies this
      ensures items == old(items)[key := value]
    {
      items := items[key := value];
    }

    method RemoveItem(key: string)
      modifies this
      ensures items == old(items) - {key}
    {
      items := items - {key};
    }
  }
}
