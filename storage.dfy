/**
 * The browser's `localStorage`, as the authentication code uses it: a string
 * map whose accesses may throw (storage disabled, quota exceeded). Which
 * access throws is an input.
 */
module BrowserStorage {
  import opened Wrappers

  /** The keys the application stores its session under. */
  const TokenKey := "pinterest_token"
  const EmailKey := "pinterest_user_email"

  /** Which storage access of an operation throws: `At(n)` is the n-th, counting from 1. */
  datatype Fault = Never | At(access: nat) {
    /** Whether the n-th access throws. */
    predicate Throws(n: nat) {
      At? && access == n
    }
    /** Whether the first n accesses all complete. */
    predicate Completes(n: nat) {
      !(At? && 1 <= access <= n)
    }
  }

  class LocalStorage {
    var items: map<string, string>

    constructor (initial: map<string, string>)
      ensures items == initial
    {
      items := initial;
    }

    /** `getItem(key)`: the stored value, or null. */
    function GetItem(key: string): (r: Option<string>)
      reads this
      ensures r.Some? <==> key in items
      ensures r.Some? ==> r.value == items[key]
    {
      if key in items then Some(items[key]) else None
    }

    /** `setItem(key, value)` */
    method SetItem(key: string, value: string)
      modifies this
      ensures items == old(items)[key := value]
    {
      items := items[key := value];
    }

    /** `removeItem(key)` */
    method RemoveItem(key: string)
      modifies this
      ensures items == old(items) - {key}
    {
      items := items - {key};
    }
  }
}
