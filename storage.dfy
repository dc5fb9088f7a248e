/**
 * The browser's local storage as the pages use it: a map from string keys to
 * string values, in which a key that is not present reads back as `null`.
 * Only the three session keys below are ever touched by the application.
 */
module Storage {
  import opened Wrappers

  const IsAuthenticatedKey := "isAuthenticated"
  const UserEmailKey := "userEmail"
  const UserTypeKey := "userType"

  /** The three keys that make up a session. */
  const SessionKeys: set<string> := {IsAuthenticatedKey, UserEmailKey, UserTypeKey}

  /** `getItem` as a value: `None` stands for `null`. */
  function Lookup(items: map<string, string>, key: string): (v: Option<string>)
    ensures v.Some? <==> key in items
    ensures v.Some? ==> v.value == items[key]
  {
    if key in items then Some(items[key]) else None
  }

  /** The persistent store; `items` is everything it currently holds. */
  class Store {
    var items: map<string, string>

    constructor (initial: map<string, string>)
      ensures items == initial
    {
      items := initial;
    }

    /** `localStorage.getItem(key)`: the stored value, or `null` when absent. */
    method GetItem(key: string) returns (v: Option<string>)
      ensures v.Some? <==> key in items
      ensures v.Some? ==> v.value == items[key]
    {
      if key in items {
        v := Some(items[key]);
      } else {
        v := None;
      }
    }

    /** `localStorage.setItem(key, value)`: overwrites or adds one key. */
    method SetItem(key: string, value: string)
      modifies this
      ensures items == old(items)[key := value]
    {
      items := items[key := value];
    }

    /** `localStorage.removeItem(key)`: a no-op when the key is absent. */
    method RemoveItem(key: string)
      modifies this
      ensures items == old(items) - {key}
    {
      items := items - {key};
    }
  }
}
