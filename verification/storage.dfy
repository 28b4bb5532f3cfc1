/**
 * The browser's durable key/value storage (`localStorage`), as an object whose one
 * field is the map of stored strings. The stores share one instance.
 */
module Storage {
  import opened Wrappers

  /** The one key the session is kept under. */
  const AuthTokenKey := "authToken"

  class LocalStorage {
    var items: map<string, string>

    constructor (items: map<string, string>)
      ensures this.items == items
    {
      this.items := items;
    }

    /** `localStorage.getItem(key)`: the stored string, or `null` when the key is absent. */
    function GetItem(key: string): (v: Option<string>)
      reads this
      ensures v.Some? <==> key in items
      ensures v.Some? ==> v.value == items[key]
    {
      if key in items then Some(items[key]) else None
    }

    method SetItem(key: string, value: string)
      modifies this
      ensures items == old(items)[key := value]
    {
      items := items[key := value];
    }

    method RemoveItem(key: string)
      modifies this
      ensures items == old(items) - {key}
    {
      items := items - {key};
    }
  }

  /**
   * `localStorage.getItem('authToken') || null`, the initial token of the auth and location
   * stores: the stored string when it is present and non-empty, otherwise `null`.
   */
  function StoredToken(items: map<string, string>): (token: Option<string>)
    ensures token.Some? <==> AuthTokenKey in items && items[AuthTokenKey] != ""
    ensures token.Some? ==> token.value == items[AuthTokenKey]
  {
    if AuthTokenKey in items && items[AuthTokenKey] != "" then Some(items[AuthTokenKey]) else None
  }
}
