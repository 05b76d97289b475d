/** The browser's `localStorage`, which every screen reads for the session
    identity ("authToken", "userRole", "userId") and the booking flow uses to
    hand the new booking id ("bookingId") from the catalog to the payment page. */
module Session {
  import opened Optional

  const UserIdKey := "userId"
  const BookingIdKey := "bookingId"
  const AuthTokenKey := "authToken"
  const UserRoleKey := "userRole"

  /** `localStorage.getItem(key)`: the stored string, or `null`. */
  function Get(items: map<string, string>, key: string): (r: Option<string>)
    ensures r.Some? <==> key in items
    ensures r.Some? ==> r.value == items[key]
  {
    if key in items then Some(items[key]) else None
  }

  /** The `if (!userId)` guard: a user is logged in when a non-empty "userId" is stored. */
  predicate LoggedIn(items: map<string, string>): (r: bool)
    ensures r <==> UserIdKey in items && items[UserIdKey] != ""
  {
    Truthy(Get(items, UserIdKey))
  }

  class SessionStore {
    var items: map<string, string>

    constructor (initial: map<string, string>)
      ensures items == initial
    {
      items := initial;
    }

    method GetItem(key: string) returns (v: Option<string>)
      ensures v == Get(items, key)
    {
      v := if key in items then Some(items[key]) else None;
    }

    method SetItem(key: string, value: string)
      modifies this
      ensures items == old(items)[key := value]
    {
      items := items[key := value];
    }

    method RemoveItem(key: string)
      modifies this
      ensures items == old(items) - {key}
    {
      items := items - {key};
    }
  }
}
