/** The profile page: it loads the logged-in user's record and offers logout,
    which tears the session down. */
module UserProfile {
  import opened Optional
  import opened Http
  import opened Session
  import opened Entities

  /** The keys logout removes, in the order it removes them. */
  const LogoutKeys := [AuthTokenKey, UserRoleKey, UserIdKey]

  /** The session after logout: those three keys gone, every other entry kept. */
  function AfterLogout(items: map<string, string>): (r: map<string, string>)
    ensures forall k :: k in LogoutKeys ==> k !in r
    ensures forall k :: k !in LogoutKeys ==> Get(r, k) == Get(items, k)
  {
    items - {AuthTokenKey, UserRoleKey, UserIdKey}
  }

  /** Logging out forgets the user, so every page's login guard rejects afterwards. */
  lemma LogoutLogsOut(items: map<string, string>)
    ensures !LoggedIn(AfterLogout(items))
  {
    assert UserIdKey in LogoutKeys;
  }

  /** A pending booking id written by the catalog survives logout. */
  lemma LogoutKeepsBookingId(items: map<string, string>)
    ensures Get(AfterLogout(items), BookingIdKey) == Get(items, BookingIdKey)
  {
    assert BookingIdKey !in LogoutKeys;
  }

  class UserProfileView {
    const store: SessionStore
    var user: Option<User>
    /** The last `navigate` target, if any. */
    var route: Option<string>

    constructor (store: SessionStore)
      ensures this.store == store && user == None && route == None
    {
      this.store := store;
      user := None;
      route := None;
    }

    /** The mount effect: without a session user no request is made; a failed
        request leaves the page empty. */
    method Load(response: Outcome<User>) returns (requested: bool)
      modifies this
      ensures requested == LoggedIn(store.items)
      ensures user == if requested && response.Ok? then Some(response.data) else old(user)
      ensures route == old(route)
    {
      var userId := store.GetItem(UserIdKey);
      if !Truthy(userId) {
        return false;
      }
      requested := true;
      if response.Ok? {
        user := Some(response.data);
      }
    }

    /** `handleLogout`: the three identity keys are removed one at a time, then
        the user is cleared and the page goes home. */
    method HandleLogout()
      modifies this, store
      ensures store.items == AfterLogout(old(store.items))
      ensures user == None && route == Some("/")
    {
      store.RemoveItem(AuthTokenKey);
      store.RemoveItem(UserRoleKey);
      store.RemoveItem(UserIdKey);
      user := None;
      route := Some("/");
    }
  }
}
