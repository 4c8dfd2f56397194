/**
 * The top bar (`src/components/glab/Header/Header.tsx`): it shows the user
 * kept in the session store, re-reading it whenever the path changes and
 * whenever another tab changes the "user" entry, and offers logging out.
 */
module Header {
  import opened Options
  import opened Api
  import opened Session

  /** The links and controls on the right of the bar. */
  datatype MenuEntry = DiscoverLink | CreateLink | UserName(name: string) | LogoutButton | LoginLink

  /** The right side of the bar for `user`. */
  function MenuFor(user: Option<User>): (m: seq<MenuEntry>)
    ensures |m| >= 2 && m[0] == DiscoverLink
    ensures CreateLink in m <==> user.Some?
    ensures LogoutButton in m <==> user.Some?
    ensures LoginLink in m <==> user.None?
    ensures forall n :: UserName(n) in m <==> user.Some? && n == user.value.name
  {
    match user
    case Some(u) => [DiscoverLink, CreateLink, UserName(u.name), LogoutButton]
    case None => [DiscoverLink, LoginLink]
  }

  class TopBar {
    const store: Storage
    var pathname: string
    var user: Option<User>

    /** The bar as mounted at `pathname`: the path effect has read the user. */
    constructor(store: Storage, pathname: string)
      ensures this.store == store && this.pathname == pathname
      ensures user == store.GetItem(UserKey)
    {
      this.store := store;
      this.pathname := pathname;
      user := store.GetItem(UserKey);
    }

    /** `readUser`: the stored user, or none when "user" is absent. */
    method ReadUser()
      modifies this`user
      ensures user == store.GetItem(UserKey)
      ensures UserKey !in store.entries ==> user.None?
      ensures UserKey in store.entries ==> user == Some(store.entries[UserKey])
    {
      user := store.GetItem(UserKey);
    }

    /** The location changes to `path`: the path effect re-reads the user when the path differs. */
    method Navigate(path: string)
      modifies this`pathname, this`user
      ensures pathname == path
      ensures path != old(pathname) ==> user == store.GetItem(UserKey)
      ensures path == old(pathname) ==> user == old(user)
    {
      if path != pathname {
        pathname := path;
        ReadUser();
      }
    }

    /** A `storage` event from another tab, for `key` (none when the whole store was cleared). */
    method OnStorage(key: Option<string>)
      modifies this`user
      ensures key == Some(UserKey) ==> user == store.GetItem(UserKey)
      ensures key != Some(UserKey) ==> user == old(user)
    {
      if key == Some(UserKey) {
        ReadUser();
      }
    }

    /** `handleLogout`: forget the stored user, show no user, and go to the login page. */
    method HandleLogout() returns (nav: Nav)
      modifies store, this`user
      ensures store.entries == old(store.entries) - {UserKey}
      ensures user.None? && MenuFor(user) == [DiscoverLink, LoginLink]
      ensures nav == GoTo("/login")
    {
      store.RemoveItem(UserKey);
      ReadUser();
      nav := GoTo("/login");
    }
  }
}
