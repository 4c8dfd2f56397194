/**
 * The browser's `localStorage`, shared by every page of one browser: a
 * key-value store in which the logged-in user is kept under the key "user".
 * The value is the user record itself rather than its JSON text.
 */
module Session {
  import opened Options
  import opened Api

  const UserKey := "user"

  class Storage {
    var entries: map<string, User>

    constructor()
      ensures entries == map[]
    {
      entries := map[];
    }

    /** `getItem`: the stored value, or none when the key is absent. */
    function GetItem(key: string): (value: Option<User>)
      reads this
      ensures value.Some? <==> key in entries
      ensures value.Some? ==> value.value == entries[key]
    {
      if key in entries then Some(entries[key]) else None
    }

    /** `setItem`. */
    method SetItem(key: string, value: User)
      modifies this
      ensures entries == old(entries)[key := value]
    {
      entries := entries[key := value];
    }

    /** `removeItem`. */
    method RemoveItem(key: string)
      modifies this
      ensures entries == old(entries) - {key}
    {
      entries := entries - {key};
    }
  }
}
