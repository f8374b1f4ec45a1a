/** The browser's key/value session store, reduced to the two kinds of value
    the core writes into it: a signed-in user's record and a plain text token. */
module Storage {

  /** A user as the application sees it: the table entry without its password. */
  datatype Account = Account(id: int, email: string, name: string, role: string, avatar: string)

  datatype StoredValue = UserRecord(account: Account) | Text(text: string)

  /** The store is one shared mutable map; every write replaces or removes one key. */
  class Store {
    var entries: map<string, StoredValue>

    /** An empty store. */
    constructor ()
      ensures entries == map[]
    {
      entries := map[];
    }

    /** `setItem`: the key now holds the value and every other key is untouched. */
    method SetItem(key: string, value: StoredValue)
      modifies this
      ensures entries == old(entries)[key := value]
    {
      entries := entries[key := value];
    }

    /** `removeItem`: the key is gone (whether or not it was there) and every other key is untouched. */
    method RemoveItem(key: string)
      modifies this
      ensures entries == old(entries) - {key}
    {
      entries := entries - {key};
    }
  }
}
