/** The browser's `localStorage` as far as the client uses it: a string-to-string table holding the two tokens. */
module TokenStore {
  import opened Common

  const TOKEN: string := "token"
  const REFRESH_TOKEN: string := "refreshToken"

  /** JavaScript truthiness of a `getItem` result: `null` and the empty string are falsy. */
  predicate Present(v: Option<string>)
  {
    v.Some? && v.value != ""
  }

  /** The stored entries; `setItem` and `removeItem` reassign the table. */
  class Storage {
    var items: map<string, string>

    constructor ()
      ensures items == map[]
    {
      items := map[];
    }

    /** `getItem`: the stored string, or `null`. */
    function GetItem(key: string): (v: Option<string>)
      reads this
      ensures v.Some? <==> key in items
      ensures v.Some? ==> v.value == items[key]
    {
      if key in items then Some(items[key]) else None
    }

    /** `setItem`. */
    method SetItem(key: string, value: string)
      modifies this
      ensures items == old(items)[key := value]
    {
      items := items[key := value];
    }

    /** `removeItem`. */
    method RemoveItem(key: string)
      modifies this
      ensures items == old(items) - {key}
    {
      items := items - {key};
    }

    /** Removes both tokens, as every "clear the session" path of the client does. */
    method ClearTokens()
      modifies this
      ensures items == Cleared(old(items))
      ensures GetItem(TOKEN).None? && GetItem(REFRESH_TOKEN).None?
    {
      RemoveItem(TOKEN);
      RemoveItem(REFRESH_TOKEN);
    }
  }

  /** The table `ClearTokens` leaves behind. */
  function Cleared(items: map<string, string>): (r: map<string, string>)
    ensures TOKEN !in r && REFRESH_TOKEN !in r
    ensures forall k :: k != TOKEN && k != REFRESH_TOKEN ==> (k in r <==> k in items) && (k in r ==> r[k] == items[k])
  {
    items - {TOKEN, REFRESH_TOKEN}
  }

  /** Clearing the tokens twice is the same as clearing them once. */
  lemma ClearedIdempotent(items: map<string, string>)
    ensures Cleared(Cleared(items)) == Cleared(items)
  {
  }
}
