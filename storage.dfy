/**
 * The browser's local key/value storage. Values stand for what the
 * application writes: plain text, or the JSON of one of its records
 * (serialisation itself is not modelled).
 */
module Storage {
  import opened Wrappers
  import opened Types

  datatype Value =
    | Text(s: string)
    | UserList(users: seq<User>)
    | Session(user: SafeUser)
    | Transcript(messages: seq<ChatMessage>)

  class LocalStorage {
    var items: map<string, Value>

    constructor ()
      ensures items == map[]
    {
      items := map[];
    }

    /** `getItem`: the stored value, or nothing. */
    function GetItem(key: string): (r: Option<Value>)
      reads this
      ensures r.Some? <==> key in items
      ensures r.Some? ==> r.value == items[key]
    {
      if key in items then Some(items[key]) else None
    }

    method SetItem(key: string, v: Value)
      modifies this
      ensures items == old(items)[key := v]
    {
      items := items[key := v];
    }

    method RemoveItem(key: string)
      modifies this
      ensures items == old(items) - {key}
    {
      items := items - {key};
    }
  }
}
