/**
  The browser's string-valued key-value store, as the front end uses it.
  A stored string is either the JSON text of a list of quiz results, kept
  here as the list itself (JSON.stringify followed by JSON.parse gives the
  list back), or any other text.
*/
module LocalStorage {
  import opened Types

  /**
    One stored string. `Text` never holds the JSON text of a result list:
    such a string is always `Serialized`, so no string is described by both
    constructors, and `Text` stands only for strings that do not parse as a
    result list.
  */
  datatype StoredValue =
    | Serialized(results: seq<QuizResult>)  // JSON.stringify of a result list
    | Text(text: string)                    // any string that is not such a list

  class Storage {
    var items: map<string, StoredValue>

    constructor (initial: map<string, StoredValue>)
      ensures items == initial
    {
      items := initial;
    }

    /** getItem: the stored value, or None (JavaScript null) when the key is absent. */
    method GetItem(key: string) returns (v: Option<StoredValue>)
      ensures key in items <==> v.Some?
      ensures v.Some? ==> items[key] == v.value
    {
      v := if key in items then Some(items[key]) else None;
    }

    method SetItem(key: string, v: StoredValue)
      modifies this
      ensures items == old(items)[key := v]
    {
      items := items[key := v];
    }

    method RemoveItem(key: string)
      modifies this
      ensures items == old(items) - {key}
      ensures key !in items
    {
      items := items - {key};
    }
  }
}
