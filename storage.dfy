/**
 * The prefixed key-value cache over the browser's local storage, with a time-to-live
 * variant whose entries expire lazily on read.
 *
 * Local storage is a map from physical key to stored text. Stored text is abstracted
 * to the JSON document it parses to (`Json`), text that does not parse (`Unparseable`)
 * or the empty string (`EmptyText`, falsy). The clock is a parameter `now`
 * (milliseconds), and whether the browser accepted a write is a parameter `accepted`.
 */
module Storage {
  import opened Wrappers
  import opened Models
  import Text

  const Prefix := "npls_"

  /**
   * A JSON document as the stores write it. `Envelope` is the `{value, expiry}` wrapper
   * written by `setWithExpiry`; an expiry of 0 stands for a zero or missing expiry,
   * both falsy. `Other` is any other document.
   */
  datatype Doc =
    | Null
    | BallList(balls: seq<Ball>)
    | CoreList(cores: seq<Core>)
    | Reference(data: ReferenceData)
    | Envelope(value: Doc, expiry: int)
    | Other

  datatype Item = Json(doc: Doc) | Unparseable | EmptyText

  type Store = map<string, Item>

  /** The physical key under which a logical key is stored. */
  function PhysicalKey(key: string): (k: string)
    ensures Text.StartsWith(k, Prefix) && k[|Prefix|..] == key
  {
    Prefix + key
  }

  /** `get(key)`: the parsed document, or none when absent, empty, unparseable or `null`. */
  function Read(store: Store, key: string): Option<Doc> {
    var k := PhysicalKey(key);
    if k in store && store[k].Json? && store[k].doc != Null then Some(store[k].doc) else None
  }

  /** `set(key, doc)`: the store after the write, which a refused write leaves as it was. */
  function Written(store: Store, key: string, doc: Doc, accepted: bool): Store {
    if accepted then store[PhysicalKey(key) := Json(doc)] else store
  }

  /** `remove(key)`. */
  function Removed(store: Store, key: string): Store {
    store - {PhysicalKey(key)}
  }

  /** `exists(key)`. */
  predicate Present(store: Store, key: string) {
    PhysicalKey(key) in store
  }

  /** `clear()`: every key carrying the prefix is dropped, every other key kept. */
  function Cleared(store: Store): Store {
    map k | k in store && !Text.StartsWith(k, Prefix) :: store[k]
  }

  predicate Expired(expiry: int, now: int) {
    expiry != 0 && now > expiry
  }

  /** What `getWithExpiry` returns, and the store it leaves behind. */
  datatype ExpiryRead = ExpiryRead(value: Option<Doc>, store: Store)

  /**
   * `getWithExpiry(key)` at time `now`. An expired envelope is removed and reads as none.
   * A document that is not an envelope destructures to an undefined value (none), `null`
   * throws inside the guarded block (none), and so does unparseable text.
   */
  function ReadWithExpiry(store: Store, key: string, now: int): ExpiryRead {
    var k := PhysicalKey(key);
    if k !in store || !store[k].Json? then ExpiryRead(None, store)
    else match store[k].doc
      case Envelope(v, e) =>
        if Expired(e, now) then ExpiryRead(None, Removed(store, key))
        else ExpiryRead(if v == Null then None else Some(v), store)
      case _ => ExpiryRead(None, store)
  }

  /** `setWithExpiry(key, doc, ttl)` at time `now`. */
  function WrittenWithExpiry(store: Store, key: string, doc: Doc, ttl: int, now: int, accepted: bool): Store {
    Written(store, key, Envelope(doc, now + ttl), accepted)
  }

  /** Every physical key the service reads or writes carries the prefix. */
  lemma ForeignKeysUntouched(store: Store, key: string, doc: Doc, ttl: int, now: int, accepted: bool, f: string)
    requires !Text.StartsWith(f, Prefix)
    ensures f != PhysicalKey(key)
    ensures var w := Written(store, key, doc, accepted);
            (f in w <==> f in store) && (f in store ==> w[f] == store[f])
    ensures var w := WrittenWithExpiry(store, key, doc, ttl, now, accepted);
            (f in w <==> f in store) && (f in store ==> w[f] == store[f])
    ensures var r := Removed(store, key);
            (f in r <==> f in store) && (f in store ==> r[f] == store[f])
    ensures var e := ReadWithExpiry(store, key, now).store;
            (f in e <==> f in store) && (f in store ==> e[f] == store[f])
  {
  }

  /** A value written is read back; a refused write changes nothing. */
  lemma SetThenGet(store: Store, key: string, doc: Doc)
    requires doc != Null
    ensures Read(Written(store, key, doc, true), key) == Some(doc)
    ensures Written(store, key, doc, false) == store
  {
  }

  /** A missing key, empty text and text that fails to parse all read as none. */
  lemma GetMisses(store: Store, key: string)
    requires !Present(store, key) || store[PhysicalKey(key)] in {Unparseable, EmptyText, Json(Null)}
    ensures Read(store, key) == None
  {
  }

  /** After `remove(k)`, `exists(k)` is false and every other key is as it was. */
  lemma RemoveThenExists(store: Store, key: string)
    ensures !Present(Removed(store, key), key)
    ensures forall k :: k != PhysicalKey(key) ==> (k in Removed(store, key) <==> k in store)
    ensures forall k :: k != PhysicalKey(key) && k in store ==> Removed(store, key)[k] == store[k]
  {
  }

  /** `clear()` removes exactly the prefixed keys. */
  lemma ClearExact(store: Store)
    ensures forall k :: k in Cleared(store) <==> k in store && !Text.StartsWith(k, Prefix)
    ensures forall k :: k in Cleared(store) ==> Cleared(store)[k] == store[k]
    ensures forall key :: !Present(Cleared(store), key)
  {
    forall key ensures !Present(Cleared(store), key) {
      assert Text.StartsWith(PhysicalKey(key), Prefix);
    }
  }

  /** A value written with a time-to-live reads back unchanged until its expiry. */
  lemma ExpiryRoundTrip(store: Store, key: string, doc: Doc, ttl: int, t: int, now: int)
    requires doc != Null && now <= t + ttl
    ensures var s := WrittenWithExpiry(store, key, doc, ttl, t, true);
            ReadWithExpiry(s, key, now) == ExpiryRead(Some(doc), s)
  {
  }

  /** Past a non-zero expiry the read yields none and removes the entry. */
  lemma ExpiredEntryRemoved(store: Store, key: string, v: Doc, e: int, now: int)
    requires Present(store, key) && store[PhysicalKey(key)] == Json(Envelope(v, e))
    requires e != 0 && now > e
    ensures ReadWithExpiry(store, key, now).value == None
    ensures !Present(ReadWithExpiry(store, key, now).store, key)
    ensures ReadWithExpiry(store, key, now).store == Removed(store, key)
  {
  }

  /** A zero (or missing) expiry never expires. */
  lemma ZeroExpiryNeverExpires(store: Store, key: string, v: Doc, now: int)
    requires Present(store, key) && store[PhysicalKey(key)] == Json(Envelope(v, 0)) && v != Null
    ensures ReadWithExpiry(store, key, now) == ExpiryRead(Some(v), store)
  {
  }

  /** The storage service; `store` is the whole of local storage, foreign keys included. */
  class StorageService {
    var store: Store

    constructor (initial: Store)
      ensures store == initial
    {
      store := initial;
    }

    method Get(key: string) returns (r: Option<Doc>)
      ensures r == Read(store, key)
      ensures r.Some? ==> Present(store, key) && store[PhysicalKey(key)] == Json(r.value)
    {
      var k := Prefix + key;
      if k in store && store[k].Json? && store[k].doc != Null {
        r := Some(store[k].doc);
      } else {
        r := None;
      }
    }

    method Set(key: string, doc: Doc, accepted: bool)
      modifies this
      ensures store == Written(old(store), key, doc, accepted)
    {
      if accepted {
        store := store[Prefix + key := Json(doc)];
      }
    }

    method Remove(key: string)
      modifies this
      ensures store == Removed(old(store), key)
    {
      store := store - {Prefix + key};
    }

    method Exists(key: string) returns (b: bool)
      ensures b <==> Present(store, key)
    {
      b := Prefix + key in store;
    }

    /** Collects the prefixed keys, then removes them one by one. */
    method Clear()
      modifies this
      ensures store == Cleared(old(store))
    {
      var keys := set k | k in store && Text.StartsWith(k, Prefix);
      while keys != {}
        invariant keys <= old(store).Keys
        invariant forall k :: k in store <==> k in old(store) && (!Text.StartsWith(k, Prefix) || k in keys)
        invariant forall k :: k in store ==> store[k] == old(store)[k]
        invariant forall k :: k in keys ==> Text.StartsWith(k, Prefix)
        decreases keys
      {
        var k :| k in keys;
        store := store - {k};
        keys := keys - {k};
      }
    }

    method GetWithExpiry(key: string, now: int) returns (r: Option<Doc>)
      modifies this
      ensures r == ReadWithExpiry(old(store), key, now).value
      ensures store == ReadWithExpiry(old(store), key, now).store
    {
      var k := Prefix + key;
      if k !in store || !store[k].Json? {
        return None;
      }
      match store[k].doc {
        case Envelope(v, e) =>
          if e != 0 && now > e {
            Remove(key);
            r := None;
          } else {
            r := if v == Null then None else Some(v);
          }
        case _ =>
          r := None;
      }
    }

    method SetWithExpiry(key: string, doc: Doc, ttl: int, now: int, accepted: bool)
      modifies this
      ensures store == WrittenWithExpiry(old(store), key, doc, ttl, now, accepted)
    {
      Set(key, Envelope(doc, now + ttl), accepted);
    }
  }
}
