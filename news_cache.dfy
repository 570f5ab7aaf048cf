/**
 * utils/newsCache.ts: a best-effort key-value cache over the device's
 * persistent storage. `setCache` stores `{ data, timeStamp }`, keeping at
 * most the first 25 elements of an array; `getCache` returns the data while
 * it is at most 6 hours old and deletes it lazily when it is read later.
 *
 * The storage (AsyncStorage) is the `store` field, one slot per key; the
 * clock (`Date.now()`) is the `now` parameter; a storage call that throws is
 * a `false` among the `...Ok` parameters; text that does not parse as JSON
 * is the `Corrupt` slot.
 */
module NewsCache {
  import opened Wrappers

  const HOME_NEWS_CACHE_KEY: string := "homeNewsCache"
  const CACHE_EXPIRATION_HOURS: int := 6
  const MAX_CACHE_ITEMS: nat := 25
  /** The expiry threshold in milliseconds (21,600,000). */
  const EXPIRATION_MS: int := CACHE_EXPIRATION_HOURS * 60 * 60 * 1000

  /** The cached `data`: an array, or any other value (stored as it is). */
  datatype Payload<T> = Items(items: seq<T>) | Value(value: T)

  /** What the storage holds under a key: a parsed `{ data, timeStamp }` item, or text that does not parse. */
  datatype Slot<T> = Entry(data: Payload<T>, timeStamp: int) | Corrupt

  /** `Array.isArray(data) ? data.slice(0, MAX_CACHE_ITEMS) : data`. */
  function Limit<T>(data: Payload<T>): (r: Payload<T>)
    ensures data.Items? ==> r.Items? && |r.items| <= MAX_CACHE_ITEMS
    ensures data.Items? ==> |r.items| == if |data.items| < MAX_CACHE_ITEMS then |data.items| else MAX_CACHE_ITEMS
    ensures data.Items? ==> r.items == data.items[..|r.items|]
    ensures data.Value? ==> r == data
  {
    match data
    case Items(xs) => if |xs| <= MAX_CACHE_ITEMS then Items(xs) else Items(xs[..MAX_CACHE_ITEMS])
    case Value(_) => data
  }

  /** Which storage calls succeed during one operation (a failing call throws inside the source's try block). */
  datatype StorageIO = StorageIO(readOk: bool, writeOk: bool, removeOk: bool)

  /** The expiry test: strictly more than six hours have passed since `timeStamp`. */
  predicate IsExpired(now: int, timeStamp: int) {
    now - timeStamp > EXPIRATION_MS
  }

  /** The storage after a successful `setCache(key, data)` at time `now`. */
  function Stored<T>(store: map<string, Slot<T>>, key: string, data: Payload<T>, now: int): map<string, Slot<T>> {
    store[key := Entry(Limit(data), now)]
  }

  /** What `getCache(key)` returns at time `now` when the storage can be read. */
  function Lookup<T>(store: map<string, Slot<T>>, key: string, now: int): Option<Payload<T>> {
    if key !in store then None
    else match store[key]
      case Corrupt => None
      case Entry(data, timeStamp) => if IsExpired(now, timeStamp) then None else Some(data)
  }

  /** The storage after `getCache(key)` at time `now`: an expired entry is removed, nothing else changes. */
  function AfterLookup<T>(store: map<string, Slot<T>>, key: string, now: int): map<string, Slot<T>> {
    if key in store && store[key].Entry? && IsExpired(now, store[key].timeStamp) then store - {key}
    else store
  }

  class Cache<T> {
    /** The persistent key-value storage, as parsed slots. */
    var store: map<string, Slot<T>>

    constructor ()
      ensures store == map[]
    {
      store := map[];
    }

    /**
     * `setCache(key, data)` at time `now`. A failed write is swallowed: the
     * storage is unchanged and nothing is reported to the caller.
     */
    method SetCache(key: string, data: Payload<T>, now: int, writeOk: bool)
      modifies this
      ensures store == if writeOk then Stored(old(store), key, data, now) else old(store)
    {
      var limitedData := Limit(data);
      if writeOk {
        store := store[key := Entry(limitedData, now)];
      }
    }

    /**
     * `getCache(key)` at time `now`. A failed read, an absent key, a corrupt
     * item and an expired item all give null; an expired item is also removed,
     * unless the removal itself fails.
     */
    method GetCache(key: string, now: int, readOk: bool, removeOk: bool) returns (r: Option<Payload<T>>)
      modifies this
      ensures r == if readOk then Lookup(old(store), key, now) else None
      ensures store == if readOk && removeOk then AfterLookup(old(store), key, now) else old(store)
    {
      if !readOk || key !in store {
        return None;
      }
      match store[key]
      case Corrupt =>
        r := None;
      case Entry(data, timeStamp) =>
        var isExpired := now - timeStamp > CACHE_EXPIRATION_HOURS * 60 * 60 * 1000;
        if isExpired {
          if removeOk {
            store := store - {key};
          }
          r := None;
        } else {
          r := Some(data);
        }
    }
  }

  // ----- properties of the storage functions -----

  /** An entry exactly six hours old is still served; one millisecond more and it has expired. */
  lemma ExpiryIsStrict(timeStamp: int)
    ensures EXPIRATION_MS == 21600000
    ensures !IsExpired(timeStamp + 21600000, timeStamp)
    ensures IsExpired(timeStamp + 21600001, timeStamp)
  {
  }

  /** An array of at most 25 elements is stored as it is; a longer one keeps its first 25, in order. */
  lemma LimitKeepsShortArrays<T>(xs: seq<T>)
    ensures |xs| <= MAX_CACHE_ITEMS ==> Limit(Items(xs)) == Items(xs)
    ensures |xs| > MAX_CACHE_ITEMS ==> Limit(Items(xs)) == Items(xs[..MAX_CACHE_ITEMS])
  {
  }

  /**
   * Round trip: after `setCache(key, data)` at time `t`, `getCache(key)` at
   * `t'` returns the stored (truncated) data when `t' - t` is at most six
   * hours and leaves the storage as it is; later it returns null and the
   * entry is gone.
   */
  lemma SetThenGet<T>(store: map<string, Slot<T>>, key: string, data: Payload<T>, t: int, t': int)
    ensures t' - t <= EXPIRATION_MS ==> Lookup(Stored(store, key, data, t), key, t') == Some(Limit(data))
    ensures t' - t <= EXPIRATION_MS ==> AfterLookup(Stored(store, key, data, t), key, t') == Stored(store, key, data, t)
    ensures t' - t > EXPIRATION_MS ==> Lookup(Stored(store, key, data, t), key, t') == None
    ensures t' - t > EXPIRATION_MS ==> AfterLookup(Stored(store, key, data, t), key, t') == store - {key}
  {
  }

  /** Reading an absent or corrupt key gives null and removes nothing. */
  lemma MissLeavesStore<T>(store: map<string, Slot<T>>, key: string, now: int)
    requires key !in store || store[key].Corrupt?
    ensures Lookup(store, key, now) == None
    ensures AfterLookup(store, key, now) == store
  {
  }

  /** A live entry is returned as stored and the storage is left unchanged; an expired one is removed. */
  lemma LookupOfEntry<T>(store: map<string, Slot<T>>, key: string, now: int)
    requires key in store && store[key].Entry?
    ensures !IsExpired(now, store[key].timeStamp) ==>
      Lookup(store, key, now) == Some(store[key].data) && AfterLookup(store, key, now) == store
    ensures IsExpired(now, store[key].timeStamp) ==>
      Lookup(store, key, now) == None && AfterLookup(store, key, now).Keys == store.Keys - {key}
  {
  }

  /** Writing or expiring one key never changes what another key holds. */
  lemma OtherKeysUntouched<T>(store: map<string, Slot<T>>, key: string, other: string, data: Payload<T>, now: int)
    requires other != key
    ensures other in Stored(store, key, data, now) <==> other in store
    ensures other in store ==> Stored(store, key, data, now)[other] == store[other]
    ensures other in AfterLookup(store, key, now) <==> other in store
    ensures other in store ==> AfterLookup(store, key, now)[other] == store[other]
  {
  }
}
