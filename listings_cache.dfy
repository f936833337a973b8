/** The listings cache of src/utils/api.ts: a module-level snapshot memoised from browser
    storage on first read, written through by `cacheListings`, and used as the fallback when
    `fetchListings` fails. The listings payload is a JSON value; `null` is `JsNull`. */
module ListingsCache {
  import opened Wrappers
  import opened Text
  import opened JsValues
  import opened Http

  const STORAGE_KEY: string := "housing-listings-data"

  /** `JSON.parse`, giving `None` where it throws, and `JSON.stringify`. */
  type JsonParse = string -> Option<JsValue>
  type JsonStringify = JsValue -> string

  /** The snapshot a first read produces from the stored text: nothing for a missing or empty
      entry (its text is falsy), `null` for text that does not parse, else the parsed value. */
  function SnapshotFromStorage(stored: Option<string>, parse: JsonParse): (v: JsValue)
    ensures stored.None? || stored == Some("") ==> v == JsNull
    ensures stored.Some? && stored.value != "" && parse(stored.value).None? ==> v == JsNull
    ensures v != JsNull ==> stored.Some? && parse(stored.value) == Some(v)
    ensures stored.Some? && stored.value != "" && parse(stored.value).Some? ==> v == parse(stored.value).value
  {
    if stored.Some? && stored.value != "" then parse(stored.value).GetOr(JsNull) else JsNull
  }

  /** What `fetchListings` settles to: the listings, or a rejection with the error's message. */
  datatype FetchOutcome = Resolved(data: JsValue) | Rejected(message: string)

  class Cache {
    /** `typeof window !== "undefined"`. */
    const isBrowser: bool
    var storage: map<string, string>
    var cachedSnapshot: JsValue
    var didInitFromLocalStorage: bool
    /** How many times storage has been read. */
    ghost var storageReads: nat

    /** Storage is read at most once, and before initialisation there is no snapshot. */
    ghost predicate Valid()
      reads this
    {
      && storageReads <= 1
      && (!didInitFromLocalStorage ==> storageReads == 0 && cachedSnapshot == JsNull)
      && (!isBrowser ==> storageReads == 0)
    }

    /** Module load: no snapshot, not initialised. */
    constructor (isBrowser: bool, initialStorage: map<string, string>)
      ensures Valid()
      ensures this.isBrowser == isBrowser && storage == initialStorage
      ensures cachedSnapshot == JsNull && !didInitFromLocalStorage && storageReads == 0
    {
      this.isBrowser := isBrowser;
      storage := initialStorage;
      cachedSnapshot := JsNull;
      didInitFromLocalStorage := false;
      storageReads := 0;
    }

    /** `getCachedListings()`: `null` on the server; the memoised snapshot once initialised;
        otherwise one read of storage, which initialises the cache even when the text does
        not parse. */
    method GetCachedListings(parse: JsonParse) returns (r: JsValue)
      requires Valid()
      modifies this`cachedSnapshot, this`didInitFromLocalStorage, this`storageReads
      ensures Valid()
      ensures !isBrowser ==> r == JsNull && unchanged(this)
      ensures isBrowser && old(didInitFromLocalStorage) ==> r == old(cachedSnapshot) && unchanged(this)
      ensures isBrowser && !old(didInitFromLocalStorage) ==>
                && r == SnapshotFromStorage(if STORAGE_KEY in storage then Some(storage[STORAGE_KEY]) else None, parse)
                && cachedSnapshot == r && didInitFromLocalStorage
                && storageReads == old(storageReads) + 1 == 1
      ensures isBrowser ==> didInitFromLocalStorage && r == cachedSnapshot
    {
      if !isBrowser {
        return JsNull;
      }
      if didInitFromLocalStorage {
        return cachedSnapshot;
      }
      var cachedData: Option<string> := if STORAGE_KEY in storage then Some(storage[STORAGE_KEY]) else None;
      storageReads := storageReads + 1;
      if cachedData.Some? && cachedData.value != "" {
        var parsed := parse(cachedData.value);
        cachedSnapshot := if parsed.Some? then parsed.value else JsNull;
      }
      didInitFromLocalStorage := true;
      return cachedSnapshot;
    }

    /** `cacheListings(data)`: nothing on the server; a write that throws changes nothing;
        otherwise storage holds the serialised data and the snapshot is the data. */
    method CacheListings(data: JsValue, writeFails: bool, stringify: JsonStringify)
      requires Valid()
      modifies this`storage, this`cachedSnapshot, this`didInitFromLocalStorage
      ensures Valid()
      ensures !isBrowser || writeFails ==> unchanged(this)
      ensures isBrowser && !writeFails ==>
                && storage == old(storage)[STORAGE_KEY := stringify(data)]
                && cachedSnapshot == data && didInitFromLocalStorage
    {
      if !isBrowser {
        return;
      }
      if !writeFails {
        storage := storage[STORAGE_KEY := stringify(data)];
        cachedSnapshot := data;
        didInitFromLocalStorage := true;
      }
    }

    /** `fetchListings()`: `reply` is what the `fetch` of the listings route gave. Fetched data
        is cached and returned; on any failure the cached snapshot is returned when it is
        truthy, and otherwise the failure's message is the rejection. */
    method FetchListings(reply: Fetched, writeFails: bool, parse: JsonParse, stringify: JsonStringify)
      returns (outcome: FetchOutcome)
      requires Valid()
      modifies this`storage, this`cachedSnapshot, this`didInitFromLocalStorage, this`storageReads
      ensures Valid()
      ensures reply.Answered? && IsOk(reply.status) && reply.json.Parsed? ==>
                && outcome == Resolved(reply.json.value)
                && storageReads == old(storageReads)
                && (isBrowser && !writeFails ==>
                      && storage == old(storage)[STORAGE_KEY := stringify(reply.json.value)]
                      && cachedSnapshot == reply.json.value && didInitFromLocalStorage)
                && (!isBrowser || writeFails ==>
                      && storage == old(storage) && cachedSnapshot == old(cachedSnapshot)
                      && didInitFromLocalStorage == old(didInitFromLocalStorage))
      ensures !(reply.Answered? && IsOk(reply.status) && reply.json.Parsed?) ==>
                && storage == old(storage)
                && var error := if reply.Threw? then reply.message
                                else if !IsOk(reply.status) then "API request failed with status " + IntToString(reply.status)
                                else reply.json.message;
                   var snap := if !isBrowser then JsNull
                               else if old(didInitFromLocalStorage) then old(cachedSnapshot)
                               else SnapshotFromStorage(if STORAGE_KEY in old(storage) then Some(old(storage)[STORAGE_KEY]) else None, parse);
                   && outcome == (if Truthy(snap) then Resolved(snap) else Rejected(error))
                   && (isBrowser ==> cachedSnapshot == snap && didInitFromLocalStorage)
                   && (!isBrowser ==> unchanged(this))
                   && storageReads == old(storageReads) + (if isBrowser && !old(didInitFromLocalStorage) then 1 else 0)
      ensures outcome.Resolved? && !(reply.Answered? && IsOk(reply.status) && reply.json.Parsed?) ==>
                isBrowser && didInitFromLocalStorage
    {
      var error: string;
      if reply.Threw? {
        error := reply.message;
      } else if !IsOk(reply.status) {
        error := "API request failed with status " + IntToString(reply.status);
      } else if reply.json.Unparsable? {
        error := reply.json.message;
      } else {
        var data := reply.json.value;
        CacheListings(data, writeFails, stringify);
        return Resolved(data);
      }
      var cachedData := GetCachedListings(parse);
      if Truthy(cachedData) {
        return Resolved(cachedData);
      }
      return Rejected(error);
    }
  }
}
