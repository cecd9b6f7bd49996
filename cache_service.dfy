/**
 * The two-level key/value cache (src/services/cache-service.ts): an
 * in-memory map in front of a persistent key/value store, plus a subject
 * that re-emits the value of the latest write or read.
 *
 * Each asynchronous call is modelled as one atomic step over both levels;
 * the persistent store is an abstract map, and the subject is the last value
 * it emitted.
 */
module Cache {
  import opened Js

  /** What `cache$` last emitted: `null`, or a cached value. */
  datatype Emitted<V> = Null | Emit(value: V)

  /** The error `set` throws for a key that is already in memory. */
  datatype CacheError = DataAlreadyExists(key: string)

  class CacheService<V> {
    /** The in-memory `Map`. */
    var cache: map<string, V>
    /** The persistent object store `cache`. */
    var db: map<string, V>
    /** The value `cache$` holds for its subscribers. */
    var lastEmitted: Emitted<V>

    /**
     * Opens the store with whatever it already holds. The load into memory
     * that the constructor starts runs asynchronously and is `LoadAllFromDB`.
     */
    constructor(stored: map<string, V>)
      ensures cache == map[] && db == stored && lastEmitted == Null
    {
      cache := map[];
      db := stored;
      lastEmitted := Null;
    }

    /**
     * Writes `data` under `key` to the store and to memory and emits it;
     * a key already in memory is refused and nothing changes. Only memory
     * is checked, so a key that is in the store but not yet in memory is
     * overwritten in the store.
     */
    method Set(key: string, data: V) returns (r: Outcome<CacheError>)
      modifies this
      ensures key in old(cache) ==>
        && r == Fail(DataAlreadyExists(key))
        && cache == old(cache) && db == old(db) && lastEmitted == old(lastEmitted)
      ensures key !in old(cache) ==>
        && r == Pass
        && cache == old(cache)[key := data] && db == old(db)[key := data]
        && lastEmitted == Emit(data)
    {
      if key in cache {
        return Fail(DataAlreadyExists(key));
      }
      db := db[key := data];
      cache := cache[key := data];
      lastEmitted := Emit(cache[key]);
      r := Pass;
    }

    /**
     * Reads memory first and emits a hit; on a miss reads the store, and a
     * value found there is copied into memory and emitted. A key in neither
     * level gives None and changes nothing.
     */
    method Get(key: string) returns (r: Option<V>)
      modifies this
      ensures db == old(db)
      ensures key in old(cache) ==>
        r == Some(old(cache)[key]) && cache == old(cache) && lastEmitted == Emit(old(cache)[key])
      ensures key !in old(cache) && key in db ==>
        r == Some(db[key]) && cache == old(cache)[key := db[key]] && lastEmitted == Emit(db[key])
      ensures key !in old(cache) && key !in db ==>
        r == None && cache == old(cache) && lastEmitted == old(lastEmitted)
    {
      if key in cache {
        var data := cache[key];
        lastEmitted := Emit(data);
        return Some(data);
      }
      if key in db {
        var data := db[key];
        cache := cache[key := data];
        lastEmitted := Emit(data);
        r := Some(data);
      } else {
        r := None;
      }
    }

    /** Deletes `key` from both levels and emits null. */
    method Clear(key: string)
      modifies this
      ensures db == old(db) - {key} && cache == old(cache) - {key}
      ensures lastEmitted == Null
    {
      db := db - {key};
      cache := cache - {key};
      lastEmitted := Null;
    }

    /** Empties both levels and emits null. */
    method ClearAll()
      modifies this
      ensures db == map[] && cache == map[]
      ensures lastEmitted == Null
    {
      db := map[];
      cache := map[];
      lastEmitted := Null;
    }

    /**
     * Copies every stored entry into memory, one key at a time; keys only
     * in memory stay, and the store's value wins for keys in both.
     */
    method LoadAllFromDB()
      modifies this`cache
      ensures cache == old(cache) + db
      ensures db.Keys <= cache.Keys
    {
      var keys := db.Keys;
      ghost var loaded: set<string> := {};
      while keys != {}
        invariant keys + loaded == db.Keys && keys !! loaded
        invariant cache == old(cache) + map k | k in loaded :: db[k]
        decreases keys
      {
        var key :| key in keys;
        cache := cache[key := db[key]];
        keys := keys - {key};
        loaded := loaded + {key};
      }
      assert (map k | k in loaded :: db[k]) == db;
    }
  }

  /**
   * A second `set` of the same key is refused, and `get` still returns the
   * first value.
   */
  method DuplicateSetScenario<V>(key: string, first: V, second: V)
    returns (r1: Outcome<CacheError>, r2: Outcome<CacheError>, got: Option<V>)
    ensures r1 == Pass
    ensures r2 == Fail(DataAlreadyExists(key))
    ensures got == Some(first)
  {
    var service := new CacheService<V>(map[]);
    r1 := service.Set(key, first);
    r2 := service.Set(key, second);
    got := service.Get(key);
  }

  /**
   * Before the startup load has copied a stored key into memory, `set`
   * accepts that key and replaces the stored value.
   */
  method SetBeforeLoadScenario<V>(key: string, stored: V, data: V)
    returns (r: Outcome<CacheError>, got: Option<V>)
    ensures r == Pass
    ensures got == Some(data)
  {
    var service := new CacheService<V>(map[key := stored]);
    r := service.Set(key, data);
    service.LoadAllFromDB();
    got := service.Get(key);
  }

  /**
   * After the startup load, `set` of any stored key is refused and `get`
   * returns the stored value.
   */
  method SetAfterLoadScenario<V>(stored: map<string, V>, key: string, data: V)
    returns (r: Outcome<CacheError>, got: Option<V>)
    requires key in stored
    ensures r == Fail(DataAlreadyExists(key))
    ensures got == Some(stored[key])
  {
    var service := new CacheService<V>(stored);
    service.LoadAllFromDB();
    r := service.Set(key, data);
    got := service.Get(key);
  }
}
