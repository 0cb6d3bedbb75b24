/** A key-value store whose keys expire, as used for dedup markers, leases and cached roles.
    A key is gone once the clock is past its expiry. */
module Redis {

  datatype Entry = Entry(value: string, expiresAt: int)

  predicate Live<K>(store: map<K, Entry>, key: K, now: int) {
    key in store && now <= store[key].expiresAt
  }

  function Put<K>(store: map<K, Entry>, key: K, value: string, ttl: int, now: int): map<K, Entry> {
    store[key := Entry(value, now + ttl)]
  }

  /** Deletes the key only while it is live and holds the given value. */
  function DeleteIf<K>(store: map<K, Entry>, key: K, value: string, now: int): map<K, Entry> {
    if Live(store, key, now) && store[key].value == value then store - {key} else store
  }

  class RedisStore<K(==)> {
    var data: map<K, Entry>

    constructor ()
      ensures data == map[]
    {
      data := map[];
    }

    method Exists(key: K, now: int) returns (found: bool)
      ensures found == Live(data, key, now)
    {
      found := key in data && now <= data[key].expiresAt;
    }

    method Get(key: K, now: int) returns (found: bool, value: string)
      ensures found == Live(data, key, now)
      ensures found ==> value == data[key].value
    {
      if key in data && now <= data[key].expiresAt {
        return true, data[key].value;
      }
      return false, "";
    }

    method SetNX(key: K, value: string, ttl: int, now: int) returns (won: bool)
      modifies this
      ensures won == !Live(old(data), key, now)
      ensures data == if won then Put(old(data), key, value, ttl, now) else old(data)
    {
      if key in data && now <= data[key].expiresAt {
        return false;
      }
      data := data[key := Entry(value, now + ttl)];
      return true;
    }

    method Set(key: K, value: string, ttl: int, now: int)
      modifies this
      ensures data == Put(old(data), key, value, ttl, now)
    {
      data := data[key := Entry(value, now + ttl)];
    }

    /** The release script: GET, compare, DEL, in one atomic step. */
    method CompareAndDelete(key: K, value: string, now: int)
      modifies this
      ensures data == DeleteIf(old(data), key, value, now)
    {
      var found, current := Get(key, now);
      if found && current == value {
        data := data - {key};
      }
    }

    method Del(key: K)
      modifies this
      ensures data == old(data) - {key}
    {
      data := data - {key};
    }
  }
}
