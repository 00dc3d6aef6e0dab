/** The three Redis commands the backend relies on, over keys that expire. */
module Redis {
  datatype Entry = Entry(value: string, expiresAt: int)

  type Keys = map<string, Entry>

  /** A key is there until its time to live is over. */
  predicate Live(keys: Keys, key: string, now: int) {
    key in keys && now < keys[key].expiresAt
  }

  /** SET key value NX PX ttl: sets the key unless it is there. */
  function SetNx(keys: Keys, key: string, value: string, ttl: int, now: int): Keys {
    if Live(keys, key, now) then keys else keys[key := Entry(value, now + ttl)]
  }

  /** Deletes the key if it is there and holds `value`. */
  function CompareAndDelete(keys: Keys, key: string, value: string, now: int): Keys {
    if Live(keys, key, now) && keys[key].value == value then keys - {key} else keys
  }

  class Client {
    var keys: Keys

    constructor ()
      ensures keys == map[]
    {
      keys := map[];
    }

    method Set(key: string, value: string, ttl: int, now: int) returns (created: bool)
      modifies this
      ensures keys == SetNx(old(keys), key, value, ttl, now)
      ensures created <==> !Live(old(keys), key, now)
    {
      created := !Live(keys, key, now);
      if created {
        keys := keys[key := Entry(value, now + ttl)];
      }
    }

    /** The release script: compare and delete in one step. */
    method Delete(key: string, value: string, now: int) returns (deleted: nat)
      modifies this
      ensures keys == CompareAndDelete(old(keys), key, value, now)
      ensures deleted == |old(keys)| - |keys|
    {
      if Live(keys, key, now) && keys[key].value == value {
        ghost var before := keys.Keys;
        keys := keys - {key};
        assert keys.Keys == before - {key};
        return 1;
      }
      deleted := 0;
    }
  }
}
