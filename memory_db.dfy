/**
 * The in-memory key/value store (internal/adapters/repository/memory/db.go).
 * Its mutex only serialises callers; the model is the sequential map.
 */
module MemoryDb {

  import opened Domain

  class Database {
    var data: map<string, Any>

    /** A new database holds no keys. */
    constructor ()
      ensures data == map[]
    {
      data := map[];
    }

    /**
     * Looks a key up without changing the store: a present key gives its value
     * and true, a missing one the nil interface and false.
     */
    method Get(key: string) returns (v: Any, ok: bool)
      ensures ok <==> key in data
      ensures ok ==> v == data[key]
      ensures !ok ==> v == Nil
    {
      ok := key in data;
      v := if ok then data[key] else Nil;
    }

    /** Stores the value under the key, replacing any earlier value; every other key keeps its value. */
    method Set(key: string, value: Any)
      modifies this
      ensures data == old(data)[key := value]
      ensures forall k :: k != key ==> (k in data <==> k in old(data))
      ensures forall k :: k != key && k in data ==> data[k] == old(data)[k]
    {
      data := data[key := value];
    }
  }

  /** A Get right after a Set of the same key sees the value that was set. */
  method SetThenGet(db: Database, key: string, value: Any) returns (v: Any, ok: bool)
    modifies db
    ensures ok && v == value
    ensures db.data == old(db.data)[key := value]
  {
    db.Set(key, value);
    v, ok := db.Get(key);
  }

  /** On a fresh database no key is found. */
  method GetFromNewDatabase(key: string) returns (v: Any, ok: bool)
    ensures !ok && v == Nil
  {
    var db := new Database();
    v, ok := db.Get(key);
  }
}
