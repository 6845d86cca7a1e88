/**
 * The port repository over the in-memory store
 * (internal/adapters/repository/memory/port.go): BulkUpsert writes every port
 * under its identifier, Get reads one back by identifier.
 */
module MemoryPort {

  import opened Domain
  import opened Optional
  import MemoryDb

  /** What Get gives: the port, ErrPortNotFound, or the panic of a failed type assertion. */
  datatype GetResult = Found(port: Port) | NotFound | TypeAssertionPanic

  // ---------------------------------------------------------------------------
  // The store after a sequence of writes, one per port, in order.

  /** `m` after writing each port of `ports`, in order, as a `domain.Port` value under its identifier. */
  function Upserted(m: map<string, Any>, ports: Ports): (r: map<string, Any>)
    ensures m.Keys <= r.Keys
    ensures forall i :: 0 <= i < |ports| ==> ports[i].id in r
    decreases |ports|
  {
    if ports == [] then m
    else
      var last := ports[|ports| - 1];
      Upserted(m, ports[..|ports| - 1])[last.id := PortValue(last)]
  }

  predicate HasId(ports: Ports, id: string)
  {
    exists i :: 0 <= i < |ports| && ports[i].id == id
  }

  /** After the writes, a key is present exactly when it was before or some port carries it. */
  lemma {:induction false} UpsertedKeys(m: map<string, Any>, ports: Ports, k: string)
    ensures k in Upserted(m, ports) <==> k in m || HasId(ports, k)
    decreases |ports|
  {
    if ports != [] {
      var init := ports[..|ports| - 1];
      UpsertedKeys(m, init, k);
      if HasId(ports, k) && ports[|ports| - 1].id != k {
        var i :| 0 <= i < |ports| && ports[i].id == k;
        assert init[i].id == k;
      }
      if HasId(init, k) {
        var i :| 0 <= i < |init| && init[i].id == k;
        assert ports[i].id == k;
      }
    }
  }

  /** A key no port carries keeps its presence and its value. */
  lemma {:induction false} UpsertedLeavesOthers(m: map<string, Any>, ports: Ports, k: string)
    requires !HasId(ports, k)
    ensures k in Upserted(m, ports) <==> k in m
    ensures k in m ==> Upserted(m, ports)[k] == m[k]
    decreases |ports|
  {
    if ports != [] {
      var init := ports[..|ports| - 1];
      assert !HasId(init, k) by {
        forall i | 0 <= i < |init|
          ensures init[i].id != k
        {
          assert init[i] == ports[i];
        }
      }
      assert ports[|ports| - 1].id != k;
      UpsertedLeavesOthers(m, init, k);
    }
  }

  /** Of several ports with one identifier, the last one written is the one stored. */
  lemma {:induction false} UpsertedLastWins(m: map<string, Any>, ports: Ports, i: nat)
    requires i < |ports|
    requires forall j :: i < j < |ports| ==> ports[j].id != ports[i].id
    ensures ports[i].id in Upserted(m, ports)
    ensures Upserted(m, ports)[ports[i].id] == PortValue(ports[i])
    decreases |ports|
  {
    if i < |ports| - 1 {
      var init := ports[..|ports| - 1];
      UpsertedLastWins(m, init, i);
    }
  }

  /** Every identifier written holds a `domain.Port` value, never a `*domain.Port`. */
  lemma {:induction false} UpsertedStoresValues(m: map<string, Any>, ports: Ports, i: nat)
    requires i < |ports|
    ensures ports[i].id in Upserted(m, ports)
    ensures Upserted(m, ports)[ports[i].id].PortValue?
  {
    var last :| (i <= last < |ports| && ports[last].id == ports[i].id
      && forall j :: last < j < |ports| ==> ports[j].id != ports[i].id)
      by { LastWithId(ports, i); }
    UpsertedLastWins(m, ports, last);
  }

  lemma {:induction false} LastWithId(ports: Ports, i: nat)
    requires i < |ports|
    ensures exists last :: (i <= last < |ports| && ports[last].id == ports[i].id
      && forall j :: last < j < |ports| ==> ports[j].id != ports[i].id)
    decreases |ports| - i
  {
    if exists j :: i < j < |ports| && ports[j].id == ports[i].id {
      var j :| i < j < |ports| && ports[j].id == ports[i].id;
      LastWithId(ports, j);
    } else {
      assert forall j :: i < j < |ports| ==> ports[j].id != ports[i].id;
    }
  }

  /** How many ports are written before a cancellation, observed before element `cancelAt`, stops the loop. */
  function StoredCount(ports: Ports, cancelAt: Option<nat>): nat
  {
    match cancelAt
    case Some(c) => if c < |ports| then c else |ports|
    case None => |ports|
  }

  class PortRepository {
    const db: MemoryDb.Database

    constructor (db: MemoryDb.Database)
      ensures this.db == db
    {
      this.db := db;
    }

    /**
     * A missing identifier is ErrPortNotFound; a present one succeeds only when
     * the stored value is a `*domain.Port`, and any other value fails the
     * type assertion.
     */
    method Get(id: string) returns (r: GetResult)
      ensures id !in db.data ==> r == NotFound
      ensures id in db.data && db.data[id].PortPointer? ==> r == Found(db.data[id].target)
      ensures id in db.data && !db.data[id].PortPointer? ==> r == TypeAssertionPanic
    {
      var v, ok := db.Get(id);
      if !ok {
        return NotFound;
      }
      match v
      case PortPointer(p) => r := Found(p);
      case _ => r := TypeAssertionPanic;
    }

    /**
     * Writes the ports in order, each under its own identifier. `cancelAt` is
     * the first element before which the context is seen to be done (None:
     * never); from there on nothing is written. The result is always nil.
     */
    method BulkUpsert(ports: Ports, cancelAt: Option<nat>) returns (err: Option<string>)
      modifies db
      ensures err == None
      ensures db.data == Upserted(old(db.data), ports[..StoredCount(ports, cancelAt)])
    {
      var i := 0;
      while i < |ports|
        invariant 0 <= i <= StoredCount(ports, cancelAt)
        invariant db.data == Upserted(old(db.data), ports[..i])
      {
        if cancelAt == Some(i) {
          return None;
        }
        db.Set(ports[i].id, PortValue(ports[i]));
        assert ports[..i + 1][..i] == ports[..i];
        i := i + 1;
      }
      assert ports[..i] == ports;
      return None;
    }

    /**
     * Get as it would be with the assertion on the type that BulkUpsert
     * stores, `domain.Port`, returning that port.
     */
    method GetCorrected(id: string) returns (r: GetResult)
      ensures id !in db.data ==> r == NotFound
      ensures id in db.data && db.data[id].PortValue? ==> r == Found(db.data[id].port)
      ensures id in db.data && !db.data[id].PortValue? ==> r == TypeAssertionPanic
    {
      var v, ok := db.Get(id);
      if !ok {
        return NotFound;
      }
      match v
      case PortValue(p) => r := Found(p);
      case _ => r := TypeAssertionPanic;
    }
  }

  /** As written, reading back any port that BulkUpsert stored panics. */
  method GetAfterBulkUpsert(repo: PortRepository, ports: Ports, i: nat) returns (r: GetResult)
    requires i < |ports|
    modifies repo.db
    ensures r == TypeAssertionPanic
  {
    var _ := repo.BulkUpsert(ports, None);
    assert ports[..|ports|] == ports;
    UpsertedStoresValues(old(repo.db.data), ports, i);
    r := repo.Get(ports[i].id);
  }

  /** With the corrected assertion, the last port written under an identifier is the one read back. */
  method GetCorrectedAfterBulkUpsert(repo: PortRepository, ports: Ports, i: nat) returns (r: GetResult)
    requires i < |ports|
    requires forall j :: i < j < |ports| ==> ports[j].id != ports[i].id
    modifies repo.db
    ensures r == Found(ports[i])
  {
    var _ := repo.BulkUpsert(ports, None);
    assert ports[..|ports|] == ports;
    UpsertedLastWins(old(repo.db.data), ports, i);
    r := repo.GetCorrected(ports[i].id);
  }
}
