/**
 The kv facade itself: durable keys in the `kv` table, ephemeral keys in memory, one revision
 counter with a block-persisted high-water mark. Each verb is proved to be the flat machine's step.
 */
module KvFacade {
  import opened Prelude
  import opened Ordering
  import opened KvSpec
  import Decimal

  /** One row of the durable table, and one cell of the ephemeral map. */
  datatype Cell = Cell(value: Value, rev: int, expires: Option<int>, lease: Option<LeaseId>)

  function Tagged(c: Cell, durable: bool): Entry {
    Entry(c.value, c.rev, c.expires, c.lease, durable)
  }

  class KvFacade {
    // the store: what survives the process
    var table: map<Key, Cell>
    var hwm: int
    // the process
    var revision: int
    var reserved: int
    var ephemeral: map<Key, Cell>
    var leases: map<LeaseId, Lease>
    var leaseSeq: nat
    var pid: nat
    var hub: seq<Event>
    ghost var issued: seq<int>

    ghost function Flat(): State
      reads this
    {
      State(map k | k in table.Keys + ephemeral.Keys ::
              if k in ephemeral then Tagged(ephemeral[k], false) else Tagged(table[k], true),
            leases, revision, reserved, hwm, leaseSeq, pid, hub, issued)
    }

    /** A key lives in exactly one tier, and revisions stay within the persisted mark. */
    ghost predicate Valid()
      reads this
    {
      table.Keys !! ephemeral.Keys && RevInv(Flat())
    }

    constructor (newPid: nat)
      ensures Valid() && Flat() == Fresh(newPid)
    {
      table, hwm := map[], 0;
      revision, reserved := 0, 0;
      ephemeral, leases, leaseSeq, pid := map[], map[], 0, newPid;
      hub, issued := [], [];
    }

    method MaxRev() returns (m: int)
      requires Valid()
      ensures 0 <= m <= hwm
      ensures forall k :: k in table ==> table[k].rev <= m
    {
      m := 0;
      var left := table.Keys;
      while left != {}
        invariant left <= table.Keys && 0 <= m <= hwm
        invariant forall k :: k in table && k !in left ==> table[k].rev <= m
      {
        var k :| k in left;
        assert k in Flat().cells && Flat().cells[k].rev == table[k].rev;
        m := Max(m, table[k].rev);
        left := left - {k};
      }
    }

    /** The process dies and a new one opens the same store. */
    method Restart(newPid: nat)
      requires Valid()
      modifies this
      ensures Valid() && Flat() == DoCrash(old(Flat()), newPid)
      ensures table == old(table) && ephemeral == map[] && leases == map[] && pid == newPid
    {
      var stored := MaxRev();
      var start := Max(stored, hwm);
      ghost var was := Flat();
      revision, reserved := start, start;
      ephemeral, leases, leaseSeq, pid := map[], map[], 0, newPid;
      hub := [];
      assert Flat().cells == DoCrash(was, newPid).cells;
    }

    method NextRev() returns (rev: int)
      requires Valid()
      modifies this`revision, this`reserved, this`hwm, this`issued
      ensures Valid() && Flat() == Bump(old(Flat())) && rev == revision
    {
      revision := revision + 1;
      rev := revision;
      if rev > reserved {
        var ceiling := rev + REV_BLOCK;
        hwm := ceiling;
        reserved := Max(reserved, ceiling);
      }
      issued := issued + [rev];
      assert Flat() == Bump(old(Flat()));
    }

    method GetKey(now: int, k: Key) returns (r: Option<(Value, int)>)
      requires Valid()
      ensures r == Get(Flat(), now, k)
    {
      if k in ephemeral {
        var cell := ephemeral[k];
        return if Expired(cell.expires, now) then None else Some((cell.value, cell.rev));
      }
      if k !in table { return None; }
      var row := table[k];
      return if Expired(row.expires, now) then None else Some((row.value, row.rev));
    }

    /** A durable write clears any ephemeral shadow of the key, and the other way round. */
    method Write(k: Key, durable: bool, cell: Cell)
      requires Valid() && 1 <= cell.rev <= revision
      modifies this`table, this`ephemeral
      ensures Valid()
      ensures Flat() == old(Flat()).(cells := old(Flat()).cells[k := Tagged(cell, durable)])
    {
      ghost var was := Flat();
      if durable {
        ephemeral := ephemeral - {k};
        table := table[k := cell];
      } else {
        table := table - {k};
        ephemeral := ephemeral[k := cell];
      }
      assert Flat().cells == was.cells[k := Tagged(cell, durable)];
    }

    method Fire(e: Event)
      requires Valid()
      modifies this`hub
      ensures Valid() && Flat() == old(Flat()).(events := old(hub) + [e])
    {
      hub := hub + [e];
    }

    method SetKey(now: int, k: Key, value: Value, durable: bool, ttl: Option<int>, lease: Option<LeaseId>)
      returns (rev: int)
      requires Valid()
      modifies this
      ensures Valid() && Flat() == DoSet(old(Flat()), now, k, value, durable, ttl, lease)
      ensures rev == revision
    {
      rev := NextRev();
      var expires := if ttl.Some? then Some(now + Max(ttl.value, 0)) else None;
      Write(k, durable, Cell(value, rev, expires, lease));
      Fire(Event(k, Some(value), rev));
    }

    method DelKey(k: Key) returns (gone: bool)
      requires Valid()
      modifies this
      ensures Valid() && Flat() == DoDel(old(Flat()), k)
      ensures gone == (k in old(Flat()).cells)
    {
      ghost var was := Flat();
      gone := k in ephemeral || k in table;
      ephemeral := ephemeral - {k};
      table := table - {k};
      assert Flat().cells == was.cells - {k};
      if gone {
        var rev := NextRev();
        Fire(Event(k, None, rev));
      }
    }

    method CasKey(now: int, k: Key, expected: Option<Value>, value: Value, durable: bool)
      returns (r: Result<int, string>)
      requires Valid()
      modifies this
      ensures Valid()
      ensures var want := DoCas(old(Flat()), now, k, expected, value, durable);
        Flat() == OrSame(old(Flat()), want)
        && r == if want.Success? then Success(revision) else Failure(want.error)
    {
      var found := GetKey(now, k);
      var current := if found.Some? then Some(found.value.0) else None;
      if current != expected { return Failure(CAS_MISMATCH); }
      var rev := SetKey(now, k, value, durable, None, None);
      return Success(rev);
    }

    method IntegerKey(now: int, k: Key) returns (n: Option<int>)
      requires Valid()
      ensures n == IntegerAt(Flat(), now, k)
    {
      var found := GetKey(now, k);
      if found.None? { return Some(0); }
      if !found.value.0.Text? { return None; }
      n := Decimal.Parse(found.value.0.text);
    }

    method IncrKey(now: int, k: Key, delta: int, durable: bool) returns (r: Result<int, string>)
      requires Valid()
      modifies this
      ensures Valid()
      ensures var want := DoIncr(old(Flat()), now, k, delta, durable);
        Flat() == OrSame(old(Flat()), want)
        && r == if want.Success? then Success(Decimal.Wrap64(IntegerAt(old(Flat()), now, k).value + delta))
                else Failure(want.error)
    {
      var current := IntegerKey(now, k);
      if current.None? { return Failure(NOT_INTEGER); }
      var next := Decimal.Wrap64(current.value + delta);
      var rev := SetKey(now, k, Text(Decimal.Render(next)), durable, None, None);
      return Success(next);
    }

    method ExpireKey(now: int, k: Key, ttl: int) returns (r: Result<int, string>)
      requires Valid()
      modifies this
      ensures Valid()
      ensures var want := DoExpire(old(Flat()), now, k, ttl);
        Flat() == OrSame(old(Flat()), want)
        && r == if want.Success? then Success(revision) else Failure(want.error)
    {
      var found := GetKey(now, k);
      if found.None? { return Failure(UNKNOWN_KEY); }
      var durable := k in table;
      var rev := NextRev();
      Write(k, durable, Cell(found.value.0, rev, Some(now + Max(ttl, 0)), None));
      return Success(rev);
    }

    method GrantLease(now: int, ttl: int, env: string) returns (id: LeaseId)
      requires Valid()
      modifies this`leases, this`leaseSeq
      ensures Valid() && Flat() == DoLease(old(Flat()), now, ttl, env)
      ensures id == Issued(pid, old(leaseSeq))
    {
      id := Issued(pid, leaseSeq);
      leaseSeq := leaseSeq + 1;
      leases := leases[id := Lease(Max(ttl, 0), now + Max(ttl, 0), env)];
    }

    method KeepLease(now: int, id: LeaseId) returns (r: Result<int, string>)
      requires Valid()
      modifies this`leases
      ensures Valid()
      ensures var want := DoKeepAlive(old(Flat()), now, id);
        Flat() == OrSame(old(Flat()), want)
        && r == if want.Success? then Success(now + old(leases)[id].ttl) else Failure(want.error)
    {
      if id !in leases { return Failure(UNKNOWN_LEASE); }
      var lease := leases[id];
      leases := leases[id := lease.(expires := now + lease.ttl)];
      return Success(now + lease.ttl);
    }

    /** The store lists its rows as it compares them; the cells in memory are compared here. */
    method RangeKeys(now: int, env: string, prefix: string) returns (rows: seq<Row>)
      requires Valid()
      ensures rows == Range(Flat(), now, env, prefix)
    {
      var found: map<string, (Value, int)> := map[];
      var left := table.Keys;
      while left != {}
        invariant left <= table.Keys
        invariant forall key :: key in found <==>
          (env, key) in table && (env, key) !in left && Like(prefix, key) && !Expired(table[(env, key)].expires, now)
        invariant forall key :: key in found ==> found[key] == (table[(env, key)].value, table[(env, key)].rev)
      {
        var k :| k in left;
        if k.0 == env && Like(prefix, k.1) && !Expired(table[k].expires, now) {
          found := found[k.1 := (table[k].value, table[k].rev)];
        }
        left := left - {k};
      }
      ghost var stored := found.Keys;
      left := ephemeral.Keys;
      while left != {}
        invariant left <= ephemeral.Keys
        invariant forall key :: key in found <==>
          key in stored || ((env, key) in ephemeral && (env, key) !in left && prefix <= key
                            && !Expired(ephemeral[(env, key)].expires, now))
        invariant forall key :: key in found ==> Get(Flat(), now, (env, key)) == Some(found[key])
      {
        var k :| k in left;
        if Under(k, env, prefix) && !Expired(ephemeral[k].expires, now) {
          found := found[k.1 := (ephemeral[k].value, ephemeral[k].rev)];
        }
        left := left - {k};
      }
      assert forall key :: key in found <==> (env, key) in LiveKeys(Flat(), now, env, prefix);
      var keys := SortedKeys(found.Keys);
      rows := seq(|keys|, i requires 0 <= i < |keys| && keys[i] in found => Row(keys[i], found[keys[i]].0, found[keys[i]].1));
      InOrderByKey(LiveKeys(Flat(), now, env, prefix), env, keys);
    }

    method WatchSnapshot(now: int, env: string, prefix: string, sinceRev: int) returns (events: seq<Event>)
      requires Valid()
      ensures events == Snapshot(Flat(), now, env, prefix, sinceRev)
    {
      var rows := RangeKeys(now, env, prefix);
      events := NewerRows(rows, env, sinceRev);
    }

    /** One expiry sweep, as the once-a-second task runs it. */
    method SweepExpired(at: int)
      requires Valid()
      modifies this
      ensures Valid() && Flat() == DoTick(old(Flat()), at)
    {
      hide SortDedup, InOrder, Sorted, DoDel;
      ghost var was := Flat();
      var doomed := CollectDoomed(at);
      var order := SortDedup(PairLess, doomed);
      PairOrder();
      SortDedupIsSorted(PairLess, doomed);
      SortedIsUnique(PairLess, order, InOrder(DoomedKeys(was, at)));
      ghost var swept := Flat();
      for i := 0 to |order|
        invariant Valid() && DoDelAll(Flat(), order[i..]) == DoDelAll(swept, order)
      {
        assert order[i..][1..] == order[i + 1..];
        var gone := DelKey(order[i]);
      }
    }

    /** The keys to delete, found twice where a key is both late and bound, and the dead leases dropped. */
    method CollectDoomed(at: int) returns (doomed: seq<Key>)
      requires Valid()
      modifies this`leases
      ensures Valid() && Flat() == old(Flat()).(leases := old(leases) - DeadLeases(old(Flat()), at))
      ensures forall k :: k in doomed <==> k in DoomedKeys(old(Flat()), at)
    {
      ghost var was := Flat();
      doomed := ExpiredKeys(table, at);
      var more := ExpiredKeys(ephemeral, at);
      doomed := doomed + more;
      ghost var dead := DeadLeases(was, at);
      var left := set id | id in leases && leases[id].expires <= at;
      while left != {}
        invariant left <= dead
        invariant leases == was.leases - (dead - left)
        invariant forall k :: k in doomed <==>
          k in was.cells && (Expired(was.cells[k].expires, at)
                             || (was.cells[k].lease.Some? && was.cells[k].lease.value in dead - left))
      {
        var id :| id in left;
        var bound := BoundKeys(table, id);
        var boundCells := BoundKeys(ephemeral, id);
        doomed := doomed + bound + boundCells;
        leases := leases - {id};
        left := left - {id};
        assert was.leases - (dead - left) == was.leases - (dead - (left + {id})) - {id};
      }
      assert dead - left == dead;
    }
  }

  method NewerRows(rows: seq<Row>, env: string, sinceRev: int) returns (events: seq<Event>)
    ensures events == Newer(rows, env, sinceRev)
  {
    events := [];
    for i := 0 to |rows|
      invariant events == Newer(rows[..i], env, sinceRev)
    {
      assert rows[..i + 1] == rows[..i] + [rows[i]];
      NewerAppend(rows[..i], [rows[i]], env, sinceRev);
      if rows[i].rev > sinceRev {
        events := events + [Event((env, rows[i].key), Some(rows[i].value), rows[i].rev)];
      }
    }
    assert rows[..|rows|] == rows;
  }

  method SortedKeys(keys: set<string>) returns (q: seq<string>)
    ensures Sorted(TextLess, q) && forall k :: k in q <==> k in keys
  {
    q := [];
    var left := keys;
    TextOrder();
    while left != {}
      invariant left <= keys && Sorted(TextLess, q)
      invariant forall k :: k in q <==> k in keys - left
    {
      var k :| k in left;
      InsertKeepsOrder(TextLess, k, q);
      q := Insert(TextLess, k, q);
      left := left - {k};
    }
  }

  method ExpiredKeys(cells: map<Key, Cell>, at: int) returns (ks: seq<Key>)
    ensures forall k :: k in ks <==> k in cells && Expired(cells[k].expires, at)
  {
    ks := [];
    var left := cells.Keys;
    while left != {}
      invariant left <= cells.Keys
      invariant forall k :: k in ks <==> k in cells && k !in left && Expired(cells[k].expires, at)
    {
      var k :| k in left;
      if Expired(cells[k].expires, at) { ks := ks + [k]; }
      left := left - {k};
    }
  }

  method BoundKeys(cells: map<Key, Cell>, id: LeaseId) returns (ks: seq<Key>)
    ensures forall k :: k in ks <==> k in cells && cells[k].lease == Some(id)
  {
    ks := [];
    var left := cells.Keys;
    while left != {}
      invariant left <= cells.Keys
      invariant forall k :: k in ks <==> k in cells && k !in left && cells[k].lease == Some(id)
    {
      var k :| k in left;
      if cells[k].lease == Some(id) { ks := ks + [k]; }
      left := left - {k};
    }
  }

  lemma InOrderByKey(ks: set<Key>, env: string, keys: seq<string>)
    requires forall k :: k in ks ==> k.0 == env
    requires Sorted(TextLess, keys) && forall key :: key in keys <==> (env, key) in ks
    ensures InOrder(ks) == seq(|keys|, i requires 0 <= i < |keys| => (env, keys[i]))
  {
    var q := seq(|keys|, i requires 0 <= i < |keys| => (env, keys[i]));
    PairOrder();
    forall k ensures k in q <==> k in InOrder(ks) {
      if k in ks {
        assert k.1 in keys;
        var i :| 0 <= i < |keys| && keys[i] == k.1;
        assert q[i] == k;
      }
      if k in q {
        var i :| 0 <= i < |q| && q[i] == k;
        assert keys[i] in keys;
      }
    }
    SortedIsUnique(PairLess, q, InOrder(ks));
  }
}
