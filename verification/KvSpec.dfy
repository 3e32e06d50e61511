/**
 The kv facade as one flat map: the abstract machine the two-tier store refines.
 Every public verb is one atomic step; `Crash` is the loss of the process followed by a
 fresh start over the same durable table.
 */
module KvSpec {
  import opened Prelude
  import opened Ordering
  import Decimal

  /** (environment, key) */
  type Key = (string, string)

  datatype LeaseId = Issued(pid: nat, number: nat) | Foreign(text: string)

  /** A stored value: text, or the JSON object an ingress route is kept as. */
  datatype Value =
    | Text(text: string)
    | Route(owner: string, addr: string, public: bool, port: int, routeLease: LeaseId)

  datatype Entry = Entry(value: Value, rev: int, expires: Option<int>, lease: Option<LeaseId>, durable: bool)

  datatype Lease = Lease(ttl: int, expires: int, env: string)

  /** What the hub carries for one key: `Some` is a set, `None` a delete. */
  datatype Event = Event(key: Key, change: Option<Value>, rev: int)

  /** `hwm` is the persisted high-water mark. `issued` is the history of every revision ever handed
      out, over all boots; `events` is what this boot's hub has been given. */
  datatype State = State(
    cells: map<Key, Entry>, leases: map<LeaseId, Lease>,
    revision: int, reserved: int, hwm: int,
    leaseSeq: nat, pid: nat,
    events: seq<Event>, issued: seq<int>)

  datatype Op =
    | Set(key: Key, value: Value, durable: bool, ttl: Option<int>, lease: Option<LeaseId>)
    | Del(key: Key)
    | Cas(key: Key, expected: Option<Value>, value: Value, durable: bool)
    | Incr(key: Key, delta: int, durable: bool)
    | Expire(key: Key, ttlMs: int)
    | NewLease(ttlMs: int, env: string)
    | KeepAlive(id: LeaseId)
    | Tick
    | Crash(newPid: nat)

  const REV_BLOCK: int := 256

  const CAS_MISMATCH := "cas_mismatch"
  const NOT_INTEGER := "incr on a non-integer value"
  const UNKNOWN_KEY := "unknown key"
  const UNKNOWN_LEASE := "unknown lease"

  function Fresh(pid: nat): State {
    State(map[], map[], 0, 0, 0, 0, pid, [], [])
  }

  predicate Expired(expires: Option<int>, now: int) {
    expires.Some? && expires.value <= now
  }

  predicate Under(k: Key, env: string, prefix: string) {
    k.0 == env && prefix <= k.1
  }

  /** What `get` answers. */
  function Get(s: State, now: int, k: Key): Option<(Value, int)> {
    if k in s.cells && !Expired(s.cells[k].expires, now)
    then Some((s.cells[k].value, s.cells[k].rev)) else None
  }

  function Bump(s: State): State {
    var rev := s.revision + 1;
    if rev > s.reserved
    then s.(revision := rev, hwm := rev + REV_BLOCK, reserved := Max(s.reserved, rev + REV_BLOCK), issued := s.issued + [rev])
    else s.(revision := rev, issued := s.issued + [rev])
  }

  function Deadline(now: int, ttl: int): int {
    now + Max(ttl, 0)
  }

  function DoSet(s: State, now: int, k: Key, value: Value, durable: bool, ttl: Option<int>, lease: Option<LeaseId>): State {
    var b := Bump(s);
    var expires := if ttl.Some? then Some(Deadline(now, ttl.value)) else None;
    b.(cells := b.cells[k := Entry(value, b.revision, expires, lease, durable)],
       events := b.events + [Event(k, Some(value), b.revision)])
  }

  function DoDel(s: State, k: Key): State {
    if k !in s.cells then s
    else
      var b := Bump(s);
      b.(cells := b.cells - {k}, events := b.events + [Event(k, None, b.revision)])
  }

  function DoDelAll(s: State, ks: seq<Key>): State
    decreases |ks|
  {
    if ks == [] then s else DoDelAll(DoDel(s, ks[0]), ks[1..])
  }

  function Current(s: State, now: int, k: Key): Option<Value> {
    var g := Get(s, now, k);
    if g.Some? then Some(g.value.0) else None
  }

  function DoCas(s: State, now: int, k: Key, expected: Option<Value>, value: Value, durable: bool): Result<State, string> {
    if Current(s, now, k) != expected then Failure(CAS_MISMATCH)
    else Success(DoSet(s, now, k, value, durable, None, None))
  }

  function IntegerAt(s: State, now: int, k: Key): Option<int> {
    match Current(s, now, k)
    case None => Some(0)
    case Some(Text(t)) => Decimal.Parse(t)
    case Some(_) => None
  }

  function DoIncr(s: State, now: int, k: Key, delta: int, durable: bool): Result<State, string> {
    match IntegerAt(s, now, k)
    case None => Failure(NOT_INTEGER)
    case Some(n) => Success(DoSet(s, now, k, Text(Decimal.Render(Decimal.Wrap64(n + delta))), durable, None, None))
  }

  /** A new deadline for a live key: a new revision in the same tier, its lease dropped, and no event. */
  function DoExpire(s: State, now: int, k: Key, ttl: int): Result<State, string> {
    if Get(s, now, k).None? then Failure(UNKNOWN_KEY)
    else
      var b := Bump(s);
      var was := s.cells[k];
      Success(b.(cells := b.cells[k := Entry(was.value, b.revision, Some(Deadline(now, ttl)), None, was.durable)]))
  }

  function DoLease(s: State, now: int, ttl: int, env: string): State {
    s.(leases := s.leases[Issued(s.pid, s.leaseSeq) := Lease(Max(ttl, 0), Deadline(now, ttl), env)],
       leaseSeq := s.leaseSeq + 1)
  }

  function DoKeepAlive(s: State, now: int, id: LeaseId): Result<State, string> {
    if id !in s.leases then Failure(UNKNOWN_LEASE)
    else Success(s.(leases := s.leases[id := s.leases[id].(expires := now + s.leases[id].ttl)]))
  }

  predicate DeadLease(s: State, at: int, id: LeaseId) {
    id in s.leases && s.leases[id].expires <= at
  }

  predicate Doomed(s: State, at: int, k: Key) {
    && k in s.cells
    && (Expired(s.cells[k].expires, at) || (s.cells[k].lease.Some? && DeadLease(s, at, s.cells[k].lease.value)))
  }

  function DeadLeases(s: State, at: int): set<LeaseId> {
    set id | id in s.leases && s.leases[id].expires <= at
  }

  function DoomedKeys(s: State, at: int): set<Key> {
    set k | k in s.cells && Doomed(s, at, k)
  }

  /** The elements of a set of keys in the order `sort` leaves them. */
  ghost function InOrder(ks: set<Key>): (q: seq<Key>)
    ensures Sorted(PairLess, q) && forall k :: k in q <==> k in ks
  {
    if ks == {} then []
    else
      var k :| k in ks;
      var rest := InOrder(ks - {k});
      PairOrder();
      InsertKeepsOrder(PairLess, k, rest);
      Insert(PairLess, k, rest)
  }

  ghost function DoTick(s: State, at: int): State {
    DoDelAll(s.(leases := s.leases - DeadLeases(s, at)), InOrder(DoomedKeys(s, at)))
  }

  function DoCrash(s: State, newPid: nat): State {
    State(map k | k in s.cells && s.cells[k].durable :: s.cells[k], map[],
          s.hwm, s.hwm, s.hwm, 0, newPid, [], s.issued)
  }

  function OrSame(s: State, r: Result<State, string>): State {
    if r.Success? then r.value else s
  }

  ghost function Step(s: State, now: int, op: Op): State {
    match op
    case Set(k, v, durable, ttl, lease) => DoSet(s, now, k, v, durable, ttl, lease)
    case Del(k) => DoDel(s, k)
    case Cas(k, expected, v, durable) => OrSame(s, DoCas(s, now, k, expected, v, durable))
    case Incr(k, delta, durable) => OrSame(s, DoIncr(s, now, k, delta, durable))
    case Expire(k, ttl) => OrSame(s, DoExpire(s, now, k, ttl))
    case NewLease(ttl, env) => DoLease(s, now, ttl, env)
    case KeepAlive(id) => OrSame(s, DoKeepAlive(s, now, id))
    case Tick => DoTick(s, now)
    case Crash(newPid) => DoCrash(s, newPid)
  }

  /** One row of a listing: key, value and revision. */
  datatype Row = Row(key: string, value: Value, rev: int)

  function Lower(c: char): char {
    if 'A' <= c <= 'Z' then (c as int - 'A' as int + 'a' as int) as char else c
  }

  /** How the store's `like` compares a key with a prefix: ASCII letters of either case are the same. */
  predicate Like(prefix: string, key: string) {
    |prefix| <= |key| && forall i :: 0 <= i < |prefix| ==> Lower(prefix[i]) == Lower(key[i])
  }

  /** The same character, or the same ASCII letter in the other case. */
  predicate SameLetter(a: char, b: char) {
    a == b || ('A' <= a <= 'Z' && b as int == a as int + 32) || ('A' <= b <= 'Z' && a as int == b as int + 32)
  }

  lemma LikeIff(prefix: string, key: string)
    ensures Like(prefix, key) <==> |prefix| <= |key| && forall i :: 0 <= i < |prefix| ==> SameLetter(prefix[i], key[i])
  {
    if |prefix| <= |key| {
      forall i | 0 <= i < |prefix| ensures Lower(prefix[i]) == Lower(key[i]) <==> SameLetter(prefix[i], key[i]) {
        CaseOnly(prefix[i], key[i]);
      }
    }
  }

  lemma CaseOnly(a: char, b: char)
    ensures Lower(a) == Lower(b) <==> SameLetter(a, b)
  {}

  /** What a listing takes in: durable keys as the store matches them, ephemeral ones by the prefix itself. */
  predicate Listed(k: Key, durable: bool, env: string, prefix: string) {
    k.0 == env && if durable then Like(prefix, k.1) else prefix <= k.1
  }

  lemma UnderIsListed(k: Key, durable: bool, env: string, prefix: string)
    requires Under(k, env, prefix)
    ensures Listed(k, durable, env, prefix)
  {}

  predicate Live(s: State, now: int, k: Key) {
    k in s.cells && !Expired(s.cells[k].expires, now)
  }

  ghost function LiveKeys(s: State, now: int, env: string, prefix: string): set<Key> {
    set k | k in s.cells && Live(s, now, k) && Listed(k, s.cells[k].durable, env, prefix)
  }

  /** What `range` answers. */
  ghost function Range(s: State, now: int, env: string, prefix: string): seq<Row> {
    var q := InOrder(LiveKeys(s, now, env, prefix));
    seq(|q|, i requires 0 <= i < |q| => assert q[i] in q; Row(q[i].1, s.cells[q[i]].value, s.cells[q[i]].rev))
  }

  /** The rows newer than `sinceRev`, as the set events a watch replays before going live. */
  function Newer(rows: seq<Row>, env: string, sinceRev: int): seq<Event>
    decreases |rows|
  {
    if rows == [] then []
    else
      (if rows[0].rev > sinceRev then [Event((env, rows[0].key), Some(rows[0].value), rows[0].rev)] else [])
      + Newer(rows[1..], env, sinceRev)
  }

  ghost function Snapshot(s: State, now: int, env: string, prefix: string, sinceRev: int): seq<Event> {
    Newer(Range(s, now, env, prefix), env, sinceRev)
  }

  lemma {:induction false} NewerAppend(a: seq<Row>, b: seq<Row>, env: string, sinceRev: int)
    ensures Newer(a + b, env, sinceRev) == Newer(a, env, sinceRev) + Newer(b, env, sinceRev)
    decreases |a|
  {
    if a == [] {
      assert a + b == b;
    } else {
      assert (a + b)[0] == a[0] && (a + b)[1..] == a[1..] + b;
      NewerAppend(a[1..], b, env, sinceRev);
    }
  }

  predicate RowLess(a: Row, b: Row) {
    TextLess(a.key, b.key)
  }

  // ---------------------------------------------------------------- invariant

  /** Issued revisions never pass the persisted mark, and a stored revision is one that was issued. */
  ghost predicate RevInv(s: State) {
    && 0 <= s.revision <= s.reserved == s.hwm
    && (forall k :: k in s.cells ==> 1 <= s.cells[k].rev <= s.revision)
    && (forall i :: 0 <= i < |s.issued| ==> 1 <= s.issued[i] <= s.revision)
    && (forall i, j :: 0 <= i < j < |s.issued| ==> s.issued[i] < s.issued[j])
  }

  lemma BumpKeepsRevInv(s: State)
    requires RevInv(s)
    ensures RevInv(Bump(s)) && Bump(s).revision == s.revision + 1
    ensures Bump(s).issued == s.issued + [s.revision + 1]
  {}

  lemma {:induction false} DelAllKeepsRevInv(s: State, ks: seq<Key>)
    requires RevInv(s)
    ensures RevInv(DoDelAll(s, ks)) && s.issued <= DoDelAll(s, ks).issued
    decreases |ks|
  {
    if ks != [] {
      BumpKeepsRevInv(s);
      DelAllKeepsRevInv(DoDel(s, ks[0]), ks[1..]);
    }
  }

  lemma StepKeepsRevInv(s: State, now: int, op: Op)
    requires RevInv(s)
    ensures RevInv(Step(s, now, op)) && s.issued <= Step(s, now, op).issued
  {
    BumpKeepsRevInv(s);
    if op == Tick {
      var t := s.(leases := s.leases - DeadLeases(s, now));
      DelAllKeepsRevInv(t, InOrder(DoomedKeys(s, now)));
    }
  }

  // ---------------------------------------------------------------- runs

  type Run = seq<(int, Op)>

  ghost function After(s: State, run: Run): State
    decreases |run|
  {
    if run == [] then s else After(Step(s, run[0].0, run[0].1), run[1..])
  }

  /** The clock never goes back along the run, starting from `t0`. */
  predicate Clocked(t0: int, run: Run)
    decreases |run|
  {
    run == [] || (t0 <= run[0].0 && Clocked(run[0].0, run[1..]))
  }

  /** The time of the last step of the run. */
  function EndTime(t0: int, run: Run): int
    decreases |run|
  {
    if run == [] then t0 else EndTime(run[0].0, run[1..])
  }

  predicate OneBoot(run: Run) {
    forall i :: 0 <= i < |run| ==> !run[i].1.Crash?
  }

  lemma {:induction false} RunKeepsRevInv(s: State, run: Run)
    requires RevInv(s)
    ensures RevInv(After(s, run)) && s.issued <= After(s, run).issued
    decreases |run|
  {
    if run != [] {
      StepKeepsRevInv(s, run[0].0, run[0].1);
      RunKeepsRevInv(Step(s, run[0].0, run[0].1), run[1..]);
    }
  }

  /** Over any run from a fresh store, crashes and restarts included, every revision issued is
      strictly greater than every one issued before it, and stays within the persisted mark. */
  lemma RevisionsNeverRepeat(pid: nat, run: Run)
    ensures var s := After(Fresh(pid), run);
      && (forall i, j :: 0 <= i < j < |s.issued| ==> s.issued[i] < s.issued[j])
      && (forall i :: 0 <= i < |s.issued| ==> s.issued[i] <= s.revision)
      && s.revision <= s.reserved <= s.hwm
  {
    RunKeepsRevInv(Fresh(pid), run);
  }

  lemma {:induction false} AfterSplit(s: State, a: Run, b: Run)
    ensures After(s, a + b) == After(After(s, a), b)
    decreases |a|
  {
    if a == [] {
      assert a + b == b;
    } else {
      assert (a + b)[0] == a[0] && (a + b)[1..] == a[1..] + b;
      AfterSplit(Step(s, a[0].0, a[0].1), a[1..], b);
    }
  }

  // ---------------------------------------------------------------- the sweep

  /** One delete event for each key, with consecutive revisions above `rev`. */
  function Deletes(ks: seq<Key>, rev: int): seq<Event>
    decreases |ks|
  {
    if ks == [] then [] else [Event(ks[0], None, rev + 1)] + Deletes(ks[1..], rev + 1)
  }

  lemma {:induction false} DeletesAt(ks: seq<Key>, rev: int)
    ensures |Deletes(ks, rev)| == |ks|
    ensures forall i :: 0 <= i < |ks| ==> Deletes(ks, rev)[i] == Event(ks[i], None, rev + i + 1)
    decreases |ks|
  {
    if ks != [] { DeletesAt(ks[1..], rev + 1); }
  }

  predicate Distinct(ks: seq<Key>) {
    forall i, j :: 0 <= i < j < |ks| ==> ks[i] != ks[j]
  }

  function Members(ks: seq<Key>): set<Key> {
    set k | k in ks
  }

  lemma {:induction false} DelAllCells(s: State, ks: seq<Key>)
    ensures DoDelAll(s, ks).cells == s.cells - Members(ks)
    ensures var r := DoDelAll(s, ks); r.leases == s.leases && r.leaseSeq == s.leaseSeq && r.pid == s.pid
    decreases |ks|
  {
    if ks == [] {
      assert s.cells - Members(ks) == s.cells;
    } else {
      var t := DoDel(s, ks[0]);
      DelAllCells(t, ks[1..]);
      assert Members(ks) == {ks[0]} + Members(ks[1..]);
      assert t.cells == s.cells - {ks[0]};
      assert (s.cells - {ks[0]}) - Members(ks[1..]) == s.cells - ({ks[0]} + Members(ks[1..]));
    }
  }

  lemma RestStays(s: State, ks: seq<Key>)
    requires ks != [] && Members(ks) <= s.cells.Keys && Distinct(ks)
    ensures ks[0] in s.cells && Distinct(ks[1..])
    ensures Members(ks[1..]) <= DoDel(s, ks[0]).cells.Keys
  {
    assert ks[0] in Members(ks);
    forall k | k in ks[1..] ensures k in s.cells && k != ks[0] {
      assert k in Members(ks);
    }
  }

  lemma Associate(a: seq<Event>, b: seq<Event>, c: seq<Event>)
    ensures (a + b) + c == a + (b + c)
  {}

  lemma {:induction false} DelAllEvents(s: State, ks: seq<Key>)
    requires Members(ks) <= s.cells.Keys && Distinct(ks)
    ensures DoDelAll(s, ks).events == s.events + Deletes(ks, s.revision)
    decreases |ks|
  {
    if ks != [] {
      RestStays(s, ks);
      var t, tail := DoDel(s, ks[0]), ks[1..];
      DelAllEvents(t, tail);
      var first, rest := [Event(ks[0], None, s.revision + 1)], Deletes(tail, s.revision + 1);
      Associate(s.events, first, rest);
    }
  }

  lemma {:induction false} DelAllRevision(s: State, ks: seq<Key>)
    requires Members(ks) <= s.cells.Keys && Distinct(ks)
    ensures DoDelAll(s, ks).revision == s.revision + |ks|
    decreases |ks|
  {
    if ks != [] {
      RestStays(s, ks);
      DelAllRevision(DoDel(s, ks[0]), ks[1..]);
    }
  }

  /** The keys a sweep deletes, in the order it deletes them: those past their deadline or bound to
      a lease past its own. */
  ghost function SweepOrder(s: State, at: int): (q: seq<Key>)
    ensures forall k :: k in q <==> Doomed(s, at, k)
    ensures Sorted(PairLess, q) && Distinct(q)
  {
    var q := InOrder(DoomedKeys(s, at));
    PairOrder();
    assert forall k :: k in q <==> Doomed(s, at, k);
    q
  }

  /** A sweep removes exactly the keys past their deadline or bound to a lease past its own, leaves
      every other entry as it was, drops exactly the dead leases, and gives the hub exactly one
      delete for each removed key, in key order. */
  lemma TickIsExact(s: State, at: int)
    ensures var r := DoTick(s, at); var q := SweepOrder(s, at);
      && (forall k :: k in r.cells <==> k in s.cells && !Doomed(s, at, k))
      && (forall k :: k in r.cells ==> r.cells[k] == s.cells[k])
      && (forall id :: id in r.leases <==> id in s.leases && !DeadLease(s, at, id))
      && (forall id :: id in r.leases ==> r.leases[id] == s.leases[id])
      && r.events == s.events + Deletes(q, s.revision)
      && r.leaseSeq == s.leaseSeq && r.pid == s.pid && r.revision == s.revision + |q|
  {
    var q := SweepOrder(s, at);
    var t := s.(leases := s.leases - DeadLeases(s, at));
    DelAllCells(t, q);
    DelAllEvents(t, q);
    DelAllRevision(t, q);
  }

  // ---------------------------------------------------------------- listings

  /** `range` is strictly sorted by key and lists exactly the keys it takes in and `get` answers for, with
      the value and revision `get` gives. */
  lemma RangeMatchesGet(s: State, now: int, env: string, prefix: string)
    ensures var rows := Range(s, now, env, prefix);
      && Sorted(RowLess, rows)
      && (forall i :: 0 <= i < |rows| ==>
            (env, rows[i].key) in s.cells && Listed((env, rows[i].key), s.cells[(env, rows[i].key)].durable, env, prefix)
            && Get(s, now, (env, rows[i].key)) == Some((rows[i].value, rows[i].rev)))
      && (forall k :: Live(s, now, k) && Listed(k, s.cells[k].durable, env, prefix) ==>
            exists i :: 0 <= i < |rows| && rows[i].key == k.1)
  {
    hide Listed;
    var live := LiveKeys(s, now, env, prefix);
    var q := InOrder(live);
    var rows := Range(s, now, env, prefix);
    ListedHere(s, now, env, prefix);
    forall i | 0 <= i < |q| ensures q[i] in live && q[i] == (env, rows[i].key) { assert q[i] in q; }
    forall i, j | 0 <= i < j < |rows| ensures RowLess(rows[i], rows[j]) {
      assert PairLess(q[i], q[j]);
      TextLessIrreflexive(env);
    }
    forall k | Live(s, now, k) && Listed(k, s.cells[k].durable, env, prefix)
      ensures exists i :: 0 <= i < |rows| && rows[i].key == k.1
    {
      assert k in live && k in q;
      var i :| 0 <= i < |q| && q[i] == k;
      assert rows[i].key == k.1;
    }
  }

  lemma ListedHere(s: State, now: int, env: string, prefix: string)
    ensures forall k :: k in LiveKeys(s, now, env, prefix) ==> k.0 == env
  {}

  /** A live durable key of the env that matches the prefix in another case only. */
  predicate Stray(s: State, now: int, env: string, prefix: string, k: Key) {
    Live(s, now, k) && s.cells[k].durable && k.0 == env && Like(prefix, k.1) && !(prefix <= k.1)
  }

  /** Every live key under the prefix is listed; and nothing else is, exactly when no live durable key of
      the env matches the prefix up to the case of ASCII letters only. */
  lemma RangeIsThePrefixIff(s: State, now: int, env: string, prefix: string)
    ensures forall k :: Live(s, now, k) && Under(k, env, prefix) ==>
      exists i :: 0 <= i < |Range(s, now, env, prefix)| && Range(s, now, env, prefix)[i].key == k.1
    ensures (forall i :: 0 <= i < |Range(s, now, env, prefix)| ==> prefix <= Range(s, now, env, prefix)[i].key)
        <==> !(exists k :: Stray(s, now, env, prefix, k))
  {
    hide Range, Like;
    var rows := Range(s, now, env, prefix);
    RangeMatchesGet(s, now, env, prefix);
    forall k | Live(s, now, k) && Under(k, env, prefix) ensures exists i :: 0 <= i < |rows| && rows[i].key == k.1 {
      UnderIsListed(k, s.cells[k].durable, env, prefix);
    }
    if k :| Stray(s, now, env, prefix, k) {
      assert Listed(k, s.cells[k].durable, env, prefix);
      var i :| 0 <= i < |rows| && rows[i].key == k.1;
      assert !(prefix <= rows[i].key);
    } else {
      forall i | 0 <= i < |rows| ensures prefix <= rows[i].key {
        var k := (env, rows[i].key);
        assert !Stray(s, now, env, prefix, k);
      }
    }
  }

  /** A durable "/Timers/x" is listed under "/timers/". */
  lemma AnotherCaseIsListed(pid: nat, now: int, env: string, v: Value)
    ensures var s := DoSet(Fresh(pid), now, (env, "/Timers/x"), v, true, None, None);
      Stray(s, now, env, "/timers/", (env, "/Timers/x")) && Range(s, now, env, "/timers/") == [Row("/Timers/x", v, 1)]
  {
    var k := (env, "/Timers/x");
    var s := DoSet(Fresh(pid), now, k, v, true, None, None);
    assert s.cells == map[k := Entry(v, 1, None, None, true)];
    assert "/timers/"[1] != "/Timers/x"[1];
    assert LiveKeys(s, now, env, "/timers/") == {k};
    var q := InOrder({k});
    OnlyOne(k);
  }

  lemma OnlyOne(k: Key)
    ensures InOrder({k}) == [k]
  {
    var q := InOrder({k});
    PairOrder();
    SortedIsUnique(PairLess, q, [k]);
  }

  /** After a successful `incr` the key holds a decimal the next `incr` adds to. */
  lemma IncrAccumulates(s: State, now: int, k: Key, delta: int, durable: bool)
    requires DoIncr(s, now, k, delta, durable).Success?
    ensures var n := IntegerAt(s, now, k);
      && n.Some?
      && IntegerAt(DoIncr(s, now, k, delta, durable).value, now, k) == Some(Decimal.Wrap64(n.value + delta))
  {
    hide Decimal.Parse, Decimal.Render, Decimal.Wrap64;
    var next := Decimal.Wrap64(IntegerAt(s, now, k).value + delta);
    Decimal.RenderParses(next);
    var text := Decimal.Render(next);
    assert Current(DoSet(s, now, k, Text(text), durable, None, None), now, k) == Some(Text(text));
  }
}
