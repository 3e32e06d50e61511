/**
 The revisions a watcher holds. `expire` moves a key to a new revision without an event, so a watcher
 agrees on values and yet falls behind on revisions, exactly for the keys that were given a deadline
 since they were last heard of.
 */
module KvLag {
  import opened Prelude
  import opened KvFilter
  import opened KvSpec
  import opened KvWatch
  import Decimal

  /** The revision of the last event about `k`, if there was one. */
  function LastRev(events: seq<Event>, k: Key): Option<int>
    decreases |events|
  {
    if events == [] then None
    else if events[|events| - 1].key == k then Some(events[|events| - 1].rev)
    else LastRev(events[..|events| - 1], k)
  }

  lemma {:induction false} FoldIsLastRev(w: View, events: seq<Event>, heard: Key -> bool, k: Key)
    requires heard(k)
    ensures LastRev(events, k).None? <==> LastChange(events, k).None?
    ensures k in Fold(w, events, heard) ==>
      Fold(w, events, heard)[k].rev == if LastRev(events, k).Some? then LastRev(events, k).value else if k in w then w[k].rev else 0
    ensures LastRev(events, k).None? && k in Fold(w, events, heard) ==> k in w
    decreases |events|
  {
    if events != [] { FoldIsLastRev(w, events[..|events| - 1], heard, k); }
  }

  lemma {:induction false} LastRevAppend(a: seq<Event>, b: seq<Event>, k: Key)
    ensures LastRev(a + b, k) == if LastRev(b, k).Some? then LastRev(b, k) else LastRev(a, k)
    decreases |b|
  {
    if b == [] {
      assert a + b == a;
    } else {
      assert (a + b)[..|a + b| - 1] == a + b[..|b| - 1];
      LastRevAppend(a, b[..|b| - 1], k);
    }
  }

  lemma {:induction false} LastRevUniform(events: seq<Event>, k: Key, r: int)
    requires forall e :: e in events && e.key == k ==> e.rev == r
    ensures LastRev(events, k) == if (exists e :: e in events && e.key == k) then Some(r) else None
    decreases |events|
  {
    if events != [] {
      var front, last := events[..|events| - 1], events[|events| - 1];
      assert events == front + [last];
      if last.key != k { LastRevUniform(front, k, r); }
    }
  }

  lemma {:induction false} LastRevNone(events: seq<Event>, k: Key)
    requires forall e :: e in events ==> e.key != k
    ensures LastRev(events, k) == None
    decreases |events|
  {
    if events != [] {
      assert events[|events| - 1] in events;
      LastRevNone(events[..|events| - 1], k);
    }
  }

  // ---------------------------------------------------------------- runs

  /** A step that gives a live key a new deadline. */
  predicate GivesDeadline(s: State, now: int, op: Op, k: Key) {
    op.Expire? && op.key == k && Get(s, now, k).Some?
  }

  ghost predicate Quiet(s: State, s': State, k: Key) {
    s.events <= s'.events && LastRev(s'.events[|s.events|..], k).None?
  }

  /** Somewhere in the run the key was given a deadline, and nothing was heard of it after that. */
  ghost predicate Overtaken(s: State, run: Run, k: Key)
    decreases |run|
  {
    run != []
    && var (now, op) := run[0]; var s' := Step(s, now, op);
      Overtaken(s', run[1..], k) || (GivesDeadline(s, now, op, k) && Quiet(s', After(s, run), k))
  }

  /** How the revisions of a key relate over a stretch of a boot: unless something is heard of it, it
      stays there with its revision, or a later one when it was overtaken; otherwise it has the revision
      last heard, or a later one when it was overtaken since. */
  ghost predicate Dates(s: State, s': State, k: Key, overtaken: bool) {
    && s.events <= s'.events
    && match LastRev(s'.events[|s.events|..], k)
       case None =>
         && (k in s'.cells ==> k in s.cells)
         && (k in s'.cells ==> if overtaken then s.cells[k].rev < s'.cells[k].rev else s.cells[k].rev == s'.cells[k].rev)
       case Some(r) => k in s'.cells ==> if overtaken then r < s'.cells[k].rev else r == s'.cells[k].rev
  }

  lemma DatesSelf(s: State, k: Key)
    ensures Dates(s, s, k, false)
  {
    assert s.events[|s.events|..] == [];
  }

  lemma DatesCompose(s: State, s': State, s'': State, k: Key, early: bool, late: bool)
    requires Dates(s, s', k, early) && Dates(s', s'', k, late)
    ensures Dates(s, s'', k, late || (early && Quiet(s', s'', k)))
  {
    var a, b := s'.events[|s.events|..], s''.events[|s'.events|..];
    assert s''.events[|s.events|..] == a + b;
    LastRevAppend(a, b, k);
  }

  lemma DatesEvent(s: State, s': State, e: Event, k: Key)
    requires s'.events == s.events + [e]
    requires e.key == k ==> (k in s'.cells ==> s'.cells[k].rev == e.rev)
    requires e.key != k ==> (k in s'.cells ==> k in s.cells && s.cells[k] == s'.cells[k])
    ensures Dates(s, s', k, false)
  {
    var later := s'.events[|s.events|..];
    assert later == [e] && later[..0] == [];
  }

  lemma DatesSilent(s: State, s': State, k: Key, overtaken: bool)
    requires s'.events == s.events && (k in s'.cells ==> k in s.cells)
    requires k in s'.cells ==> if overtaken then s.cells[k].rev < s'.cells[k].rev else s.cells[k].rev == s'.cells[k].rev
    ensures Dates(s, s', k, overtaken)
  {
    assert s'.events[|s.events|..] == [];
  }

  lemma TickDates(s: State, at: int, k: Key)
    ensures Dates(s, DoTick(s, at), k, false)
  {
    hide DoTick, Deletes, LastRev;
    TickIsExact(s, at);
    var q := SweepOrder(s, at);
    var later := Deletes(q, s.revision);
    DeletesAt(q, s.revision);
    assert DoTick(s, at).events[|s.events|..] == later;
    if !Doomed(s, at, k) {
      forall e | e in later ensures e.key != k {
        var i :| 0 <= i < |later| && later[i] == e;
        assert q[i] in q;
      }
      LastRevNone(later, k);
    }
  }

  lemma SetDates(s: State, now: int, k: Key, value: Value, durable: bool, ttl: Option<int>, lease: Option<LeaseId>, at: Key)
    requires RevInv(s)
    ensures Dates(s, DoSet(s, now, at, value, durable, ttl, lease), k, false)
  {
    hide LastRev, Dates;
    var s' := DoSet(s, now, at, value, durable, ttl, lease);
    DatesEvent(s, s', s'.events[|s'.events| - 1], k);
  }

  lemma DelDates(s: State, k: Key, at: Key)
    ensures Dates(s, DoDel(s, at), k, false)
  {
    hide LastRev, Dates;
    var s' := DoDel(s, at);
    if s' == s { DatesSelf(s, k); } else { DatesEvent(s, s', s'.events[|s'.events| - 1], k); }
  }

  lemma ExpireDates(s: State, now: int, at: Key, ttl: int, k: Key)
    requires RevInv(s)
    ensures Dates(s, OrSame(s, DoExpire(s, now, at, ttl)), k, at == k && Get(s, now, k).Some?)
  {
    hide LastRev, Dates;
    DatesSilent(s, OrSame(s, DoExpire(s, now, at, ttl)), k, at == k && Get(s, now, k).Some?);
  }

  lemma StepDates(s: State, now: int, op: Op, k: Key)
    requires RevInv(s) && !op.Crash?
    ensures Dates(s, Step(s, now, op), k, GivesDeadline(s, now, op, k))
  {
    hide LastRev, Dates, RevInv, DoSet, DoDel, DoTick, Get, IntegerAt, Current;
    DatesSelf(s, k);
    match op
    case Set(at, v, durable, ttl, lease) => SetDates(s, now, k, v, durable, ttl, lease, at);
    case Del(at) => DelDates(s, k, at);
    case Cas(at, _, v, durable) => SetDates(s, now, k, v, durable, None, None, at);
    case Incr(at, delta, durable) =>
      var n := IntegerAt(s, now, at);
      if n.Some? { SetDates(s, now, k, Text(Decimal.Render(Decimal.Wrap64(n.value + delta))), durable, None, None, at); }
    case Expire(at, ttl) => ExpireDates(s, now, at, ttl, k);
    case NewLease(ttl, env) => DatesSilent(s, Step(s, now, op), k, false);
    case KeepAlive(id) => DatesSilent(s, Step(s, now, op), k, false);
    case Tick => TickDates(s, now, k);
  }

  lemma {:induction false} RunDates(s: State, run: Run, k: Key)
    requires RevInv(s) && OneBoot(run)
    ensures Dates(s, After(s, run), k, Overtaken(s, run, k))
    decreases |run|
  {
    hide RevInv, Step;
    if run == [] {
      DatesSelf(s, k);
    } else {
      var (now, op) := run[0];
      StepKeepsRevInv(s, now, op);
      StepDates(s, now, op, k);
      assert OneBoot(run[1..]);
      RunDates(Step(s, now, op), run[1..], k);
      DatesCompose(s, Step(s, now, op), After(s, run), k, GivesDeadline(s, now, op, k), Overtaken(Step(s, now, op), run[1..], k));
    }
  }

  // ---------------------------------------------------------------- the snapshot and the queue

  lemma SnapshotDates(s: State, now: int, env: string, prefix: string, k: Key)
    requires RevInv(s) && Under(k, env, prefix)
    ensures LastRev(Snapshot(s, now, env, prefix, 0), k) ==
      if Get(s, now, k).Some? then Some(Get(s, now, k).value.1) else None
  {
    hide LastRev, Listed, Range;
    var rows := Range(s, now, env, prefix);
    var events := Snapshot(s, now, env, prefix, 0);
    RangeMatchesGet(s, now, env, prefix);
    var g := Get(s, now, k);
    forall e | e in events && e.key == k ensures g.Some? && e.rev == g.value.1 {
      NewerMembers(rows, env, 0, e);
    }
    if g.Some? {
      UnderIsListed(k, s.cells[k].durable, env, prefix);
      assert Live(s, now, k);
      LastRevUniform(events, k, g.value.1);
      var i :| 0 <= i < |rows| && rows[i].key == k.1;
      var e := Event((env, rows[i].key), Some(rows[i].value), rows[i].rev);
      NewerMembers(rows, env, 0, e);
      assert e in events && e.key == k;
    } else {
      LastRevNone(events, k);
    }
  }

  /** Since the watcher last heard of the key, in the queue or else in the snapshot, it was given a deadline. */
  ghost predicate Behind(w: Watch) {
    if w.s0.events <= AtEnd(w).events && LastRev(AtEnd(w).events[|w.s0.events|..], w.k).Some?
    then Overtaken(w.s0, w.during + w.after, w.k)
    else Overtaken(AtSnapshot(w), w.after, w.k)
  }

  /** The view has the key, with the store's revision exactly when it is not behind, else an older one. */
  ghost predicate Dated(w: Watch, env: string, prefix: string) {
    && w.s0.events <= AtEnd(w).events && w.k in ViewOf(w, env, prefix) && Get(AtEnd(w), w.now, w.k).Some?
    && var mine, theirs := ViewOf(w, env, prefix)[w.k].rev, Get(AtEnd(w), w.now, w.k).value.1;
      mine <= theirs && (mine == theirs <==> !Behind(w))
  }

  lemma HeardKeyRevision(w: Watch, env: string, prefix: string)
    requires Possible(w, env, prefix) && Hears(env, prefix, w.k) && Get(AtEnd(w), w.now, w.k).Some?
    ensures Dated(w, env, prefix)
  {
    hide RevInv, Step, LastRev, LastChange, Fold, Explains, Hears, Snapshot;
    var s0, s1, s2, k := w.s0, AtSnapshot(w), AtEnd(w), w.k;
    HeardKeysAgree(w, env, prefix);
    RunKeepsRevInv(s0, w.during);
    var snap, queue := Snapshot(s1, w.at, env, prefix, 0), s2.events[|s0.events|..];
    FoldIsLastRev(map[], snap, Everything, k);
    FoldIsLastRev(Fold(map[], snap, Everything), queue, Subscription(env, prefix), k);
    SnapshotDates(s1, w.at, env, prefix, k);
    AfterSplit(s0, w.during, w.after);
    assert OneBoot(w.during + w.after);
    RunDates(s0, w.during + w.after, k);
    RunDates(s0, w.during, k);
    RunDates(s1, w.after, k);
    if LastRev(queue, k).None? { QuietParts(s0, s1, s2, k); }
  }

  lemma QuietParts(s0: State, s1: State, s2: State, k: Key)
    requires s0.events <= s1.events <= s2.events && LastRev(s2.events[|s0.events|..], k).None?
    ensures LastRev(s2.events[|s1.events|..], k).None?
  {
    var a, b := s1.events[|s0.events|..], s2.events[|s1.events|..];
    assert s2.events[|s0.events|..] == a + b;
    LastRevAppend(a, b, k);
  }

  /** In a prefix that ends where a segment does, the revision a watcher holds for a live key is the store's
      exactly when no `expire` of the key has succeeded since the value it last heard, in the queue or the
      snapshot; otherwise it is an older one. */
  lemma WatcherRevision(w: Watch, env: string, prefix: string)
    requires Possible(w, env, prefix) && Aligned(prefix) && Get(AtEnd(w), w.now, w.k).Some?
    ensures Dated(w, env, prefix)
  {
    hide Possible, Dated, Hears, Aligned;
    assert Under(w.k, env, prefix) by { UnderThere(w, env, prefix); }
    AlignedHears(env, prefix, w.k);
    HeardKeyRevision(w, env, prefix);
  }

  lemma UnderThere(w: Watch, env: string, prefix: string)
    requires Possible(w, env, prefix)
    ensures Under(w.k, env, prefix)
  {}

  /** So one `expire` of a live key leaves every watcher of it behind. */
  lemma ExpireLeavesWatchersBehind(s: State, now: int, ttl: int, env: string, prefix: string, k: Key)
    requires RevInv(s) && Under(k, env, prefix) && Aligned(prefix) && Get(s, now, k).Some? && 0 < ttl
    ensures var s' := Step(s, now, Expire(k, ttl));
      && s.events <= s'.events && Get(s', now, k).Some? && k in Watched(s, s, now, s', env, prefix)
      && Watched(s, s, now, s', env, prefix)[k].rev < Get(s', now, k).value.1
      && Watched(s, s, now, s', env, prefix)[k].value == Get(s', now, k).value.0
  {
    hide Hears, Aligned, Watched;
    var w := Watch(s, now, [], now, [(now, Expire(k, ttl))], now, k);
    var s' := Step(s, now, Expire(k, ttl));
    AfterOne(s, now, Expire(k, ttl));
    assert AtSnapshot(w) == s && AtEnd(w) == s';
    assert w.after[1..] == [];
    assert s'.events[|s'.events|..] == [];
    assert s'.events[|s.events|..] == [];
    assert Overtaken(s, w.after, k) by { assert After(s, w.after) == s'; }
    assert [] + w.after == w.after;
    WatcherRevision(w, env, prefix);
    WatcherAgrees(w, env, prefix);
  }
}
