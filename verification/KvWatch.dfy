/**
 `kv.watch`: subscribe, then replay a snapshot, then stream the subscription's queue. The events
 fired between the subscription and the snapshot reach the watcher twice, once folded into the
 snapshot and once from the queue, and the watcher still ends in agreement with the store.
 */
module KvWatch {
  import opened Prelude
  import opened Ordering
  import opened KvFilter
  import opened KvSpec

  /** What the watcher holds for a key: the value and the revision last heard. */
  datatype Seen = Seen(value: Value, rev: int)

  type View = map<Key, Seen>

  /** The watcher's own fold. `heard` is what its bus filter lets through. */
  function Apply(w: View, e: Event, heard: Key -> bool): View {
    if !heard(e.key) then w
    else if e.change.Some? then w[e.key := Seen(e.change.value, e.rev)]
    else w - {e.key}
  }

  function Fold(w: View, events: seq<Event>, heard: Key -> bool): View
    decreases |events|
  {
    if events == [] then w
    else Apply(Fold(w, events[..|events| - 1], heard), events[|events| - 1], heard)
  }

  /** The last thing said about `k`, if anything was. */
  function LastChange(events: seq<Event>, k: Key): Option<Option<Value>>
    decreases |events|
  {
    if events == [] then None
    else if events[|events| - 1].key == k then Some(events[|events| - 1].change)
    else LastChange(events[..|events| - 1], k)
  }

  lemma {:induction false} FoldIsLastChange(w: View, events: seq<Event>, heard: Key -> bool, k: Key)
    requires heard(k)
    ensures var v := Fold(w, events, heard);
      match LastChange(events, k)
      case None => (k in v <==> k in w) && (k in w ==> v[k] == w[k])
      case Some(None) => k !in v
      case Some(Some(x)) => k in v && v[k].value == x
    decreases |events|
  {
    if events != [] { FoldIsLastChange(w, events[..|events| - 1], heard, k); }
  }

  lemma {:induction false} LastChangeAppend(a: seq<Event>, b: seq<Event>, k: Key)
    ensures LastChange(a + b, k) == if LastChange(b, k).Some? then LastChange(b, k) else LastChange(a, k)
    decreases |b|
  {
    if b == [] {
      assert a + b == a;
    } else {
      assert (a + b)[..|a + b| - 1] == a + b[..|b| - 1];
      LastChangeAppend(a, b[..|b| - 1], k);
    }
  }

  lemma {:induction false} LastChangeUniform(events: seq<Event>, k: Key, c: Option<Value>)
    requires forall e :: e in events && e.key == k ==> e.change == c
    ensures LastChange(events, k) == if (exists e :: e in events && e.key == k) then Some(c) else None
    decreases |events|
  {
    if events != [] {
      var front, last := events[..|events| - 1], events[|events| - 1];
      assert events == front + [last];
      if last.key != k { LastChangeUniform(front, k, c); }
    }
  }

  // ---------------------------------------------------------------- what a run says about a key

  /** The events fired between two states explain `k`: either they say nothing and the entry is the
      same one, at most moved to a new deadline while alive, or their last word is the truth. */
  ghost predicate Explains(s: State, t: int, s': State, t': int, k: Key) {
    && s.events <= s'.events
    && match LastChange(s'.events[|s.events|..], k)
       case None =>
         && (k in s.cells <==> k in s'.cells)
         && (k in s.cells ==>
               && s.cells[k].value == s'.cells[k].value
               && (Expired(s.cells[k].expires, t) ==> Expired(s'.cells[k].expires, t')))
       case Some(None) => k !in s'.cells
       case Some(Some(v)) => k in s'.cells && s'.cells[k].value == v
  }

  lemma ExplainsSelf(s: State, t: int, t': int, k: Key)
    requires t <= t'
    ensures Explains(s, t, s, t', k)
  {
    assert s.events[|s.events|..] == [];
  }

  lemma ExplainsCompose(s: State, t: int, s': State, t': int, s'': State, t'': int, k: Key)
    requires Explains(s, t, s', t', k) && Explains(s', t', s'', t'', k)
    ensures Explains(s, t, s'', t'', k)
  {
    var a, b := s'.events[|s.events|..], s''.events[|s'.events|..];
    assert s''.events[|s.events|..] == a + b;
    LastChangeAppend(a, b, k);
  }

  lemma OneEvent(s: State, t: int, s': State, t': int, e: Event, k: Key)
    requires s'.events == s.events + [e]
    requires if e.change.Some? then e.key in s'.cells && s'.cells[e.key].value == e.change.value else e.key !in s'.cells
    requires e.key != k ==>
      (k in s.cells <==> k in s'.cells) && (k in s.cells ==> s.cells[k] == s'.cells[k]) && t <= t'
    ensures Explains(s, t, s', t', k)
  {
    var new_ := s'.events[|s.events|..];
    assert new_ == [e];
    assert LastChange(new_, k) == if e.key == k then Some(e.change) else None by {
      assert new_[..0] == [];
    }
  }

  lemma Silent(s: State, t: int, s': State, t': int, k: Key)
    requires s'.events == s.events && t <= t'
    requires k in s.cells <==> k in s'.cells
    requires k in s.cells ==> s.cells[k].value == s'.cells[k].value
    requires k in s.cells && Expired(s.cells[k].expires, t) ==> s'.cells[k] == s.cells[k]
    ensures Explains(s, t, s', t', k)
  {
    assert s'.events[|s.events|..] == [];
  }

  lemma TickExplains(s: State, t: int, at: int, k: Key)
    requires t <= at
    ensures Explains(s, t, DoTick(s, at), at, k)
  {
    hide DoTick, Deletes, LastChange;
    TickIsExact(s, at);
    var q := SweepOrder(s, at);
    var new_ := Deletes(q, s.revision);
    DeletesAt(q, s.revision);
    assert DoTick(s, at).events[|s.events|..] == new_;
    LastChangeUniform(new_, k, None);
    if Doomed(s, at, k) {
      var i :| 0 <= i < |q| && q[i] == k;
      assert new_[i] in new_ && new_[i].key == k;
    } else {
      forall e | e in new_ ensures e.key != k {
        var i :| 0 <= i < |new_| && new_[i] == e;
        assert q[i] in q;
      }
    }
  }

  lemma StepExplains(s: State, t: int, now: int, op: Op, k: Key)
    requires t <= now && !op.Crash?
    ensures Explains(s, t, Step(s, now, op), now, k)
  {
    var s' := Step(s, now, op);
    if op.Tick? {
      TickExplains(s, t, now, k);
    } else if op.Expire? || s' == s || op.NewLease? || op.KeepAlive? {
      if op.Expire? && s' != s && op.key == k { assert !Expired(s.cells[k].expires, now); }
      Silent(s, t, s', now, k);
    } else {
      OneEvent(s, t, s', now, s'.events[|s'.events| - 1], k);
    }
  }

  lemma {:induction false} RunExplains(s: State, t: int, run: Run, k: Key)
    requires Clocked(t, run) && OneBoot(run)
    ensures Explains(s, t, After(s, run), EndTime(t, run), k)
    ensures t <= EndTime(t, run)
    decreases |run|
  {
    if run == [] {
      ExplainsSelf(s, t, t, k);
    } else {
      var (now, op) := run[0];
      StepExplains(s, t, now, op, k);
      RunExplains(Step(s, now, op), now, run[1..], k);
      ExplainsCompose(s, t, Step(s, now, op), now, After(s, run), EndTime(t, run), k);
    }
  }

  // ---------------------------------------------------------------- the snapshot

  lemma {:induction false} NewerMembers(rows: seq<Row>, env: string, sinceRev: int, e: Event)
    ensures e in Newer(rows, env, sinceRev) <==>
      exists i :: 0 <= i < |rows| && rows[i].rev > sinceRev && e == Event((env, rows[i].key), Some(rows[i].value), rows[i].rev)
    decreases |rows|
  {
    if rows != [] {
      NewerMembers(rows[1..], env, sinceRev, e);
      assert rows == [rows[0]] + rows[1..];
      if e in Newer(rows[1..], env, sinceRev) {
        var i :| 0 <= i < |rows[1..]| && rows[1..][i].rev > sinceRev
          && e == Event((env, rows[1..][i].key), Some(rows[1..][i].value), rows[1..][i].rev);
        assert rows[i + 1] == rows[1..][i];
      }
    }
  }

  /** A snapshot says about each key it takes in, if its revision is newer than the one named, exactly its
      live value, and about no other key anything. */
  lemma SnapshotSaysListed(s: State, now: int, env: string, prefix: string, since: int, k: Key)
    ensures LastChange(Snapshot(s, now, env, prefix, since), k) ==
      if Live(s, now, k) && Listed(k, s.cells[k].durable, env, prefix) && s.cells[k].rev > since
      then Some(Some(s.cells[k].value)) else None
  {
    hide Listed, Range, LastChange;
    var rows := Range(s, now, env, prefix);
    var events := Snapshot(s, now, env, prefix, since);
    RangeMatchesGet(s, now, env, prefix);
    var inside := Live(s, now, k) && Listed(k, s.cells[k].durable, env, prefix) && s.cells[k].rev > since;
    forall e | e in events && e.key == k ensures inside && e.change == Some(s.cells[k].value) { NewerMembers(rows, env, since, e); }
    if inside {
      ListedEnv(k, s.cells[k].durable, env, prefix);
      LastChangeUniform(events, k, Some(s.cells[k].value));
      var i :| 0 <= i < |rows| && rows[i].key == k.1;
      var e := Event((env, rows[i].key), Some(rows[i].value), rows[i].rev);
      NewerMembers(rows, env, since, e);
      assert e in events && e.key == k;
    } else {
      LastChangeUniform(events, k, None);
    }
  }

  lemma ListedEnv(k: Key, durable: bool, env: string, prefix: string)
    requires Listed(k, durable, env, prefix)
    ensures k == (env, k.1)
  {}

  /** From revision zero, in particular, about each key under the prefix what `get` says. */
  lemma SnapshotSaysGet(s: State, now: int, env: string, prefix: string, k: Key)
    requires RevInv(s) && Under(k, env, prefix)
    ensures LastChange(Snapshot(s, now, env, prefix, 0), k) ==
      if Get(s, now, k).Some? then Some(Some(Get(s, now, k).value.0)) else None
  {
    SnapshotSaysListed(s, now, env, prefix, 0, k);
    if k in s.cells { UnderIsListed(k, s.cells[k].durable, env, prefix); }
  }

  // ---------------------------------------------------------------- the theorem

  function Everything(k: Key): bool {
    true
  }

  function Subscription(env: string, prefix: string): Key -> bool {
    k => Hears(env, prefix, k)
  }

  /** What the watcher has folded: the snapshot of `s1`, sent to it directly, then every event its
      subscription queued since `s0`. */
  ghost function Watched(s0: State, s1: State, at: int, s2: State, env: string, prefix: string): View
    requires s0.events <= s2.events
  {
    Fold(Fold(map[], Snapshot(s1, at, env, prefix, 0), Everything), s2.events[|s0.events|..], Subscription(env, prefix))
  }

  ghost predicate Agrees(w: View, s: State, now: int, k: Key) {
    && (Get(s, now, k).Some? ==> k in w && w[k].value == Get(s, now, k).value.0)
    && (k in w ==> k in s.cells && w[k].value == s.cells[k].value)
  }

  lemma ExplainedAgrees(s0: State, t0: int, s1: State, at: int, s2: State, t2: int, now: int,
                        env: string, prefix: string, k: Key)
    requires RevInv(s1) && Explains(s0, t0, s1, at, k) && Explains(s1, at, s2, t2, k) && t2 <= now
    requires Under(k, env, prefix) && Hears(env, prefix, k)
    ensures s0.events <= s2.events && Agrees(Watched(s0, s1, at, s2, env, prefix), s2, now, k)
  {
    hide Hears, Snapshot;
    ExplainsCompose(s0, t0, s1, at, s2, t2, k);
    var snap, queue := Snapshot(s1, at, env, prefix, 0), s2.events[|s0.events|..];
    SnapshotSaysGet(s1, at, env, prefix, k);
    FoldIsLastChange(map[], snap, Everything, k);
    FoldIsLastChange(Fold(map[], snap, Everything), queue, Subscription(env, prefix), k);
    var early, late := s1.events[|s0.events|..], s2.events[|s1.events|..];
    assert queue == early + late;
    LastChangeAppend(early, late, k);
  }

  /** A watch as it may go: subscribed in `s0` at `t0`, given its snapshot after the run `during`, looked
      at after the run `after` for the key `k`. */
  datatype Watch = Watch(s0: State, t0: int, during: Run, at: int, after: Run, now: int, k: Key)

  ghost predicate Possible(w: Watch, env: string, prefix: string) {
    && RevInv(w.s0) && OneBoot(w.during) && OneBoot(w.after)
    && Clocked(w.t0, w.during) && EndTime(w.t0, w.during) <= w.at && Clocked(w.at, w.after) && EndTime(w.at, w.after) <= w.now
    && Under(w.k, env, prefix)
  }

  ghost function AtSnapshot(w: Watch): State {
    After(w.s0, w.during)
  }

  ghost function AtEnd(w: Watch): State {
    After(AtSnapshot(w), w.after)
  }

  lemma EventsGrow(w: Watch, env: string, prefix: string)
    requires Possible(w, env, prefix)
    ensures w.s0.events <= AtEnd(w).events
  {
    hide Explains, RevInv;
    RunExplains(w.s0, w.t0, w.during, w.k);
    RunExplains(AtSnapshot(w), w.at, w.after, w.k);
    Grows(w.s0, w.t0, AtSnapshot(w), EndTime(w.t0, w.during), w.k);
    Grows(AtSnapshot(w), w.at, AtEnd(w), EndTime(w.at, w.after), w.k);
  }

  lemma Grows(s: State, t: int, s': State, t': int, k: Key)
    requires Explains(s, t, s', t', k)
    ensures s.events <= s'.events
  {}

  ghost function ViewOf(w: Watch, env: string, prefix: string): View
    requires w.s0.events <= AtEnd(w).events
  {
    Watched(w.s0, AtSnapshot(w), w.at, AtEnd(w), env, prefix)
  }

  ghost predicate Right(w: Watch, env: string, prefix: string) {
    w.s0.events <= AtEnd(w).events && Agrees(ViewOf(w, env, prefix), AtEnd(w), w.now, w.k)
  }

  /** Whatever ran in between, a watcher that has folded every event up to now agrees with the store on
      every unexpired key under its prefix that its subscription hears. */
  lemma HeardKeysAgree(w: Watch, env: string, prefix: string)
    requires Possible(w, env, prefix) && Hears(env, prefix, w.k)
    ensures Right(w, env, prefix)
  {
    hide Hears, RevInv, Explains, Agrees;
    var s1 := AtSnapshot(w);
    RunKeepsRevInv(w.s0, w.during);
    RunExplains(w.s0, w.t0, w.during, w.k);
    RunExplains(s1, w.at, w.after, w.k);
    ExplainsSelf(s1, EndTime(w.t0, w.during), w.at, w.k);
    ExplainsCompose(w.s0, w.t0, s1, EndTime(w.t0, w.during), s1, w.at, w.k);
    ExplainedAgrees(w.s0, w.t0, s1, w.at, AtEnd(w), EndTime(w.at, w.after), w.now, env, prefix, w.k);
  }

  /** In a prefix that ends where a segment does, that is every key. */
  lemma WatcherAgrees(w: Watch, env: string, prefix: string)
    requires Possible(w, env, prefix) && Aligned(prefix)
    ensures Right(w, env, prefix)
  {
    hide Hears, Aligned, Right, RevInv;
    AlignedHears(env, prefix, w.k);
    HeardKeysAgree(w, env, prefix);
  }

  /** A key the subscription does not hear stays in the view as the snapshot had it. */
  lemma {:induction false} FoldUnheard(v: View, events: seq<Event>, heard: Key -> bool, k: Key)
    requires !heard(k)
    ensures k in Fold(v, events, heard) <==> k in v
    ensures k in v ==> Fold(v, events, heard)[k] == v[k]
    decreases |events|
  {
    if events != [] { FoldUnheard(v, events[..|events| - 1], heard, k); }
  }

  lemma UnheardKeysFreeze(s0: State, s1: State, at: int, s2: State, env: string, prefix: string, k: Key)
    requires RevInv(s1) && s0.events <= s2.events && !Hears(env, prefix, k)
    ensures var v := Watched(s0, s1, at, s2, env, prefix);
      && (k in v <==> Live(s1, at, k) && Listed(k, s1.cells[k].durable, env, prefix))
      && (k in v ==> v[k].value == s1.cells[k].value)
  {
    hide Hears, Snapshot, Listed;
    var snap := Snapshot(s1, at, env, prefix, 0);
    SnapshotSaysListed(s1, at, env, prefix, 0, k);
    FoldIsLastChange(map[], snap, Everything, k);
    FoldUnheard(Fold(map[], snap, Everything), s2.events[|s0.events|..], Subscription(env, prefix), k);
  }

  /** A watch of such a prefix set up before anything else, then the key named like the prefix. */
  function Missed(env: string, prefix: string): Watch {
    Watch(Fresh(0), 0, [], 0, [(0, Set((env, prefix), Text("new"), true, None, None))], 0, (env, prefix))
  }

  lemma AfterOne(s: State, now: int, op: Op)
    ensures After(s, [(now, op)]) == Step(s, now, op)
  {
    var run: Run := [(now, op)];
    assert run[1..] == [];
    assert After(s, run) == After(Step(s, now, op), run[1..]);
  }

  lemma UnalignedWatcherMisses(env: string, prefix: string)
    requires !Aligned(prefix)
    ensures Possible(Missed(env, prefix), env, prefix) && !Right(Missed(env, prefix), env, prefix)
  {
    hide Hears, Aligned;
    var w := Missed(env, prefix);
    PrefixItselfUnheard(env, prefix);
    AfterOne(Fresh(0), 0, Set(w.k, Text("new"), true, None, None));
    assert AtSnapshot(w) == Fresh(0);
    assert Get(AtEnd(w), 0, w.k).Some?;
    UnheardKeysFreeze(w.s0, AtSnapshot(w), 0, AtEnd(w), env, prefix, w.k);
  }

  /** Every watch of a prefix is right about every unexpired key under it, exactly when the prefix, leading
      slashes aside, is empty or ends in a slash. */
  lemma WatchesAreRightIff(env: string, prefix: string)
    ensures (forall w :: Possible(w, env, prefix) ==> Right(w, env, prefix)) <==> Aligned(prefix)
  {
    hide Possible, Right, Aligned;
    if Aligned(prefix) {
      forall w | Possible(w, env, prefix) ensures Right(w, env, prefix) { WatcherAgrees(w, env, prefix); }
    } else {
      UnalignedWatcherMisses(env, prefix);
    }
  }

  /** The watch, looked at right after one more sweep. */
  function Swept(w: Watch): Watch {
    w.(after := w.after + [(w.now, Tick)])
  }

  lemma SweptEnd(w: Watch, env: string, prefix: string)
    requires Possible(w, env, prefix)
    ensures Possible(Swept(w), env, prefix) && AtEnd(Swept(w)) == DoTick(AtEnd(w), w.now)
  {
    hide RevInv, DoTick;
    var tick: Run := [(w.now, Tick)];
    AfterSplit(AtSnapshot(w), w.after, tick);
    assert tick[1..] == [];
    assert After(AtEnd(w), tick) == Step(AtEnd(w), w.now, Tick);
    ClockedAppend(w.at, w.after, w.now, Tick);
  }

  /** After the next sweep the watcher agrees exactly: of the keys under the prefix it holds those `get`
      answers for, and no others. */
  lemma WatcherExactAfterSweep(w: Watch, env: string, prefix: string)
    requires Possible(w, env, prefix) && Aligned(prefix)
    ensures w.s0.events <= AtEnd(Swept(w)).events
    ensures var v, s := ViewOf(Swept(w), env, prefix), AtEnd(Swept(w));
      && s == DoTick(AtEnd(w), w.now)
      && (w.k in v <==> Get(s, w.now, w.k).Some?)
      && (w.k in v ==> v[w.k].value == Get(s, w.now, w.k).value.0)
  {
    hide DoTick, Aligned, RevInv, Watched;
    SweptEnd(w, env, prefix);
    WatcherAgrees(Swept(w), env, prefix);
    TickIsExact(AtEnd(w), w.now);
  }

  /** Of the keys that are listed only for their case, it holds those the snapshot took in, for good: it
      agrees with the store on such a key exactly when the key is still as it was then, unless it hears it. */
  lemma StraysAfterSweep(w: Watch, env: string, prefix: string, stray: Key)
    requires Possible(w, env, prefix) && !Hears(env, prefix, stray) && !Under(stray, env, prefix)
    ensures w.s0.events <= AtEnd(Swept(w)).events
    ensures var v, s1 := ViewOf(Swept(w), env, prefix), AtSnapshot(w);
      && (stray in v <==> Stray(s1, w.at, env, prefix, stray))
      && (stray in v ==> v[stray].value == s1.cells[stray].value)
  {
    hide Hears, RevInv, Watched, Like, DoTick;
    SweptEnd(w, env, prefix);
    EventsGrow(Swept(w), env, prefix);
    RunKeepsRevInv(w.s0, w.during);
    UnheardKeysFreeze(w.s0, AtSnapshot(w), w.at, AtEnd(Swept(w)), env, prefix, stray);
  }

  const SHOUTED := "/Timers/x"
  const TIMERS := "/timers/"

  /** A durable "/Timers/x" is in the snapshot of a watch of "/timers/", and stays in the view when it is
      deleted. */
  lemma StrayOutlivesItsDeletion(env: string, v: Value)
    ensures var s := DoSet(Fresh(0), 0, (env, SHOUTED), v, true, None, None);
      var t := DoDel(s, (env, SHOUTED));
      && s.events <= t.events && (env, SHOUTED) !in t.cells && (env, SHOUTED) in Watched(s, s, 0, t, env, TIMERS)
  {
    hide Hears;
    var k := (env, SHOUTED);
    var s := DoSet(Fresh(0), 0, k, v, true, None, None);
    var t := DoDel(s, k);
    AnotherCaseIsListed(0, 0, env, v);
    ShoutedUnheard(env);
    UnheardKeysFreeze(s, s, 0, t, env, TIMERS, k);
  }

  lemma ShoutedUnheard(env: string)
    ensures !Hears(env, TIMERS, (env, SHOUTED))
  {
    hide SegMatch, Split;
    assert TrimSlashes(TIMERS) == "timers/" by { assert TIMERS[1..] == "timers/"; }
    assert TrimSlashes(SHOUTED) == "Timers/x" by { assert SHOUTED[1..] == "Timers/x"; }
    var pattern, topic := "timers" + ("/" + ANY_MANY), "Timers" + ("/" + "x");
    assert "timers/" + ANY_MANY == pattern && "Timers/x" == topic;
    SplitJoin(KV, pattern);
    SplitJoin("timers", ANY_MANY);
    SplitJoin(KV, topic);
    SplitJoin("Timers", "x");
    OneSegment(KV);
    OneSegment("timers");
    OneSegment("Timers");
    OneSegment("x");
    OneSegment(ANY_MANY);
    assert [KV] + (["timers"] + [ANY_MANY]) == [KV, "timers", ANY_MANY];
    assert [KV] + (["Timers"] + ["x"]) == [KV, "Timers", "x"];
    OtherSegment();
  }

  lemma OtherSegment()
    ensures !SegMatch([KV, "timers", ANY_MANY], [KV, "Timers", "x"])
  {
    var p, t := [KV, "timers", ANY_MANY], [KV, "Timers", "x"];
    assert p[1..] == ["timers", ANY_MANY] && t[1..] == ["Timers", "x"];
    assert "timers"[0] != "Timers"[0];
  }

  lemma {:induction false} ClockedAppend(t: int, run: Run, now: int, op: Op)
    requires Clocked(t, run) && EndTime(t, run) <= now
    ensures Clocked(t, run + [(now, op)]) && EndTime(t, run + [(now, op)]) == now
    decreases |run|
  {
    var more := run + [(now, op)];
    if run == [] {
      assert more[1..] == [];
    } else {
      assert more[0] == run[0] && more[1..] == run[1..] + [(now, op)];
      ClockedAppend(run[0].0, run[1..], now, op);
    }
  }
}
