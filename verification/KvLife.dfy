/**
 How long a key is answered: until it is written again, until its deadline or the end of its lease,
 and, unless it is durable, until the process ends.
 */
module KvLife {
  import opened Prelude
  import opened KvSpec
  import Decimal

  /** The step writes or removes this very key. */
  predicate Names(op: Op, k: Key) {
    match op
    case Set(at, _, _, _, _) => at == k
    case Del(at) => at == k
    case Cas(at, _, _, _) => at == k
    case Incr(at, _, _) => at == k
    case Expire(at, _) => at == k
    case _ => false
  }

  predicate Leaves(run: Run, k: Key) {
    forall i :: 0 <= i < |run| ==> !Names(run[i].1, k)
  }

  // ---------------------------------------------------------------- restarts

  /** The end of the process takes the leases and the ephemeral keys; a durable key keeps its value, its
      revision, its deadline and the name of its lease, and is answered as before. */
  lemma CrashKeepsDurable(s: State, now: int, newPid: nat, k: Key, at: int)
    ensures var t := Step(s, now, Crash(newPid));
      && t.leases == map[]
      && (k in t.cells <==> k in s.cells && s.cells[k].durable)
      && (k in t.cells ==> t.cells[k] == s.cells[k])
      && Get(t, at, k) == if k in s.cells && s.cells[k].durable then Get(s, at, k) else None
  {}

  // ---------------------------------------------------------------- keys without a lease

  lemma StepLeaves(s: State, now: int, op: Op, k: Key)
    requires !Names(op, k) && (k in s.cells ==> s.cells[k].lease.None?)
    ensures var t := Step(s, now, op);
      && (k in t.cells ==> k in s.cells && t.cells[k] == s.cells[k])
      && (k in s.cells ==>
           (k in t.cells <==> (op.Crash? ==> s.cells[k].durable) && (op.Tick? ==> !Expired(s.cells[k].expires, now))))
  {
    hide IntegerAt, Current, Deadline;
    if op.Tick? { TickIsExact(s, now); }
  }

  /** What a key without a lease answers after any run that does not name it: what it was, unless it is
      past its deadline, or was ephemeral and the process ended. */
  lemma {:induction false} KeyIsAnswered(s: State, t: int, run: Run, at: int, k: Key)
    requires Leaves(run, k) && Clocked(t, run) && EndTime(t, run) <= at
    requires k in s.cells ==> s.cells[k].lease.None?
    ensures Get(After(s, run), at, k) == if k in s.cells && (s.cells[k].durable || OneBoot(run)) then Get(s, at, k) else None
    decreases |run|
  {
    hide Step, Names;
    if run != [] {
      var (now, op) := run[0];
      StepLeaves(s, now, op, k);
      LaterEnd(now, run[1..]);
      KeyIsAnswered(Step(s, now, op), now, run[1..], at, k);
      OneBootRest(run);
    }
  }

  lemma {:induction false} LaterEnd(t: int, run: Run)
    requires Clocked(t, run)
    ensures t <= EndTime(t, run)
    decreases |run|
  {
    if run != [] { LaterEnd(run[0].0, run[1..]); }
  }

  lemma OneBootRest(run: Run)
    requires run != []
    ensures OneBoot(run) <==> !run[0].1.Crash? && OneBoot(run[1..])
  {
    assert run == [run[0]] + run[1..];
  }

  /** A key that was set is answered with that value and that revision through any run that does not name
      it, restarts included if it is durable, exactly until its ttl has passed. */
  lemma SetIsAnswered(s: State, now: int, k: Key, v: Value, durable: bool, ttl: Option<int>, run: Run, at: int)
    requires Leaves(run, k) && Clocked(now, run) && EndTime(now, run) <= at
    ensures Get(After(Step(s, now, Set(k, v, durable, ttl, None)), run), at, k)
         == if (durable || OneBoot(run)) && (ttl.None? || (0 < ttl.value && at < now + ttl.value))
            then Some((v, s.revision + 1)) else None
  {
    hide After, EndTime;
    LaterEnd(now, run);
    KeyIsAnswered(Step(s, now, Set(k, v, durable, ttl, None)), now, run, at, k);
  }

  /** A key that was deleted is not answered any more. */
  lemma DeletedIsGone(s: State, now: int, k: Key, run: Run, at: int)
    requires Leaves(run, k) && Clocked(now, run) && EndTime(now, run) <= at
    ensures Get(After(Step(s, now, Del(k)), run), at, k) == None
  {
    hide After, EndTime;
    KeyIsAnswered(Step(s, now, Del(k)), now, run, at, k);
  }

  /** A compare-and-set takes effect, like a set without ttl, exactly when what is answered for the key is
      what was expected; otherwise nothing happens at all. */
  lemma CasIsAnswered(s: State, now: int, k: Key, expected: Option<Value>, v: Value, durable: bool, run: Run, at: int)
    requires Leaves(run, k) && Clocked(now, run) && EndTime(now, run) <= at
    ensures var t := Step(s, now, Cas(k, expected, v, durable));
      if (match Get(s, now, k) case None => expected.None? case Some((was, _)) => expected == Some(was))
      then Get(After(t, run), at, k) == if durable || OneBoot(run) then Some((v, s.revision + 1)) else None
      else t == s && DoCas(s, now, k, expected, v, durable) == Failure("cas_mismatch")
  {
    hide After, EndTime;
    var t := Step(s, now, Cas(k, expected, v, durable));
    if Current(s, now, k) == expected { KeyIsAnswered(t, now, run, at, k); }
  }

  /** A live key given a deadline keeps its value and its tier, under a new revision and free of any lease,
      exactly until then; any other key is not touched. */
  lemma ExpireIsAnswered(s: State, now: int, k: Key, ttl: int, run: Run, at: int)
    requires Leaves(run, k) && Clocked(now, run) && EndTime(now, run) <= at
    ensures var t := Step(s, now, Expire(k, ttl));
      match Get(s, now, k)
      case None => t == s && DoExpire(s, now, k, ttl) == Failure("unknown key")
      case Some((v, _)) =>
        Get(After(t, run), at, k)
        == (if (s.cells[k].durable || OneBoot(run)) && 0 < ttl && at < now + ttl then Some((v, s.revision + 1)) else None)
  {
    hide After, EndTime;
    LaterEnd(now, run);
    var t := Step(s, now, Expire(k, ttl));
    if Get(s, now, k).Some? { KeyIsAnswered(t, now, run, at, k); }
  }

  /** An increment of an integer, or of nothing, is answered as a text that reads as the sum, when that is one
      of 64 bits. */
  lemma IncrIsAnswered(s: State, now: int, k: Key, delta: int, durable: bool, n: int, run: Run, at: int)
    requires Leaves(run, k) && Clocked(now, run) && EndTime(now, run) <= at
    requires match Get(s, now, k) case None => n == 0 case Some((v, _)) => v.Text? && Decimal.Parse(v.text) == Some(n)
    requires -0x8000_0000_0000_0000 <= n + delta < 0x8000_0000_0000_0000
    ensures var r := Get(After(Step(s, now, Incr(k, delta, durable)), run), at, k);
      if durable || OneBoot(run) then r.Some? && r.value.0.Text? && Decimal.Parse(r.value.0.text) == Some(n + delta) && r.value.1 == s.revision + 1
      else r == None
  {
    hide After, EndTime, Decimal.Parse, Decimal.Render;
    Decimal.RenderParses(n + delta);
    assert IntegerAt(s, now, k) == Some(n);
    KeyIsAnswered(Step(s, now, Incr(k, delta, durable)), now, run, at, k);
  }

  /** Anything else that is answered for the key stays, and the increment is refused. */
  lemma IncrNeedsAnInteger(s: State, now: int, k: Key, delta: int, durable: bool)
    requires Get(s, now, k).Some?
    requires var v := Get(s, now, k).value.0; v.Route? || Decimal.Parse(v.text).None?
    ensures Step(s, now, Incr(k, delta, durable)) == s
    ensures DoIncr(s, now, k, delta, durable) == Failure("incr on a non-integer value")
  {
    hide Decimal.Parse;
  }

  // ---------------------------------------------------------------- keys with a lease

  /** Every lease was issued by this process, under a number of its own. */
  ghost predicate LeaseInv(s: State) {
    forall id :: id in s.leases ==> id.Issued? && id.pid == s.pid && id.number < s.leaseSeq
  }

  lemma StepKeepsLeaseInv(s: State, now: int, op: Op)
    requires LeaseInv(s)
    ensures LeaseInv(Step(s, now, op))
  {
    hide IntegerAt, Current, Deadline;
    if op.Tick? { TickIsExact(s, now); }
  }

  /** So whatever happened, the next lease has a number that no other has. */
  lemma LeasesAreApart(pid: nat, run: Run)
    ensures LeaseInv(After(Fresh(pid), run))
    ensures var s := After(Fresh(pid), run); Issued(s.pid, s.leaseSeq) !in s.leases
  {
    RunKeepsLeaseInv(Fresh(pid), run);
  }

  lemma {:induction false} RunKeepsLeaseInv(s: State, run: Run)
    requires LeaseInv(s)
    ensures LeaseInv(After(s, run))
    decreases |run|
  {
    hide Step, LeaseInv;
    if run != [] {
      StepKeepsLeaseInv(s, run[0].0, run[0].1);
      RunKeepsLeaseInv(Step(s, run[0].0, run[0].1), run[1..]);
    }
  }

  /** The key is there, has no deadline of its own, and is bound to a lease that is known. */
  predicate Bound(s: State, k: Key, id: LeaseId) {
    k in s.cells && s.cells[k].lease == Some(id) && s.cells[k].expires.None? && id in s.leases
  }

  /** Within the boot, nothing names the key or renews the lease. */
  predicate Idle(run: Run, k: Key, id: LeaseId) {
    OneBoot(run) && Leaves(run, k) && forall i :: 0 <= i < |run| ==> run[i].1 != KeepAlive(id)
  }

  lemma StepHolds(s: State, now: int, op: Op, k: Key, id: LeaseId)
    requires LeaseInv(s) && Bound(s, k, id) && !Names(op, k) && !op.Crash? && op != KeepAlive(id)
    ensures var t := Step(s, now, op);
      if op.Tick? && s.leases[id].expires <= now then k !in t.cells
      else Bound(t, k, id) && t.cells[k] == s.cells[k] && t.leases[id] == s.leases[id]
  {
    hide IntegerAt, Current, Deadline;
    if op.Tick? { TickIsExact(s, now); }
  }

  lemma {:induction false} StaysAway(s: State, run: Run, k: Key)
    requires k !in s.cells && Leaves(run, k)
    ensures k !in After(s, run).cells
    decreases |run|
  {
    hide Step, Names;
    if run != [] {
      StepLeaves(s, run[0].0, run[0].1, k);
      StaysAway(Step(s, run[0].0, run[0].1), run[1..], k);
    }
  }

  /** A bound key is still there, unchanged, after a sweep exactly when the sweep comes before the end of
      its lease, whatever swept or wrote elsewhere in between. */
  lemma {:induction false} BoundKeyLives(s: State, t: int, run: Run, at: int, k: Key, id: LeaseId)
    requires LeaseInv(s) && Bound(s, k, id) && Idle(run, k, id) && Clocked(t, run) && EndTime(t, run) <= at
    ensures k in DoTick(After(s, run), at).cells <==> at < s.leases[id].expires
    ensures at < s.leases[id].expires ==>
      var e := After(s, run); LeaseInv(e) && Bound(e, k, id) && e.cells[k] == s.cells[k] && e.leases[id] == s.leases[id]
    decreases |run|
  {
    hide Step, Names, DoTick, LeaseInv;
    if run == [] {
      TickIsExact(s, at);
    } else {
      var (now, op) := run[0];
      StepHolds(s, now, op, k, id);
      StepKeepsLeaseInv(s, now, op);
      LaterEnd(now, run[1..]);
      OneBootRest(run);
      assert Idle(run[1..], k, id);
      if op.Tick? && s.leases[id].expires <= now {
        StaysAway(Step(s, now, op), run[1..], k);
        TickIsExact(After(s, run), at);
      } else {
        BoundKeyLives(Step(s, now, op), now, run[1..], at, k, id);
      }
    }
  }

  /** A lease and a key bound to it, as `lease` and `set` leave them. */
  function Granted(s: State, now: int, ttl: int, env: string, k: Key, v: Value, durable: bool): Run {
    [(now, NewLease(ttl, env)), (now, Set(k, v, durable, None, Some(Issued(s.pid, s.leaseSeq))))]
  }

  lemma GrantBinds(s: State, now: int, ttl: int, env: string, k: Key, v: Value, durable: bool)
    requires LeaseInv(s)
    ensures var t := After(s, Granted(s, now, ttl, env, k, v, durable)); var id := Issued(s.pid, s.leaseSeq);
      LeaseInv(t) && Bound(t, k, id) && t.cells[k].value == v && t.cells[k].rev == s.revision + 1
      && t.leases[id].ttl == (if 0 < ttl then ttl else 0) && t.leases[id].expires == now + (if 0 < ttl then ttl else 0)
  {
    var run := Granted(s, now, ttl, env, k, v, durable);
    assert run[1..] == [run[1]] && run[1..][1..] == [];
    var u := Step(s, now, run[0].1);
    assert After(s, run) == After(u, run[1..]) == Step(u, now, run[1].1);
  }

  /** So a key set under a new lease survives exactly the sweeps before now + ttl. */
  lemma LeasedKeyLives(s: State, now: int, ttl: int, env: string, k: Key, v: Value, durable: bool, run: Run, at: int)
    requires LeaseInv(s) && Idle(run, k, Issued(s.pid, s.leaseSeq)) && Clocked(now, run) && EndTime(now, run) <= at
    ensures k in DoTick(After(After(s, Granted(s, now, ttl, env, k, v, durable)), run), at).cells
        <==> 0 < ttl && at < now + ttl
  {
    hide DoTick, After, Granted, LeaseInv, EndTime;
    LaterEnd(now, run);
    GrantBinds(s, now, ttl, env, k, v, durable);
    BoundKeyLives(After(s, Granted(s, now, ttl, env, k, v, durable)), now, run, at, k, Issued(s.pid, s.leaseSeq));
  }

  /** And renewing the lease in time lets it survive exactly those before the renewal + ttl. */
  lemma RenewedKeyLives(s: State, now: int, ttl: int, env: string, k: Key, v: Value, durable: bool,
                        run: Run, renewed: int, more: Run, at: int)
    requires LeaseInv(s) && Idle(run, k, Issued(s.pid, s.leaseSeq)) && Clocked(now, run) && EndTime(now, run) <= renewed
    requires Idle(more, k, Issued(s.pid, s.leaseSeq)) && Clocked(renewed, more) && EndTime(renewed, more) <= at
    requires renewed < now + ttl
    ensures var t := After(After(s, Granted(s, now, ttl, env, k, v, durable)), run);
      k in DoTick(After(Step(t, renewed, KeepAlive(Issued(s.pid, s.leaseSeq))), more), at).cells <==> at < renewed + ttl
  {
    hide DoTick, After, Granted, LeaseInv, EndTime;
    var id := Issued(s.pid, s.leaseSeq);
    LaterEnd(now, run);
    GrantBinds(s, now, ttl, env, k, v, durable);
    var t := After(After(s, Granted(s, now, ttl, env, k, v, durable)), run);
    BoundKeyLives(After(s, Granted(s, now, ttl, env, k, v, durable)), now, run, renewed, k, id);
    StepKeepsLeaseInv(t, renewed, KeepAlive(id));
    BoundKeyLives(Step(t, renewed, KeepAlive(id)), renewed, more, at, k, id);
  }
}
