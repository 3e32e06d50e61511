/**
 The approval queue as the base runs it: rows in the store, waiters in memory. Every method is the
 state machine's step on the fields.
 */
module Approvals {
  import opened Prelude
  import opened ApprovalSpec

  lemma PendingFree(s: State, id: nat)
    requires Inv(s)
    ensures id in s.pending ==> s.pending[id].waiter.reply !in s.told && s.pending[id].waiter.reply !in s.replies
    ensures id in s.pending ==> HasStatus(s, id, PENDING)
  {
    hide Places, Truthful, Gates;
    Links(s);
  }

  lemma QueuedFree(s: State, r: nat)
    requires Inv(s) && r in s.queued
    ensures r !in s.replies && (!(s.queued[r].Do? && s.queued[r].approved) ==> r !in s.told)
  {
    hide Inv;
    Links(s);
  }

  class Base {
    // the store
    var rows: map<nat, Row>
    var next: nat
    // the process
    var pending: map<nat, Pend>
    var timers: set<nat>
    var queued: map<nat, Cmd>
    var woken: map<nat, (Act, Verdict)>
    var replies: map<nat, Outcome>
    var counter: nat

    ghost var effects: map<nat, Effect>
    ghost var boot: nat
    ghost var waiting: map<nat, nat>
    ghost var told: map<nat, Verdict>
    ghost var passes: map<nat, Pass>
    ghost var lost: set<nat>

    ghost function Now(): State
      reads this
    {
      State(rows, next, boot, pending, timers, queued, woken, replies, effects, counter, waiting, told, passes, lost)
    }

    constructor ()
      ensures Now() == EMPTY
    {
      rows, next, pending, timers := map[], 0, map[], {};
      queued, woken, replies, effects, counter := map[], map[], map[], map[], 0;
      boot, waiting, told, passes, lost := 0, map[], map[], map[], {};
    }

    /** The store moves a row only if it is pending, and says whether it did. */
    method DecideRow(id: nat, status: Status) returns (moved: bool)
      modifies this`rows
      ensures moved <==> HasStatus(old(Now()), id, PENDING)
      ensures rows == if moved then old(rows)[id := old(rows)[id].(status := status)] else old(rows)
    {
      moved := id in rows && rows[id].status == PENDING;
      if moved { rows := rows[id := rows[id].(status := status)]; }
    }

    method Record(row: Row, writable: bool) returns (id: Option<nat>)
      modifies this`rows, this`next
      ensures Now() == if writable then PutRow(old(Now()), row) else old(Now())
      ensures id == if writable then Some(old(next)) else None
    {
      if !writable { return None; }
      id := Some(next);
      rows, next := rows[next := row], next + 1;
    }

    /** A verdict reaches whoever waits: a caller is answered, a gate is woken. */
    method Send(w: Waiter, v: Verdict)
      requires w.reply !in told && w.reply !in replies
      modifies this`told, this`replies, this`woken
      ensures Now() == Told1(old(Now()), w, v)
    {
      told := told[w.reply := v];
      match w
      case Direct(r) => replies := replies[r := ApprovalSpec.Told(v)];
      case Held(r, act) => woken := woken[r := (act, v)];
    }

    /** Pending rows that nobody in this process waits for expire once they are old enough. */
    method SweepApprovals(listed: seq<nat>, now: int, config: Config)
      modifies this`rows
      ensures Now() == Swept(old(Now()), listed, now, Older(config))
    {
      var older := Max(config.timeout, 1) * 1000;
      ghost var was := Now();
      for i := 0 to |listed|
        invariant rows.Keys == was.rows.Keys
        invariant forall id :: id in rows ==>
          rows[id] == if id in listed[..i] && Stale(was, id, now, older) then was.rows[id].(status := EXPIRED) else was.rows[id]
      {
        var id := listed[i];
        assert listed[..i + 1] == listed[..i] + [id];
        if id !in pending && id in rows && now - rows[id].created >= older {
          var moved := DecideRow(id, EXPIRED);
        }
      }
      assert listed[..|listed|] == listed;
      assert rows == Swept(was, listed, now, older).rows;
    }

    method Enqueue(ctx: Ctx, env: string, kind: string, w: Waiter)
      requires w.reply !in told && w.reply !in replies
      modifies this
      ensures Now() == Enqueued(old(Now()), ctx, env, kind, w)
    {
      var id := Record(Row(env, kind, PENDING, ctx.now), ctx.writable);
      if id.None? {
        Send(w, Unwritable);
        return;
      }
      pending := pending[id.value := Pend(env, kind, w)];
      timers := timers + {id.value};
      waiting := waiting[w.reply := id.value];
    }

    method Decide(ctx: Ctx, env: string, kind: string, mode: string, w: Waiter)
      requires w.reply !in told && w.reply !in replies
      modifies this
      ensures Now() == Decided(old(Now()), ctx, env, kind, mode, w)
    {
      SweepApprovals(ctx.listed, ctx.now, ctx.config);
      if mode == AUTO {
        var id := Record(Row(env, kind, APPROVED, ctx.now), ctx.writable);
        Send(w, Verdict(id, APPROVED));
      } else if mode == DENY {
        var id := Record(Row(env, kind, DENIED, ctx.now), ctx.writable);
        Send(w, Verdict(id, DENIED));
      } else {
        Enqueue(ctx, env, kind, w);
      }
    }

    /** A human's verdict; an error when the row is unknown or decided already. */
    method ApprovalAnswer(id: nat, decision: string) returns (r: Result<Status, string>)
      requires Inv(Now())
      modifies this
      ensures Now() == Answered(old(Now()), id, StatusOf(decision))
      ensures r == if HasStatus(old(Now()), id, PENDING) then Success(StatusOf(decision))
                   else Failure(if id in old(rows) then "already decided" else "unknown approval")
    {
      hide Inv, StatusOf, Told1;
      ghost var was := Now();
      PendingFree(was, id);
      var status := StatusOf(decision);
      var moved := DecideRow(id, status);
      if !moved { return Failure(if id in rows then "already decided" else "unknown approval"); }
      if id in pending {
        var row := pending[id];
        pending := pending - {id};
        waiting := waiting - {row.waiter.reply};
        assert Now() == MovedRow(was, id, status);
        Send(row.waiter, Verdict(Some(id), status));
      }
      r := Success(status);
    }

    /** The one move without a human. */
    method ApprovalExpire(id: nat)
      requires Inv(Now())
      modifies this
      ensures Now() == Fired(old(Now()), id)
    {
      hide Inv, Told1;
      PendingFree(Now(), id);
      timers := timers - {id};
      ghost var was := Now();
      if id !in pending { return; }
      var row := pending[id];
      pending := pending - {id};
      waiting := waiting - {row.waiter.reply};
      var moved := DecideRow(id, EXPIRED);
      assert Now() == MovedRow(was, id, EXPIRED);
      Send(row.waiter, Verdict(Some(id), EXPIRED));
    }

    /** The gate's own task: resume the command it held, or answer its caller. */
    method Wake(r: nat)
      requires r in woken && r !in replies
      modifies this
      ensures Now() == Woken(old(Now()), r)
    {
      var (act, v) := woken[r];
      woken := woken - {r};
      if v.Verdict? && v.status == APPROVED {
        queued := queued[r := Do(act, true)];
        passes := passes[r := ByVerdict(v.id)];
      } else {
        replies := replies[r := Refused(v)];
      }
    }

    /** The action itself is outside; that it was performed is recorded. */
    method Perform(r: nat, act: Act, approved: bool, ghost ctx: Ctx)
      requires r !in replies
      modifies this`replies, this`effects
      ensures Now() == Performed(old(Now()), r, act, approved, ctx)
    {
      replies := replies[r := Ran];
      effects := effects[r := Effect(act, approved, ctx.config, ctx.total)];
    }

    method OnSnapExport(r: nat, act: Act, approved: bool, ctx: Ctx)
      requires act.SnapExport? && r !in replies && (approved || r !in told)
      modifies this
      ensures Now() == Acted(old(Now()), r, act, approved, ctx)
    {
      if approved || !ctx.config.gateExport {
        Perform(r, act, approved, ctx);
        return;
      }
      Decide(ctx, act.env, "snap.export", ctx.config.mode, Held(r, act));
    }

    method OnSpawn(r: nat, act: Act, approved: bool, ctx: Ctx)
      requires act.Spawn? && r !in replies && (approved || r !in told)
      modifies this
      ensures Now() == Acted(old(Now()), r, act, approved, ctx)
    {
      var soft := ctx.config.softLimit;
      if approved || soft == 0 || ctx.total < soft {
        Perform(r, act, approved, ctx);
        return;
      }
      Decide(ctx, act.env, "runtime.spawn", ctx.config.mode, Held(r, act));
    }

    method ConfigPatch(r: nat, act: Act, approved: bool, ctx: Ctx)
      requires act.Patch? && r !in replies && (approved || r !in told)
      modifies this
      ensures Now() == Acted(old(Now()), r, act, approved, ctx)
    {
      if !act.isObject {
        replies := replies[r := BadPatch];
        return;
      }
      if !approved && (act.base || ctx.config.gatePatch) {
        Decide(ctx, act.env, "config.patch", ctx.config.mode, Held(r, act));
        return;
      }
      Perform(r, act, approved, ctx);
    }

    method Handle(r: nat, ctx: Ctx)
      requires Inv(Now()) && r in queued
      modifies this
      ensures Now() == Handled(old(Now()), r, ctx)
    {
      hide Inv, Acted, Decided;
      ghost var was := Now();
      QueuedFree(was, r);
      var cmd := queued[r];
      queued := queued - {r};
      assert Now() == Taken(was, r);
      match cmd
      case Ask(env, kind, mode, _) => Decide(ctx, env, kind, mode, Direct(r));
      case Do(act, approved) =>
        match act {
          case SnapExport(_, _) => OnSnapExport(r, act, approved, ctx);
          case Spawn(_) => OnSpawn(r, act, approved, ctx);
          case Patch(_, _, _) => ConfigPatch(r, act, approved, ctx);
        }
    }
  }
}
