/**
 What becomes of one command at its gate: performed at once below the limits, held for a human past
 them, and then performed or refused as the human says. The limits and kinds are spelled out here.
 */
module ApprovalGates {
  import opened Prelude
  import opened ApprovalSpec
  import opened ApprovalRuns

  /** The action may be performed without asking. */
  predicate Free(act: Act, config: Config, total: nat) {
    match act
    case SnapExport(_, _) => !config.gateExport
    case Spawn(_) => config.softLimit == 0 || total < config.softLimit
    case Patch(_, base, _) => !base && !config.gatePatch
  }

  function KindOf(act: Act): string {
    match act
    case SnapExport(_, _) => "snap.export"
    case Spawn(_) => "runtime.spawn"
    case Patch(_, _, _) => "config.patch"
  }

  predicate Commanded(s: State, r: nat, act: Act, approved: bool) {
    r in s.queued && s.queued[r] == Do(act, approved) && (act.Patch? ==> act.isObject)
  }

  lemma QueuedIsOpen(s: State, r: nat)
    requires Inv(s) && r in s.queued
    ensures r !in s.replies && r !in s.effects && r !in s.woken && r !in s.waiting
  {
    Links(s);
    assert Spot(s, {}, r) == B(r < s.counter);
  }

  /** A command that is approved, or below the limits, is performed by the very step that handles it, and
      adds no row. */
  lemma PerformedAtOnce(s: State, r: nat, act: Act, approved: bool, ctx: Ctx)
    requires Inv(s) && Commanded(s, r, act, approved) && (approved || Free(act, ctx.config, ctx.total))
    ensures Step(s, Handle(r, ctx))
         == s.(queued := s.queued - {r}, replies := s.replies[r := Ran],
               effects := s.effects[r := Effect(act, approved, ctx.config, ctx.total)])
  {
    hide Inv, Decided;
    Links(s);
  }

  /** The status a new row has under a mode, and whether it stands already. */
  function AtOnce(mode: string): Status {
    if mode == "auto" then APPROVED else if mode == "deny" then DENIED else PENDING
  }

  function WordAtOnce(s: State, ctx: Ctx, status: Status): Verdict {
    if status == PENDING then Unwritable else Verdict(if ctx.writable then Some(s.next) else None, status)
  }

  /** What a command past its limit finds at the gate. */
  ghost predicate AtTheGate(s: State, t: State, r: nat, act: Act, ctx: Ctx) {
    var status := AtOnce(ctx.config.mode);
    && t.effects == s.effects && t.replies == s.replies && r !in t.queued
    && (if ctx.writable then t.next == s.next + 1 && s.next in t.rows && t.rows[s.next] == Row(act.env, KindOf(act), status, ctx.now)
        else t.next == s.next)
    && (if status == PENDING && ctx.writable
        then s.next in t.pending && t.pending[s.next] == Pend(act.env, KindOf(act), Held(r, act)) && s.next in t.timers
        else r in t.woken && t.woken[r] == (act, WordAtOnce(s, ctx, status)))
  }

  lemma SweptOnlyRows(s: State, listed: seq<nat>, now: int, older: int)
    ensures Swept(s, listed, now, older) == s.(rows := Swept(s, listed, now, older).rows)
  {}

  lemma SettledAtTheGate(s: State, r: nat, act: Act, ctx: Ctx)
    requires r !in s.told && r !in s.replies && r !in s.queued && AtOnce(ctx.config.mode) != PENDING
    ensures AtTheGate(s, Settled(s, ctx, act.env, KindOf(act), AtOnce(ctx.config.mode), Held(r, act)), r, act, ctx)
  {
    hide KindOf, AtOnce;
  }

  lemma EnqueuedAtTheGate(s: State, r: nat, act: Act, ctx: Ctx)
    requires r !in s.told && r !in s.replies && r !in s.queued && AtOnce(ctx.config.mode) == PENDING
    ensures AtTheGate(s, Enqueued(s, ctx, act.env, KindOf(act), Held(r, act)), r, act, ctx)
  {
    hide KindOf, AtOnce;
  }

  lemma SameGate(s: State, s': State, t: State, r: nat, act: Act, ctx: Ctx)
    requires s'.effects == s.effects && s'.replies == s.replies && s'.next == s.next
    ensures AtTheGate(s, t, r, act, ctx) <==> AtTheGate(s', t, r, act, ctx)
  {}

  /** An unapproved command past its limit is not performed: a row of its kind is written, and by the mode
      it is decided at once or held for a human; without a row a human cannot be asked. */
  lemma HeldAtTheGate(s: State, r: nat, act: Act, ctx: Ctx)
    requires Inv(s) && Commanded(s, r, act, false) && !Free(act, ctx.config, ctx.total)
    ensures AtTheGate(s, Step(s, Handle(r, ctx)), r, act, ctx)
  {
    hide Inv, Swept, Settled, Enqueued, AtTheGate;
    Links(s);
    QueuedIsOpen(s, r);
    var u := Swept(Taken(s, r), ctx.listed, ctx.now, Older(ctx.config));
    SweptOnlyRows(Taken(s, r), ctx.listed, ctx.now, Older(ctx.config));
    assert Kind(act) == KindOf(act) && Gated(act, ctx.config, ctx.total);
    SameGate(s, u, Step(s, Handle(r, ctx)), r, act, ctx);
    if AtOnce(ctx.config.mode) == PENDING { EnqueuedAtTheGate(u, r, act, ctx); } else { SettledAtTheGate(u, r, act, ctx); }
  }

  /** What a request for approval by hand finds. */
  ghost predicate AskedFor(s: State, t: State, r: nat, row: Row, ctx: Ctx) {
    && t.effects == s.effects && r !in t.queued
    && (ctx.writable ==> s.next in t.rows && t.rows[s.next] == row)
    && (if row.status == PENDING && ctx.writable
        then s.next in t.pending && t.pending[s.next] == Pend(row.env, row.kind, Direct(r)) && s.next in t.timers && r !in t.replies
        else r in t.replies && t.replies[r] == Outcome.Told(WordAtOnce(s, ctx, row.status)))
  }

  lemma SettledForAsker(s: State, r: nat, row: Row, ctx: Ctx)
    requires r !in s.told && r !in s.replies && r !in s.queued && row.status != PENDING && row.created == ctx.now
    ensures AskedFor(s, Settled(s, ctx, row.env, row.kind, row.status, Direct(r)), r, row, ctx)
  {}

  lemma EnqueuedForAsker(s: State, r: nat, row: Row, ctx: Ctx)
    requires r !in s.told && r !in s.replies && r !in s.queued && row.status == PENDING && row.created == ctx.now
    ensures AskedFor(s, Enqueued(s, ctx, row.env, row.kind, Direct(r)), r, row, ctx)
  {}

  lemma SameAsker(s: State, s': State, t: State, r: nat, row: Row, ctx: Ctx)
    requires s'.effects == s.effects && s'.next == s.next
    ensures AskedFor(s, t, r, row, ctx) <==> AskedFor(s', t, r, row, ctx)
  {}

  /** A request for approval by hand is decided at once by its own mode, or held for a human, under the kind
      it names. */
  lemma AskedIsDecided(s: State, r: nat, env: string, kind: string, mode: string, timeout: nat, ctx: Ctx)
    requires Inv(s) && r in s.queued && s.queued[r] == Ask(env, kind, mode, timeout)
    ensures AskedFor(s, Step(s, Handle(r, ctx)), r, Row(env, kind, AtOnce(mode), ctx.now), ctx)
  {
    hide Inv, Swept, Settled, Enqueued, AskedFor;
    Links(s);
    QueuedIsOpen(s, r);
    var u := Swept(Taken(s, r), ctx.listed, ctx.now, Older(ctx.config));
    SweptOnlyRows(Taken(s, r), ctx.listed, ctx.now, Older(ctx.config));
    var row := Row(env, kind, AtOnce(mode), ctx.now);
    SameAsker(s, u, Step(s, Handle(r, ctx)), r, row, ctx);
    if AtOnce(mode) == PENDING { EnqueuedForAsker(u, r, row, ctx); } else { SettledForAsker(u, r, row, ctx); }
  }

  /** Then, whatever a human answers but four words lets it through, and it is performed when it is handled
      again, past the limit or not; with one of the four its caller is refused. */
  lemma HumanDecides(s: State, r: nat, act: Act, ctx: Ctx, decision: string, again: Ctx)
    requires Inv(s) && Commanded(s, r, act, false) && !Free(act, ctx.config, ctx.total)
    requires ctx.writable && ctx.config.mode != "auto" && ctx.config.mode != "deny"
    ensures var es := [Handle(r, ctx), Human(s.next, decision), Wake(r)];
      && Runs(s, es)
      && var t := Run(s, es);
         if decision in {"deny", "denied", "no", "false"}
         then r in t.replies && t.replies[r] == Refused(Verdict(Some(s.next), DENIED)) && r !in t.effects
         else && Runs(s, es + [Handle(r, again)])
              && var u := Run(s, es + [Handle(r, again)]);
                 && r in u.replies && u.replies[r] == Ran
                 && r in u.effects && u.effects[r] == Effect(act, true, again.config, again.total)
                 && s.next in u.rows && u.rows[s.next] == Row(act.env, KindOf(act), APPROVED, ctx.now)
  {
    hide Inv, Step, Runs, Run, KindOf, Free;
    var es := [Handle(r, ctx), Human(s.next, decision), Wake(r)];
    QueuedIsOpen(s, r);
    HeldAtTheGate(s, r, act, ctx);
    var s1 := Step(s, es[0]);
    StepKeepsInv(s, es[0]);
    var s2 := Step(s1, es[1]);
    StepKeepsInv(s1, es[1]);
    HumanMoves(s1, s.next, decision);
    var s3 := Step(s2, es[2]);
    StepKeepsInv(s2, es[2]);
    WokenGoesOn(s2, r, act, Verdict(Some(s.next), StatusOf(decision)));
    ThreeSteps(s, es);
    if StatusOf(decision) == APPROVED {
      PerformedAtOnce(s3, r, act, true, again);
      OneMore(s, es, Handle(r, again));
    }
  }

  /** An approved gate puts the command back; any other verdict answers the caller. */
  lemma WokenGoesOn(s: State, r: nat, act: Act, v: Verdict)
    requires Inv(s) && r in s.woken && s.woken[r] == (act, v)
    ensures var t := Step(s, Wake(r));
      && t.effects == s.effects && t.rows == s.rows
      && if v.Verdict? && v.status == APPROVED then r in t.queued && t.queued[r] == Do(act, true)
         else r in t.replies && t.replies[r] == Refused(v)
  {
    hide Inv, Resumed, Declined;
    Links(s);
    BothWays(s, r, act, v);
  }

  lemma BothWays(s: State, r: nat, act: Act, v: Verdict)
    requires r in s.woken && r !in s.replies
    ensures var t := Resumed(s, r, act, if v.Verdict? then v.id else None);
      t.effects == s.effects && t.rows == s.rows && r in t.queued && t.queued[r] == Do(act, true)
    ensures var t := Declined(s, r, v); t.effects == s.effects && t.rows == s.rows && r in t.replies && t.replies[r] == Refused(v)
  {}

  lemma PendingIsOpen(s: State, id: nat)
    requires Inv(s) && id in s.pending
    ensures id in s.rows && s.rows[id].status == PENDING
    ensures s.pending[id].waiter.reply !in s.told && s.pending[id].waiter.reply !in s.replies
  {
    Links(s);
  }

  lemma HumanMoves(s: State, id: nat, decision: string)
    requires Inv(s) && id in s.pending && s.pending[id].waiter.Held?
    ensures var t := Step(s, Human(id, decision)); var w := s.pending[id].waiter;
      && t.effects == s.effects && t.replies == s.replies
      && w.reply in t.woken && t.woken[w.reply] == (w.act, Verdict(Some(id), StatusOf(decision)))
      && id in s.rows && t.rows == s.rows[id := s.rows[id].(status := StatusOf(decision))]
  {
    hide Inv;
    Links(s);
    PendingIsOpen(s, id);
  }

  lemma ThreeSteps(s: State, es: seq<Event>)
    requires Inv(s) && |es| == 3 && Allowed(s, es[0]) && Inv(Step(s, es[0]))
    requires Allowed(Step(s, es[0]), es[1]) && Inv(Step(Step(s, es[0]), es[1]))
    requires Allowed(Step(Step(s, es[0]), es[1]), es[2]) && Inv(Step(Step(Step(s, es[0]), es[1]), es[2]))
    ensures Runs(s, es) && Run(s, es) == Step(Step(Step(s, es[0]), es[1]), es[2])
  {
    hide Inv, Step;
    var s1 := Step(s, es[0]);
    var s2 := Step(s1, es[1]);
    assert es[1..][1..] == es[2..] && es[2..][1..] == [];
    RunsOn(s, es);
    RunsOn(s1, es[1..]);
    RunsOn(s2, es[2..]);
  }

  lemma {:induction false} OneMore(s: State, es: seq<Event>, e: Event)
    requires Inv(s) && Runs(s, es) && Allowed(Run(s, es), e)
    ensures Runs(s, es + [e]) && Run(s, es + [e]) == Step(Run(s, es), e)
    decreases |es|
  {
    hide Inv, Step;
    var more := es + [e];
    RunsOn(s, more) by { if es != [] { assert more[0] == es[0]; } }
    if es == [] {
      assert more[1..] == [];
    } else {
      assert more[1..] == es[1..] + [e];
      OneMore(Step(s, es[0]), es[1..], e);
    }
  }

  /** A row that an earlier process left waiting expires with the first sweep that lists it once it is old
      enough; every other row of that process stays. */
  lemma OrphansExpire(s: State, id: nat, ctx: Ctx)
    requires Inv(s) && id in s.rows && Inv(Step(s, Reboot))
    ensures var t := Step(Step(s, Reboot), Sweep(ctx));
      id in t.rows
      && t.rows[id].status ==
         if s.rows[id].status == PENDING && id in ctx.listed
            && ctx.now - s.rows[id].created >= 1000 * (if ctx.config.timeout == 0 then 1 else ctx.config.timeout)
         then EXPIRED else s.rows[id].status
  {
    hide Inv;
    Links(s);
    Links(Step(s, Reboot));
  }

  /** While it is waited for here, no sweep moves it. */
  lemma WaitingRowsStay(s: State, id: nat, ctx: Ctx)
    requires Inv(s) && id in s.pending && id in s.rows
    ensures var t := Step(s, Sweep(ctx)); id in t.rows && t.rows[id] == s.rows[id]
  {
    Links(s);
  }
}
