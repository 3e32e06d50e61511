/**
 What holds over whole runs of the approval queue: answers match rows, a decided row is final, a
 gated action needs an approved row of its kind, and no held reply is answered twice.
 */
module ApprovalRuns {
  import opened Prelude
  import opened ApprovalSpec

  lemma EmptyInv()
    ensures Inv(EMPTY)
  {
    forall r: nat ensures Spot(EMPTY, {}, r) == B(r < EMPTY.counter) {}
  }

  ghost predicate Runs(s: State, es: seq<Event>)
    requires Inv(s)
    decreases |es|
  {
    es == [] || (Allowed(s, es[0]) && (StepKeepsInv(s, es[0]); Runs(Step(s, es[0]), es[1..])))
  }

  ghost function Run(s: State, es: seq<Event>): (t: State)
    requires Inv(s) && Runs(s, es)
    ensures Inv(t)
    decreases |es|
  {
    if es == [] then s else StepKeepsInv(s, es[0]); Run(Step(s, es[0]), es[1..])
  }

  /** The state a run from an empty store leaves. */
  ghost predicate After(es: seq<Event>, s: State) {
    EmptyInv();
    Runs(EMPTY, es) && s == Run(EMPTY, es)
  }

  // ---------------------------------------------------------------- nothing is taken back

  /** Decided rows, verdicts given, answers sent and actions performed stay as they are. */
  ghost predicate Final(s: State, t: State) {
    && RowsStay(s, t)
    && (forall r :: r in s.told ==> r in t.told && t.told[r] == s.told[r])
    && (forall r :: r in s.replies ==> r in t.replies && t.replies[r] == s.replies[r])
    && (forall r :: r in s.effects ==> r in t.effects && t.effects[r] == s.effects[r])
  }

  lemma FinalTrans(s: State, t: State, u: State)
    requires Final(s, t) && Final(t, u)
    ensures Final(s, u)
  {}

  lemma ToldFinal(s: State, w: Waiter, v: Verdict)
    requires w.reply !in s.told && w.reply !in s.replies
    ensures Final(s, Told1(s, w, v))
  {}

  lemma PutFinal(s: State, row: Row)
    requires Queue(s)
    ensures Final(s, PutRow(s, row))
  {}

  lemma SettledFinal(s: State, ctx: Ctx, env: string, kind: string, status: Status, w: Waiter)
    requires Queue(s) && w.reply !in s.told && w.reply !in s.replies
    ensures Final(s, Settled(s, ctx, env, kind, status, w))
  {
    hide Told1, Final, Queue;
    var u := PutRow(s, Row(env, kind, status, ctx.now));
    PutFinal(s, Row(env, kind, status, ctx.now));
    if ctx.writable {
      ToldFinal(u, w, Verdict(Some(s.next), status));
      FinalTrans(s, u, Told1(u, w, Verdict(Some(s.next), status)));
    } else {
      ToldFinal(s, w, Verdict(None, status));
    }
  }

  lemma EnqueuedFinal(s: State, ctx: Ctx, env: string, kind: string, w: Waiter)
    requires Queue(s) && w.reply !in s.told && w.reply !in s.replies
    ensures Final(s, Enqueued(s, ctx, env, kind, w))
  {
    hide Told1, Queue, RowsStay;
    PutFinal(s, Row(env, kind, PENDING, ctx.now));
    if ctx.writable {
      var t := Enqueued(s, ctx, env, kind, w);
      RowsSame(PutRow(s, Row(env, kind, PENDING, ctx.now)), t);
      assert Final(PutRow(s, Row(env, kind, PENDING, ctx.now)), t);
      FinalTrans(s, PutRow(s, Row(env, kind, PENDING, ctx.now)), t);
    } else { ToldFinal(s, w, Unwritable); }
  }

  lemma DecidedFinal(s: State, ctx: Ctx, env: string, kind: string, mode: string, w: Waiter)
    requires Queue(s) && w.reply !in s.told && w.reply !in s.replies
    ensures Final(s, Decided(s, ctx, env, kind, mode, w))
  {
    hide Settled, Enqueued, Queue, RowsStay;
    var t := Swept(s, ctx.listed, ctx.now, Older(ctx.config));
    SweptQueue(s, ctx.listed, ctx.now, Older(ctx.config));
    assert Final(s, t);
    if mode == AUTO { SettledFinal(t, ctx, env, kind, APPROVED, w); }
    else if mode == DENY { SettledFinal(t, ctx, env, kind, DENIED, w); }
    else { EnqueuedFinal(t, ctx, env, kind, w); }
    FinalTrans(s, t, Decided(s, ctx, env, kind, mode, w));
  }

  lemma MovedFinal(s: State, id: nat, status: Status)
    requires HasStatus(s, id, PENDING)
    requires id in s.pending ==> s.pending[id].waiter.reply !in s.told && s.pending[id].waiter.reply !in s.replies
    ensures Final(s, Moved(s, id, status))
  {
    hide Told1, RowsStay;
    var t := MovedRow(s, id, status);
    MovedRowStays(s, id, status);
    assert Final(s, t);
    if id in s.pending {
      ToldFinal(t, s.pending[id].waiter, Verdict(Some(id), status));
      FinalTrans(s, t, Moved(s, id, status));
    }
  }

  lemma TakenFinal(s: State, r: nat)
    ensures Final(s, Taken(s, r))
  {
    hide RowsStay;
    RowsSame(s, Taken(s, r));
  }

  lemma RepliedFinal(s: State, r: nat, o: Outcome, act: Act, approved: bool, ctx: Ctx)
    requires r !in s.replies && r !in s.effects
    ensures Final(s, Replied(s, r, o)) && Final(s, Performed(s, r, act, approved, ctx))
  {
    hide RowsStay;
    RowsSame(s, Replied(s, r, o));
    RowsSame(s, Performed(s, r, act, approved, ctx));
  }

  lemma TakenQueue(s: State, r: nat)
    requires Queue(s)
    ensures Queue(Taken(s, r))
  {}

  lemma HandledFinal(s: State, r: nat, ctx: Ctx)
    requires Inv(s) && r in s.queued
    ensures Final(s, Handled(s, r, ctx))
  {
    hide Places, Queue, Linked, Truthful, Gates, Final, Decided, Performed, Replied, Kind, Gated;
    Links(s);
    EffectIsNew(s, r);
    var t := Taken(s, r);
    TakenFinal(s, r);
    TakenQueue(s, r);
    match s.queued[r]
    case Ask(env, kind, mode, _) =>
      DecidedFinal(t, ctx, env, kind, mode, Direct(r));
      FinalTrans(s, t, Handled(s, r, ctx));
    case Do(act, approved) =>
      if !(act.Patch? && !act.isObject) && !approved && Gated(act, ctx.config, ctx.total) {
        DecidedFinal(t, ctx, act.env, Kind(act), ctx.config.mode, Held(r, act));
      } else {
        RepliedFinal(t, r, BadPatch, act, approved, ctx);
      }
      FinalTrans(s, t, Handled(s, r, ctx));
  }

  lemma EffectIsNew(s: State, r: nat)
    requires Inv(s) && r in s.queued
    ensures r !in s.effects
  {
    Links(s);
  }

  lemma WokenFinal(s: State, r: nat)
    requires r in s.woken && r !in s.replies
    ensures Final(s, Woken(s, r))
  {
    hide Final, Resumed, Declined;
    var (act, v) := s.woken[r];
    if v.Verdict? { ResumedFinal(s, r, act, v.id); }
    DeclinedFinal(s, r, v);
  }

  lemma ResumedFinal(s: State, r: nat, act: Act, id: Option<nat>)
    ensures Final(s, Resumed(s, r, act, id))
  {
    hide RowsStay;
    RowsSame(s, Resumed(s, r, act, id));
  }

  lemma DeclinedFinal(s: State, r: nat, v: Verdict)
    requires r !in s.replies
    ensures Final(s, Declined(s, r, v))
  {
    hide RowsStay;
    RowsSame(s, Declined(s, r, v));
  }

  lemma FiredFinal(s: State, id: nat)
    requires Inv(s)
    ensures Final(s, Fired(s, id))
  {
    hide Places, Truthful, Gates, RowsStay, Moved;
    Links(s);
    var t := s.(timers := s.timers - {id});
    RowsSame(s, t);
    assert Final(s, t);
    if id in s.pending {
      MovedFinal(t, id, EXPIRED);
      FinalTrans(s, t, Fired(s, id));
    }
  }

  lemma AnsweredFinal(s: State, id: nat, status: Status)
    requires Inv(s)
    ensures Final(s, Answered(s, id, status))
  {
    hide Places, Truthful, Gates, Final, Moved;
    Links(s);
    if id in s.rows && s.rows[id].status == PENDING { MovedFinal(s, id, status); } else { FinalSelf(s); }
  }

  lemma PlainFinal(s: State, c: Cmd)
    ensures Final(s, Arrived(s, c)) && Final(s, Rebooted(s))
  {
    hide RowsStay;
    RowsSame(s, Arrived(s, c));
    RowsSame(s, Rebooted(s));
  }

  lemma SweptFinal(s: State, ctx: Ctx)
    requires Queue(s)
    ensures Final(s, Swept(s, ctx.listed, ctx.now, Older(ctx.config)))
  {
    hide RowsStay;
    SweptQueue(s, ctx.listed, ctx.now, Older(ctx.config));
  }

  /** One step takes nothing back: a decided row stays decided, an answer is sent once. */
  lemma StepFinal(s: State, e: Event)
    requires Inv(s) && Allowed(s, e)
    ensures Final(s, Step(s, e))
  {
    hide Final, Places, Queue, Linked, Truthful, Gates, Handled, Answered, Fired, Woken, Arrived, Rebooted, Swept;
    Links(s);
    match e
    case Arrive(c) => PlainFinal(s, c);
    case Handle(r, ctx) => HandledFinal(s, r, ctx);
    case Human(id, decision) => AnsweredFinal(s, id, StatusOf(decision));
    case Timer(id) => FiredFinal(s, id);
    case Wake(r) => WokenFinal(s, r);
    case Sweep(ctx) => SweptFinal(s, ctx);
    case Reboot => PlainFinal(s, Ask("", "", "", 0));
  }

  /** A decided row never changes again, and no answer is ever sent twice, whatever happens next. */
  lemma {:induction false} DecisionsAreFinal(s: State, es: seq<Event>)
    requires Inv(s) && Runs(s, es)
    ensures Final(s, Run(s, es))
    decreases |es|
  {
    hide Inv, Final;
    if es == [] {
      FinalSelf(s);
    } else {
      StepKeepsInv(s, es[0]);
      StepFinal(s, es[0]);
      DecisionsAreFinal(Step(s, es[0]), es[1..]);
      FinalTrans(s, Step(s, es[0]), Run(s, es));
    }
  }

  lemma FinalSelf(s: State)
    ensures Final(s, s)
  {}

  // ---------------------------------------------------------------- answers

  /** In every reachable state the queue in memory is exactly the pending rows made in this boot, and
      whoever was told about a row was told its final status, and nobody else was told about it. */
  lemma AnswersMatchRows(es: seq<Event>, s: State)
    requires After(es, s)
    ensures forall id :: id in s.pending <==> id in s.rows && s.boot <= id && s.rows[id].status == PENDING
    ensures forall r :: r in s.told && RowOf(s.told[r]).Some? ==>
        HasStatus(s, RowOf(s.told[r]).value, s.told[r].status) && s.told[r].status != PENDING
    ensures forall r, q :: r in s.told && q in s.told && r != q && RowOf(s.told[r]).Some? ==> RowOf(s.told[r]) != RowOf(s.told[q])
  {
    hide Runs, Run;
    EmptyInv();
  }

  function StatusFor(mode: string): Status {
    if mode == AUTO then APPROVED else if mode == DENY then DENIED else PENDING
  }

  lemma ToldRows(s: State, w: Waiter, v: Verdict)
    requires w.reply !in s.told && w.reply !in s.replies
    ensures Told1(s, w, v).rows == s.rows
  {}

  lemma DecidedRows(s: State, ctx: Ctx, env: string, kind: string, mode: string, w: Waiter)
    requires w.reply !in s.told && w.reply !in s.replies
    ensures Decided(s, ctx, env, kind, mode, w).rows == WithRow(s, ctx, Row(env, kind, StatusFor(mode), ctx.now))
  {
    hide Swept, Told1;
    var t := Swept(s, ctx.listed, ctx.now, Older(ctx.config));
    SweptNext(s, ctx);
    var row := Row(env, kind, StatusFor(mode), ctx.now);
    ToldRows(if ctx.writable then PutRow(t, row) else t, w, Verdict(if ctx.writable then Some(t.next) else None, StatusFor(mode)));
    ToldRows(t, w, Unwritable);
  }

  lemma SweptNext(s: State, ctx: Ctx)
    ensures var t := Swept(s, ctx.listed, ctx.now, Older(ctx.config)); t.next == s.next && t.told == s.told && t.replies == s.replies
  {}

  /** The rows after a sweep, with a new one when the store takes it. */
  function WithRow(s: State, ctx: Ctx, row: Row): map<nat, Row> {
    var swept := Swept(s, ctx.listed, ctx.now, Older(ctx.config)).rows;
    if ctx.writable then swept[s.next := row] else swept
  }

  /** The mode a queued command asks for a verdict with: base's own for every gate. */
  function ModeOf(c: Cmd, ctx: Ctx): string {
    if c.Ask? then c.mode else ctx.config.mode
  }

  /** What makes a row be in a status it was not in. */
  ghost predicate Reason(s: State, e: Event, id: nat, status: Status) {
    match status
    case APPROVED => e.Human? && e.id == id && e.decision !in {"deny", "denied", "no", "false"}
    case DENIED => e.Human? && e.id == id && e.decision in {"deny", "denied", "no", "false"}
    case EXPIRED =>
      e == Timer(id)
      || (id in s.rows && id < s.boot && (e.Sweep? || e.Handle?)
          && e.ctx.now - s.rows[id].created >= 1000 * Max(e.ctx.config.timeout, 1))
    case PENDING => false
  }

  /** The row, if it is new, has a status its mode calls for; if it moved, it moved for a reason. */
  ghost predicate Explained(s: State, e: Event, id: nat, after: map<nat, Row>) {
    && (id in after && id in s.rows && after[id] != s.rows[id] ==>
          s.rows[id].status == PENDING && Reason(s, e, id, after[id].status))
    && (id in after && id !in s.rows ==>
          e.Handle? && e.reply in s.queued && after[id].status == StatusFor(ModeOf(s.queued[e.reply], e.ctx)))
  }

  lemma SweptExplained(s: State, e: Event, id: nat)
    requires Queue(s) && (e.Sweep? || e.Handle?)
    ensures Explained(s, e, id, Swept(s, e.ctx.listed, e.ctx.now, Older(e.ctx.config)).rows)
    ensures s.next !in s.rows
  {}

  lemma WithRowExplained(s: State, e: Event, id: nat, row: Row)
    requires Queue(s) && e.Handle? && e.reply in s.queued && row.status == StatusFor(ModeOf(s.queued[e.reply], e.ctx))
    ensures Explained(s, e, id, WithRow(s, e.ctx, row))
  {
    hide Queue, Reason, Swept, StatusFor, ModeOf;
    SweptExplained(s, e, id);
  }

  lemma MovedExplained(s: State, e: Event, id: nat, status: Status, i: nat)
    requires HasStatus(s, id, PENDING) && Reason(s, e, id, status)
    requires id in s.pending ==> s.pending[id].waiter.reply !in s.told && s.pending[id].waiter.reply !in s.replies
    ensures Explained(s, e, i, Moved(s, id, status).rows)
  {
    hide Told1, Reason;
    if id in s.pending { ToldRows(MovedRow(s, id, status), s.pending[id].waiter, Verdict(Some(id), status)); }
  }

  lemma HandledExplained(s: State, r: nat, ctx: Ctx, id: nat)
    requires Inv(s) && r in s.queued
    ensures Explained(s, Handle(r, ctx), id, Handled(s, r, ctx).rows)
  {
    hide Inv, Acted, Decided, Explained, WithRow, StatusFor;
    Links(s);
    match s.queued[r]
    case Ask(env, kind, mode, _) =>
      DecidedRows(Taken(s, r), ctx, env, kind, mode, Direct(r));
      ExplainRow(s, Handle(r, ctx), id, Row(env, kind, StatusFor(mode), ctx.now));
    case Do(act, approved) => ActedExplained(s, r, act, approved, ctx, id);
  }

  lemma ActedExplained(s: State, r: nat, act: Act, approved: bool, ctx: Ctx, id: nat)
    requires Inv(s) && r in s.queued && s.queued[r] == Do(act, approved) && r !in s.replies && (approved || r !in s.told)
    ensures Explained(s, Handle(r, ctx), id, Acted(Taken(s, r), r, act, approved, ctx).rows)
  {
    hide Inv, Acted, Explained, WithRow, StatusFor, Kind;
    var same := ActedRows(Taken(s, r), r, act, approved, ctx);
    if same {
      NothingMoved(s, Handle(r, ctx), id);
    } else {
      ExplainRow(s, Handle(r, ctx), id, Row(act.env, Kind(act), StatusFor(ctx.config.mode), ctx.now));
    }
  }

  lemma RepliedRows(s: State, r: nat, act: Act, approved: bool, ctx: Ctx)
    requires r !in s.replies
    ensures Replied(s, r, BadPatch).rows == s.rows && Performed(s, r, act, approved, ctx).rows == s.rows
  {}

  /** Either the rows stay, or the gate asked for a verdict. */
  lemma ActedRows(s: State, r: nat, act: Act, approved: bool, ctx: Ctx) returns (same: bool)
    requires r !in s.replies && (approved || r !in s.told)
    ensures Acted(s, r, act, approved, ctx).rows
         == if same then s.rows else WithRow(s, ctx, Row(act.env, Kind(act), StatusFor(ctx.config.mode), ctx.now))
  {
    hide Decided, WithRow, StatusFor, Kind, Gated, Performed, Replied;
    same := (act.Patch? && !act.isObject) || approved || !Gated(act, ctx.config, ctx.total);
    RepliedRows(s, r, act, approved, ctx);
    if !same { DecidedRows(s, ctx, act.env, Kind(act), ctx.config.mode, Held(r, act)); }
  }

  lemma ExplainRow(s: State, e: Event, id: nat, row: Row)
    requires Inv(s) && e.Handle? && e.reply in s.queued && row.status == StatusFor(ModeOf(s.queued[e.reply], e.ctx))
    ensures Explained(s, e, id, WithRow(Taken(s, e.reply), e.ctx, row))
  {
    hide Queue, Places, Explained, WithRow;
    TakenWithRow(s, e.reply, e.ctx, row);
    WithRowExplained(s, e, id, row);
  }

  lemma TakenWithRow(s: State, r: nat, ctx: Ctx, row: Row)
    ensures WithRow(Taken(s, r), ctx, row) == WithRow(s, ctx, row)
  {
    assert Swept(Taken(s, r), ctx.listed, ctx.now, Older(ctx.config)).rows == Swept(s, ctx.listed, ctx.now, Older(ctx.config)).rows;
  }

  lemma NothingMoved(s: State, e: Event, id: nat)
    ensures Explained(s, e, id, s.rows)
  {}

  /** A row only moves from PENDING, for one of these reasons: a human's words, its own timer, or, when
      an earlier process left it, its age. A new row has the status its mode calls for. */
  lemma RowsMoveForAReason(s: State, e: Event, id: nat)
    requires Inv(s) && Allowed(s, e)
    ensures Explained(s, e, id, Step(s, e).rows)
  {
    hide Places, Linked, Truthful, Gates, Explained, Handled, Moved, Swept;
    Links(s);
    NothingMoved(s, e, id);
    match e
    case Handle(r, ctx) => HandledExplained(s, r, ctx, id);
    case Human(i, decision) =>
      if HasStatus(s, i, PENDING) { MovedExplained(s, e, i, StatusOf(decision), id); }
    case Timer(i) =>
      if i in s.pending {
        var t := s.(timers := s.timers - {i});
        MovedExplained(t, e, i, EXPIRED, id);
        SameExplained(s, t, e, id, Step(s, e).rows);
      }
    case Sweep(ctx) => SweptExplained(s, e, id);
    case _ =>
  }

  lemma SameExplained(s: State, t: State, e: Event, id: nat, after: map<nat, Row>)
    requires Explained(t, e, id, after) && t.rows == s.rows && t.boot == s.boot && t.queued == s.queued
    ensures Explained(s, e, id, after)
  {}

  /** Deciding a row releases whoever waits for it, with that status. */
  lemma DecidingReleases(s: State, id: nat, decision: string)
    requires Inv(s) && id in s.pending
    ensures var w := s.pending[id].waiter; var t := Answered(s, id, StatusOf(decision));
      w.reply in t.told && t.told[w.reply] == Verdict(Some(id), StatusOf(decision)) && HasStatus(t, id, StatusOf(decision))
    ensures var w := s.pending[id].waiter; var t := Fired(s, id);
      w.reply in t.told && t.told[w.reply] == Verdict(Some(id), EXPIRED) && HasStatus(t, id, EXPIRED)
  {
    hide Places, Truthful, Gates;
  }

  /** Every command's reply is in exactly one place: queued, held for a verdict, waking, answered, or
      lost with an earlier process. */
  lemma RepliesAreNeverLost(es: seq<Event>, s: State, r: nat)
    requires After(es, s)
    ensures r < s.counter <==> r in s.queued || r in s.woken || r in s.replies || r in s.waiting || r in s.lost
    ensures r in s.replies ==> r !in s.queued && r !in s.woken && r !in s.waiting && r !in s.lost
  {
    hide Runs, Run;
    EmptyInv();
    assert Spot(s, {}, r) == B(r < s.counter);
  }

  lemma WaitingIsArmed(s: State, r: nat)
    requires Core(s)
    ensures r in s.waiting ==> s.waiting[r] in s.timers
  {
    hide Truthful, Gates;
  }

  /** Once the timers have fired and the queues are worked off, nobody is left waiting: each command
      accepted in this boot has its one answer, and no row of this boot is pending. */
  lemma TimersDrainTheQueue(es: seq<Event>, s: State)
    requires After(es, s)
    requires s.timers == {} && s.queued == map[] && s.woken == map[]
    ensures forall r: nat :: r < s.counter && r !in s.lost ==> r in s.replies
    ensures forall id :: id in s.rows && s.boot <= id ==> s.rows[id].status != PENDING
  {
    hide Runs, Run;
    EmptyInv();
    forall r: nat | r < s.counter && r !in s.lost ensures r in s.replies {
      assert Spot(s, {}, r) == B(r < s.counter);
      WaitingIsArmed(s, r);
    }
    forall id | id in s.rows && s.boot <= id ensures s.rows[id].status != PENDING {
      assert id in s.pending ==> id in s.timers;
    }
  }

  // ---------------------------------------------------------------- gated actions

  /** Every action that was performed past a limit, and every change of base's own config, came with a pass:
      an upgrade of the env's own config, or a verdict that the row it names was approved, for that
      kind of action. */
  lemma GatedActionsHaveAPass(es: seq<Event>, s: State, r: nat)
    requires After(es, s)
    requires r in s.effects
    ensures var e := s.effects[r];
      (PastLimit(e) || (e.act.Patch? && e.act.base)) ==> PassFits(s, r, e.act)
  {
    hide Runs, Run, PassFits;
    EmptyInv();
  }

  /** Each approved row lets at most one command through. */
  lemma OneCommandPerRow(es: seq<Event>, s: State, r: nat, q: nat)
    requires After(es, s) && r != q
    requires r in s.effects && q in s.effects && s.effects[r].approved && s.effects[q].approved
    requires r in s.passes && q in s.passes && s.passes[r].ByVerdict? && s.passes[r].id.Some?
    ensures s.passes[r] != s.passes[q]
  {
    hide Runs, Run;
    EmptyInv();
    assert PassFits(s, r, s.effects[r].act) && PassFits(s, q, s.effects[q].act);
  }

  /** No command is handled while base's mode is `auto` and the store refuses the row. */
  ghost predicate NoneSlips(es: seq<Event>) {
    forall e :: e in es && e.Handle? ==> e.ctx.config.mode != AUTO || e.ctx.writable
  }

  /** No gate is let through without a row. */
  ghost predicate Recorded(s: State) {
    && (forall r :: r in s.woken && s.woken[r].1.Verdict? && s.woken[r].1.status == APPROVED ==> s.woken[r].1.id.Some?)
    && (forall r :: r in s.passes && s.passes[r].ByVerdict? ==> s.passes[r].id.Some?)
  }

  lemma ToldRecorded(s: State, w: Waiter, v: Verdict)
    requires Recorded(s) && w.reply !in s.told && w.reply !in s.replies
    requires w.Held? && v.Verdict? && v.status == APPROVED ==> v.id.Some?
    ensures Recorded(Told1(s, w, v))
  {}

  lemma SameRecorded(s: State, t: State)
    requires Recorded(s) && t.passes == s.passes
    requires forall r :: r in t.woken ==> r in s.woken && t.woken[r] == s.woken[r]
    ensures Recorded(t)
  {}

  lemma SettledRecorded(s: State, ctx: Ctx, env: string, kind: string, status: Status, w: Waiter)
    requires Recorded(s) && w.reply !in s.told && w.reply !in s.replies
    requires w.Held? && status == APPROVED ==> ctx.writable
    ensures Recorded(Settled(s, ctx, env, kind, status, w))
  {
    hide Recorded, Told1;
    if ctx.writable {
      SameRecorded(s, PutRow(s, Row(env, kind, status, ctx.now)));
      ToldRecorded(PutRow(s, Row(env, kind, status, ctx.now)), w, Verdict(Some(s.next), status));
    } else {
      ToldRecorded(s, w, Verdict(None, status));
    }
  }

  lemma EnqueuedRecorded(s: State, ctx: Ctx, env: string, kind: string, w: Waiter)
    requires Recorded(s) && w.reply !in s.told && w.reply !in s.replies
    ensures Recorded(Enqueued(s, ctx, env, kind, w))
  {
    hide Recorded, Told1;
    if ctx.writable { SameRecorded(s, Enqueued(s, ctx, env, kind, w)); } else { ToldRecorded(s, w, Unwritable); }
  }

  lemma DecidedRecorded(s: State, ctx: Ctx, env: string, kind: string, mode: string, w: Waiter)
    requires Recorded(s) && w.reply !in s.told && w.reply !in s.replies
    requires w.Held? ==> mode != AUTO || ctx.writable
    ensures Recorded(Decided(s, ctx, env, kind, mode, w))
  {
    hide Recorded, Settled, Enqueued;
    var t := Swept(s, ctx.listed, ctx.now, Older(ctx.config));
    SameRecorded(s, t);
    if mode == AUTO { SettledRecorded(t, ctx, env, kind, APPROVED, w); }
    else if mode == DENY { SettledRecorded(t, ctx, env, kind, DENIED, w); }
    else { EnqueuedRecorded(t, ctx, env, kind, w); }
  }

  lemma HandledRecorded(s: State, r: nat, ctx: Ctx)
    requires Inv(s) && r in s.queued && Recorded(s) && (ctx.config.mode != AUTO || ctx.writable)
    ensures Recorded(Handled(s, r, ctx))
  {
    hide Inv, Decided, Recorded, Performed, Replied, Kind, Gated;
    Links(s);
    var t := Taken(s, r);
    SameRecorded(s, t);
    match s.queued[r]
    case Ask(env, kind, mode, _) => DecidedRecorded(t, ctx, env, kind, mode, Direct(r));
    case Do(act, approved) =>
      if !(act.Patch? && !act.isObject) && !approved && Gated(act, ctx.config, ctx.total) {
        DecidedRecorded(t, ctx, act.env, Kind(act), ctx.config.mode, Held(r, act));
      } else {
        RepliedRecorded(t, r, BadPatch, act, approved, ctx);
      }
  }

  lemma RepliedRecorded(s: State, r: nat, o: Outcome, act: Act, approved: bool, ctx: Ctx)
    requires Recorded(s) && r !in s.replies
    ensures Recorded(Replied(s, r, o)) && Recorded(Performed(s, r, act, approved, ctx))
  {}

  lemma MovedRecorded(s: State, id: nat, status: Status)
    requires Recorded(s) && id in s.rows
    requires id in s.pending ==> s.pending[id].waiter.reply !in s.told && s.pending[id].waiter.reply !in s.replies
    ensures Recorded(Moved(s, id, status))
  {
    hide Recorded, Told1;
    SameRecorded(s, MovedRow(s, id, status));
    if id in s.pending { ToldRecorded(MovedRow(s, id, status), s.pending[id].waiter, Verdict(Some(id), status)); }
  }

  lemma WokenRecorded(s: State, r: nat)
    requires Recorded(s) && r in s.woken && r !in s.replies
    ensures Recorded(Woken(s, r))
  {
    hide Resumed, Declined;
    var (act, v) := s.woken[r];
    if v.Verdict? && v.status == APPROVED { ResumedRecorded(s, r, act, v.id); }
    DeclinedRecorded(s, r, v);
  }

  lemma ResumedRecorded(s: State, r: nat, act: Act, id: Option<nat>)
    requires Recorded(s) && id.Some?
    ensures Recorded(Resumed(s, r, act, id))
  {}

  lemma DeclinedRecorded(s: State, r: nat, v: Verdict)
    requires Recorded(s) && r !in s.replies
    ensures Recorded(Declined(s, r, v))
  {}

  lemma ArrivedRecorded(s: State, c: Cmd)
    requires Recorded(s)
    ensures Recorded(Arrived(s, c))
  {}

  lemma StepRecorded(s: State, e: Event)
    requires Inv(s) && Allowed(s, e) && Recorded(s) && (e.Handle? ==> e.ctx.config.mode != AUTO || e.ctx.writable)
    ensures Recorded(Step(s, e))
  {
    hide Inv, Recorded, Handled, Moved, Woken, Arrived;
    Links(s);
    match e
    case Arrive(c) => ArrivedRecorded(s, c);
    case Handle(r, ctx) => HandledRecorded(s, r, ctx);
    case Human(id, decision) =>
      if id in s.rows && s.rows[id].status == PENDING { MovedRecorded(s, id, StatusOf(decision)); }
    case Timer(id) =>
      var t := s.(timers := s.timers - {id});
      SameRecorded(s, t);
      if id in s.pending { MovedRecorded(t, id, EXPIRED); }
    case Wake(r) => WokenRecorded(s, r);
    case Sweep(ctx) => SameRecorded(s, Step(s, e));
    case Reboot => SameRecorded(s, Step(s, e));
  }

  lemma {:induction false} RunRecorded(s: State, es: seq<Event>)
    requires Inv(s) && Runs(s, es) && Recorded(s) && NoneSlips(es)
    ensures Recorded(Run(s, es))
    decreases |es|
  {
    hide Inv, Recorded, Step;
    if es != [] {
      StepKeepsInv(s, es[0]);
      StepRecorded(s, es[0]);
      RunRecorded(Step(s, es[0]), es[1..]);
    }
  }

  /** The action behind a reply was let through by an approved row of this kind. */
  ghost predicate ApprovedRow(s: State, r: nat, kind: string) {
    && r in s.passes && s.passes[r].ByVerdict? && s.passes[r].id.Some?
    && HasStatus(s, s.passes[r].id.value, APPROVED) && HasKind(s, s.passes[r].id.value, kind)
  }

  /** Unless a command is handled in mode `auto` while the store refuses: an export where exports are gated,
      a spawn at or past the soft limit, a patch of base's own config, and a patch of an env's where those
      are gated, are performed only after a row of exactly that kind became APPROVED; or, the last, as the
      promotion of an upgrade. */
  lemma GatedActionsWereApproved(es: seq<Event>, s: State, r: nat)
    requires After(es, s) && NoneSlips(es) && r in s.effects
    ensures var e := s.effects[r];
      && (e.act.SnapExport? && e.config.gateExport ==> ApprovedRow(s, r, "snap.export"))
      && (e.act.Spawn? && e.config.softLimit != 0 && e.total >= e.config.softLimit ==> ApprovedRow(s, r, "runtime.spawn"))
      && (e.act.Patch? && e.act.base ==> ApprovedRow(s, r, "config.patch"))
      && (e.act.Patch? && !e.act.base && e.config.gatePatch ==>
            ApprovedRow(s, r, "config.patch") || (r in s.passes && s.passes[r] == ByUpgrade))
  {
    hide Runs, Run;
    EmptyInv();
    RunRecorded(EMPTY, es);
    if PastLimit(s.effects[r]) { assert PassFits(s, r, s.effects[r].act); }
  }

  lemma SettledTells(s: State, ctx: Ctx, env: string, kind: string, status: Status, w: Waiter)
    requires w.reply !in s.told && w.reply !in s.replies
    ensures w.reply in Settled(s, ctx, env, kind, status, w).told
    ensures Settled(s, ctx, env, kind, status, w).told[w.reply] == Verdict(if ctx.writable then Some(s.next) else None, status)
  {}

  lemma EnqueuedTells(s: State, ctx: Ctx, env: string, kind: string, w: Waiter)
    requires w.reply !in s.told && w.reply !in s.replies
    ensures w.reply in Enqueued(s, ctx, env, kind, w).told ==> Enqueued(s, ctx, env, kind, w).told[w.reply] == Unwritable
  {}

  /** A request is approved without a row exactly when the mode is `auto` and the store refuses it. */
  lemma ApprovedWithoutRow(s: State, ctx: Ctx, env: string, kind: string, mode: string, w: Waiter)
    requires w.reply !in s.told && w.reply !in s.replies
    ensures (w.reply in Decided(s, ctx, env, kind, mode, w).told && Decided(s, ctx, env, kind, mode, w).told[w.reply] == Verdict(None, APPROVED))
        <==> (mode == AUTO && !ctx.writable)
  {
    hide Settled, Enqueued;
    var t := Swept(s, ctx.listed, ctx.now, Older(ctx.config));
    SettledTells(t, ctx, env, kind, APPROVED, w);
    SettledTells(t, ctx, env, kind, DENIED, w);
    EnqueuedTells(t, ctx, env, kind, w);
  }

  const LOCKED := Ctx(Config(AUTO, 1, true, true, 1), 0, false, [], 0)
  const EXPORT := SnapExport("root", "/tmp/out")

  /** A command arrives, is handled, its gate wakes and it is handled again. */
  function Through(act: Act, ctx: Ctx): seq<Event> {
    [Arrive(Do(act, false)), Handle(0, ctx), Wake(0), Handle(0, ctx)]
  }

  /** So a gated export goes through with no row anywhere. */
  lemma AutoNeedsNoRow()
    ensures exists s :: After(Through(EXPORT, LOCKED), s) && s.rows == map[]
                     && 0 in s.effects && s.effects[0] == Effect(EXPORT, true, LOCKED.config, LOCKED.total)
  {
    hide Inv, Decided, Performed;
    EmptyInv();
    var es := Through(EXPORT, LOCKED);
    var s1 := Step(EMPTY, es[0]);
    RunsOn(EMPTY, es);
    assert 0 in s1.queued && s1.queued[0] == Do(EXPORT, false);
    var s2 := Step(s1, es[1]);
    StepKeepsInv(s1, es[1]);
    ArrivedEmpty(s1);
    assert s2 == Decided(Taken(s1, 0), LOCKED, "root", "snap.export", AUTO, Held(0, EXPORT));
    SlipsThrough(Taken(s1, 0), s2);
    var s3 := Step(s2, es[2]);
    StepKeepsInv(s2, es[2]);
    assert 0 in s3.queued && s3.queued[0] == Do(EXPORT, true) && s3.rows == map[];
    StepKeepsInv(s3, es[3]);
    Links(s3);
    assert Step(s3, es[3]) == Performed(Taken(s3, 0), 0, EXPORT, true, LOCKED);
    PerformedShows(Taken(s3, 0), EXPORT, LOCKED);
    RunsOn(s3, es[3..]);
    RunsOn(s2, es[2..]);
    RunsOn(s1, es[1..]);
    assert es[1..][1..] == es[2..] && es[2..][1..] == es[3..] && es[3..][1..] == [];
    assert After(es, Step(s3, es[3]));
  }

  lemma RunsOn(s: State, es: seq<Event>)
    requires Inv(s) && es != [] && Allowed(s, es[0])
    ensures Inv(Step(s, es[0]))
    ensures Runs(Step(s, es[0]), es[1..]) ==> Runs(s, es) && Run(s, es) == Run(Step(s, es[0]), es[1..])
  {
    StepKeepsInv(s, es[0]);
  }

  lemma ArrivedEmpty(s: State)
    requires s == Arrived(EMPTY, Do(EXPORT, false))
    ensures s.rows == map[] && s.told == map[] && s.replies == map[] && s.woken == map[]
  {}

  lemma SlipsThrough(s: State, t: State)
    requires s.rows == map[] && 0 !in s.told && 0 !in s.replies
    requires t == Decided(s, LOCKED, "root", "snap.export", AUTO, Held(0, EXPORT))
    ensures t.rows == map[] && 0 in t.woken && t.woken[0] == (EXPORT, Verdict(None, APPROVED))
  {
    var u := Swept(s, LOCKED.listed, LOCKED.now, Older(LOCKED.config));
    assert u.rows == map[];
  }

  lemma PerformedShows(s: State, act: Act, ctx: Ctx)
    requires 0 !in s.replies
    ensures var t := Performed(s, 0, act, true, ctx);
      t.rows == s.rows && t.passes == s.passes && 0 in t.effects && t.effects[0] == Effect(act, true, ctx.config, ctx.total)
  {}

  const PROMOTED := Patch("root", false, true)

  /** The promotion of an upgrade to an env's own config arrives with its flag set, and is handled. */
  function Promotion(ctx: Ctx): seq<Event> {
    [Arrive(Do(PROMOTED, true)), Handle(0, ctx)]
  }

  /** So such a promotion passes the gate on config patches with no row of that kind, nor of any other. */
  lemma UpgradePassesTheGate(ctx: Ctx)
    requires ctx.config.gatePatch
    ensures exists s :: After(Promotion(ctx), s) && s.rows == map[] && s.passes == map[0 := ByUpgrade]
                     && 0 in s.effects && s.effects[0] == Effect(PROMOTED, true, ctx.config, ctx.total)
  {
    hide Inv, Decided, Performed;
    EmptyInv();
    var es := Promotion(ctx);
    var s1 := Step(EMPTY, es[0]);
    RunsOn(EMPTY, es);
    assert 0 in s1.queued && s1.queued[0] == Do(PROMOTED, true);
    StepKeepsInv(s1, es[1]);
    Links(s1);
    assert Step(s1, es[1]) == Performed(Taken(s1, 0), 0, PROMOTED, true, ctx);
    PerformedShows(Taken(s1, 0), PROMOTED, ctx);
    RunsOn(s1, es[1..]);
    assert es[1..][1..] == [];
    assert After(es, Step(s1, es[1]));
  }
}
