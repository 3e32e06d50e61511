/**
 The approval queue and the gates behind it, as a state machine. Commands arrive and are handled in
 any order; humans answer, timers fire, gates wake and the process restarts at any point.
 */
module ApprovalSpec {
  import opened Prelude

  datatype Status = PENDING | APPROVED | DENIED | EXPIRED

  datatype Row = Row(env: string, kind: string, status: Status, created: int)

  /** What a blocked call is told. The row's number is missing when the store refused the row. */
  datatype Verdict = Verdict(id: Option<nat>, status: Status) | Unwritable

  /** The host-affecting actions. */
  datatype Act =
    | SnapExport(env: string, path: string)
    | Spawn(env: string)
    | Patch(env: string, base: bool, isObject: bool)

  /** A command, by the number of its reply. */
  datatype Cmd = Do(act: Act, approved: bool) | Ask(env: string, kind: string, mode: string, timeout: nat)

  /** Who waits for a verdict: the caller of `approval.request`, or a gate holding a command's reply. */
  datatype Waiter = Direct(reply: nat) | Held(reply: nat, act: Act)

  datatype Pend = Pend(env: string, kind: string, waiter: Waiter)

  datatype Outcome = Ran | BadPatch | Told(v: Verdict) | Refused(v: Verdict)

  /** An action performed, with the configuration and the number of environments it was performed under. */
  datatype Effect = Effect(act: Act, approved: bool, config: Config, total: nat)

  /** How a command came by its `approved` flag. */
  datatype Pass = ByVerdict(id: Option<nat>) | ByUpgrade

  datatype Config = Config(mode: string, timeout: nat, gateExport: bool, gatePatch: bool, softLimit: nat)

  /** What the surroundings supply when a command is handled. */
  datatype Ctx = Ctx(config: Config, now: int, writable: bool, listed: seq<nat>, total: nat)

  /** `waiting`, `told`, `passes` and `lost` are history: which row a reply waits for, what each waiter
      was told, how flags were obtained, and the replies that died with an earlier process. */
  datatype State = State(
    rows: map<nat, Row>, next: nat, boot: nat,
    pending: map<nat, Pend>, timers: set<nat>,
    queued: map<nat, Cmd>, woken: map<nat, (Act, Verdict)>,
    replies: map<nat, Outcome>, effects: map<nat, Effect>, counter: nat,
    waiting: map<nat, nat>, told: map<nat, Verdict>, passes: map<nat, Pass>, lost: set<nat>)

  const AUTO := "auto"
  const DENY := "deny"

  const EMPTY := State(map[], 0, 0, map[], {}, map[], map[], map[], map[], 0, map[], map[], map[], {})

  function Kind(act: Act): string {
    match act
    case SnapExport(_, _) => "snap.export"
    case Spawn(_) => "runtime.spawn"
    case Patch(_, _, _) => "config.patch"
  }

  /** The actions that need a human under a configuration. */
  predicate Gated(act: Act, c: Config, total: nat) {
    match act
    case SnapExport(_, _) => c.gateExport
    case Spawn(_) => c.softLimit != 0 && total >= c.softLimit
    case Patch(_, base, _) => base || c.gatePatch
  }

  function StatusOf(decision: string): Status {
    if decision in {"deny", "denied", "no", "false"} then DENIED else APPROVED
  }

  // ---------------------------------------------------------------- steps

  function Stale(s: State, id: nat, now: int, older: int): bool {
    id in s.rows && s.rows[id].status == PENDING && id !in s.pending && now - s.rows[id].created >= older
  }

  function Swept(s: State, listed: seq<nat>, now: int, older: int): State {
    s.(rows := map id | id in s.rows ::
                 if id in listed && Stale(s, id, now, older) then s.rows[id].(status := EXPIRED) else s.rows[id])
  }

  function Older(c: Config): int {
    Max(c.timeout, 1) * 1000
  }

  function PutRow(s: State, row: Row): State {
    s.(rows := s.rows[s.next := row], next := s.next + 1)
  }

  function Told1(s: State, w: Waiter, v: Verdict): State
    requires w.reply !in s.told && w.reply !in s.replies
  {
    var t := s.(told := s.told[w.reply := v]);
    match w
    case Direct(r) => t.(replies := t.replies[r := Told(v)])
    case Held(r, act) => t.(woken := t.woken[r := (act, v)])
  }

  function Waits(s: State, id: nat, p: Pend): State {
    s.(pending := s.pending[id := p], waiting := s.waiting[p.waiter.reply := id], timers := s.timers + {id})
  }

  /** `auto` and `deny` answer at once, whether or not the row could be written. */
  function Settled(s: State, ctx: Ctx, env: string, kind: string, status: Status, w: Waiter): State
    requires w.reply !in s.told && w.reply !in s.replies
  {
    if ctx.writable then Told1(PutRow(s, Row(env, kind, status, ctx.now)), w, Verdict(Some(s.next), status))
    else Told1(s, w, Verdict(None, status))
  }

  /** Any other mode waits for a human, if the row could be written. */
  function Enqueued(s: State, ctx: Ctx, env: string, kind: string, w: Waiter): State
    requires w.reply !in s.told && w.reply !in s.replies
  {
    if ctx.writable then Waits(PutRow(s, Row(env, kind, PENDING, ctx.now)), s.next, Pend(env, kind, w))
    else Told1(s, w, Unwritable)
  }

  function Decided(s: State, ctx: Ctx, env: string, kind: string, mode: string, w: Waiter): State
    requires w.reply !in s.told && w.reply !in s.replies
  {
    var t := Swept(s, ctx.listed, ctx.now, Older(ctx.config));
    if mode == AUTO then Settled(t, ctx, env, kind, APPROVED, w)
    else if mode == DENY then Settled(t, ctx, env, kind, DENIED, w)
    else Enqueued(t, ctx, env, kind, w)
  }

  /** The row of a waiting or orphaned request moves, before its waiter is told. */
  function MovedRow(s: State, id: nat, status: Status): State
    requires id in s.rows
  {
    s.(rows := s.rows[id := s.rows[id].(status := status)],
       pending := if id in s.pending then s.pending - {id} else s.pending,
       waiting := if id in s.pending then s.waiting - {s.pending[id].waiter.reply} else s.waiting)
  }

  /** A row's status moves and its waiter, if it has one, is told. */
  function Moved(s: State, id: nat, status: Status): State
    requires id in s.rows
    requires id in s.pending ==> s.pending[id].waiter.reply !in s.told && s.pending[id].waiter.reply !in s.replies
  {
    var t := MovedRow(s, id, status);
    if id in s.pending then Told1(t, s.pending[id].waiter, Verdict(Some(id), status)) else t
  }

  /** A human's verdict: only a pending row moves. */
  function Answered(s: State, id: nat, status: Status): State
    requires Inv(s)
  {
    Links(s);
    if id in s.rows && s.rows[id].status == PENDING then Moved(s, id, status) else s
  }

  function Fired(s: State, id: nat): State
    requires Inv(s)
  {
    Links(s);
    var t := s.(timers := s.timers - {id});
    if id in s.pending then Moved(t, id, EXPIRED) else t
  }

  /** The gated command comes back, its gate already passed. */
  function Resumed(s: State, r: nat, act: Act, id: Option<nat>): State {
    s.(woken := s.woken - {r}, queued := s.queued[r := Do(act, true)], passes := s.passes[r := ByVerdict(id)])
  }

  function Declined(s: State, r: nat, v: Verdict): State
    requires r !in s.replies
  {
    s.(woken := s.woken - {r}, replies := s.replies[r := Refused(v)])
  }

  function Woken(s: State, r: nat): State
    requires r in s.woken && r !in s.replies
  {
    var (act, v) := s.woken[r];
    if v.Verdict? && v.status == APPROVED then Resumed(s, r, act, v.id) else Declined(s, r, v)
  }

  function Replied(s: State, r: nat, o: Outcome): State
    requires r !in s.replies
  {
    s.(replies := s.replies[r := o])
  }

  function Performed(s: State, r: nat, act: Act, approved: bool, ctx: Ctx): State
    requires r !in s.replies
  {
    Replied(s, r, Ran).(effects := s.effects[r := Effect(act, approved, ctx.config, ctx.total)])
  }

  function Taken(s: State, r: nat): State {
    s.(queued := s.queued - {r})
  }

  /** An action is performed when it is approved or needs no approval, and gated otherwise. */
  function Acted(s: State, r: nat, act: Act, approved: bool, ctx: Ctx): State
    requires r !in s.replies && (approved || r !in s.told)
  {
    if act.Patch? && !act.isObject then Replied(s, r, BadPatch)
    else if approved || !Gated(act, ctx.config, ctx.total) then Performed(s, r, act, approved, ctx)
    else Decided(s, ctx, act.env, Kind(act), ctx.config.mode, Held(r, act))
  }

  function Handled(s: State, r: nat, ctx: Ctx): State
    requires Inv(s) && r in s.queued
  {
    Links(s);
    match s.queued[r]
    case Ask(env, kind, mode, _) => Decided(Taken(s, r), ctx, env, kind, mode, Direct(r))
    case Do(act, approved) => Acted(Taken(s, r), r, act, approved, ctx)
  }

  /** A command from outside is never approved yet, except an env's own config when an upgrade of it
      is promoted. */
  predicate Admissible(c: Cmd) {
    c.Do? && c.approved ==> c.act.Patch? && !c.act.base
  }

  function Arrived(s: State, c: Cmd): State {
    s.(queued := s.queued[s.counter := c], counter := s.counter + 1,
       passes := if c.Do? && c.approved then s.passes[s.counter := ByUpgrade] else s.passes)
  }

  /** A new process over the same store: nothing blocked, held or armed survives. */
  function Rebooted(s: State): State {
    s.(boot := s.next, pending := map[], timers := {}, queued := map[], woken := map[], waiting := map[],
       lost := s.lost + s.queued.Keys + s.woken.Keys + s.waiting.Keys)
  }

  datatype Event =
    | Arrive(cmd: Cmd) | Handle(reply: nat, ctx: Ctx) | Human(id: nat, decision: string)
    | Timer(id: nat) | Wake(reply: nat) | Sweep(ctx: Ctx) | Reboot

  predicate Allowed(s: State, e: Event) {
    match e
    case Arrive(c) => Admissible(c)
    case Handle(r, _) => r in s.queued
    case Timer(id) => id in s.timers
    case Wake(r) => r in s.woken
    case _ => true
  }

  function Step(s: State, e: Event): State
    requires Inv(s) && Allowed(s, e)
  {
    Links(s);
    match e
    case Arrive(c) => Arrived(s, c)
    case Handle(r, ctx) => Handled(s, r, ctx)
    case Human(id, decision) => Answered(s, id, StatusOf(decision))
    case Timer(id) => Fired(s, id)
    case Wake(r) => Woken(s, r)
    case Sweep(ctx) => Swept(s, ctx.listed, ctx.now, Older(ctx.config))
    case Reboot => Rebooted(s)
  }

  // ---------------------------------------------------------------- the invariant

  function B(b: bool): nat {
    if b then 1 else 0
  }

  /** In how many places a reply is. */
  function Spot(s: State, limbo: set<nat>, r: nat): nat {
    B(r in s.queued) + B(r in s.woken) + B(r in s.replies) + B(r in s.waiting) + B(r in s.lost) + B(r in limbo)
  }

  /** Every reply is in exactly one place. */
  ghost predicate Places(s: State, limbo: set<nat>) {
    forall r: nat :: Spot(s, limbo, r) == B(r < s.counter)
  }

  /** The queue in memory is exactly the pending rows of this boot, each with a timer armed. */
  ghost predicate Queue(s: State) {
    && s.boot <= s.next
    && (forall id :: id in s.rows ==> id < s.next)
    && (forall id :: id in s.pending <==> id in s.rows && s.boot <= id && s.rows[id].status == PENDING)
    && (forall id :: id in s.pending ==> s.pending[id].kind == s.rows[id].kind)
    && (forall id :: id in s.pending ==> id in s.timers)
    && (forall id :: id in s.timers ==> s.boot <= id < s.next)
  }

  /** `waiting` is the other direction of `pending`. */
  ghost predicate Linked(s: State) {
    && (forall id :: id in s.pending ==> s.pending[id].waiter.reply in s.waiting && s.waiting[s.pending[id].waiter.reply] == id)
    && (forall r :: r in s.waiting ==> s.waiting[r] in s.pending && s.pending[s.waiting[r]].waiter.reply == r)
    && (forall id :: id in s.pending && s.pending[id].waiter.Held? ==> Kind(s.pending[id].waiter.act) == s.pending[id].kind)
  }

  function RowOf(v: Verdict): Option<nat> {
    if v.Verdict? then v.id else None
  }

  predicate HasStatus(s: State, id: nat, status: Status) {
    id in s.rows && s.rows[id].status == status
  }

  predicate HasKind(s: State, id: nat, kind: string) {
    id in s.rows && s.rows[id].kind == kind
  }

  /** A verdict names a decided row with that very status, and no two name the same row. */
  ghost predicate Truthful(s: State) {
    && (forall r :: r in s.told ==> r < s.counter && r !in s.waiting)
    && (forall r :: r in s.told && s.told[r].Verdict? ==> s.told[r].status != PENDING)
    && (forall r :: r in s.told && RowOf(s.told[r]).Some? ==> HasStatus(s, RowOf(s.told[r]).value, s.told[r].status))
    && (forall r, q :: r in s.told && q in s.told && r != q && RowOf(s.told[r]).Some? ==> RowOf(s.told[r]) != RowOf(s.told[q]))
  }

  /** An approved flag comes from an upgrade of an env's own config, or from a verdict on a row of that kind. */
  predicate PassFits(s: State, r: nat, act: Act) {
    r in s.passes && match s.passes[r]
      case ByUpgrade => act.Patch? && !act.base
      case ByVerdict(id) => r in s.told && s.told[r] == Verdict(id, APPROVED)
                            && (id.Some? ==> HasKind(s, id.value, Kind(act)))
  }

  /** A queued command that is approved has its pass; the caller of any other has been told nothing. */
  ghost predicate Flags(s: State) {
    && (forall r :: r in s.queued && s.queued[r].Do? && s.queued[r].approved ==> PassFits(s, r, s.queued[r].act))
    && (forall r :: r in s.queued && !(s.queued[r].Do? && s.queued[r].approved) ==> r !in s.told)
  }

  predicate WakeFits(s: State, r: nat, act: Act, v: Verdict) {
    r in s.told && s.told[r] == v && (RowOf(v).Some? ==> HasKind(s, RowOf(v).value, Kind(act)))
  }

  ghost predicate Wakes(s: State) {
    forall r :: r in s.woken ==> WakeFits(s, r, s.woken[r].0, s.woken[r].1)
  }

  /** What was performed is past a limit, each limit spelled out. */
  predicate PastLimit(e: Effect) {
    || (e.act.SnapExport? && e.config.gateExport)
    || (e.act.Spawn? && e.config.softLimit != 0 && e.total >= e.config.softLimit)
    || (e.act.Patch? && (e.act.base || e.config.gatePatch))
  }

  /** An action past a limit was performed only with a pass. */
  ghost predicate Effects(s: State) {
    && (forall r :: r in s.effects ==> r in s.replies && s.replies[r] == Ran)
    && (forall r :: r in s.effects && PastLimit(s.effects[r]) ==> s.effects[r].approved)
    && (forall r :: r in s.effects && s.effects[r].approved ==> PassFits(s, r, s.effects[r].act))
  }

  ghost predicate Gates(s: State) {
    Flags(s) && Wakes(s) && Effects(s)
  }

  ghost predicate Core(s: State) {
    Queue(s) && Linked(s) && Truthful(s) && Gates(s)
  }

  ghost predicate Inv(s: State) {
    Places(s, {}) && Core(s)
  }

  /** What the steps need to be well defined: nobody who still waits has been told or answered. */
  lemma Links(s: State)
    requires Inv(s)
    ensures forall id :: id in s.pending ==> s.pending[id].waiter.reply !in s.told && s.pending[id].waiter.reply !in s.replies
    ensures forall id :: id in s.pending ==> id in s.rows
    ensures forall r :: r in s.queued ==> r !in s.replies
    ensures forall r :: r in s.queued && !(s.queued[r].Do? && s.queued[r].approved) ==> r !in s.told
    ensures forall r :: r in s.woken ==> r !in s.replies
  {
    forall r: nat ensures r in s.queued || r in s.woken || r in s.waiting ==> r !in s.replies {
      assert Spot(s, {}, r) == B(r < s.counter);
    }
  }

  // ---------------------------------------------------------------- each move keeps it

  /** Rows are only added; their kinds and every decided row stay as they are. */
  ghost predicate RowsStay(s: State, t: State) {
    && (forall id :: id in s.rows ==> id in t.rows && t.rows[id].kind == s.rows[id].kind)
    && (forall id :: id in s.rows && s.rows[id].status != PENDING ==> t.rows[id] == s.rows[id])
  }

  lemma TruthStays(s: State, t: State)
    requires Truthful(s) && RowsStay(s, t) && t.told == s.told && s.counter <= t.counter
    requires forall r :: r in t.waiting && r !in s.waiting ==> r !in t.told
    ensures Truthful(t)
  {}

  lemma PassStays(s: State, t: State, r: nat, act: Act)
    requires PassFits(s, r, act) && RowsStay(s, t)
    requires r in s.passes ==> r in t.passes && t.passes[r] == s.passes[r]
    requires r in s.told ==> r in t.told && t.told[r] == s.told[r]
    ensures PassFits(t, r, act)
  {}

  /** What was told and passed stays, and some commands leave the queue. */
  ghost predicate Later(s: State, t: State) {
    && RowsStay(s, t)
    && (forall r :: r in s.told ==> r in t.told && t.told[r] == s.told[r])
    && (forall r :: r in s.passes ==> r in t.passes && t.passes[r] == s.passes[r])
  }

  lemma FlagsStay(s: State, t: State)
    requires Flags(s) && Later(s, t)
    requires forall r :: r in t.queued ==> r in s.queued && t.queued[r] == s.queued[r]
    requires forall r :: r in t.told && r !in s.told ==> r !in t.queued
    ensures Flags(t)
  {
    hide PassFits, RowsStay;
    forall r, act | PassFits(s, r, act) ensures PassFits(t, r, act) { PassStays(s, t, r, act); }
  }

  lemma WakesStay(s: State, t: State)
    requires Wakes(s) && Later(s, t)
    requires forall r :: r in t.woken ==> r in s.woken && t.woken[r] == s.woken[r]
    ensures Wakes(t)
  {
    hide Kind, RowOf;
  }

  lemma EffectsStay(s: State, t: State)
    requires Effects(s) && Later(s, t) && t.effects == s.effects
    requires forall r :: r in s.replies ==> r in t.replies && t.replies[r] == s.replies[r]
    ensures Effects(t)
  {
    hide PassFits, RowsStay;
    forall r, act | PassFits(s, r, act) ensures PassFits(t, r, act) { PassStays(s, t, r, act); }
  }

  /** Moves that touch the rows and the waiting calls only. */
  lemma GatesStay(s: State, t: State)
    requires Gates(s) && RowsStay(s, t) && t.told == s.told && t.queued == s.queued && t.woken == s.woken
    requires t.replies == s.replies && t.effects == s.effects && t.passes == s.passes
    ensures Gates(t)
  {
    hide Flags, Wakes, Effects, RowsStay;
    FlagsStay(s, t);
    WakesStay(s, t);
    EffectsStay(s, t);
  }

  lemma SweptQueue(s: State, listed: seq<nat>, now: int, older: int)
    requires Queue(s)
    ensures Queue(Swept(s, listed, now, older)) && RowsStay(s, Swept(s, listed, now, older))
  {}

  /** Sweeping only expires rows an earlier process left pending. */
  lemma SweptKeeps(s: State, listed: seq<nat>, now: int, older: int)
    requires Core(s)
    ensures Core(Swept(s, listed, now, older))
  {
    hide Queue, Truthful, Gates, RowsStay;
    var t := Swept(s, listed, now, older);
    SweptQueue(s, listed, now, older);
    TruthStays(s, t);
    GatesStay(s, t);
  }

  lemma PutDecidedQueue(s: State, row: Row)
    requires Queue(s) && row.status != PENDING
    ensures Queue(PutRow(s, row)) && RowsStay(s, PutRow(s, row)) && HasStatus(PutRow(s, row), s.next, row.status)
  {}

  /** A row decided on the spot. */
  lemma PutDecidedKeeps(s: State, row: Row)
    requires Core(s) && row.status != PENDING
    ensures Core(PutRow(s, row))
  {
    hide Queue, Truthful, Gates, RowsStay;
    var t := PutRow(s, row);
    PutDecidedQueue(s, row);
    TruthStays(s, t);
    GatesStay(s, t);
  }

  lemma WaitsQueue(s: State, row: Row, p: Pend)
    requires Queue(s) && row.status == PENDING && p.kind == row.kind
    ensures var t := Waits(PutRow(s, row), s.next, p); Queue(t) && RowsStay(s, t) && s.next !in s.pending
  {}

  lemma WaitsLinked(s: State, row: Row, p: Pend)
    requires Linked(s) && s.next !in s.pending && p.waiter.reply !in s.waiting
    requires p.waiter.Held? ==> Kind(p.waiter.act) == p.kind
    ensures Linked(Waits(PutRow(s, row), s.next, p))
  {}

  /** A row that waits for a human, together with its waiter. */
  lemma WaitsKeeps(s: State, row: Row, w: Waiter)
    requires Core(s) && row.status == PENDING && w.reply < s.counter
    requires w.reply !in s.told && w.reply !in s.waiting
    requires w.Held? ==> Kind(w.act) == row.kind
    ensures Core(Waits(PutRow(s, row), s.next, Pend(row.env, row.kind, w)))
  {
    hide Queue, Linked, Truthful, Gates, RowsStay;
    var p := Pend(row.env, row.kind, w);
    var t := Waits(PutRow(s, row), s.next, p);
    WaitsQueue(s, row, p);
    WaitsLinked(s, row, p);
    TruthStays(s, t);
    GatesStay(s, t);
  }

  /** A waiter that holds a reply nobody else knows of. */
  predicate Free(s: State, w: Waiter) {
    w.reply < s.counter && w.reply !in s.told && w.reply !in s.waiting && w.reply !in s.replies && w.reply !in s.queued
  }

  /** The verdict fits the waiter: a decided row of the right kind, which nobody has been told about. */
  ghost predicate MayTell(s: State, w: Waiter, v: Verdict) {
    && Free(s, w)
    && (v.Verdict? ==> v.status != PENDING)
    && (RowOf(v).Some? ==> HasStatus(s, RowOf(v).value, v.status) && (w.Held? ==> HasKind(s, RowOf(v).value, Kind(w.act))))
    && (RowOf(v).Some? ==> forall q :: q in s.told ==> RowOf(s.told[q]) != RowOf(v))
  }

  lemma ToldTruth(s: State, w: Waiter, v: Verdict)
    requires Truthful(s) && MayTell(s, w, v)
    ensures Truthful(Told1(s, w, v))
  {
    hide HasKind, Kind;
  }

  lemma ToldLater(s: State, w: Waiter, v: Verdict)
    requires Free(s, w)
    ensures Later(s, Told1(s, w, v))
  {}

  lemma ToldWakes(s: State, w: Waiter, v: Verdict)
    requires Wakes(s) && MayTell(s, w, v)
    ensures Wakes(Told1(s, w, v))
  {
    hide Kind;
    var t := Told1(s, w, v);
    forall r | r in t.woken ensures WakeFits(t, r, t.woken[r].0, t.woken[r].1) {
      if r in s.woken && r != w.reply { assert WakeFits(s, r, s.woken[r].0, s.woken[r].1); }
    }
  }

  lemma ToldGates(s: State, w: Waiter, v: Verdict)
    requires Gates(s) && MayTell(s, w, v)
    ensures Gates(Told1(s, w, v))
  {
    hide Flags, Wakes, Effects, Later, HasKind, HasStatus, Kind, RowOf;
    var t := Told1(s, w, v);
    ToldLater(s, w, v);
    FlagsStay(s, t);
    ToldWakes(s, w, v);
    EffectsStay(s, t);
  }

  lemma ToldKeeps(s: State, w: Waiter, v: Verdict)
    requires Core(s) && MayTell(s, w, v)
    ensures Core(Told1(s, w, v))
  {
    hide Truthful, Gates, Queue, Linked;
    ToldTruth(s, w, v);
    ToldGates(s, w, v);
    SameQueue(s, Told1(s, w, v));
  }

  lemma SameQueue(s: State, t: State)
    requires Queue(s) && Linked(s)
    requires t.rows == s.rows && t.next == s.next && t.boot == s.boot && t.pending == s.pending
    requires t.timers == s.timers && t.waiting == s.waiting
    ensures Queue(t) && Linked(t)
  {}

  lemma SettledKeeps(s: State, ctx: Ctx, env: string, kind: string, status: Status, w: Waiter)
    requires Core(s) && Free(s, w) && (w.Held? ==> Kind(w.act) == kind) && status != PENDING
    ensures Core(Settled(s, ctx, env, kind, status, w))
  {
    hide Core, Kind;
    if ctx.writable {
      PutDecidedKeeps(s, Row(env, kind, status, ctx.now));
      NextUntold(s);
      ToldKeeps(PutRow(s, Row(env, kind, status, ctx.now)), w, Verdict(Some(s.next), status));
    } else {
      ToldKeeps(s, w, Verdict(None, status));
    }
  }

  lemma EnqueuedKeeps(s: State, ctx: Ctx, env: string, kind: string, w: Waiter)
    requires Core(s) && Free(s, w) && (w.Held? ==> Kind(w.act) == kind)
    ensures Core(Enqueued(s, ctx, env, kind, w))
  {
    hide Core, Kind;
    if ctx.writable { WaitsKeeps(s, Row(env, kind, PENDING, ctx.now), w); } else { ToldKeeps(s, w, Unwritable); }
  }

  lemma DecidedKeeps(s: State, ctx: Ctx, env: string, kind: string, mode: string, w: Waiter)
    requires Core(s) && Free(s, w) && (w.Held? ==> Kind(w.act) == kind)
    ensures Core(Decided(s, ctx, env, kind, mode, w))
  {
    hide Core, Kind, Settled, Enqueued;
    var t := Swept(s, ctx.listed, ctx.now, Older(ctx.config));
    SweptKeeps(s, ctx.listed, ctx.now, Older(ctx.config));
    if mode == AUTO { SettledKeeps(t, ctx, env, kind, APPROVED, w); }
    else if mode == DENY { SettledKeeps(t, ctx, env, kind, DENIED, w); }
    else { EnqueuedKeeps(t, ctx, env, kind, w); }
  }

  lemma NextUntold(s: State)
    requires Core(s)
    ensures forall q :: q in s.told ==> RowOf(s.told[q]) != Some(s.next)
  {
    hide Gates, Linked;
    forall q | q in s.told ensures RowOf(s.told[q]) != Some(s.next) {
      if RowOf(s.told[q]).Some? { assert HasStatus(s, RowOf(s.told[q]).value, s.told[q].status); }
    }
  }

  lemma MovedRowStays(s: State, id: nat, status: Status)
    requires HasStatus(s, id, PENDING)
    ensures RowsStay(s, MovedRow(s, id, status))
  {}

  lemma MovedRowQueue(s: State, id: nat, status: Status)
    requires Queue(s) && HasStatus(s, id, PENDING) && status != PENDING
    ensures Queue(MovedRow(s, id, status))
  {
    hide MovedRow;
    var t := MovedRow(s, id, status);
    PendingAfterMove(s, id, status);
    forall i ensures i in t.pending <==> i in t.rows && t.boot <= i && t.rows[i].status == PENDING {
      assert i in s.pending <==> i in s.rows && s.boot <= i && s.rows[i].status == PENDING;
    }
  }

  lemma PendingAfterMove(s: State, id: nat, status: Status)
    requires HasStatus(s, id, PENDING)
    ensures forall i :: i in MovedRow(s, id, status).pending <==> i in s.pending && i != id
    ensures forall i :: i in MovedRow(s, id, status).pending ==> MovedRow(s, id, status).pending[i] == s.pending[i]
    ensures forall i :: i in MovedRow(s, id, status).rows <==> i in s.rows
    ensures forall i :: i in s.rows && i != id ==> MovedRow(s, id, status).rows[i] == s.rows[i]
    ensures MovedRow(s, id, status).rows[id] == s.rows[id].(status := status)
    ensures var t := MovedRow(s, id, status); t.timers == s.timers && t.next == s.next && t.boot == s.boot
  {}

  lemma MovedRowLinked(s: State, id: nat, status: Status)
    requires Linked(s) && HasStatus(s, id, PENDING)
    ensures Linked(MovedRow(s, id, status))
  {}

  lemma MovedUntold(s: State, id: nat)
    requires Truthful(s) && HasStatus(s, id, PENDING)
    ensures forall q :: q in s.told ==> RowOf(s.told[q]) != Some(id)
  {}

  /** Only a pending row ever moves, once, and then its waiter is told. */
  lemma MovedKeeps(s: State, id: nat, status: Status)
    requires Core(s) && HasStatus(s, id, PENDING) && status != PENDING
    requires id in s.pending ==> Free(MovedRow(s, id, status), s.pending[id].waiter)
    ensures id in s.pending ==> s.pending[id].waiter.reply !in s.told && s.pending[id].waiter.reply !in s.replies
    ensures Core(Moved(s, id, status))
  {
    hide Queue, Linked, Truthful, Gates, RowsStay, Kind;
    var t := MovedRow(s, id, status);
    MovedRowQueue(s, id, status);
    MovedRowStays(s, id, status);
    MovedRowLinked(s, id, status);
    TruthStays(s, t);
    GatesStay(s, t);
    MovedUntold(s, id);
    if id in s.pending {
      PendingKind(s, id);
      ToldKeeps(t, s.pending[id].waiter, Verdict(Some(id), status));
    }
  }

  lemma PendingKind(s: State, id: nat)
    requires Queue(s) && Linked(s) && id in s.pending
    ensures s.pending[id].waiter.Held? ==> HasKind(s, id, Kind(s.pending[id].waiter.act))
  {}

  // ---------------------------------------------------------------- where each reply is

  lemma SamePlaces(s: State, t: State, limbo: set<nat>)
    requires Places(s, limbo) && t.queued.Keys == s.queued.Keys && t.woken.Keys == s.woken.Keys
    requires t.replies.Keys == s.replies.Keys && t.waiting.Keys == s.waiting.Keys && t.lost == s.lost
    requires t.counter == s.counter
    ensures Places(t, limbo)
  {
    forall r: nat ensures Spot(t, limbo, r) == B(r < t.counter) { assert Spot(s, limbo, r) == B(r < s.counter); }
  }

  lemma TakenPlaces(s: State, r: nat)
    requires Places(s, {}) && r in s.queued
    ensures Places(Taken(s, r), {r}) && r !in s.replies && r !in s.waiting && r !in s.woken && r < s.counter
  {
    forall q: nat ensures Spot(Taken(s, r), {r}, q) == B(q < s.counter) { assert Spot(s, {}, q) == B(q < s.counter); }
    assert Spot(s, {}, r) == B(r < s.counter);
  }

  lemma ToldPlaces(s: State, w: Waiter, v: Verdict)
    requires Places(s, {w.reply}) && w.reply !in s.told && w.reply !in s.replies
    ensures Places(Told1(s, w, v), {})
  {
    var t := Told1(s, w, v);
    assert Spot(s, {w.reply}, w.reply) == B(w.reply < s.counter);
    forall r: nat ensures Spot(t, {}, r) == B(r < t.counter) { assert Spot(s, {w.reply}, r) == B(r < s.counter); }
  }

  lemma WaitsPlaces(s: State, id: nat, p: Pend)
    requires Places(s, {p.waiter.reply})
    ensures Places(Waits(s, id, p), {})
  {
    var t, w := Waits(s, id, p), p.waiter.reply;
    assert Spot(s, {w}, w) == B(w < s.counter);
    forall r: nat ensures Spot(t, {}, r) == B(r < t.counter) { assert Spot(s, {w}, r) == B(r < s.counter); }
  }

  lemma RepliedPlaces(s: State, r: nat, o: Outcome)
    requires Places(s, {r}) && r !in s.replies
    ensures Places(Replied(s, r, o), {})
  {
    var t := Replied(s, r, o);
    assert Spot(s, {r}, r) == B(r < s.counter);
    forall q: nat ensures Spot(t, {}, q) == B(q < t.counter) { assert Spot(s, {r}, q) == B(q < s.counter); }
  }

  lemma SettledPlaces(s: State, ctx: Ctx, env: string, kind: string, status: Status, w: Waiter)
    requires Places(s, {w.reply}) && w.reply !in s.told && w.reply !in s.replies
    ensures Places(Settled(s, ctx, env, kind, status, w), {})
  {
    hide Places, Told1;
    var row := Row(env, kind, status, ctx.now);
    SamePlaces(s, PutRow(s, row), {w.reply});
    if ctx.writable { ToldPlaces(PutRow(s, row), w, Verdict(Some(s.next), status)); } else { ToldPlaces(s, w, Verdict(None, status)); }
  }

  lemma EnqueuedPlaces(s: State, ctx: Ctx, env: string, kind: string, w: Waiter)
    requires Places(s, {w.reply}) && w.reply !in s.told && w.reply !in s.replies
    ensures Places(Enqueued(s, ctx, env, kind, w), {})
  {
    hide Places, Told1, Waits;
    var row := Row(env, kind, PENDING, ctx.now);
    SamePlaces(s, PutRow(s, row), {w.reply});
    if ctx.writable { WaitsPlaces(PutRow(s, row), s.next, Pend(env, kind, w)); } else { ToldPlaces(s, w, Unwritable); }
  }

  lemma DecidedPlaces(s: State, ctx: Ctx, env: string, kind: string, mode: string, w: Waiter)
    requires Places(s, {w.reply}) && w.reply !in s.told && w.reply !in s.replies
    ensures Places(Decided(s, ctx, env, kind, mode, w), {})
  {
    hide Places, Settled, Enqueued;
    var t := Swept(s, ctx.listed, ctx.now, Older(ctx.config));
    SamePlaces(s, t, {w.reply});
    if mode == AUTO { SettledPlaces(t, ctx, env, kind, APPROVED, w); }
    else if mode == DENY { SettledPlaces(t, ctx, env, kind, DENIED, w); }
    else { EnqueuedPlaces(t, ctx, env, kind, w); }
  }

  lemma MovedPlaces(s: State, id: nat, status: Status)
    requires Places(s, {}) && Linked(s) && id in s.rows
    requires id in s.pending ==> s.pending[id].waiter.reply !in s.told && s.pending[id].waiter.reply !in s.replies
    ensures Places(Moved(s, id, status), {})
  {
    var t := MovedRow(s, id, status);
    if id in s.pending {
      var w := s.pending[id].waiter;
      forall r: nat ensures Spot(t, {w.reply}, r) == B(r < t.counter) { assert Spot(s, {}, r) == B(r < s.counter); }
      ToldPlaces(t, w, Verdict(Some(id), status));
    } else {
      SamePlaces(s, t, {});
    }
  }

  // ---------------------------------------------------------------- every step keeps the invariant

  lemma WaiterIsFree(s: State, id: nat, status: Status)
    requires Inv(s) && id in s.pending
    ensures id in s.rows && Free(MovedRow(s, id, status), s.pending[id].waiter)
  {
    Links(s);
    var w := s.pending[id].waiter.reply;
    assert Spot(s, {}, w) == B(w < s.counter);
  }

  lemma MovedInv(s: State, id: nat, status: Status)
    requires Inv(s) && HasStatus(s, id, PENDING) && status != PENDING
    ensures id in s.pending ==> s.pending[id].waiter.reply !in s.told && s.pending[id].waiter.reply !in s.replies
    ensures Inv(Moved(s, id, status))
  {
    hide Places, Queue, Truthful, Gates, MayTell;
    if id in s.pending { WaiterIsFree(s, id, status); }
    MovedKeeps(s, id, status);
    MovedPlaces(s, id, status);
  }

  lemma FiredInv(s: State, id: nat)
    requires Inv(s)
    ensures Inv(Fired(s, id))
  {
    hide Places, Truthful, Gates;
    Links(s);
    if id in s.pending {
      MovedInv(s, id, EXPIRED);
      Disarm(Moved(s, id, EXPIRED), id);
    } else {
      Disarm(s, id);
    }
  }

  lemma Disarm(s: State, id: nat)
    requires Inv(s) && id !in s.pending
    ensures Inv(s.(timers := s.timers - {id}))
  {
    hide Truthful, Places, Gates, RowsStay;
    var t := s.(timers := s.timers - {id});
    SamePlaces(s, t, {});
    RowsSame(s, t);
    TruthStays(s, t);
    GatesStay(s, t);
  }

  lemma RowsSame(s: State, t: State)
    requires t.rows == s.rows
    ensures RowsStay(s, t)
  {}

  lemma ArrivedInv(s: State, c: Cmd)
    requires Inv(s) && Admissible(c)
    ensures Inv(Arrived(s, c))
  {
    hide Queue, Linked, Truthful, Gates, RowsStay;
    var t := Arrived(s, c);
    assert Spot(s, {}, s.counter) == B(s.counter < s.counter);
    forall r: nat ensures Spot(t, {}, r) == B(r < t.counter) { assert Spot(s, {}, r) == B(r < s.counter); }
    SameQueue(s, t);
    RowsSame(s, t);
    TruthStays(s, t);
    ArrivedGates(s, c);
  }

  lemma ArrivedGates(s: State, c: Cmd)
    requires Gates(s) && Truthful(s) && Admissible(c)
    requires s.counter !in s.queued && s.counter !in s.woken && s.counter !in s.replies
    ensures Gates(Arrived(s, c))
  {
    hide Flags, Wakes, Effects, RowsStay;
    var t := Arrived(s, c);
    RowsSame(s, t);
    ArrivedFlags(s, c);
    ArrivedOthers(s, c);
  }

  lemma ArrivedFlags(s: State, c: Cmd)
    requires Flags(s) && Truthful(s) && Admissible(c) && s.counter !in s.queued
    ensures Flags(Arrived(s, c))
  {
    hide PassFits, Kind, HasStatus, RowOf;
    var t := Arrived(s, c);
    RowsSame(s, t);
    forall r, act | PassFits(s, r, act) && r != s.counter ensures PassFits(t, r, act) { PassStays(s, t, r, act); }
    if c.Do? && c.approved { UpgradePass(t, s.counter, c.act); }
  }

  lemma ArrivedOthers(s: State, c: Cmd)
    requires Wakes(s) && Effects(s) && s.counter !in s.woken && s.counter !in s.replies
    ensures Wakes(Arrived(s, c)) && Effects(Arrived(s, c))
  {
    hide PassFits, Kind, RowOf;
    var t := Arrived(s, c);
    RowsSame(s, t);
    forall r, act | PassFits(s, r, act) && r != s.counter ensures PassFits(t, r, act) { PassStays(s, t, r, act); }
  }

  lemma UpgradePass(s: State, r: nat, act: Act)
    requires r in s.passes && s.passes[r] == ByUpgrade && act.Patch? && !act.base
    ensures PassFits(s, r, act)
  {}

  lemma DeclinedCore(s: State, r: nat, v: Verdict)
    requires Core(s) && r !in s.replies
    ensures Core(Declined(s, r, v))
  {
    hide Queue, Linked, Truthful, Flags, Wakes, Effects, RowsStay;
    var t := Declined(s, r, v);
    SameQueue(s, t);
    RowsSame(s, t);
    TruthStays(s, t);
    FlagsStay(s, t);
    WakesStay(s, t);
    EffectsStay(s, t);
  }

  /** Passes of other commands. */
  lemma OtherPass(s: State, r: nat, act: Act, id: Option<nat>, q: nat, a: Act)
    requires q != r
    ensures PassFits(Resumed(s, r, act, id), q, a) <==> PassFits(s, q, a)
  {}

  lemma OwnPass(s: State, r: nat, act: Act, id: Option<nat>)
    requires WakeFits(s, r, act, Verdict(id, APPROVED))
    ensures PassFits(Resumed(s, r, act, id), r, act)
  {}

  lemma ResumedFlags(s: State, r: nat, act: Act, id: Option<nat>)
    requires Flags(s) && PassFits(Resumed(s, r, act, id), r, act)
    ensures Flags(Resumed(s, r, act, id))
  {
    hide PassFits;
    var t := Resumed(s, r, act, id);
    forall q, a | q != r ensures PassFits(t, q, a) <==> PassFits(s, q, a) { OtherPass(s, r, act, id, q, a); }
  }

  lemma ResumedEffects(s: State, r: nat, act: Act, id: Option<nat>)
    requires Effects(s) && r !in s.replies
    ensures Effects(Resumed(s, r, act, id))
  {
    hide PassFits;
    var t := Resumed(s, r, act, id);
    forall q, a | q != r ensures PassFits(t, q, a) <==> PassFits(s, q, a) { OtherPass(s, r, act, id, q, a); }
  }

  lemma ResumedWakes(s: State, r: nat, act: Act, id: Option<nat>)
    requires Wakes(s)
    ensures Wakes(Resumed(s, r, act, id))
  {
    hide RowOf, HasKind, Kind;
    var t := Resumed(s, r, act, id);
    forall q | q in t.woken ensures WakeFits(t, q, t.woken[q].0, t.woken[q].1) {
      assert WakeFits(s, q, s.woken[q].0, s.woken[q].1);
      SameWake(s, t, q);
    }
  }

  lemma SameWake(s: State, t: State, q: nat)
    requires t.rows == s.rows && t.told == s.told && q in s.woken
    ensures WakeFits(t, q, s.woken[q].0, s.woken[q].1) <==> WakeFits(s, q, s.woken[q].0, s.woken[q].1)
  {}

  lemma ResumedCore(s: State, r: nat, act: Act, id: Option<nat>)
    requires Core(s) && r in s.woken && r !in s.replies && s.woken[r] == (act, Verdict(id, APPROVED))
    ensures Core(Resumed(s, r, act, id))
  {
    hide Queue, Linked, Truthful, Flags, Effects, RowsStay, WakeFits, PassFits;
    var t := Resumed(s, r, act, id);
    SameQueue(s, t);
    RowsSame(s, t);
    TruthStays(s, t);
    assert WakeFits(s, r, s.woken[r].0, s.woken[r].1);
    OwnPass(s, r, act, id);
    ResumedFlags(s, r, act, id);
    ResumedWakes(s, r, act, id);
    ResumedEffects(s, r, act, id);
  }

  lemma ResumedPlaces(s: State, r: nat, act: Act, id: Option<nat>)
    requires Places(s, {}) && r in s.woken && r !in s.replies
    ensures Places(Resumed(s, r, act, id), {})
  {
    var t := Resumed(s, r, act, id);
    assert Spot(s, {}, r) == B(r < s.counter);
    forall q: nat ensures Spot(t, {}, q) == B(q < t.counter) { assert Spot(s, {}, q) == B(q < s.counter); }
  }

  lemma DeclinedPlaces(s: State, r: nat, v: Verdict)
    requires Places(s, {}) && r in s.woken && r !in s.replies
    ensures Places(Declined(s, r, v), {})
  {
    var t := Declined(s, r, v);
    assert Spot(s, {}, r) == B(r < s.counter);
    forall q: nat ensures Spot(t, {}, q) == B(q < t.counter) { assert Spot(s, {}, q) == B(q < s.counter); }
  }

  /** An approved gate puts its command back, with its pass; any other verdict answers the caller. */
  lemma WokenInv(s: State, r: nat)
    requires Inv(s) && r in s.woken
    ensures r !in s.replies && Inv(Woken(s, r))
  {
    hide Places, Core, Resumed, Declined;
    Links(s);
    var (act, v) := s.woken[r];
    if v.Verdict? && v.status == APPROVED {
      ResumedCore(s, r, act, v.id);
      ResumedPlaces(s, r, act, v.id);
    } else {
      DeclinedCore(s, r, v);
      DeclinedPlaces(s, r, v);
    }
  }

  // ---------------------------------------------------------------- handling a command

  lemma TakenCore(s: State, r: nat)
    requires Core(s)
    ensures Core(Taken(s, r))
  {
    hide Queue, Linked, Truthful, Flags, Wakes, Effects, RowsStay;
    var t := Taken(s, r);
    SameQueue(s, t);
    RowsSame(s, t);
    TruthStays(s, t);
    FlagsStay(s, t);
    WakesStay(s, t);
    EffectsStay(s, t);
  }

  lemma RepliedCore(s: State, r: nat, o: Outcome)
    requires Core(s) && r !in s.replies
    ensures Core(Replied(s, r, o))
  {
    hide Queue, Linked, Truthful, Flags, Wakes, Effects, RowsStay;
    var t := Replied(s, r, o);
    SameQueue(s, t);
    RowsSame(s, t);
    TruthStays(s, t);
    FlagsStay(s, t);
    WakesStay(s, t);
    EffectsStay(s, t);
  }

  lemma PerformedCore(s: State, r: nat, act: Act, approved: bool, ctx: Ctx)
    requires Core(s) && r !in s.replies && (PastLimit(Effect(act, approved, ctx.config, ctx.total)) ==> approved) && (approved ==> PassFits(s, r, act))
    ensures Core(Performed(s, r, act, approved, ctx))
  {
    hide Queue, Linked, Truthful, Flags, Wakes, Effects, RowsStay;
    var t := Performed(s, r, act, approved, ctx);
    SameQueue(s, t);
    RowsSame(s, t);
    TruthStays(s, t);
    FlagsStay(s, t);
    WakesStay(s, t);
    PerformedEffects(s, r, act, approved, ctx);
  }

  lemma PerformedEffects(s: State, r: nat, act: Act, approved: bool, ctx: Ctx)
    requires Effects(s) && r !in s.replies && (PastLimit(Effect(act, approved, ctx.config, ctx.total)) ==> approved) && (approved ==> PassFits(s, r, act))
    ensures Effects(Performed(s, r, act, approved, ctx))
  {
    hide PassFits;
    var t := Performed(s, r, act, approved, ctx);
    RowsSame(s, t);
    forall q, a | PassFits(s, q, a) ensures PassFits(t, q, a) { PassStays(s, t, q, a); }
  }

  lemma TakenFlag(s: State, r: nat)
    requires Core(s) && r in s.queued
    ensures if s.queued[r].Do? && s.queued[r].approved then PassFits(Taken(s, r), r, s.queued[r].act) else r !in s.told
  {
    hide Queue, Linked, Truthful, Wakes, Effects;
    RowsSame(s, Taken(s, r));
  }

  lemma PerformedPlaces(s: State, r: nat, act: Act, approved: bool, ctx: Ctx)
    requires Places(s, {r}) && r !in s.replies
    ensures Places(Performed(s, r, act, approved, ctx), {})
  {
    RepliedPlaces(s, r, Ran);
    SamePlaces(Replied(s, r, Ran), Performed(s, r, act, approved, ctx), {});
  }

  lemma HandledInv(s: State, r: nat, ctx: Ctx)
    requires Inv(s) && r in s.queued
    ensures Inv(Handled(s, r, ctx))
  {
    hide Places, Core, PassFits, Kind, Decided, Performed, Replied;
    Links(s);
    var t := Taken(s, r);
    TakenCore(s, r);
    TakenPlaces(s, r);
    TakenFlag(s, r);
    match s.queued[r]
    case Ask(env, kind, mode, _) =>
      DecidedKeeps(t, ctx, env, kind, mode, Direct(r));
      DecidedPlaces(t, ctx, env, kind, mode, Direct(r));
    case Do(act, approved) =>
      if act.Patch? && !act.isObject {
        RepliedCore(t, r, BadPatch);
        RepliedPlaces(t, r, BadPatch);
      } else if approved || !Gated(act, ctx.config, ctx.total) {
        PerformedCore(t, r, act, approved, ctx);
        PerformedPlaces(t, r, act, approved, ctx);
      } else {
        DecidedKeeps(t, ctx, act.env, Kind(act), ctx.config.mode, Held(r, act));
        DecidedPlaces(t, ctx, act.env, Kind(act), ctx.config.mode, Held(r, act));
      }
  }

  lemma RebootedPlaces(s: State)
    requires Places(s, {})
    ensures Places(Rebooted(s), {})
  {
    var t := Rebooted(s);
    forall q: nat ensures Spot(t, {}, q) == B(q < t.counter) { assert Spot(s, {}, q) == B(q < s.counter); }
  }

  lemma RebootedInv(s: State)
    requires Inv(s)
    ensures Inv(Rebooted(s))
  {
    hide Effects, Flags, RowsStay, Places, Truthful;
    var t := Rebooted(s);
    RebootedPlaces(s);
    RowsSame(s, t);
    TruthStays(s, t);
    EffectsStay(s, t);
    FlagsStay(s, t);
  }

  lemma StepKeepsInv(s: State, e: Event)
    requires Inv(s) && Allowed(s, e)
    ensures Inv(Step(s, e))
  {
    hide Places, Core;
    match e
    case Arrive(c) => ArrivedInv(s, c);
    case Handle(r, ctx) => HandledInv(s, r, ctx);
    case Human(id, decision) => AnsweredInv(s, id, StatusOf(decision));
    case Timer(id) => FiredInv(s, id);
    case Wake(r) => WokenInv(s, r);
    case Sweep(ctx) =>
      SweptKeeps(s, ctx.listed, ctx.now, Older(ctx.config));
      SamePlaces(s, Step(s, e), {});
    case Reboot => RebootedInv(s);
  }

  lemma AnsweredInv(s: State, id: nat, status: Status)
    requires Inv(s) && status != PENDING
    ensures Inv(Answered(s, id, status))
  {
    hide Places, Core;
    if id in s.rows && s.rows[id].status == PENDING { MovedInv(s, id, status); }
  }
}
