/**
 The ingress registry: lease-backed routes kept as ephemeral keys under the reserved namespace.
 A route is one key, so what a sweep, a lease and a re-registration do to it is the kv machine's business.
 */
module Ingress {
  import opened Prelude
  import opened Ordering
  import opened KvSpec
  import Kv = KvFacade
  import Decimal

  const NS := "@ingress"
  const PREFIX := "/ingress/"

  /** `json` says which plain texts are JSON; a route always is. */
  datatype Config = Config(maxPerEnv: nat, maxTotal: nat, leaseTtlMs: int, json: string -> bool)

  datatype Request = Request(caller: Option<string>, name: string, port: int, public: bool, published: map<int, string>)

  datatype Refusal = BadName | NoCaller | OwnedBy(owner: string) | HostQuota | EnvQuota | PortRange | PortUnpublished

  function KeyOf(name: string): Key {
    (NS, PREFIX + name)
  }

  predicate NameChar(c: char) {
    'a' <= c <= 'z' || 'A' <= c <= 'Z' || '0' <= c <= '9' || c == '-' || c == '_'
  }

  predicate ValidName(name: string) {
    name != [] && |name| <= 64 && forall c <- name :: NameChar(c)
  }

  predicate Parses(cfg: Config, v: Value) {
    v.Route? || cfg.json(v.text)
  }

  /** The env a stored value names, or nothing: what anything else than a route has. */
  function OwnerOf(v: Value): string {
    if v.Route? then v.owner else ""
  }

  function RouteOf(s: State, now: int, cfg: Config, name: string): Option<Value> {
    var g := Get(s, now, KeyOf(name));
    if g.Some? && Parses(cfg, g.value.0) then Some(g.value.0) else None
  }

  function Parsing(cfg: Config): Value -> bool {
    v => Parses(cfg, v)
  }

  function Owning(env: string): Value -> bool {
    (v: Value) => v.Route? && v.owner == env
  }

  /** The listed rows whose value answers `p`, counted as the listing is walked. */
  function Count(rows: seq<Row>, p: Value -> bool): nat
    decreases |rows|
  {
    if rows == [] then 0
    else Count(rows[..|rows| - 1], p) + (if p(rows[|rows| - 1].value) then 1 else 0)
  }

  /** What a step leaves under one key, but for its revision and its lease. */
  datatype Write = Write(key: Key, value: Value, durable: bool, expires: Option<int>)

  /** Such an entry is listed at `now`, and its value answers `p`. */
  predicate Shows(w: Write, now: int, p: Value -> bool) {
    Listed(w.key, w.durable, NS, PREFIX) && !Expired(w.expires, now) && p(w.value)
  }

  predicate Has(s: State, now: int, p: Value -> bool, k: Key) {
    k in s.cells && Shows(Write(k, s.cells[k].value, s.cells[k].durable, s.cells[k].expires), now, p)
  }

  function Having(s: State, now: int, p: Value -> bool): set<Key> {
    set k | k in s.cells && Has(s, now, p, k)
  }

  function RouteKeys(s: State, now: int, cfg: Config): set<Key> {
    Having(s, now, Parsing(cfg))
  }

  function KeysOwnedBy(s: State, now: int, env: string): set<Key> {
    Having(s, now, Owning(env))
  }

  ghost predicate WithinQuota(s: State, now: int, cfg: Config) {
    && |RouteKeys(s, now, cfg)| <= cfg.maxTotal
    && forall env :: |KeysOwnedBy(s, now, env)| <= cfg.maxPerEnv
  }

  /** Validation before any write: the environment and the address, or why not. */
  ghost function Check(s: State, now: int, cfg: Config, r: Request): Result<(string, string), Refusal> {
    if !ValidName(r.name) then Failure(BadName)
    else if r.caller.None? then Failure(NoCaller)
    else
      var env := r.caller.value;
      var existing := RouteOf(s, now, cfg, r.name);
      var all := Range(s, now, NS, PREFIX);
      if existing.Some? && OwnerOf(existing.value) != env then Failure(OwnedBy(OwnerOf(existing.value)))
      else if existing.None? && Count(all, Parsing(cfg)) >= cfg.maxTotal then Failure(HostQuota)
      else if existing.None? && Count(all, Owning(env)) >= cfg.maxPerEnv then Failure(EnvQuota)
      else if !(0 <= r.port < 0x1_0000) then Failure(PortRange)
      else if r.port !in r.published then Failure(PortUnpublished)
      else Success((env, r.published[r.port]))
  }

  function Commit(s: State, now: int, cfg: Config, env: string, name: string, addr: string, port: int, public: bool): State {
    var id := Issued(s.pid, s.leaseSeq);
    DoSet(DoLease(s, now, cfg.leaseTtlMs, NS), now, KeyOf(name), Value.Route(env, addr, public, port, id), false, None, Some(id))
  }

  ghost function Register(s: State, now: int, cfg: Config, r: Request): State {
    match Check(s, now, cfg, r)
    case Failure(_) => s
    case Success((env, addr)) => Commit(s, now, cfg, env, r.name, addr, r.port, r.public)
  }

  predicate MayDrop(s: State, now: int, caller: Option<string>, name: string) {
    caller.Some? && var g := Get(s, now, KeyOf(name)); g.Some? && g.value.0.Route? && g.value.0.owner == caller.value
  }

  function Unregister(s: State, now: int, caller: Option<string>, name: string): State {
    if MayDrop(s, now, caller, name) then DoDel(s, KeyOf(name)) else s
  }

  /** A step of the registry: a registration, an unregistration, the liveness loop giving a route up,
      or any kv step, also one that writes under the reserved namespace by hand. */
  datatype Op =
    | Reg(request: Request)
    | Unreg(caller: Option<string>, name: string)
    | GiveUp(name: string)
    | Other(op: KvSpec.Op)

  predicate Foreign(op: KvSpec.Op) {
    match op
    case Set(k, _, _, _, _) => k.0 != NS
    case Del(k) => k.0 != NS
    case Cas(k, _, _, _) => k.0 != NS
    case Incr(k, _, _) => k.0 != NS
    case Expire(k, _) => k.0 != NS
    case _ => true
  }

  /** A step of the registry itself, or one that leaves the namespace alone. */
  predicate Lawful(op: Op) {
    (op.Reg? ==> Checked(op)) && (op.Other? ==> Foreign(op.op))
  }

  /** A registration by an env, and an env has a name. */
  predicate Checked(op: Op) {
    op.Reg? && op.request.caller != Some("")
  }

  ghost function Step(s: State, now: int, cfg: Config, op: Op): State {
    match op
    case Reg(r) => Register(s, now, cfg, r)
    case Unreg(caller, name) => Unregister(s, now, caller, name)
    case GiveUp(name) => DoDel(s, KeyOf(name))
    case Other(o) => KvSpec.Step(s, now, o)
  }

  /** What a step writes, if it writes anything: each of its conditions can be told before it. */
  ghost function Written(s: State, now: int, cfg: Config, op: Op): Option<Write> {
    match op
    case Reg(r) =>
      var c := Check(s, now, cfg, r);
      if c.Failure? then None
      else Some(Write(KeyOf(r.name), Value.Route(c.value.0, c.value.1, r.public, r.port, Issued(s.pid, s.leaseSeq)), false, None))
    case Other(Set(k, v, durable, ttl, _)) =>
      Some(Write(k, v, durable, if ttl.Some? then Some(Deadline(now, ttl.value)) else None))
    case Other(Cas(k, expected, v, durable)) =>
      if Current(s, now, k) == expected then Some(Write(k, v, durable, None)) else None
    case Other(Incr(k, delta, durable)) =>
      var n := IntegerAt(s, now, k);
      if n.None? then None
      else Some(Write(k, Text(Decimal.Render(Decimal.Wrap64(n.value + delta))), durable, None))
    case Other(Expire(k, ttl)) =>
      if Live(s, now, k) then Some(Write(k, s.cells[k].value, s.cells[k].durable, Some(Deadline(now, ttl)))) else None
    case _ => None
  }

  predicate Holds(s: State, w: Write) {
    && w.key in s.cells
    && s.cells[w.key].value == w.value && s.cells[w.key].durable == w.durable && s.cells[w.key].expires == w.expires
  }

  /** Either `w` was written, and nothing else, or entries were only taken away. */
  ghost predicate Accounted(s: State, s': State, w: Option<Write>) {
    if w.Some? then Holds(s', w.value) && s'.cells == s.cells[w.value.key := s'.cells[w.value.key]]
    else forall k :: k in s'.cells ==> k in s.cells && s'.cells[k] == s.cells[k]
  }

  lemma TickTakesAway(s: State, now: int)
    ensures Accounted(s, DoTick(s, now), None)
  {
    TickIsExact(s, now);
  }

  lemma KvStepWrites(s: State, now: int, cfg: Config, op: KvSpec.Op)
    ensures Accounted(s, KvSpec.Step(s, now, op), Written(s, now, cfg, Other(op)))
  {
    hide Deadline, DoTick, Decimal.Render, Decimal.Wrap64, IntegerAt, Current;
    if op.Tick? { TickTakesAway(s, now); }
  }

  /** `Written` is what a step writes. */
  lemma StepWrites(s: State, now: int, cfg: Config, op: Op)
    ensures Accounted(s, Step(s, now, cfg, op), Written(s, now, cfg, op))
  {
    if op.Other? {
      hide Written, KvSpec.Step, Accounted;
      KvStepWrites(s, now, cfg, op.op);
    } else {
      hide Check, MayDrop, Deadline;
    }
  }

  // ---------------------------------------------------------------- counting

  lemma SmallerSet(a: set<Key>, b: set<Key>)
    requires a <= b
    ensures |a| <= |b|
  {
    assert b == a + (b - a);
  }

  /** The keys of `q` that are among `ks`. */
  function Among(q: seq<Key>, ks: set<Key>): set<Key> {
    set k | k in q && k in ks
  }

  lemma AmongMore(front: seq<Key>, last: Key, ks: set<Key>)
    requires last !in front
    ensures |Among(front + [last], ks)| == |Among(front, ks)| + if last in ks then 1 else 0
  {
    var was := Among(front, ks);
    assert Among(front + [last], ks) == if last in ks then was + {last} else was;
  }

  lemma {:induction false} CountIsAmong(q: seq<Key>, rows: seq<Row>, p: Value -> bool, ks: set<Key>)
    requires |rows| == |q| && Distinct(q)
    requires forall i :: 0 <= i < |q| ==> (p(rows[i].value) <==> q[i] in ks)
    ensures Count(rows, p) == |Among(q, ks)|
    decreases |q|
  {
    hide Among;
    if q == [] {
      NoneAmong(ks);
    } else {
      var front, last := q[..|q| - 1], q[|q| - 1];
      CountIsAmong(front, rows[..|rows| - 1], p, ks);
      assert q == front + [last];
      assert last !in front;
      AmongMore(front, last, ks);
    }
  }

  lemma NoneAmong(ks: set<Key>)
    ensures Among([], ks) == {}
  {}

  /** In any store, the walk over the listing counts exactly the keys that show such a value. */
  lemma CountsAreExact(s: State, now: int, p: Value -> bool)
    ensures Count(Range(s, now, NS, PREFIX), p) == |Having(s, now, p)|
  {
    hide Listed, Expired;
    var q := InOrder(LiveKeys(s, now, NS, PREFIX));
    PairOrder();
    forall i | 0 <= i < |q| ensures q[i] in LiveKeys(s, now, NS, PREFIX) { assert q[i] in q; }
    CountIsAmong(q, Range(s, now, NS, PREFIX), p, Having(s, now, p));
    assert Having(s, now, p) == Among(q, Having(s, now, p));
  }

  // ---------------------------------------------------------------- quotas

  /** The write adds nothing to what `cap` bounds, or there is still room. */
  predicate FitsIn(s: State, now: int, p: Value -> bool, w: Write, cap: nat) {
    !Shows(w, now, p) || Has(s, now, p, w.key) || |Having(s, now, p)| < cap
  }

  /** The total has room for the write, and so has the env it is for. */
  predicate Room(s: State, now: int, cfg: Config, w: Write) {
    && FitsIn(s, now, Parsing(cfg), w, cfg.maxTotal)
    && (w.value.Route? ==> FitsIn(s, now, Owning(w.value.owner), w, cfg.maxPerEnv))
  }

  ghost predicate Fits(s: State, now: int, cfg: Config, op: Op) {
    var w := Written(s, now, cfg, op); w.None? || Room(s, now, cfg, w.value)
  }

  /** One write and one bound: it holds afterwards exactly when the write fits. */
  lemma WriteKeepsBoundIff(s: State, s': State, now: int, p: Value -> bool, w: Write, cap: nat)
    requires Holds(s', w) && s'.cells == s.cells[w.key := s'.cells[w.key]]
    requires |Having(s, now, p)| <= cap
    ensures |Having(s', now, p)| <= cap <==> FitsIn(s, now, p, w, cap)
  {
    hide Listed;
    var was, now' := Having(s, now, p), Having(s', now, p);
    if Shows(w, now, p) {
      assert now' == was + {w.key};
    } else {
      assert now' <= was;
      SmallerSet(now', was);
    }
  }

  lemma WriteKeepsQuotaIff(s: State, s': State, now: int, cfg: Config, w: Write)
    requires Holds(s', w) && s'.cells == s.cells[w.key := s'.cells[w.key]]
    requires WithinQuota(s, now, cfg)
    ensures WithinQuota(s', now, cfg) <==> Room(s, now, cfg, w)
  {
    hide Having, FitsIn, Holds;
    WriteKeepsBoundIff(s, s', now, Parsing(cfg), w, cfg.maxTotal);
    forall env ensures |KeysOwnedBy(s', now, env)| <= cfg.maxPerEnv <==> FitsIn(s, now, Owning(env), w, cfg.maxPerEnv) {
      assert |KeysOwnedBy(s, now, env)| <= cfg.maxPerEnv;
      WriteKeepsBoundIff(s, s', now, Owning(env), w, cfg.maxPerEnv);
    }
    forall env | !w.value.Route? || env != w.value.owner ensures FitsIn(s, now, Owning(env), w, cfg.maxPerEnv) {
      OthersFit(s, now, cfg, w, env);
    }
  }

  lemma OthersFit(s: State, now: int, cfg: Config, w: Write, env: string)
    requires !w.value.Route? || env != w.value.owner
    ensures FitsIn(s, now, Owning(env), w, cfg.maxPerEnv)
  {}

  /** Fewer entries, or a later moment, keep every quota. */
  lemma FewerKeepQuota(s: State, s': State, now: int, later: int, cfg: Config)
    requires WithinQuota(s, now, cfg) && now <= later
    requires forall k :: k in s'.cells ==> k in s.cells && s'.cells[k] == s.cells[k]
    ensures WithinQuota(s', later, cfg)
  {
    hide Having, Shows;
    FewerHave(s, s', now, later, Parsing(cfg));
    forall env ensures |KeysOwnedBy(s', later, env)| <= cfg.maxPerEnv {
      assert |KeysOwnedBy(s, now, env)| <= cfg.maxPerEnv;
      FewerHave(s, s', now, later, Owning(env));
    }
  }

  lemma FewerHave(s: State, s': State, now: int, later: int, p: Value -> bool)
    requires now <= later
    requires forall k :: k in s'.cells ==> k in s.cells && s'.cells[k] == s.cells[k]
    ensures |Having(s', later, p)| <= |Having(s, now, p)|
  {
    hide Listed;
    SmallerSet(Having(s', later, p), Having(s, now, p));
  }

  /** A step from within the quotas ends within them exactly when what it writes fits. */
  lemma StepKeepsQuotaIff(s: State, now: int, cfg: Config, op: Op)
    requires WithinQuota(s, now, cfg)
    ensures WithinQuota(Step(s, now, cfg, op), now, cfg) <==> Fits(s, now, cfg, op)
  {
    hide WithinQuota, Room, Step, Written, Holds;
    StepWrites(s, now, cfg, op);
    var s', w := Step(s, now, cfg, op), Written(s, now, cfg, op);
    if w.Some? {
      WriteKeepsQuotaIff(s, s', now, cfg, w.value);
    } else {
      FewerKeepQuota(s, s', now, now, cfg);
    }
  }

  /** What the checks of a registration are for: whatever else the store holds, a granted one fits. */
  lemma GrantedFits(s: State, now: int, cfg: Config, op: Op)
    requires Checked(op)
    ensures Fits(s, now, cfg, op)
  {
    hide Listed, Having, Range, Count;
    var r := op.request;
    if Check(s, now, cfg, r).Success? {
      CountsAreExact(s, now, Parsing(cfg));
      CountsAreExact(s, now, Owning(r.caller.value));
      var k := KeyOf(r.name);
      if k in s.cells { UnderIsListed(k, s.cells[k].durable, NS, PREFIX); }
    }
  }

  lemma LawfulFits(s: State, now: int, cfg: Config, op: Op)
    requires Lawful(op)
    ensures Fits(s, now, cfg, op)
  {
    hide Check, Having;
    if Checked(op) {
      hide Fits;
      GrantedFits(s, now, cfg, op);
    }
  }

  type Run = seq<(int, Op)>

  ghost function After(s: State, cfg: Config, run: Run): State
    decreases |run|
  {
    if run == [] then s else After(Step(s, run[0].0, cfg, run[0].1), cfg, run[1..])
  }

  /** The clock never goes back along the run, starting from `t0`. */
  predicate InTime(t0: int, run: Run)
    decreases |run|
  {
    run == [] || (t0 <= run[0].0 && InTime(run[0].0, run[1..]))
  }

  /** The quotas hold at `t0` and after each step. */
  ghost predicate QuotasThroughout(s: State, t0: int, cfg: Config, run: Run)
    decreases |run|
  {
    && WithinQuota(s, t0, cfg)
    && (run == [] || QuotasThroughout(Step(s, run[0].0, cfg, run[0].1), run[0].0, cfg, run[1..]))
  }

  /** Everything written along the run but the registrations of an env had room when it was written. */
  ghost predicate HandWritesFit(s: State, cfg: Config, run: Run)
    decreases |run|
  {
    run == []
    || ((Checked(run[0].1) || Fits(s, run[0].0, cfg, run[0].1))
        && HandWritesFit(Step(s, run[0].0, cfg, run[0].1), cfg, run[1..]))
  }

  /** Over any run, of registrations, removals, sweeps, crashes and whatever is written by hand, the host and
      every env stay within their quotas exactly when each write by hand had room. */
  lemma {:induction false} QuotasHold(s: State, t0: int, cfg: Config, run: Run)
    requires WithinQuota(s, t0, cfg) && InTime(t0, run)
    ensures QuotasThroughout(s, t0, cfg, run) <==> HandWritesFit(s, cfg, run)
    decreases |run|
  {
    hide WithinQuota, Fits, Step;
    if run != [] {
      var (now, op) := run[0];
      var s' := Step(s, now, cfg, op);
      FewerKeepQuota(s, s, t0, now, cfg);
      StepKeepsQuotaIff(s, now, cfg, op);
      if Checked(op) { GrantedFits(s, now, cfg, op); }
      if WithinQuota(s', now, cfg) { QuotasHold(s', now, cfg, run[1..]); }
    }
  }

  lemma EmptyRegistry(pid: nat, now: int, cfg: Config)
    ensures WithinQuota(Fresh(pid), now, cfg)
  {
    assert RouteKeys(Fresh(pid), now, cfg) == {};
    forall env ensures KeysOwnedBy(Fresh(pid), now, env) == {} {}
  }

  lemma {:induction false} LawfulRunFits(s: State, cfg: Config, run: Run)
    requires forall i :: 0 <= i < |run| ==> Lawful(run[i].1)
    ensures HandWritesFit(s, cfg, run)
    decreases |run|
  {
    hide Fits, Step, Lawful, Checked;
    if run != [] {
      LawfulFits(s, run[0].0, cfg, run[0].1);
      LawfulRunFits(Step(s, run[0].0, cfg, run[0].1), cfg, run[1..]);
    }
  }

  /** So they do from a fresh store on, and always when nothing but the registry writes under its namespace. */
  lemma QuotasHoldFromTheStart(pid: nat, t0: int, cfg: Config, run: Run)
    requires InTime(t0, run)
    ensures QuotasThroughout(Fresh(pid), t0, cfg, run) <==> HandWritesFit(Fresh(pid), cfg, run)
    ensures (forall i :: 0 <= i < |run| ==> Lawful(run[i].1)) ==> QuotasThroughout(Fresh(pid), t0, cfg, run)
  {
    hide WithinQuota, HandWritesFit, QuotasThroughout, Lawful;
    EmptyRegistry(pid, t0, cfg);
    QuotasHold(Fresh(pid), t0, cfg, run);
    if forall i :: 0 <= i < |run| ==> Lawful(run[i].1) { LawfulRunFits(Fresh(pid), cfg, run); }
  }

  /** A route written by hand, in either tier and bound to any lease or none, keeps the quotas exactly when the
      name is already held by the owner it names, or that owner has room and, for a name nothing parsable is
      kept under, the host has room too. */
  lemma HandWriteKeepsQuotasIff(s: State, now: int, cfg: Config, name: string, v: Value, durable: bool, lease: Option<LeaseId>)
    requires WithinQuota(s, now, cfg) && v.Route?
    ensures WithinQuota(Step(s, now, cfg, Other(Set(KeyOf(name), v, durable, None, lease))), now, cfg) <==>
      (OwnerAt(s, now, name) == Some(v.owner)
       || (|KeysOwnedBy(s, now, v.owner)| < cfg.maxPerEnv
           && (RouteOf(s, now, cfg, name).Some? || |RouteKeys(s, now, cfg)| < cfg.maxTotal)))
  {
    hide WithinQuota, Step, Having, Listed;
    StepKeepsQuotaIff(s, now, cfg, Other(Set(KeyOf(name), v, durable, None, lease)));
    UnderIsListed(KeyOf(name), true, NS, PREFIX);
    UnderIsListed(KeyOf(name), false, NS, PREFIX);
  }

  /** Where an env may have one route, the first one written by hand fits and the second does not. */
  lemma HandWrittenRoutesPassTheQuota(pid: nat, cfg: Config, now: int, a: string, b: string, v: Value)
    requires cfg.maxPerEnv == 1 && cfg.maxTotal >= 1 && a != b && v.Route?
    ensures var s1 := Step(Fresh(pid), now, cfg, Other(Set(KeyOf(a), v, false, None, None)));
            var s2 := Step(s1, now, cfg, Other(Set(KeyOf(b), v, false, None, None)));
      && WithinQuota(s1, now, cfg) && !WithinQuota(s2, now, cfg)
      && KeysOwnedBy(s2, now, v.owner) == {KeyOf(a), KeyOf(b)}
  {
    var s1 := Step(Fresh(pid), now, cfg, Other(Set(KeyOf(a), v, false, None, None)));
    EmptyRegistry(pid, now, cfg);
    assert KeysOwnedBy(Fresh(pid), now, v.owner) == {} == RouteKeys(Fresh(pid), now, cfg);
    HandWriteKeepsQuotasIff(Fresh(pid), now, cfg, a, v, false, None);
    assert KeyOf(a) != KeyOf(b) by { assert KeyOf(a).1[|PREFIX|..] == a && KeyOf(b).1[|PREFIX|..] == b; }
    assert KeysOwnedBy(s1, now, v.owner) == {KeyOf(a)};
    HandWriteKeepsQuotasIff(s1, now, cfg, b, v, false, None);
  }

  // ---------------------------------------------------------------- ownership

  /** The env a live route under the name belongs to. */
  function OwnerAt(s: State, now: int, name: string): Option<string> {
    var g := Get(s, now, KeyOf(name));
    if g.Some? && g.value.0.Route? then Some(g.value.0.owner) else None
  }

  /** A live route stands under the name before and after every step. */
  ghost predicate HeldThroughout(s: State, cfg: Config, run: Run, name: string)
    decreases |run|
  {
    run == []
    || (&& OwnerAt(s, run[0].0, name).Some?
        && OwnerAt(Step(s, run[0].0, cfg, run[0].1), run[0].0, name).Some?
        && HeldThroughout(Step(s, run[0].0, cfg, run[0].1), cfg, run[1..], name))
  }

  /** After every step the name belongs to `env`. */
  ghost predicate OwnedThroughout(s: State, cfg: Config, run: Run, name: string, env: string)
    decreases |run|
  {
    run == []
    || (&& OwnerAt(Step(s, run[0].0, cfg, run[0].1), run[0].0, name) == Some(env)
        && OwnedThroughout(Step(s, run[0].0, cfg, run[0].1), cfg, run[1..], name, env))
  }

  /** The step is a registration, or writes no route of another env under the name. */
  ghost predicate LeavesTheOwner(s: State, now: int, cfg: Config, op: Op, name: string, env: string) {
    var w := Written(s, now, cfg, op);
    op.Reg? || w.None? || w.value.key != KeyOf(name) || !w.value.value.Route? || w.value.value.owner == env
  }

  ghost predicate NobodyTakes(s: State, cfg: Config, run: Run, name: string, env: string)
    decreases |run|
  {
    run == []
    || (&& LeavesTheOwner(s, run[0].0, cfg, run[0].1, name, env)
        && NobodyTakes(Step(s, run[0].0, cfg, run[0].1), cfg, run[1..], name, env))
  }

  /** A step over a held name that leaves it held: the owner is the same exactly when no hand wrote another's. */
  lemma StepKeepsOwnerIff(s: State, now: int, cfg: Config, op: Op, name: string)
    requires OwnerAt(s, now, name).Some? && OwnerAt(Step(s, now, cfg, op), now, name).Some?
    ensures OwnerAt(Step(s, now, cfg, op), now, name) == OwnerAt(s, now, name)
      <==> LeavesTheOwner(s, now, cfg, op, name, OwnerAt(s, now, name).value)
  {
    var env := OwnerAt(s, now, name).value;
    if op.Reg? {
      RegisterKeepsOwner(s, now, cfg, op.request, name);
    } else {
      hide Step, Written;
      StepWrites(s, now, cfg, op);
    }
  }

  lemma RegisterKeepsOwner(s: State, now: int, cfg: Config, r: Request, name: string)
    requires OwnerAt(s, now, name).Some?
    ensures OwnerAt(Register(s, now, cfg, r), now, name) == OwnerAt(s, now, name)
  {
    hide Range;
    if Check(s, now, cfg, r).Success? && KeyOf(r.name) == KeyOf(name) {
      assert KeyOf(r.name).1[|PREFIX|..] == r.name && KeyOf(name).1[|PREFIX|..] == name;
    }
  }

  /** A name that stays held keeps its owner, however often it is registered again and whatever else is
      written, exactly when nobody writes another's route under it by hand. */
  lemma {:induction false} LiveNameKeepsOwner(s: State, cfg: Config, run: Run, name: string, env: string)
    requires HeldThroughout(s, cfg, run, name)
    requires run != [] ==> OwnerAt(s, run[0].0, name) == Some(env)
    ensures OwnedThroughout(s, cfg, run, name, env) <==> NobodyTakes(s, cfg, run, name, env)
    decreases |run|
  {
    hide Step, LeavesTheOwner;
    if run != [] {
      var (now, op) := run[0];
      StepKeepsOwnerIff(s, now, cfg, op, name);
      if OwnerAt(Step(s, now, cfg, op), now, name) == Some(env) {
        LiveNameKeepsOwner(Step(s, now, cfg, op), cfg, run[1..], name, env);
      }
    }
  }

  /** A route written by hand over a held name leaves its owner exactly when it names that one. */
  lemma HandWrittenRoutesTakeNames(s: State, cfg: Config, now: int, name: string, v: Value, durable: bool, lease: Option<LeaseId>)
    requires OwnerAt(s, now, name).Some? && v.Route?
    ensures OwnerAt(Step(s, now, cfg, Other(Set(KeyOf(name), v, durable, None, lease))), now, name) == OwnerAt(s, now, name)
      <==> v.owner == OwnerAt(s, now, name).value
  {
    StepKeepsOwnerIff(s, now, cfg, Other(Set(KeyOf(name), v, durable, None, lease)), name);
  }

  // ---------------------------------------------------------------- who gets a name

  predicate MayBeName(name: string) {
    && 1 <= |name| <= 64
    && forall i :: 0 <= i < |name| ==>
         'a' <= name[i] <= 'z' || 'A' <= name[i] <= 'Z' || '0' <= name[i] <= '9' || name[i] == '-' || name[i] == '_'
  }

  /** A registration is granted exactly to an env, for a proper name and a published port, when the name is its
      own already, or is free while the host and the env are below their caps. */
  lemma GrantedIff(s: State, now: int, cfg: Config, r: Request)
    ensures Check(s, now, cfg, r).Success? <==>
      (&& MayBeName(r.name) && r.caller.Some? && 0 <= r.port < 65536 && r.port in r.published
       && var held := RouteOf(s, now, cfg, r.name);
          if held.Some? then OwnerOf(held.value) == r.caller.value
          else |RouteKeys(s, now, cfg)| < cfg.maxTotal && |KeysOwnedBy(s, now, r.caller.value)| < cfg.maxPerEnv)
  {
    hide Range, Count, Having, RouteOf;
    CountsAreExact(s, now, Parsing(cfg));
    if r.caller.Some? { CountsAreExact(s, now, Owning(r.caller.value)); }
    assert ValidName(r.name) <==> MayBeName(r.name) by { NamesAreNames(r.name); }
  }

  lemma NamesAreNames(name: string)
    ensures ValidName(name) <==> MayBeName(name)
  {
    if MayBeName(name) {
      forall c | c in name ensures NameChar(c) { var i :| 0 <= i < |name| && name[i] == c; }
    }
    if ValidName(name) {
      forall i | 0 <= i < |name| ensures NameChar(name[i]) { assert name[i] in name; }
    }
  }

  /** What it gets: the route is answered under the name, with the address published for the port, bound to a
      new lease; and no other key changes. */
  lemma GrantedIsRouted(s: State, now: int, cfg: Config, r: Request)
    requires Check(s, now, cfg, r).Success?
    ensures var t := Register(s, now, cfg, r); var id := Issued(s.pid, s.leaseSeq); var k := ("@ingress", "/ingress/" + r.name);
      && RouteOf(t, now, cfg, r.name) == Some(Value.Route(r.caller.value, r.published[r.port], r.public, r.port, id))
      && k in t.cells && t.cells[k].lease == Some(id) && !t.cells[k].durable && t.cells[k].expires.None?
      && id in t.leases && t.leases[id].expires == now + Max(cfg.leaseTtlMs, 0)
      && t.cells == s.cells[k := t.cells[k]]
  {
    hide Range, Count;
  }

  /** An env takes back exactly a live route of its own, and nothing else changes. */
  lemma UnregisteredIff(s: State, now: int, caller: Option<string>, name: string)
    ensures var t := Unregister(s, now, caller, name);
      if caller.Some? && OwnerAt(s, now, name) == caller
      then t.cells == s.cells - {KeyOf(name)} && OwnerAt(t, now, name) == None && Get(t, now, KeyOf(name)) == None
      else t == s
  {}

  /** A route that is given up because its app is dead leaves its name free at once. */
  lemma GivenUpIsFree(s: State, now: int, cfg: Config, name: string)
    ensures var t := Step(s, now, cfg, GiveUp(name)); t.cells == s.cells - {KeyOf(name)} && OwnerAt(t, now, name) == None
  {}

  // ---------------------------------------------------------------- leases

  /** A kv step that leaves the key `k` alone: it neither writes it nor ends the boot. */
  predicate Spares(op: KvSpec.Op, k: Key) {
    match op
    case Set(k', _, _, _, _) => k' != k
    case Del(k') => k' != k
    case Cas(k', _, _, _) => k' != k
    case Incr(k', _, _) => k' != k
    case Expire(k', _) => k' != k
    case Crash(_) => false
    case _ => true
  }

  /** The route is there, bound to a lease of this boot that is good until `t0 + ttl`. */
  ghost predicate Safe(s: State, k: Key, e: Entry, t0: int, ttl: int) {
    && k in s.cells && s.cells[k] == e && e.expires.None? && e.lease.Some?
    && e.lease.value.Issued? && e.lease.value.pid == s.pid && e.lease.value.number < s.leaseSeq
    && e.lease.value in s.leases && s.leases[e.lease.value].ttl == ttl
    && t0 + ttl <= s.leases[e.lease.value].expires
  }

  lemma StepKeepsRoute(s: State, now: int, op: KvSpec.Op, k: Key, e: Entry, t0: int, ttl: int)
    requires Safe(s, k, e, t0, ttl) && Spares(op, k) && t0 <= now < t0 + ttl
    ensures Safe(KvSpec.Step(s, now, op), k, e, t0, ttl)
  {
    if op.Tick? { TickIsExact(s, now); }
  }

  ghost predicate RunSpares(run: KvSpec.Run, k: Key, t0: int, ttl: int) {
    forall i :: 0 <= i < |run| ==> t0 <= run[i].0 < t0 + ttl && Spares(run[i].1, k)
  }

  lemma {:induction false} RunKeepsRoute(s: State, run: KvSpec.Run, k: Key, e: Entry, t0: int, ttl: int)
    requires Safe(s, k, e, t0, ttl) && RunSpares(run, k, t0, ttl)
    ensures Safe(KvSpec.After(s, run), k, e, t0, ttl)
    decreases |run|
  {
    if run != [] {
      StepKeepsRoute(s, run[0].0, run[0].1, k, e, t0, ttl);
      RunKeepsRoute(KvSpec.Step(s, run[0].0, run[0].1), run[1..], k, e, t0, ttl);
    }
  }

  /** Registering a name moves the route to a new lease: until that one ends, nothing but a write to
      the route itself or the end of the boot removes it, and in particular not the sweep that takes
      the lease it was bound to before. */
  lemma ReRegistrationOutlivesOldLease(s: State, now: int, cfg: Config, r: Request, run: KvSpec.Run)
    requires Check(s, now, cfg, r).Success?
    requires RunSpares(run, KeyOf(r.name), now, Max(cfg.leaseTtlMs, 0))
    ensures var k := KeyOf(r.name); var end := KvSpec.After(Register(s, now, cfg, r), run);
      k in end.cells && end.cells[k] == Register(s, now, cfg, r).cells[k]
      && r.caller == Some(end.cells[k].value.owner)
  {
    var k := KeyOf(r.name);
    var s' := Register(s, now, cfg, r);
    RunKeepsRoute(s', run, k, s'.cells[k], now, Max(cfg.leaseTtlMs, 0));
  }

  // ---------------------------------------------------------------- the handlers

  method CheckRequest(kv: Kv.KvFacade, now: int, cfg: Config, r: Request) returns (o: Result<(string, string), Refusal>)
    requires kv.Valid()
    ensures o == Check(kv.Flat(), now, cfg, r)
  {
    if !ValidName(r.name) { return Failure(BadName); }
    if r.caller.None? { return Failure(NoCaller); }
    var env := r.caller.value;
    var existing := kv.GetKey(now, KeyOf(r.name));
    if existing.Some? && Parses(cfg, existing.value.0) {
      if OwnerOf(existing.value.0) != env { return Failure(OwnedBy(OwnerOf(existing.value.0))); }
    } else {
      var all := kv.RangeKeys(now, NS, PREFIX);
      var total, mine := CountRoutes(all, cfg, env);
      if total >= cfg.maxTotal { return Failure(HostQuota); }
      if mine >= cfg.maxPerEnv { return Failure(EnvQuota); }
    }
    if !(0 <= r.port < 0x1_0000) { return Failure(PortRange); }
    if r.port !in r.published { return Failure(PortUnpublished); }
    return Success((env, r.published[r.port]));
  }

  method CountRoutes(all: seq<Row>, cfg: Config, env: string) returns (total: nat, mine: nat)
    ensures total == Count(all, Parsing(cfg)) && mine == Count(all, Owning(env))
  {
    total, mine := 0, 0;
    for i := 0 to |all|
      invariant total == Count(all[..i], Parsing(cfg)) && mine == Count(all[..i], Owning(env))
    {
      assert all[..i + 1][..i] == all[..i];
      if Parses(cfg, all[i].value) { total := total + 1; }
      if all[i].value.Route? && all[i].value.owner == env { mine := mine + 1; }
    }
    assert all[..|all|] == all;
  }

  method RegisterRoute(kv: Kv.KvFacade, now: int, cfg: Config, r: Request) returns (o: Result<LeaseId, Refusal>)
    requires kv.Valid()
    modifies kv
    ensures kv.Valid() && kv.Flat() == Register(old(kv.Flat()), now, cfg, r)
    ensures o.Failure? <==> Check(old(kv.Flat()), now, cfg, r).Failure?
    ensures o.Failure? ==> o.error == Check(old(kv.Flat()), now, cfg, r).error
    ensures r.caller != Some("") && WithinQuota(old(kv.Flat()), now, cfg) ==> WithinQuota(kv.Flat(), now, cfg)
    ensures o.Success? ==> o.value == Issued(old(kv.pid), old(kv.leaseSeq))
  {
    hide Check, WithinQuota, Fits, Range;
    if Checked(Reg(r)) && WithinQuota(kv.Flat(), now, cfg) {
      GrantedFits(kv.Flat(), now, cfg, Reg(r));
      StepKeepsQuotaIff(kv.Flat(), now, cfg, Reg(r));
    }
    var checked := CheckRequest(kv, now, cfg, r);
    if checked.Failure? { return Failure(checked.error); }
    var (env, addr) := checked.value;
    var lease := kv.GrantLease(now, cfg.leaseTtlMs, NS);
    var rev := kv.SetKey(now, KeyOf(r.name), Value.Route(env, addr, r.public, r.port, lease), false, None, Some(lease));
    return Success(lease);
  }

  method UnregisterRoute(kv: Kv.KvFacade, now: int, caller: Option<string>, name: string) returns (gone: bool)
    requires kv.Valid()
    modifies kv
    ensures kv.Valid() && kv.Flat() == Unregister(old(kv.Flat()), now, caller, name)
    ensures gone <==> MayDrop(old(kv.Flat()), now, caller, name)
  {
    gone := false;
    if caller.None? { return; }
    var found := kv.GetKey(now, KeyOf(name));
    if found.Some? && found.value.0.Route? && found.value.0.owner == caller.value {
      gone := kv.DelKey(KeyOf(name));
    }
  }
}
