/**
 The environment tree as a state machine. A process is known by its generation; its exit is a message
 that arrives once, at any later time. `Green(env)` is the candidate node of a kernel switch.
 */
module SupervisorSpec {
  import opened Prelude
  import Decimal

  datatype Role = Guardian | Agent

  /** `sandbox` and `store` are identities; `budget` is when the env's budget started, 0 for never. */
  datatype Node = Node(
    role: Role, pid: Option<nat>, gen: nat, registered: bool, restarts: nat,
    parent: Option<string>, depth: nat, shadow: bool,
    sandbox: Option<nat>, store: Option<nat>, budget: int)

  datatype Limits = Limits(maxDepth: nat, maxTotal: nat, maxRestarts: nat)

  /** `exits` holds the processes whose exit has not been reported yet, by the env it is reported for. */
  datatype State = State(
    limits: Limits, nodes: map<string, Node>, generation: nat,
    draining: map<string, nat>, exits: set<(string, nat)>)

  /** How a start goes: before the old record is dropped, in the sandbox after it, or well. */
  datatype Start = Fine | FailsEarly | FailsInSandbox

  const GUARDIAN := "guardian"
  const SUFFIX := "~green"

  function Green(env: string): string {
    env + SUFFIX
  }

  predicate IsGreen(name: string) {
    |name| >= |SUFFIX| && name[|name| - |SUFFIX|..] == SUFFIX
  }

  function Has(nodes: map<string, Node>, env: Option<string>): bool {
    env.Some? && env.value in nodes
  }

  // ---------------------------------------------------------------- the tree

  /** Every parent exists, one level up. */
  ghost predicate Forest(nodes: map<string, Node>) {
    forall n :: n in nodes ==>
      if nodes[n].parent.None? then nodes[n].depth == 0
      else nodes[n].parent.value in nodes && nodes[n].depth == nodes[nodes[n].parent.value].depth + 1
  }

  /** `x` is `env` or below it. */
  ghost predicate Under(nodes: map<string, Node>, x: string, env: string)
    requires Forest(nodes)
    decreases if x in nodes then nodes[x].depth else 0
  {
    x in nodes && (x == env || (nodes[x].parent.Some? && Under(nodes, nodes[x].parent.value, env)))
  }

  ghost function Subtree(nodes: map<string, Node>, env: string): set<string>
    requires Forest(nodes)
  {
    set x | x in nodes && Under(nodes, x, env)
  }

  function Children(nodes: map<string, Node>, env: string): set<string> {
    set n | n in nodes && nodes[n].parent == Some(env)
  }

  // ---------------------------------------------------------------- steps

  function DepthUnder(nodes: map<string, Node>, parent: Option<string>): nat {
    if Has(nodes, parent) then nodes[parent.value].depth + 1 else 0
  }

  /** The record of a freshly started node: what its predecessor had, and a new process. */
  function Started(nodes: map<string, Node>, role: Role, env: string, parent: Option<string>, gen: nat, now: int): Node {
    var was := if env in nodes then Some(nodes[env]) else None;
    Node(role, Some(gen), gen, false,
         if was.Some? then was.value.restarts else 0,
         if was.Some? && was.value.parent.Some? then was.value.parent else parent,
         if was.Some? then was.value.depth else DepthUnder(nodes, parent),
         false,
         if role == Guardian then None else Some(gen),
         if was.Some? && was.value.store.Some? then was.value.store else if role == Guardian then None else Some(gen),
         if was.Some? && was.value.budget != 0 then was.value.budget else now)
  }

  /** Whether a start that goes like this comes up: the guardian has no sandbox to fail. */
  predicate ComesUp(role: Role, start: Start) {
    start == Fine || (start == FailsInSandbox && role == Guardian)
  }

  function DoStart(s: State, role: Role, env: string, parent: Option<string>, start: Start, now: int): State {
    var gen := s.generation + 1;
    if start == FailsEarly then s.(generation := gen)
    else if start == FailsInSandbox && role == Agent then
      s.(generation := gen, nodes := s.nodes - {env}, exits := s.exits + {(env, gen)})
    else
      s.(generation := gen, nodes := s.nodes[env := Started(s.nodes, role, env, parent, gen, now)],
         exits := s.exits + {(env, gen)})
  }

  function Booted(limits: Limits, root: string, now: int): State {
    DoStart(DoStart(State(limits, map[], 0, map[], {}), Guardian, GUARDIAN, None, Fine, now), Agent, root, None, Fine, now)
  }

  /** Everything but the guardian, candidates included. */
  function Agents(nodes: map<string, Node>): set<string> {
    set n | n in nodes && nodes[n].role != Guardian
  }

  function Numbered(parent: string, n: nat): string {
    parent + "." + Decimal.RenderNat(n)
  }

  function Staged(parent: Option<string>, depth: nat): Node {
    Node(Agent, None, 0, false, 0, parent, depth, false, None, None, 0)
  }

  const UNKNOWN := "unknown env"

  function SpawnRefusal(s: State, parent: Option<string>, child: string): Option<string> {
    if parent.None? then Some("runtime.spawn needs a parent env")
    else if parent.value !in s.nodes then Some(UNKNOWN)
    else if s.nodes[parent.value].role == Guardian then Some("the guardian spawns nothing")
    else if s.nodes[parent.value].depth + 1 > s.limits.maxDepth then Some("past the depth limit")
    else if |Agents(s.nodes)| >= s.limits.maxTotal then Some("already at the limit")
    else if child in s.nodes then Some("already exists")
    else None
  }

  /** There is room for a child under the parent: it gets as far as choosing a name. */
  predicate HasRoomUnder(s: State, parent: Option<string>) {
    && Has(s.nodes, parent) && s.nodes[parent.value].role != Guardian
    && s.nodes[parent.value].depth < s.limits.maxDepth && |Agents(s.nodes)| < s.limits.maxTotal
  }

  /** A child that cannot be started leaves no record. */
  function DoSpawn(s: State, parent: Option<string>, child: string, start: Start, now: int): State {
    if SpawnRefusal(s, parent, child).Some? then s
    else
      var t := s.(nodes := s.nodes[child := Staged(parent, s.nodes[parent.value].depth + 1)]);
      var u := DoStart(t, Agent, child, parent, start, now);
      if start == Fine then u else u.(nodes := u.nodes - {child})
  }

  ghost function DoPrune(s: State, env: string): State
    requires Forest(s.nodes)
  {
    s.(nodes := s.nodes - Subtree(s.nodes, env))
  }

  ghost function DoStop(s: State, env: string): State
    requires Forest(s.nodes)
  {
    if env in s.nodes && s.nodes[env].parent.Some? then DoPrune(s, env) else s
  }

  /** The current process of an env has died: its record goes down and its children go with it. */
  ghost function WentDown(s: State, env: string): State
    requires env in s.nodes && Forest(s.nodes)
  {
    s.(nodes := (s.nodes - (Subtree(s.nodes, env) - {env}))[env := s.nodes[env].(registered := false, pid := None)])
  }

  /** An env whose process died: down, its children gone, and up again while it has restarts left. */
  ghost function Revived(s: State, env: string, start: Start, now: int): State
    requires env in s.nodes && Forest(s.nodes)
  {
    var u, n := WentDown(s, env), s.nodes[env];
    if n.restarts >= s.limits.maxRestarts then u
    else DoStart(u.(nodes := u.nodes[env := u.nodes[env].(restarts := n.restarts + 1)]), n.role, env, n.parent, start, now)
  }

  /** Only the exit of the env's current process counts. */
  ghost function DoExit(s: State, env: string, gen: nat, start: Start, now: int): State
    requires Forest(s.nodes)
  {
    var t := s.(exits := s.exits - {(env, gen)});
    if env !in s.nodes || s.nodes[env].gen != gen then t else Revived(t, env, start, now)
  }

  function DoReset(s: State, env: string, start: Start, clear: bool, now: int): State {
    if env == GUARDIAN || env !in s.nodes then s
    else
      var n := s.nodes[env];
      var t := DoStart(s.(nodes := s.nodes[env := n.(registered := false)]), n.role, env, n.parent, start, now);
      if !ComesUp(n.role, start) then t
      else t.(nodes := t.nodes[env := t.nodes[env].(restarts := 0, budget := if clear then now else t.nodes[env].budget)])
  }

  /** The candidate stands beside the env, under the same parent; its exit would be the env's. */
  function DoSwitch(s: State, env: string, unix: bool, spawned: bool): State {
    if env !in s.nodes || s.nodes[env].role == Guardian || !unix then s
    else
      var gen := s.generation + 1;
      if !spawned then s.(generation := gen)
      else
        var node := Staged(s.nodes[env].parent, s.nodes[env].depth).(pid := Some(gen), gen := gen, shadow := true);
        s.(generation := gen, nodes := s.nodes[Green(env) := node], exits := s.exits + {(env, gen)})
  }

  /** The candidate's process, the env's everything else. */
  function Merged(was: Node, next: Node): Node {
    was.(pid := next.pid, gen := next.gen, registered := next.registered, shadow := false)
  }

  function DoReady(s: State, env: string, ok: bool): State {
    var green := Green(env);
    if !ok then s.(nodes := s.nodes - {green})
    else if green !in s.nodes then s
    else if env !in s.nodes then s.(nodes := s.nodes - {green})
    else
      var was := s.nodes[env];
      s.(nodes := (s.nodes - {green})[env := Merged(was, s.nodes[green])],
         draining := if was.pid.Some? then s.draining[env := was.pid.value] else s.draining)
  }

  function DoDrain(s: State, env: string): State {
    s.(draining := s.draining - {env})
  }

  function DoRegister(s: State, env: string, gen: nat): State {
    if env in s.nodes && s.nodes[env].gen == gen then s.(nodes := s.nodes[env := s.nodes[env].(registered := true)]) else s
  }

  datatype Event =
    | Spawn(parent: Option<string>, child: string, start: Start, now: int)
    | Stop(env: string)
    | Exit(env: string, gen: nat, start: Start, now: int)
    | Reset(env: string, start: Start, clear: bool, now: int)
    | Switch(env: string, unix: bool, spawned: bool)
    | Ready(env: string, ok: bool)
    | Drain(env: string)
    | Register(env: string, gen: nat)

  /** What is assumed of the surroundings: an exit is reported once, candidates are neither spawned
      under nor addressed by name, and a reset whose sandbox fails is of an env without children. */
  ghost predicate Allowed(s: State, e: Event) {
    match e
    case Spawn(parent, child, _, _) => !IsGreen(child) && (parent.Some? ==> !IsGreen(parent.value))
    case Exit(env, gen, _, _) => (env, gen) in s.exits
    case Reset(env, start, _, _) => !IsGreen(env) && (start == FailsInSandbox ==> Children(s.nodes, env) == {})
    case Switch(env, _, _) => !IsGreen(env)
    case Ready(env, _) => !IsGreen(env)
    case _ => true
  }

  ghost function Step(s: State, e: Event): State
    requires Forest(s.nodes)
  {
    match e
    case Spawn(parent, child, start, now) => DoSpawn(s, parent, child, start, now)
    case Stop(env) => DoStop(s, env)
    case Exit(env, gen, start, now) => DoExit(s, env, gen, start, now)
    case Reset(env, start, clear, now) => DoReset(s, env, start, clear, now)
    case Switch(env, unix, spawned) => DoSwitch(s, env, unix, spawned)
    case Ready(env, ok) => DoReady(s, env, ok)
    case Drain(env) => DoDrain(s, env)
    case Register(env, gen) => DoRegister(s, env, gen)
  }

  // ---------------------------------------------------------------- the invariant

  /** The guardian is there and alone of its kind; candidates carry the suffix; nothing stands under
      the guardian or a candidate. */
  ghost predicate Named(nodes: map<string, Node>) {
    && GUARDIAN in nodes
    && (forall n :: n in nodes ==> (nodes[n].role == Guardian <==> n == GUARDIAN))
    && (forall n :: n in nodes ==> (nodes[n].shadow <==> IsGreen(n)))
    && (forall n :: n in nodes && nodes[n].parent.Some? ==>
          nodes[n].parent.value != GUARDIAN && !IsGreen(nodes[n].parent.value) && n != GUARDIAN)
  }

  /** The environments that count: agents that are not candidates. */
  function Settled(nodes: map<string, Node>): set<string> {
    set n | n in nodes && nodes[n].role != Guardian && !nodes[n].shadow
  }

  ghost predicate Within(s: State) {
    && (forall n :: n in s.nodes ==> s.nodes[n].depth <= s.limits.maxDepth)
    && (forall n :: n in s.nodes ==> s.nodes[n].restarts <= s.limits.maxRestarts)
    && |Settled(s.nodes)| <= s.limits.maxTotal
  }

  /** Every node has a generation of its own. */
  ghost predicate Generations(s: State) {
    && (forall n :: n in s.nodes ==> 1 <= s.nodes[n].gen <= s.generation)
    && (forall n, m :: n in s.nodes && m in s.nodes && n != m ==> s.nodes[n].gen != s.nodes[m].gen)
    && (forall x :: x in s.exits ==> x.1 <= s.generation && !IsGreen(x.0))
  }

  ghost predicate Inv(s: State) {
    Forest(s.nodes) && Named(s.nodes) && Within(s) && Generations(s)
  }

  // ---------------------------------------------------------------- trees stay trees

  /** A set of nodes that contains the children of its members. */
  ghost predicate Closed(nodes: map<string, Node>, gone: set<string>) {
    forall n :: n in nodes && nodes[n].parent.Some? && nodes[n].parent.value in gone ==> n in gone
  }

  lemma {:induction false} UnderIsUnder(nodes: map<string, Node>, x: string, y: string, env: string)
    requires Forest(nodes) && Under(nodes, x, y) && Under(nodes, y, env)
    ensures Under(nodes, x, env)
    decreases nodes[x].depth
  {
    if x != y { UnderIsUnder(nodes, nodes[x].parent.value, y, env); }
  }

  /** Everything below stands deeper. */
  lemma {:induction false} UnderIsDeeper(nodes: map<string, Node>, x: string, env: string)
    requires Forest(nodes) && Under(nodes, x, env)
    ensures env in nodes && (x == env || nodes[env].depth < nodes[x].depth)
    decreases nodes[x].depth
  {
    if x != env { UnderIsDeeper(nodes, nodes[x].parent.value, env); }
  }

  lemma SubtreeIsClosed(nodes: map<string, Node>, env: string)
    requires Forest(nodes)
    ensures Closed(nodes, Subtree(nodes, env))
  {}

  /** Taking a closed set away leaves a forest in which the rest stands as before. */
  lemma ForestWithout(nodes: map<string, Node>, gone: set<string>)
    requires Forest(nodes) && Closed(nodes, gone)
    ensures Forest(nodes - gone)
  {}

  lemma {:induction false} UnderWithout(nodes: map<string, Node>, gone: set<string>, x: string, env: string)
    requires Forest(nodes) && Closed(nodes, gone) && x !in gone
    ensures Forest(nodes - gone) && (Under(nodes - gone, x, env) <==> Under(nodes, x, env))
    decreases if x in nodes then nodes[x].depth else 0
  {
    ForestWithout(nodes, gone);
    if x in nodes && nodes[x].parent.Some? { UnderWithout(nodes, gone, nodes[x].parent.value, env); }
  }

  /** A node below an env, other than itself, is below exactly one of its children. */
  lemma {:induction false} UnderAChild(nodes: map<string, Node>, x: string, env: string) returns (child: string)
    requires Forest(nodes) && Under(nodes, x, env) && x != env
    ensures child in Children(nodes, env) && Under(nodes, x, child)
    decreases nodes[x].depth
  {
    var p := nodes[x].parent.value;
    if p == env { child := x; } else { child := UnderAChild(nodes, p, env); }
  }

  lemma {:induction false} ChainsMeet(nodes: map<string, Node>, x: string, a: string, b: string)
    requires Forest(nodes) && Under(nodes, x, a) && Under(nodes, x, b)
    ensures Under(nodes, a, b) || Under(nodes, b, a)
    decreases nodes[x].depth
  {
    if x != a && x != b { ChainsMeet(nodes, nodes[x].parent.value, a, b); }
  }

  /** Two children of one env have nothing in common below them. */
  lemma SiblingsAreApart(nodes: map<string, Node>, a: string, b: string, env: string)
    requires Forest(nodes) && a in Children(nodes, env) && b in Children(nodes, env) && a != b
    ensures Subtree(nodes, a) !! Subtree(nodes, b)
  {
    if x :| x in Subtree(nodes, a) && x in Subtree(nodes, b) {
      ChainsMeet(nodes, x, a, b);
      if Under(nodes, a, b) { UnderIsDeeper(nodes, a, b); } else { UnderIsDeeper(nodes, b, a); }
      assert false;
    }
  }

  /** An env is below itself and not below any of its children. */
  lemma ChildrenAreBelow(nodes: map<string, Node>, child: string, env: string)
    requires Forest(nodes) && child in Children(nodes, env)
    ensures Subtree(nodes, child) <= Subtree(nodes, env) - {env}
  {
    forall x | x in Subtree(nodes, child) ensures x in Subtree(nodes, env) && x != env {
      assert Under(nodes, child, env);
      UnderIsUnder(nodes, x, child, env);
      if x == env { UnderIsDeeper(nodes, env, child); }
    }
  }

  // ---------------------------------------------------------------- every step keeps the invariant

  lemma {:induction false} SubsetSize<T>(a: set<T>, b: set<T>)
    requires a <= b
    ensures |a| <= |b|
    decreases a
  {
    if a != {} {
      var x :| x in a;
      SubsetSize(a - {x}, b - {x});
    }
  }

  /** A record is replaced by one that stands at the same place. */
  lemma ReplacedShape(nodes: map<string, Node>, env: string, n: Node)
    requires Forest(nodes) && Named(nodes) && env in nodes
    requires n.parent == nodes[env].parent && n.depth == nodes[env].depth
    requires n.role == nodes[env].role && n.shadow == nodes[env].shadow
    ensures Forest(nodes[env := n]) && Named(nodes[env := n])
    ensures Settled(nodes[env := n]) == Settled(nodes)
  {}

  lemma RemovedShape(nodes: map<string, Node>, gone: set<string>)
    requires Forest(nodes) && Named(nodes) && Closed(nodes, gone) && GUARDIAN !in gone
    ensures Forest(nodes - gone) && Named(nodes - gone)
    ensures Settled(nodes - gone) <= Settled(nodes)
  {}

  /** A new leaf, or a candidate in place of a candidate. */
  lemma AddedShape(nodes: map<string, Node>, env: string, n: Node)
    requires Forest(nodes) && Named(nodes) && env != GUARDIAN && (env in nodes ==> IsGreen(env))
    requires n.role == Agent && (n.shadow <==> IsGreen(env))
    requires if n.parent.None? then n.depth == 0
      else (n.parent.value in nodes && n.parent.value != GUARDIAN && !IsGreen(n.parent.value) && n.parent.value != env
            && n.depth == nodes[n.parent.value].depth + 1)
    ensures Forest(nodes[env := n]) && Named(nodes[env := n])
    ensures Settled(nodes[env := n]) <= Settled(nodes) + (if n.shadow then {} else {env})
  {}

  lemma GuardianNotBelow(nodes: map<string, Node>, env: string)
    requires Forest(nodes) && Named(nodes) && env != GUARDIAN
    ensures GUARDIAN !in Subtree(nodes, env)
  {}

  /** A step that removes nodes and may restart or replace the remaining ones in place. */
  lemma Shrunk(s: State, t: State)
    requires Inv(s) && Forest(t.nodes) && Named(t.nodes) && t.limits == s.limits && s.generation == t.generation
    requires Settled(t.nodes) <= Settled(s.nodes) && t.exits <= s.exits
    requires forall n :: n in t.nodes ==> n in s.nodes && t.nodes[n].gen == s.nodes[n].gen
    requires forall n :: n in t.nodes ==> t.nodes[n].depth == s.nodes[n].depth && t.nodes[n].restarts <= s.limits.maxRestarts
    ensures Inv(t)
  {
    SubsetSize(Settled(t.nodes), Settled(s.nodes));
  }

  /** A record changes in place and keeps its generation. */
  lemma InPlaceInv(s: State, env: string, n: Node)
    requires Inv(s) && env in s.nodes
    requires n.parent == s.nodes[env].parent && n.depth == s.nodes[env].depth && n.gen == s.nodes[env].gen
    requires n.role == s.nodes[env].role && n.shadow == s.nodes[env].shadow && n.restarts <= s.limits.maxRestarts
    ensures Inv(s.(nodes := s.nodes[env := n])) && Children(s.nodes[env := n], env) == Children(s.nodes, env)
  {
    hide Forest, Named;
    ReplacedShape(s.nodes, env, n);
    Shrunk(s, s.(nodes := s.nodes[env := n]));
  }

  lemma RemovedInv(s: State, gone: set<string>)
    requires Inv(s) && Closed(s.nodes, gone) && GUARDIAN !in gone
    ensures Inv(s.(nodes := s.nodes - gone))
  {
    hide Forest, Named, Closed;
    RemovedShape(s.nodes, gone);
    Shrunk(s, s.(nodes := s.nodes - gone));
  }

  lemma ReportedInv(s: State, x: (string, nat))
    requires Inv(s)
    ensures Inv(s.(exits := s.exits - {x}))
  {
    hide Forest, Named;
    Shrunk(s, s.(exits := s.exits - {x}));
  }

  lemma PruneKeepsInv(s: State, env: string)
    requires Inv(s) && env != GUARDIAN
    ensures Inv(DoPrune(s, env))
  {
    hide Named, Within, Generations, Closed;
    SubtreeIsClosed(s.nodes, env);
    GuardianNotBelow(s.nodes, env);
    RemovedInv(s, Subtree(s.nodes, env));
  }

  lemma WentDownKeepsInv(s: State, env: string)
    requires Inv(s) && env in s.nodes
    ensures Inv(WentDown(s, env)) && WentDown(s, env).limits == s.limits && env in WentDown(s, env).nodes
    ensures WentDown(s, env).nodes[env] == s.nodes[env].(registered := false, pid := None)
    ensures Children(WentDown(s, env).nodes, env) == {}
  {
    hide Named, Generations, Closed;
    var gone := Subtree(s.nodes, env) - {env};
    BelowIsClosed(s.nodes, env);
    RemovedInv(s, gone);
    var t := s.(nodes := s.nodes - gone);
    InPlaceInv(t, env, s.nodes[env].(registered := false, pid := None));
    NoneBelow(s.nodes, env);
  }

  lemma NoneBelow(nodes: map<string, Node>, env: string)
    requires Forest(nodes) && env in nodes
    ensures Children(nodes - (Subtree(nodes, env) - {env}), env) == {}
  {
    forall n | n in Children(nodes, env) ensures n in Subtree(nodes, env) - {env} {
      ChildrenAreBelow(nodes, n, env);
      assert Under(nodes, n, n);
    }
  }

  lemma BelowIsClosed(nodes: map<string, Node>, env: string)
    requires Forest(nodes) && Named(nodes) && env in nodes
    ensures Closed(nodes, Subtree(nodes, env) - {env}) && GUARDIAN !in Subtree(nodes, env) - {env}
  {
    forall n | n in nodes && nodes[n].parent.Some? && nodes[n].parent.value in Subtree(nodes, env) - {env}
      ensures n in Subtree(nodes, env) - {env}
    {
      UnderIsDeeper(nodes, nodes[n].parent.value, env);
      assert Under(nodes, n, env);
    }
  }

  /** A process more: an in-place restart, or a new node with the next generation. */
  lemma Regenerated(s: State, t: State, env: string)
    requires Generations(s) && t.generation == s.generation + 1 && !IsGreen(env)
    requires forall x :: x in t.exits ==> x in s.exits || x == (env, t.generation)
    requires forall n :: n in t.nodes ==> (n in s.nodes && t.nodes[n].gen == s.nodes[n].gen) || t.nodes[n].gen == t.generation
    requires forall n, m :: n in t.nodes && m in t.nodes && n != m ==> t.nodes[n].gen != t.generation || t.nodes[m].gen != t.generation
    ensures Generations(t)
  {}

  /** One node with the next generation. */
  lemma NextGeneration(s: State, t: State, name: string, env: string)
    requires Generations(s) && t.generation == s.generation + 1 && !IsGreen(env)
    requires name in t.nodes && t.nodes == s.nodes[name := t.nodes[name]] && t.nodes[name].gen == t.generation
    requires t.exits == s.exits + {(env, t.generation)}
    ensures Generations(t)
  {
    Regenerated(s, t, env);
  }

  /** A started env that was there stands where it stood; otherwise nothing stood on it. */
  lemma RestartKeepsInv(s: State, env: string, start: Start, now: int)
    requires Inv(s) && env in s.nodes && !IsGreen(env)
    requires start == FailsInSandbox ==> Children(s.nodes, env) == {}
    ensures Inv(DoStart(s, s.nodes[env].role, env, s.nodes[env].parent, start, now))
  {
    hide Forest, Named, Within, Generations, Started, Closed;
    var n := s.nodes[env];
    if start == FailsInSandbox && n.role == Agent {
      LeafIsClosed(s.nodes, env);
      NotTheGuardian(s.nodes, env);
      RemovedInv(s, {env});
      MoreExits(s.(nodes := s.nodes - {env}), env);
    } else if start != FailsEarly {
      NextInv(s, env, Started(s.nodes, n.role, env, n.parent, s.generation + 1, now), now);
    } else {
      Later(s);
    }
  }

  lemma NotTheGuardian(nodes: map<string, Node>, env: string)
    requires Named(nodes) && env in nodes && nodes[env].role == Agent
    ensures env != GUARDIAN
  {}

  lemma NextInv(s: State, env: string, n: Node, now: int)
    requires Inv(s) && env in s.nodes && !IsGreen(env)
    requires n == Started(s.nodes, s.nodes[env].role, env, s.nodes[env].parent, s.generation + 1, now)
    ensures Inv(s.(generation := s.generation + 1, nodes := s.nodes[env := n], exits := s.exits + {(env, s.generation + 1)}))
  {
    hide Forest, Generations, IsGreen;
    var t := s.(generation := s.generation + 1, nodes := s.nodes[env := n], exits := s.exits + {(env, s.generation + 1)});
    ReplacedShape(s.nodes, env, n);
    NextGeneration(s, t, env, env);
  }

  lemma LeafIsClosed(nodes: map<string, Node>, env: string)
    requires Children(nodes, env) == {}
    ensures Closed(nodes, {env})
  {
    assert forall c :: c in nodes ==> c !in Children(nodes, env);
  }

  lemma MoreExits(s: State, env: string)
    requires Inv(s) && !IsGreen(env)
    ensures Inv(s.(generation := s.generation + 1, exits := s.exits + {(env, s.generation + 1)}))
  {}

  lemma Later(s: State)
    requires Inv(s)
    ensures Inv(s.(generation := s.generation + 1))
  {}

  /** Never a candidate's name, never a child left over: an exit restarts what it hits, or nothing. */
  lemma ExitKeepsInv(s: State, env: string, gen: nat, start: Start, now: int)
    requires Inv(s) && (env, gen) in s.exits
    ensures Inv(DoExit(s, env, gen, start, now))
  {
    hide Named, Forest, Within;
    assert !IsGreen(env);
    var t := s.(exits := s.exits - {(env, gen)});
    ReportedInv(s, (env, gen));
    if env in s.nodes && s.nodes[env].gen == gen { CurrentExit(t, env, start, now); }
  }

  /** The children go, and the env is started once more unless it has used up its restarts. */
  lemma CurrentExit(t: State, env: string, start: Start, now: int)
    requires Inv(t) && env in t.nodes && !IsGreen(env)
    ensures Inv(Revived(t, env, start, now))
  {
    hide Named, Within, Generations, WentDown, DoStart, IsGreen, Children;
    WentDownKeepsInv(t, env);
    if t.nodes[env].restarts < t.limits.maxRestarts {
      TryAgain(WentDown(t, env), env, t.nodes[env].restarts + 1, start, now);
    }
  }

  lemma TryAgain(u: State, env: string, count: nat, start: Start, now: int)
    requires Inv(u) && env in u.nodes && !IsGreen(env) && count <= u.limits.maxRestarts && Children(u.nodes, env) == {}
    ensures Inv(DoStart(u.(nodes := u.nodes[env := u.nodes[env].(restarts := count)]),
                        u.nodes[env].role, env, u.nodes[env].parent, start, now))
  {
    hide Inv, DoStart, IsGreen, Children;
    InPlaceInv(u, env, u.nodes[env].(restarts := count));
    RestartKeepsInv(u.(nodes := u.nodes[env := u.nodes[env].(restarts := count)]), env, start, now);
  }

  lemma ResetKeepsInv(s: State, env: string, start: Start, clear: bool, now: int)
    requires Inv(s) && !IsGreen(env) && (start == FailsInSandbox ==> Children(s.nodes, env) == {})
    ensures Inv(DoReset(s, env, start, clear, now))
  {
    hide Inv;
    if env != GUARDIAN && env in s.nodes {
      var n := s.nodes[env];
      SmallCounts(s, env);
      InPlaceInv(s, env, n.(registered := false));
      var t := s.(nodes := s.nodes[env := n.(registered := false)]);
      RestartKeepsInv(t, env, start, now);
      if ComesUp(n.role, start) {
        var u := DoStart(t, n.role, env, n.parent, start, now);
        InPlaceInv(u, env, DoReset(s, env, start, clear, now).nodes[env]);
      }
    }
  }

  lemma SmallCounts(s: State, env: string)
    requires Inv(s) && env in s.nodes
    ensures s.nodes[env].restarts <= s.limits.maxRestarts
  {}

  /** What a spawn that is not refused leaves. */
  lemma SpawnLeaves(s: State, parent: Option<string>, child: string, start: Start, now: int) returns (n: Node)
    requires SpawnRefusal(s, parent, child).None?
    ensures n.role == Agent && !n.shadow && n.restarts == 0 && n.gen == s.generation + 1
    ensures n.parent == parent && n.depth == s.nodes[parent.value].depth + 1
    ensures DoSpawn(s, parent, child, start, now) == s.(generation := s.generation + 1,
              nodes := if start == Fine then s.nodes[child := n] else s.nodes,
              exits := if start == FailsEarly then s.exits else s.exits + {(child, s.generation + 1)})
  {
    var staged := s.nodes[child := Staged(parent, s.nodes[parent.value].depth + 1)];
    n := Started(staged, Agent, child, parent, s.generation + 1, now);
    assert staged[child := n] == s.nodes[child := n];
    assert staged - {child} == s.nodes;
  }

  lemma SpawnKeepsInv(s: State, parent: Option<string>, child: string, start: Start, now: int)
    requires Inv(s) && !IsGreen(child) && (parent.Some? ==> !IsGreen(parent.value))
    ensures Inv(DoSpawn(s, parent, child, start, now))
  {
    hide DoSpawn, Inv;
    if SpawnRefusal(s, parent, child).None? {
      var n := SpawnLeaves(s, parent, child, start, now);
      if start == Fine { SpawnedInv(s, parent, child, n); }
      else if start == FailsInSandbox { MoreExits(s, child); }
      else { Later(s); }
    } else {
      Refused(s, parent, child, start, now);
    }
  }

  lemma Refused(s: State, parent: Option<string>, child: string, start: Start, now: int)
    requires SpawnRefusal(s, parent, child).Some?
    ensures DoSpawn(s, parent, child, start, now) == s
  {}

  lemma SpawnedInv(s: State, parent: Option<string>, child: string, n: Node)
    requires Inv(s) && SpawnRefusal(s, parent, child).None? && !IsGreen(child) && !IsGreen(parent.value)
    requires n.role == Agent && !n.shadow && n.restarts == 0 && n.gen == s.generation + 1
    requires n.parent == parent && n.depth == s.nodes[parent.value].depth + 1
    ensures Inv(s.(generation := s.generation + 1, nodes := s.nodes[child := n], exits := s.exits + {(child, s.generation + 1)}))
  {
    hide Generations, IsGreen, Forest, Settled, Agents;
    NextGeneration(s, s.(generation := s.generation + 1, nodes := s.nodes[child := n],
                         exits := s.exits + {(child, s.generation + 1)}), child, child);
    AddedShape(s.nodes, child, n);
    RoomForOne(s.nodes, child, n);
  }

  lemma RoomForOne(nodes: map<string, Node>, child: string, n: Node)
    requires child !in nodes && !n.shadow
    ensures |Settled(nodes[child := n])| <= |Agents(nodes)| + 1
  {
    SubsetSize(Settled(nodes[child := n]), Agents(nodes) + {child});
  }

  lemma SwitchKeepsInv(s: State, env: string, unix: bool, spawned: bool)
    requires Inv(s) && !IsGreen(env)
    ensures Inv(DoSwitch(s, env, unix, spawned))
  {
    var green := Green(env);
    GreenIsGreen(env);
    if env in s.nodes && s.nodes[env].role != Guardian && unix {
      if spawned { CandidateKeepsInv(s, env); } else { Later(s); }
    }
  }

  lemma GreenIsGreen(env: string)
    ensures IsGreen(Green(env)) && !IsGreen(GUARDIAN)
  {}

  lemma CandidateKeepsInv(s: State, env: string)
    requires Inv(s) && !IsGreen(env) && env in s.nodes && s.nodes[env].role != Guardian
    ensures Inv(DoSwitch(s, env, true, true))
  {
    hide Generations, IsGreen, Green, Settled;
    GreenIsGreen(env);
    var green, t := Green(env), DoSwitch(s, env, true, true);
    NextGeneration(s, t, green, env);
    if s.nodes[env].parent.Some? { NotBesideItself(s.nodes, env); }
    AddedShape(s.nodes, green, t.nodes[green]);
    SubsetSize(Settled(t.nodes), Settled(s.nodes));
  }

  lemma NotBesideItself(nodes: map<string, Node>, env: string)
    requires Forest(nodes) && Named(nodes) && env in nodes && nodes[env].parent.Some?
    ensures nodes[env].parent.value in nodes && nodes[env].parent.value != GUARDIAN && nodes[env].parent.value != Green(env)
  {
    GreenIsGreen(env);
  }

  lemma ReadyKeepsInv(s: State, env: string, ok: bool)
    requires Inv(s) && !IsGreen(env)
    ensures Inv(DoReady(s, env, ok))
  {
    hide Generations, Within, IsGreen;
    GreenIsGreen(env);
    var green := Green(env);
    GreenIsLeaf(s.nodes, green);
    RemovedInv(s, {green});
    if ok && green in s.nodes && env in s.nodes { PromotionKeepsInv(s, env); }
  }

  lemma GreenIsLeaf(nodes: map<string, Node>, green: string)
    requires Named(nodes) && IsGreen(green)
    ensures Closed(nodes, {green}) && green != GUARDIAN
  {
    GreenIsGreen("");
  }

  lemma PromotionKeepsInv(s: State, env: string)
    requires Inv(s) && !IsGreen(env) && env in s.nodes && Green(env) in s.nodes
    ensures Inv(DoReady(s, env, true))
  {
    hide IsGreen, Forest, Closed, Settled, Generations;
    GreenIsGreen(env);
    var green, t := Green(env), DoReady(s, env, true);
    GreenIsLeaf(s.nodes, green);
    RemovedShape(s.nodes, {green});
    ReplacedShape(s.nodes - {green}, env, t.nodes[env]);
    SubsetSize(Settled(t.nodes), Settled(s.nodes));
    PromotionGenerations(s, env);
  }

  lemma PromotionGenerations(s: State, env: string)
    requires Generations(s) && env in s.nodes && Green(env) in s.nodes
    ensures Generations(DoReady(s, env, true))
  {
    assert |Green(env)| > |env|;
  }

  lemma StepKeepsInv(s: State, e: Event)
    requires Inv(s) && Allowed(s, e)
    ensures Inv(Step(s, e))
  {
    hide DoSpawn, DoExit, DoReset, DoSwitch, DoReady, Named, Within, Generations;
    match e
    case Spawn(parent, child, start, now) => SpawnKeepsInv(s, parent, child, start, now);
    case Stop(env) => StopKeepsInv(s, env);
    case Exit(env, gen, start, now) => ExitKeepsInv(s, env, gen, start, now);
    case Reset(env, start, clear, now) => ResetKeepsInv(s, env, start, clear, now);
    case Switch(env, unix, spawned) => SwitchKeepsInv(s, env, unix, spawned);
    case Ready(env, ok) => ReadyKeepsInv(s, env, ok);
    case Drain(env) => SameNodes(s, DoDrain(s, env));
    case Register(env, gen) => RegisterKeepsInv(s, env, gen);
  }

  lemma StopKeepsInv(s: State, env: string)
    requires Inv(s)
    ensures Inv(DoStop(s, env))
  {
    if env in s.nodes && s.nodes[env].parent.Some? { PruneKeepsInv(s, env); }
  }

  lemma SameNodes(s: State, t: State)
    requires Inv(s) && t.nodes == s.nodes && t.limits == s.limits && t.generation == s.generation && t.exits == s.exits
    ensures Inv(t)
  {}

  lemma RegisterKeepsInv(s: State, env: string, gen: nat)
    requires Inv(s)
    ensures Inv(DoRegister(s, env, gen))
  {
    if env in s.nodes && s.nodes[env].gen == gen {
      ReplacedShape(s.nodes, env, s.nodes[env].(registered := true));
      Shrunk(s, DoRegister(s, env, gen));
    }
  }

  lemma BootedInv(limits: Limits, root: string, now: int)
    requires limits.maxTotal >= 1 && root != GUARDIAN && !IsGreen(root)
    ensures Inv(Booted(limits, root, now))
  {
    var s := Booted(limits, root, now);
    assert !IsGreen(GUARDIAN);
    assert s.nodes.Keys == {GUARDIAN, root};
    SubsetSize(Settled(s.nodes), {root});
  }
}
