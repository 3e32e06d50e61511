/**
 The supervisor as the base runs it: one table of nodes, changed step by step. Stopping a subtree and
 stopping everything are loops over the table; every command is the state machine's step.
 */
module Supervisor {
  import opened Prelude
  import opened Ordering
  import opened SupervisorSpec
  import Decimal

  /** No later name stands at or below an earlier one: children come before parents, each name once. */
  ghost predicate BottomUp(nodes: map<string, Node>, q: seq<string>)
    requires Forest(nodes)
  {
    forall a, b :: 0 <= a < b < |q| ==> !Under(nodes, q[b], q[a])
  }

  function Elements(q: seq<string>): set<string> {
    set n | n in q
  }

  /** Deeper first, then by name. */
  predicate DeepFirst(a: (nat, string), b: (nat, string)) {
    a.0 > b.0 || (a.0 == b.0 && TextLess(a.1, b.1))
  }

  /** The name asked for, or the first free number under the parent. */
  ghost predicate ChosenName(nodes: map<string, Node>, parent: string, wanted: Option<string>, name: string) {
    if wanted.Some? && wanted.value != "" then name == wanted.value
    else name !in nodes && exists n: nat :: n >= 1 && FirstFree(nodes, parent, n) && name == Numbered(parent, n)
  }

  ghost predicate FirstFree(nodes: map<string, Node>, parent: string, n: nat) {
    forall m: nat :: 1 <= m < n ==> Numbered(parent, m) in nodes
  }

  class Base {
    const limits: Limits
    var nodes: map<string, Node>
    var generation: nat
    var draining: map<string, nat>
    ghost var exits: set<(string, nat)>
    ghost var halted: seq<string>

    ghost function Now(): State
      reads this
    {
      State(limits, nodes, generation, draining, exits)
    }

    constructor (l: Limits, root: string, now: int)
      ensures Now() == Booted(l, root, now) && halted == []
    {
      limits := l;
      nodes, generation, draining, exits, halted := map[], 0, map[], {}, [];
      new;
      var ok := StartNode(Guardian, GUARDIAN, None, Fine, now);
      ok := StartNode(Agent, root, None, Fine, now);
    }

    method StartNode(role: Role, env: string, parent: Option<string>, start: Start, now: int) returns (ok: bool)
      modifies this`nodes, this`generation, this`exits
      ensures Now() == DoStart(old(Now()), role, env, parent, start, now)
      ensures ok <==> ComesUp(role, start)
    {
      ghost var was := nodes;
      generation := generation + 1;
      var gen := generation;
      var depth := if parent.Some? && parent.value in nodes then nodes[parent.value].depth + 1 else 0;
      if start == FailsEarly { return false; }
      exits := exits + {(env, gen)};
      var previous := if env in nodes then Some(nodes[env]) else None;
      nodes := nodes - {env};
      if role == Agent && start == FailsInSandbox { return false; }
      var sandbox := if role == Guardian then None else Some(gen);
      var store := if previous.Some? && previous.value.store.Some? then previous.value.store
                   else if role == Guardian then None else Some(gen);
      var node := Node(role, Some(gen), gen, false,
                       if previous.Some? then previous.value.restarts else 0,
                       if previous.Some? && previous.value.parent.Some? then previous.value.parent else parent,
                       if previous.Some? then previous.value.depth else depth,
                       false, sandbox, store,
                       if previous.Some? && previous.value.budget != 0 then previous.value.budget else now);
      nodes := nodes[env := node];
      assert nodes == was[env := node];
      return true;
    }

    // ---------------------------------------------------------------- spawning

    method ChildName(parent: string, wanted: Option<string>) returns (name: string)
      ensures ChosenName(nodes, parent, wanted, name)
    {
      if wanted.Some? && wanted.value != "" { return wanted.value; }
      var number := 1;
      ghost var taken: set<string> := {};
      while Numbered(parent, number) in nodes
        invariant number >= 1 && taken <= nodes.Keys && |taken| == number - 1
        invariant forall m: nat :: 1 <= m < number ==> Numbered(parent, m) in nodes
        invariant forall x :: x in taken ==> exists m: nat :: 1 <= m < number && x == Numbered(parent, m)
        decreases |nodes.Keys| - |taken|
      {
        forall m: nat | m < number ensures Numbered(parent, m) != Numbered(parent, number) { NumbersDiffer(parent, m, number); }
        SubsetSize(taken + {Numbered(parent, number)}, nodes.Keys);
        taken := taken + {Numbered(parent, number)};
        number := number + 1;
      }
      name := Numbered(parent, number);
      assert FirstFree(nodes, parent, number);
    }

    method SpawnChild(parent: Option<string>, wanted: Option<string>, start: Start, now: int)
      returns (r: Result<string, string>, child: string)
      modifies this`nodes, this`generation, this`exits
      ensures Now() == DoSpawn(old(Now()), parent, child, start, now)
      ensures HasRoomUnder(old(Now()), parent) ==> ChosenName(old(nodes), parent.value, wanted, child)
      ensures r.Success? <==> SpawnRefusal(old(Now()), parent, child).None? && start == Fine
      ensures r.Success? ==> r.value == child && child in nodes && child !in old(nodes)
      ensures SpawnRefusal(old(Now()), parent, child).Some? ==> r == Failure(SpawnRefusal(old(Now()), parent, child).value)
    {
      hide Numbered, Children, FirstFree;
      child := "";
      if parent.None? { return Failure("runtime.spawn needs a parent env"), child; }
      if parent.value !in nodes { return Failure(UNKNOWN), child; }
      var node := nodes[parent.value];
      if node.role == Guardian { return Failure("the guardian spawns nothing"), child; }
      var depth := node.depth + 1;
      if depth > limits.maxDepth { return Failure("past the depth limit"), child; }
      if |Agents(nodes)| >= limits.maxTotal { return Failure("already at the limit"), child; }
      child := ChildName(parent.value, wanted);
      if child in nodes { return Failure("already exists"), child; }
      nodes := nodes[child := Staged(parent, depth)];
      var ok := StartNode(Agent, child, parent, start, now);
      if !ok {
        nodes := nodes - {child};
        return Failure("start failed"), child;
      }
      return Success(child), child;
    }

    // ---------------------------------------------------------------- stopping

    method ChildrenOf(env: string) returns (names: seq<string>)
      ensures Sorted(TextLess, names) && forall n :: n in names <==> n in Children(nodes, env)
    {
      names := [];
      var left := Children(nodes, env);
      TextOrder();
      while left != {}
        invariant left <= Children(nodes, env) && Sorted(TextLess, names)
        invariant forall n :: n in names <==> n in Children(nodes, env) - left
      {
        var n :| n in left;
        InsertKeepsOrder(TextLess, n, names);
        names := Insert(TextLess, n, names);
        left := left - {n};
      }
    }

    method Halt(env: string)
      modifies this`nodes, this`halted
      ensures env !in old(nodes) ==> nodes == old(nodes) && halted == old(halted)
      ensures env in old(nodes) ==> halted == old(halted) + [env]
      ensures env in old(nodes) ==> nodes == old(nodes)[env := old(nodes)[env].(pid := None, registered := false, sandbox := None)]
    {
      if env !in nodes { return; }
      nodes := nodes[env := nodes[env].(pid := None, registered := false, sandbox := None)];
      halted := halted + [env];
    }

    /** Stop every child with all that is below it: each once, children before parents. */
    method PruneBelow(env: string) returns (stopped: seq<string>)
      requires Forest(nodes) && env in nodes && forall n :: n in nodes ==> nodes[n].depth <= limits.maxDepth
      modifies this`nodes, this`halted
      ensures Elements(stopped) == Subtree(old(nodes), env) - {env} && BottomUp(old(nodes), stopped)
      ensures nodes == old(nodes) - Elements(stopped) && halted == old(halted) + stopped
      decreases limits.maxDepth - nodes[env].depth, 0
    {
      hide Forest, Under, BottomUp, Closed, Sorted;
      ghost var was := nodes;
      var children := ChildrenOf(env);
      stopped := [];
      StartOfPrune(was, env);
      for i := 0 to |children|
        invariant nodes == was - Elements(stopped) && halted == old(halted) + stopped
        invariant Pruned(was, env, children[..i], stopped)
      {
        assert children[i] in children;
        ReadyToPrune(was, env, children, i, stopped);
        var more := Prune(children[i]);
        OneMorePruned(was, env, children, i, stopped, more);
        assert nodes == was - Elements(stopped + more);
        stopped := stopped + more;
      }
      EndOfPrune(was, env, children, stopped);
    }

    /** Stop an env and everything below it. */
    method Prune(env: string) returns (stopped: seq<string>)
      requires Forest(nodes) && env in nodes && forall n :: n in nodes ==> nodes[n].depth <= limits.maxDepth
      modifies this`nodes, this`halted
      ensures Elements(stopped) == Subtree(old(nodes), env) && BottomUp(old(nodes), stopped)
      ensures nodes == old(nodes) - Elements(stopped) && halted == old(halted) + stopped
      decreases limits.maxDepth - nodes[env].depth, 1
    {
      hide Forest, Under, BottomUp;
      ghost var was := nodes;
      var below := PruneBelow(env);
      TopLast(was, env, below);
      Halt(env);
      nodes := nodes - {env};
      stopped := below + [env];
      assert nodes == was - Elements(stopped);
    }

    method RuntimeStop(env: string) returns (r: Result<seq<string>, string>)
      requires Inv(Now())
      modifies this`nodes, this`halted
      ensures Now() == DoStop(old(Now()), env)
      ensures r.Success? <==> env in old(nodes) && old(nodes)[env].parent.Some?
      ensures r.Success? ==> Elements(r.value) == Subtree(old(nodes), env) && BottomUp(old(nodes), r.value)
      ensures halted == if r.Success? then old(halted) + r.value else old(halted)
    {
      if env !in nodes { return Failure(UNKNOWN); }
      if nodes[env].parent.None? { return Failure("not a child environment"); }
      var stopped := Prune(env);
      r := Success(stopped);
    }

    /** Everything goes: the deepest first, the guardian last. */
    method StopNodes() returns (order: seq<string>)
      requires Inv(Now())
      modifies this`nodes, this`halted
      ensures halted == old(halted) + order && order != [] && order[|order| - 1] == GUARDIAN
      ensures BottomUp(old(nodes), order[..|order| - 1])
      ensures Elements(order[..|order| - 1]) == old(nodes).Keys - {GUARDIAN}
      ensures nodes.Keys == old(nodes).Keys && forall n :: n in nodes ==> nodes[n].pid.None? && nodes[n].sandbox.None?
    {
      hide Forest, Under, BottomUp, Sorted, Within, Generations;
      ghost var was := nodes;
      var deepest := ByDepth();
      order := seq(|deepest|, i requires 0 <= i < |deepest| => deepest[i].1);
      DeepFirstIsBottomUp(was, deepest, order);
      ghost var agents := order;
      order := order + [GUARDIAN];
      assert order[..|order| - 1] == agents;
      assert Elements(order) == was.Keys by {
        forall n ensures n in order <==> n in was { assert n in order <==> n in Elements(agents) || n == GUARDIAN; }
      }
      HaltEach(order);
    }

    method HaltEach(order: seq<string>)
      requires Elements(order) == nodes.Keys
      modifies this`nodes, this`halted
      ensures nodes.Keys == old(nodes).Keys && halted == old(halted) + order
      ensures forall n :: n in nodes ==> nodes[n].pid.None? && nodes[n].sandbox.None?
    {
      ghost var was := nodes;
      for i := 0 to |order|
        invariant nodes.Keys == was.Keys && halted == old(halted) + order[..i]
        invariant forall n :: n in nodes && n in order[..i] ==> nodes[n].pid.None? && nodes[n].sandbox.None?
      {
        assert order[i] in Elements(order);
        Halt(order[i]);
        assert order[..i + 1] == order[..i] + [order[i]];
      }
      assert order[..|order|] == order;
      forall n | n in nodes ensures n in order { assert n in Elements(order); }
    }

    /** The agents with their depths, sorted. */
    method ByDepth() returns (q: seq<(nat, string)>)
      ensures Sorted(DeepFirst, q)
      ensures forall x :: x in q <==> x.1 in nodes && x.1 != GUARDIAN && x.0 == nodes[x.1].depth
    {
      q := [];
      var left := nodes.Keys - {GUARDIAN};
      DeepFirstOrder();
      while left != {}
        invariant left <= nodes.Keys - {GUARDIAN} && Sorted(DeepFirst, q)
        invariant forall x :: x in q <==> x.1 in nodes && x.1 != GUARDIAN && x.1 !in left && x.0 == nodes[x.1].depth
      {
        var n :| n in left;
        InsertKeepsOrder(DeepFirst, (nodes[n].depth, n), q);
        q := Insert(DeepFirst, (nodes[n].depth, n), q);
        left := left - {n};
      }
    }

    // ---------------------------------------------------------------- exits and resets

    /** The env's process is gone: its record goes down and its children are pruned. */
    method TakeDown(env: string)
      requires Inv(Now()) && env in nodes
      modifies this`nodes, this`halted
      ensures Now() == WentDown(old(Now()), env)
    {
      hide Named, Generations, Forest, Under, BottomUp;
      ghost var was := Now();
      nodes := nodes[env := nodes[env].(registered := false, pid := None)];
      SameShape(was.nodes, env, nodes[env]);
      var stopped := PruneBelow(env);
      AfterPrune(was, env, nodes);
    }

    method OnExit(env: string, gen: nat, start: Start, now: int)
      requires Inv(Now())
      modifies this
      ensures Now() == DoExit(old(Now()), env, gen, start, now)
    {
      hide Inv, Forest, WentDown, DoStart;
      ghost var was := Now();
      exits := exits - {(env, gen)};
      if env !in nodes { return; }
      var node := nodes[env];
      if node.gen != gen { return; }
      ReportedInv(was, (env, gen));
      ghost var reported := Now();
      WentDownKeepsInv(reported, env);
      TakeDown(env);
      if node.restarts >= limits.maxRestarts { return; }
      nodes := nodes[env := nodes[env].(restarts := node.restarts + 1)];
      var ok := StartNode(node.role, env, nodes[env].parent, start, now);
    }

    method ResetEnv(env: string, start: Start, clear: bool, now: int) returns (ok: bool)
      modifies this`nodes, this`generation, this`exits
      ensures Now() == DoReset(old(Now()), env, start, clear, now)
      ensures ok <==> env != GUARDIAN && env in old(nodes) && ComesUp(old(nodes)[env].role, start)
    {
      if env == GUARDIAN || env !in nodes { return false; }
      ghost var was := Now();
      var node := nodes[env];
      nodes := nodes[env := node.(registered := false)];
      ok := StartNode(node.role, env, node.parent, start, now);
      if !ok { return; }
      var again := nodes[env].(restarts := 0);
      nodes := nodes[env := if clear then again.(budget := now) else again];
    }

    // ---------------------------------------------------------------- kernel switches

    method KernelSwitch(env: string, unix: bool, spawned: bool) returns (ok: bool)
      modifies this`nodes, this`generation, this`exits
      ensures Now() == DoSwitch(old(Now()), env, unix, spawned)
      ensures ok <==> env in old(nodes) && old(nodes)[env].role != Guardian && unix && spawned
    {
      var green := Green(env);
      if env !in nodes || nodes[env].role == Guardian || !unix { return false; }
      generation := generation + 1;
      if !spawned { return false; }
      var node := Staged(nodes[env].parent, nodes[env].depth);
      exits := exits + {(env, generation)};
      nodes := nodes[green := node.(pid := Some(generation), gen := generation, shadow := true)];
      return true;
    }

    method KernelReady(env: string, healthy: bool) returns (ok: bool)
      modifies this`nodes, this`draining
      ensures Now() == DoReady(old(Now()), env, healthy)
      ensures ok <==> healthy && env in old(nodes) && Green(env) in old(nodes)
    {
      GreenIsLonger(env);
      ghost var was := nodes;
      var green := Green(env);
      if !healthy {
        nodes := nodes - {green};
        return false;
      }
      if green !in nodes { return false; }
      var next := nodes[green];
      nodes := nodes - {green};
      if env !in nodes { return false; }
      var previous := nodes[env];
      nodes := nodes - {env};
      if previous.pid.Some? { draining := draining[env := previous.pid.value]; }
      nodes := nodes[env := Merged(previous, next)];
      assert nodes == (was - {green})[env := Merged(previous, next)];
      return true;
    }

    method KernelDrain(env: string)
      modifies this`draining
      ensures Now() == DoDrain(old(Now()), env)
    {
      draining := draining - {env};
    }
  }

  lemma GreenIsLonger(env: string)
    ensures Green(env) != env
  {
    assert |Green(env)| > |env|;
  }

  lemma NumbersDiffer(parent: string, m: nat, n: nat)
    requires m != n
    ensures Numbered(parent, m) != Numbered(parent, n)
  {
    NumberAtEnd(parent, m);
    NumberAtEnd(parent, n);
  }

  lemma NumberAtEnd(parent: string, n: nat)
    ensures |Numbered(parent, n)| > |parent| && Numbered(parent, n)[|parent| + 1..] == Decimal.RenderNat(n)
    ensures Decimal.Digits(Decimal.RenderNat(n)) == n
  {}

  lemma DeepFirstOrder()
    ensures StrictTotal(DeepFirst)
  {
    TextOrder();
    forall x, y, z | DeepFirst(x, y) && DeepFirst(y, z) ensures DeepFirst(x, z) {}
    forall x, y ensures x == y || DeepFirst(x, y) || DeepFirst(y, x) {}
  }

  /** Sorted by depth, nothing comes after what it is below. */
  lemma DeepFirstIsBottomUp(nodes: map<string, Node>, deepest: seq<(nat, string)>, order: seq<string>)
    requires Forest(nodes) && Sorted(DeepFirst, deepest)
    requires forall x :: x in deepest <==> x.1 in nodes && x.1 != GUARDIAN && x.0 == nodes[x.1].depth
    requires |order| == |deepest| && forall i :: 0 <= i < |order| ==> order[i] == deepest[i].1
    ensures BottomUp(nodes, order) && Elements(order) == nodes.Keys - {GUARDIAN}
  {
    DeepFirstOrder();
    forall a, b | 0 <= a < b < |order| ensures !Under(nodes, order[b], order[a]) {
      assert DeepFirst(deepest[a], deepest[b]);
      assert deepest[a] in deepest && deepest[b] in deepest;
      if Under(nodes, order[b], order[a]) { UnderIsDeeper(nodes, order[b], order[a]); }
    }
    forall n | n in nodes && n != GUARDIAN ensures n in order {
      var x := (nodes[n].depth, n);
      assert x in deepest;
      var i :| 0 <= i < |deepest| && deepest[i] == x;
      assert order[i] == n;
    }
    forall n | n in order ensures n in nodes && n != GUARDIAN {
      var i :| 0 <= i < |order| && order[i] == n;
      assert deepest[i] in deepest;
    }
  }

  // ---------------------------------------------------------------- pruning, one child at a time

  /** The first children with all below them are listed, bottom up. */
  ghost predicate Pruned(nodes: map<string, Node>, env: string, done: seq<string>, stopped: seq<string>)
    requires Forest(nodes)
  {
    && BottomUp(nodes, stopped)
    && Closed(nodes, Elements(stopped))
    && (forall x :: x in stopped ==> exists j :: 0 <= j < |done| && Under(nodes, x, done[j]))
    && (forall j, x :: 0 <= j < |done| && Under(nodes, x, done[j]) ==> x in stopped)
  }

  lemma StartOfPrune(nodes: map<string, Node>, env: string)
    requires Forest(nodes)
    ensures Pruned(nodes, env, [], []) && nodes - Elements([]) == nodes
  {}

  /** The next child and all below it are still there, as they were. */
  lemma ReadyToPrune(nodes: map<string, Node>, env: string, children: seq<string>, i: nat, stopped: seq<string>)
    requires Forest(nodes) && i < |children| && Sorted(TextLess, children)
    requires forall n :: n in children <==> n in Children(nodes, env)
    requires Pruned(nodes, env, children[..i], stopped)
    ensures Forest(nodes - Elements(stopped)) && children[i] in nodes - Elements(stopped)
    ensures Subtree(nodes - Elements(stopped), children[i]) == Subtree(nodes, children[i])
    ensures (nodes - Elements(stopped))[children[i]].depth == nodes[children[i]].depth
    ensures children[i] in Children(nodes, env)
    ensures nodes[children[i]].depth == nodes[env].depth + 1
  {
    hide BottomUp, Under, Sorted;
    var c, gone := children[i], Elements(stopped);
    assert c in children;
    ForestWithout(nodes, gone);
    forall x | x in Subtree(nodes, c) ensures x !in stopped { Untouched(nodes, env, children, i, stopped, x); }
    forall x ensures x in Subtree(nodes - gone, c) <==> x in Subtree(nodes, c) {
      if x !in gone { UnderWithout(nodes, gone, x, c); }
    }
    UnderItself(nodes, c);
    assert nodes[c].parent == Some(env);
    DepthOfChild(nodes, c, env);
  }

  lemma DepthOfChild(nodes: map<string, Node>, c: string, env: string)
    requires Forest(nodes) && c in Children(nodes, env)
    ensures env in nodes && nodes[c].depth == nodes[env].depth + 1
  {}

  lemma UnderItself(nodes: map<string, Node>, x: string)
    requires Forest(nodes) && x in nodes
    ensures Under(nodes, x, x) && x in Subtree(nodes, x)
  {}

  lemma Untouched(nodes: map<string, Node>, env: string, children: seq<string>, i: nat, stopped: seq<string>, x: string)
    requires Forest(nodes) && i < |children| && Sorted(TextLess, children)
    requires forall n :: n in children <==> n in Children(nodes, env)
    requires Pruned(nodes, env, children[..i], stopped) && x in Subtree(nodes, children[i])
    ensures x !in stopped
  {
    hide BottomUp, Closed, Forest, Under;
    if x in stopped {
      var j :| 0 <= j < i && Under(nodes, x, children[..i][j]);
      TextOrder();
      SortedHasNoRepeats(TextLess, children, j, i);
      assert children[j] in children && children[i] in children;
      SiblingsAreApart(nodes, children[j], children[i], env);
      IsBelow(nodes, x, children[j]);
    }
  }

  lemma IsBelow(nodes: map<string, Node>, x: string, env: string)
    requires Forest(nodes) && Under(nodes, x, env)
    ensures x in Subtree(nodes, env)
  {}

  /** Listing one more child's subtree keeps the order. */
  lemma OneMorePruned(nodes: map<string, Node>, env: string, children: seq<string>, i: nat, stopped: seq<string>, more: seq<string>)
    requires Forest(nodes) && i < |children| && Sorted(TextLess, children)
    requires forall n :: n in children <==> n in Children(nodes, env)
    requires Pruned(nodes, env, children[..i], stopped)
    requires Forest(nodes - Elements(stopped)) && Elements(more) == Subtree(nodes, children[i])
    requires BottomUp(nodes - Elements(stopped), more)
    ensures Pruned(nodes, env, children[..i + 1], stopped + more)
    ensures Elements(stopped + more) == Elements(stopped) + Elements(more)
  {
    hide Forest, Under, Closed, Sorted;
    var both, done := stopped + more, children[..i + 1];
    MoreBottomUp(nodes, env, children, i, stopped, more);
    SubtreeIsClosed(nodes, children[i]);
    UnionClosed(nodes, Elements(stopped), Elements(more));
    assert Elements(both) == Elements(stopped) + Elements(more);
    forall x | x in both ensures exists j :: 0 <= j < |done| && Under(nodes, x, done[j]) {
      if x in stopped {
        var j :| 0 <= j < i && Under(nodes, x, children[..i][j]);
        assert done[j] == children[..i][j];
      } else {
        assert x in Elements(more) && done[i] == children[i];
      }
    }
    forall j, x | 0 <= j < |done| && Under(nodes, x, done[j]) ensures x in both {
      if j < i { assert done[j] == children[..i][j]; }
      else { IsBelow(nodes, x, children[i]); assert x in Elements(more); }
    }
  }

  lemma UnionClosed(nodes: map<string, Node>, a: set<string>, b: set<string>)
    requires Closed(nodes, a) && Closed(nodes, b)
    ensures Closed(nodes, a + b)
  {}

  lemma MoreBottomUp(nodes: map<string, Node>, env: string, children: seq<string>, i: nat, stopped: seq<string>, more: seq<string>)
    requires Forest(nodes) && i < |children| && Sorted(TextLess, children)
    requires forall n :: n in children <==> n in Children(nodes, env)
    requires Pruned(nodes, env, children[..i], stopped)
    requires Forest(nodes - Elements(stopped)) && Elements(more) == Subtree(nodes, children[i])
    requires BottomUp(nodes - Elements(stopped), more)
    ensures BottomUp(nodes, stopped + more)
  {
    hide Forest, Under, Closed, Sorted;
    var both := stopped + more;
    forall a, b | 0 <= a < b < |both| ensures !Under(nodes, both[b], both[a]) {
      if b >= |stopped| {
        assert both[b] == more[b - |stopped|] && both[b] in Elements(more);
        Untouched(nodes, env, children, i, stopped, both[b]);
        if a >= |stopped| {
          assert both[a] == more[a - |stopped|];
          UnderWithout(nodes, Elements(stopped), both[b], both[a]);
        } else {
          assert both[a] in Elements(stopped);
          NotBelowTheGone(nodes, Elements(stopped), both[b], both[a]);
        }
      }
    }
  }

  /** Nothing outside a closed set is below a member of it. */
  lemma {:induction false} NotBelowTheGone(nodes: map<string, Node>, gone: set<string>, x: string, env: string)
    requires Forest(nodes) && Closed(nodes, gone) && x !in gone && env in gone
    ensures !Under(nodes, x, env)
    decreases if x in nodes then nodes[x].depth else 0
  {
    if x in nodes && nodes[x].parent.Some? { NotBelowTheGone(nodes, gone, nodes[x].parent.value, env); }
  }

  lemma EndOfPrune(nodes: map<string, Node>, env: string, children: seq<string>, stopped: seq<string>)
    requires Forest(nodes) && forall n :: n in children <==> n in Children(nodes, env)
    requires Pruned(nodes, env, children[..|children|], stopped)
    ensures Elements(stopped) == Subtree(nodes, env) - {env}
  {
    hide BottomUp, Closed, Forest, Under;
    assert children[..|children|] == children;
    forall x | x in stopped ensures x in Subtree(nodes, env) - {env} {
      var j :| 0 <= j < |children| && Under(nodes, x, children[j]);
      assert children[j] in children;
      ChildrenAreBelow(nodes, children[j], env);
      IsBelow(nodes, x, children[j]);
    }
    forall x | x in Subtree(nodes, env) - {env} ensures x in stopped {
      var c := UnderAChild(nodes, x, env);
      assert c in children;
      var j :| 0 <= j < |children| && children[j] == c;
    }
  }

  lemma TopLast(nodes: map<string, Node>, env: string, below: seq<string>)
    requires Forest(nodes) && env in nodes && BottomUp(nodes, below) && Elements(below) == Subtree(nodes, env) - {env}
    ensures BottomUp(nodes, below + [env]) && Elements(below + [env]) == Subtree(nodes, env) && env !in below
  {
    hide Forest, Under;
    var all := below + [env];
    UnderItself(nodes, env);
    forall a, b | 0 <= a < b < |all| ensures !Under(nodes, all[b], all[a]) {
      if b == |below| && Under(nodes, env, all[a]) {
        assert all[a] in Elements(below);
        UnderIsDeeper(nodes, all[a], env);
        UnderIsDeeper(nodes, env, all[a]);
      }
    }
    assert env !in below by { assert env in below ==> env in Elements(below); }
    forall x ensures x in Elements(all) <==> x in Subtree(nodes, env) {
      assert x in Elements(all) <==> x in Elements(below) || x == env;
    }
  }

  // ---------------------------------------------------------------- in place

  lemma {:induction false} SameUnder(nodes: map<string, Node>, env: string, n: Node, x: string, top: string)
    requires Forest(nodes) && env in nodes && n.parent == nodes[env].parent && n.depth == nodes[env].depth
    ensures Forest(nodes[env := n]) && (Under(nodes[env := n], x, top) <==> Under(nodes, x, top))
    decreases if x in nodes then nodes[x].depth else 0
  {
    if x in nodes && nodes[x].parent.Some? { SameUnder(nodes, env, n, nodes[x].parent.value, top); }
  }

  lemma SameShape(nodes: map<string, Node>, env: string, n: Node)
    requires Forest(nodes) && env in nodes && n.parent == nodes[env].parent && n.depth == nodes[env].depth
    ensures Forest(nodes[env := n]) && Subtree(nodes[env := n], env) == Subtree(nodes, env)
  {
    forall x ensures Forest(nodes[env := n]) && (Under(nodes[env := n], x, env) <==> Under(nodes, x, env)) {
      SameUnder(nodes, env, n, x, env);
    }
  }

  lemma AfterPrune(s: State, env: string, after: map<string, Node>)
    requires Forest(s.nodes) && env in s.nodes
    requires after == s.nodes[env := s.nodes[env].(registered := false, pid := None)] - (Subtree(s.nodes, env) - {env})
    ensures after == WentDown(s, env).nodes
  {}
}
