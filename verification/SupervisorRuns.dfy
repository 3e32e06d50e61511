/**
 What holds over whole runs of the supervisor: the environments stay a bounded tree, a replaced
 process is never heard again, restarts between resets are bounded, and a kernel switch either
 leaves no trace or moves nothing but the process.
 */
module SupervisorRuns {
  import opened Prelude
  import opened SupervisorSpec

  ghost predicate Runs(s: State, es: seq<Event>)
    requires Inv(s)
    decreases |es|
  {
    es == [] || (Allowed(s, es[0]) && (StepKeepsInv(s, es[0]); Runs(Step(s, es[0]), es[1..])))
  }

  ghost function Run(s: State, es: seq<Event>): (t: State)
    requires Inv(s) && Runs(s, es)
    ensures Inv(t)
    decreases |es|
  {
    if es == [] then s else StepKeepsInv(s, es[0]); Run(Step(s, es[0]), es[1..])
  }

  /** The limits and the root env a base is configured with. */
  predicate Bootable(limits: Limits, root: string) {
    limits.maxTotal >= 1 && root != GUARDIAN && !IsGreen(root)
  }

  /** In every reachable state the environments form a forest whose levels are the depths, within the
      configured depth and number, and every node has a generation of its own. */
  lemma AlwaysABoundedTree(limits: Limits, root: string, now: int, es: seq<Event>)
    requires Bootable(limits, root)
    ensures Inv(Booted(limits, root, now))
    ensures Runs(Booted(limits, root, now), es) ==> Tree(Run(Booted(limits, root, now), es), limits)
  {
    hide Inv, Runs, Run;
    BootedInv(limits, root, now);
    var s := Booted(limits, root, now);
    if Runs(s, es) {
      LimitsStay(s, es);
      InvIsTree(Run(s, es));
    }
  }

  ghost predicate Tree(s: State, limits: Limits) {
    && (forall n :: n in s.nodes && s.nodes[n].parent.None? ==> s.nodes[n].depth == 0)
    && (forall n :: n in s.nodes && s.nodes[n].parent.Some? ==>
          s.nodes[n].parent.value in s.nodes && s.nodes[n].depth == s.nodes[s.nodes[n].parent.value].depth + 1)
    && (forall n :: n in s.nodes ==> s.nodes[n].depth <= limits.maxDepth)
    && |Settled(s.nodes)| <= limits.maxTotal
    && (forall n, m :: n in s.nodes && m in s.nodes && s.nodes[n].gen == s.nodes[m].gen ==> n == m)
  }

  lemma InvIsTree(s: State)
    requires Inv(s)
    ensures Tree(s, s.limits)
  {}

  lemma {:induction false} LimitsStay(s: State, es: seq<Event>)
    requires Inv(s) && Runs(s, es)
    ensures Run(s, es).limits == s.limits
    decreases |es|
  {
    hide Named, Within, Generations;
    if es != [] {
      StepKeepsInv(s, es[0]);
      StepLimits(s, es[0]);
      LimitsStay(Step(s, es[0]), es[1..]);
    }
  }

  lemma StepLimits(s: State, e: Event)
    requires Forest(s.nodes)
    ensures Step(s, e).limits == s.limits && s.generation <= Step(s, e).generation
  {}

  // ---------------------------------------------------------------- replaced processes

  /** No node runs this process any more. */
  ghost predicate Gone(s: State, gen: nat) {
    gen <= s.generation && forall n :: n in s.nodes ==> s.nodes[n].gen != gen
  }

  /** Generations in the tree are old ones or new ones, never revived ones. */
  ghost predicate NoRevival(s: State, t: State) {
    s.generation <= t.generation
    && forall n :: n in t.nodes ==> t.nodes[n].gen > s.generation || exists m :: m in s.nodes && s.nodes[m].gen == t.nodes[n].gen
  }

  lemma StartRevivesNone(s: State, role: Role, env: string, parent: Option<string>, start: Start, now: int)
    ensures NoRevival(s, DoStart(s, role, env, parent, start, now))
  {}

  lemma NoRevivalTrans(s: State, t: State, u: State)
    requires NoRevival(s, t) && NoRevival(t, u)
    ensures NoRevival(s, u)
  {}

  /** Records that keep their generations. */
  lemma FewerRevivesNone(s: State, t: State)
    requires s.generation <= t.generation
    requires forall n :: n in t.nodes ==> (n in s.nodes && t.nodes[n].gen == s.nodes[n].gen) || t.nodes[n].gen > s.generation
    ensures NoRevival(s, t)
  {}

  lemma ExitRevivesNone(s: State, env: string, gen: nat, start: Start, now: int)
    requires Forest(s.nodes)
    ensures NoRevival(s, DoExit(s, env, gen, start, now))
  {
    hide DoStart, NoRevival, Subtree, Forest;
    var t := s.(exits := s.exits - {(env, gen)});
    FewerRevivesNone(s, t);
    if env in s.nodes && s.nodes[env].gen == gen {
      var u, n := WentDown(t, env), s.nodes[env];
      FewerRevivesNone(s, u);
      if n.restarts < s.limits.maxRestarts {
        var v := u.(nodes := u.nodes[env := u.nodes[env].(restarts := n.restarts + 1)]);
        FewerRevivesNone(s, v);
        StartRevivesNone(v, n.role, env, n.parent, start, now);
        NoRevivalTrans(s, v, DoStart(v, n.role, env, n.parent, start, now));
      }
    }
  }

  lemma ResetRevivesNone(s: State, env: string, start: Start, clear: bool, now: int)
    ensures NoRevival(s, DoReset(s, env, start, clear, now))
  {
    hide NoRevival;
    FewerRevivesNone(s, DoReset(s, env, start, clear, now));
  }

  lemma SpawnRevivesNone(s: State, parent: Option<string>, child: string, start: Start, now: int)
    ensures NoRevival(s, DoSpawn(s, parent, child, start, now))
  {
    hide NoRevival;
    FewerRevivesNone(s, DoSpawn(s, parent, child, start, now));
  }

  lemma SwitchRevivesNone(s: State, env: string, unix: bool, spawned: bool, ok: bool)
    ensures NoRevival(s, DoSwitch(s, env, unix, spawned)) && NoRevival(s, DoReady(s, env, ok))
  {
    FewerRevivesNone(s, DoSwitch(s, env, unix, spawned));
  }

  lemma OthersReviveNone(s: State, env: string, gen: nat)
    requires Forest(s.nodes)
    ensures NoRevival(s, DoStop(s, env)) && NoRevival(s, DoDrain(s, env)) && NoRevival(s, DoRegister(s, env, gen))
  {
    hide NoRevival;
    FewerRevivesNone(s, DoStop(s, env));
    FewerRevivesNone(s, DoDrain(s, env));
    FewerRevivesNone(s, DoRegister(s, env, gen));
  }

  lemma StepRevivesNone(s: State, e: Event)
    requires Forest(s.nodes)
    ensures NoRevival(s, Step(s, e))
  {
    hide NoRevival, Forest, DoSpawn, DoStop, DoExit, DoReset, DoSwitch, DoReady, DoDrain, DoRegister;
    match e
    case Spawn(parent, child, start, now) => SpawnRevivesNone(s, parent, child, start, now);
    case Stop(env) => OthersReviveNone(s, env, 0);
    case Exit(env, gen, start, now) => ExitRevivesNone(s, env, gen, start, now);
    case Reset(env, start, clear, now) => ResetRevivesNone(s, env, start, clear, now);
    case Switch(env, unix, spawned) => SwitchRevivesNone(s, env, unix, spawned, true);
    case Ready(env, ok) => SwitchRevivesNone(s, env, true, true, ok);
    case Drain(env) => OthersReviveNone(s, env, 0);
    case Register(env, gen) => OthersReviveNone(s, env, gen);
  }

  lemma {:induction false} GoneForGood(s: State, es: seq<Event>, gen: nat)
    requires Inv(s) && Runs(s, es) && Gone(s, gen)
    ensures Gone(Run(s, es), gen)
    decreases |es|
  {
    hide Named, Within, Generations, Forest, Step;
    if es != [] {
      StepKeepsInv(s, es[0]);
      StepRevivesNone(s, es[0]);
      GoneForGood(Step(s, es[0]), es[1..], gen);
    }
  }

  /** The exit of a process that a reset, a stop, a promotion or a rejected candidate took out of the
      tree changes nothing, however much later it is reported. */
  lemma ReplacedProcessesAreIgnored(s: State, e: Event, es: seq<Event>, n: string, env: string, start: Start, now: int)
    requires Inv(s) && Runs(s, [e] + es) && n in s.nodes && Gone(Step(s, e), s.nodes[n].gen)
    ensures var t := Run(s, [e] + es);
      DoExit(t, env, s.nodes[n].gen, start, now) == t.(exits := t.exits - {(env, s.nodes[n].gen)})
  {
    assert ([e] + es)[1..] == es;
    StepKeepsInv(s, e);
    GoneForGood(Step(s, e), es, s.nodes[n].gen);
  }

  /** Which processes those are. */
  lemma ReplacedAreGone(s: State, env: string, start: Start, clear: bool, now: int)
    requires Inv(s) && env in s.nodes && !IsGreen(env)
    ensures env != GUARDIAN ==> (Gone(DoReset(s, env, start, clear, now), s.nodes[env].gen) <==> start != FailsEarly)
    ensures Green(env) in s.nodes ==> Gone(DoReady(s, env, true), s.nodes[env].gen)
    ensures Green(env) in s.nodes ==> Gone(DoReady(s, env, false), s.nodes[Green(env)].gen)
    ensures s.nodes[env].parent.Some? ==> forall n :: n in Subtree(s.nodes, env) ==> Gone(DoStop(s, env), s.nodes[n].gen)
  {
    hide Within, Named;
    if env != GUARDIAN { ResetIsGone(s, env, start, clear, now); }
    if Green(env) in s.nodes { SwitchIsGone(s, env); }
  }

  lemma ResetIsGone(s: State, env: string, start: Start, clear: bool, now: int)
    requires Generations(s) && env in s.nodes && env != GUARDIAN
    ensures Gone(DoReset(s, env, start, clear, now), s.nodes[env].gen) <==> start != FailsEarly
  {
    if start == FailsEarly { assert env in DoReset(s, env, start, clear, now).nodes; }
  }

  lemma SwitchIsGone(s: State, env: string)
    requires Generations(s) && env in s.nodes && Green(env) in s.nodes
    ensures Gone(DoReady(s, env, true), s.nodes[env].gen)
    ensures Gone(DoReady(s, env, false), s.nodes[Green(env)].gen)
  {
    assert |Green(env)| > |env|;
  }

  /** While it is a candidate, its exit is reported for the env and matches nothing. */
  lemma CandidateExitIsIgnored(s: State, env: string, start: Start, now: int)
    requires Inv(s) && Green(env) in s.nodes
    ensures var gen := s.nodes[Green(env)].gen; DoExit(s, env, gen, start, now) == s.(exits := s.exits - {(env, gen)})
  {
    assert |Green(env)| > |env|;
  }

  lemma NothingBelow(nodes: map<string, Node>, env: string)
    requires Forest(nodes) && env in nodes
    ensures Subtree(nodes, env) - {env} == {} <==> Children(nodes, env) == {}
  {
    if x :| x in Subtree(nodes, env) - {env} {
      var c := UnderAChild(nodes, x, env);
    }
    if c :| c in Children(nodes, env) {
      ChildrenAreBelow(nodes, c, env);
      assert Under(nodes, c, c);
      assert c in Subtree(nodes, c);
    }
  }

  ghost predicate ExitChangesNothing(t: State, env: string, gen: nat, restart: Start, later: int)
    requires Forest(t.nodes)
  {
    DoExit(t, env, gen, restart, later) == t.(exits := t.exits - {(env, gen)})
  }

  /** Down already, without children and out of restarts. */
  predicate SpentAndDown(s: State, env: string)
    requires env in s.nodes
  {
    s.nodes[env].pid.None? && Children(s.nodes, env) == {} && s.nodes[env].restarts >= s.limits.maxRestarts
  }

  /** After a reset, the exit of the process it stopped changes nothing, exactly unless the new process
      could not be spawned: then it still counts as the env's, and only an env that was down already,
      childless and out of restarts stays as it is. */
  lemma ExitAfterResetIsIgnoredIff(s: State, env: string, start: Start, clear: bool, now: int, restart: Start, later: int)
    requires Inv(s) && env in s.nodes && env != GUARDIAN
    requires Forest(DoReset(s, env, start, clear, now).nodes)
    ensures ExitChangesNothing(DoReset(s, env, start, clear, now), env, s.nodes[env].gen, restart, later)
        <==> (start != FailsEarly || SpentAndDown(s, env))
  {
    hide Named, Within;
    var t := DoReset(s, env, start, clear, now);
    ResetIsGone(s, env, start, clear, now);
    if start == FailsEarly { FailedResetIsHeard(s, env, clear, now, restart, later); }
  }

  /** A failed reset: the env goes down with its children, and up again while it has restarts left. */
  lemma FailedResetIsHeard(s: State, env: string, clear: bool, now: int, restart: Start, later: int)
    requires Inv(s) && env in s.nodes && env != GUARDIAN
    ensures var t := DoReset(s, env, FailsEarly, clear, now);
      Forest(t.nodes) && t.nodes == s.nodes[env := s.nodes[env].(registered := false)]
    ensures var t := DoReset(s, env, FailsEarly, clear, now); var u := t.(exits := t.exits - {(env, s.nodes[env].gen)});
      DoExit(t, env, s.nodes[env].gen, restart, later) == Revived(u, env, restart, later)
      && (Revived(u, env, restart, later) == u <==> SpentAndDown(s, env))
  {
    hide Named, Within, Generations;
    var t := DoReset(s, env, FailsEarly, clear, now);
    assert t.nodes[env] == s.nodes[env].(registered := false);
    assert Forest(t.nodes);
    var u := t.(exits := t.exits - {(env, s.nodes[env].gen)});
    assert Children(t.nodes, env) == Children(s.nodes, env);
    NothingBelow(t.nodes, env);
    DownIsSame(u, env);
    if s.nodes[env].restarts < s.limits.maxRestarts {
      assert Revived(u, env, restart, later).generation == u.generation + 1;
    }
  }

  lemma DownIsSame(u: State, env: string)
    requires Forest(u.nodes) && env in u.nodes && !u.nodes[env].registered
    ensures WentDown(u, env) == u <==> u.nodes[env].pid.None? && Subtree(u.nodes, env) - {env} == {}
  {
    var gone := Subtree(u.nodes, env) - {env};
    if u.nodes[env].pid.None? && gone == {} {
      assert u.nodes - gone == u.nodes;
      assert u.nodes[env := u.nodes[env].(registered := false, pid := None)] == u.nodes;
    } else if x :| x in gone {
      assert x !in WentDown(u, env).nodes && x in u.nodes;
    } else {
      assert WentDown(u, env).nodes[env].pid.None?;
    }
  }

  const ONE_OF_EACH := Limits(1, 1, 1)

  /** Such a reset, from boot: the exit of the root's first process starts the root once more. */
  lemma FailedResetRestarts()
    ensures Inv(Booted(ONE_OF_EACH, "root", 1)) && ("root", 2) in Booted(ONE_OF_EACH, "root", 1).exits
    ensures var t := DoReset(Booted(ONE_OF_EACH, "root", 1), "root", FailsEarly, false, 2); Forest(t.nodes)
    ensures var t := DoReset(Booted(ONE_OF_EACH, "root", 1), "root", FailsEarly, false, 2);
      var u := DoExit(t, "root", 2, Fine, 3); "root" in u.nodes && u.nodes["root"].restarts == 1 && u.nodes["root"].gen == 4
  {
    hide Inv, Subtree;
    assert !IsGreen("root");
    BootedInv(ONE_OF_EACH, "root", 1);
    var s := Booted(ONE_OF_EACH, "root", 1);
    assert s.nodes["root"].gen == 2 && s.nodes["root"].restarts == 0;
    FailedResetIsHeard(s, "root", false, 2, Fine, 3);
  }

  // ---------------------------------------------------------------- restarts

  predicate AutoRestart(s: State, e: Event, env: string) {
    e.Exit? && e.env == env && env in s.nodes && s.nodes[env].gen == e.gen && s.nodes[env].restarts < s.limits.maxRestarts
  }

  /** The env is in the tree throughout and nobody resets it. */
  ghost predicate Undisturbed(s: State, es: seq<Event>, env: string)
    requires Inv(s) && Runs(s, es)
    decreases |es|
  {
    env in s.nodes
    && (es == []
        || (!(es[0].Reset? && es[0].env == env) && (StepKeepsInv(s, es[0]); Undisturbed(Step(s, es[0]), es[1..], env))))
  }

  ghost function AutoRestarts(s: State, es: seq<Event>, env: string): nat
    requires Inv(s) && Runs(s, es)
    decreases |es|
  {
    if es == [] then 0
    else
      StepKeepsInv(s, es[0]);
      (if AutoRestart(s, es[0], env) then 1 else 0) + AutoRestarts(Step(s, es[0]), es[1..], env)
  }

  lemma StepRestarts(s: State, e: Event, env: string)
    requires Inv(s) && Allowed(s, e) && env in s.nodes && !IsGreen(env)
    requires env in Step(s, e).nodes && !(e.Reset? && e.env == env)
    ensures Step(s, e).nodes[env].restarts == s.nodes[env].restarts + if AutoRestart(s, e, env) then 1 else 0
  {
    hide Named, Within, Generations;
    if e.Exit? { ExitRestarts(s, e.env, e.gen, e.start, e.now, env); }
    else { OtherRestarts(s, e, env); }
  }

  lemma ExitRestarts(s: State, at: string, gen: nat, start: Start, now: int, env: string)
    requires Forest(s.nodes) && env in s.nodes && env in DoExit(s, at, gen, start, now).nodes
    ensures DoExit(s, at, gen, start, now).nodes[env].restarts
         == s.nodes[env].restarts + if AutoRestart(s, Exit(at, gen, start, now), env) then 1 else 0
  {}

  lemma OtherRestarts(s: State, e: Event, env: string)
    requires Forest(s.nodes) && env in s.nodes && !IsGreen(env) && !e.Exit?
    requires env in Step(s, e).nodes && !(e.Reset? && e.env == env)
    ensures Step(s, e).nodes[env].restarts == s.nodes[env].restarts
  {
    if e.Switch? || e.Ready? { GreenIsGreen(e.env); }
  }

  /** Between two resets an env is restarted automatically at most `max_restarts` times: its counter
      counts exactly those restarts. */
  lemma {:induction false} RestartsAreCounted(s: State, es: seq<Event>, env: string)
    requires Inv(s) && Runs(s, es) && !IsGreen(env) && Undisturbed(s, es, env)
    ensures env in Run(s, es).nodes
    ensures Run(s, es).nodes[env].restarts == s.nodes[env].restarts + AutoRestarts(s, es, env)
    ensures s.nodes[env].restarts + AutoRestarts(s, es, env) <= s.limits.maxRestarts
    decreases |es|
  {
    hide Forest, Named, Generations, Step, IsGreen;
    if es != [] {
      StepKeepsInv(s, es[0]);
      StepLimits(s, es[0]);
      RestartsAreCounted(Step(s, es[0]), es[1..], env);
      StepRestarts(s, es[0], env);
    }
  }

  /** So after a reset the counter is the number of automatic restarts since. */
  lemma RestartsSinceReset(s: State, t: State, es: seq<Event>, env: string, clear: bool, now: int)
    requires env in s.nodes && env != GUARDIAN && !IsGreen(env) && t == DoReset(s, env, Fine, clear, now)
    requires Inv(t) && Runs(t, es) && Undisturbed(t, es, env)
    ensures env in Run(t, es).nodes && Run(t, es).nodes[env].restarts == AutoRestarts(t, es, env) <= s.limits.maxRestarts
  {
    hide Forest, Named, Within, Generations;
    RestartsAreCounted(t, es, env);
    assert t.nodes[env].restarts == 0;
  }

  /** A node started again, by an exit or a reset, stands where it stood with the store it had; an exit
      leaves its budget, and a reset does unless it is to clear it. */
  lemma RestartStandsInPlace(s: State, env: string, now: int, clear: bool)
    requires Inv(s) && env in s.nodes && s.nodes[env].restarts < s.limits.maxRestarts
    ensures InPlace(s.nodes[env], Revived(s, env, Fine, now).nodes[env]) && env in Revived(s, env, Fine, now).nodes
    ensures Revived(s, env, Fine, now).nodes[env].gen == s.generation + 1
    ensures s.nodes[env].budget != 0 ==> Revived(s, env, Fine, now).nodes[env].budget == s.nodes[env].budget
    ensures env != GUARDIAN && clear ==> DoReset(s, env, Fine, clear, now).nodes[env].budget == now
    ensures env != GUARDIAN && !clear && s.nodes[env].budget != 0 ==>
      DoReset(s, env, Fine, clear, now).nodes[env].budget == s.nodes[env].budget
    ensures env != GUARDIAN ==> InPlace(s.nodes[env], DoReset(s, env, Fine, clear, now).nodes[env])
    ensures env != GUARDIAN ==> DoReset(s, env, Fine, clear, now).nodes[env].gen == s.generation + 1
  {
    hide Named, Within, Generations, Subtree;
  }

  predicate InPlace(was: Node, again: Node) {
    && again.role == was.role && again.parent == was.parent && again.depth == was.depth
    && (was.store.Some? ==> again.store == was.store)
  }

  // ---------------------------------------------------------------- what can touch a record

  /** The events that may change or remove an env's record: its own or an ancestor's process dies, it
      or an ancestor is stopped, it is reset, it registers, or its kernel is promoted. */
  ghost predicate Touches(s: State, e: Event, n: string)
    requires Forest(s.nodes)
  {
    match e
    case Exit(env, gen, _, _) => env in s.nodes && s.nodes[env].gen == gen && Under(s.nodes, n, env)
    case Stop(env) => env in s.nodes && s.nodes[env].parent.Some? && Under(s.nodes, n, env)
    case Reset(env, _, _, _) => n == env && env != GUARDIAN
    case Register(env, gen) => n == env && n in s.nodes && s.nodes[n].gen == gen
    case Ready(env, ok) => ok && n == env && Green(env) in s.nodes
    case _ => false
  }

  /** Nothing else does, whatever happens to the other envs; a spawn, a candidate's exit, a switch of
      the env's kernel and its rejection in particular do not. */
  lemma OnlyTheseTouchARecord(s: State, e: Event, n: string)
    requires Inv(s) && Allowed(s, e) && n in s.nodes && !IsGreen(n) && !Touches(s, e, n)
    ensures n in Step(s, e).nodes && Step(s, e).nodes[n] == s.nodes[n]
  {
    hide Within, Generations;
    match e
    case Exit(env, gen, start, now) => UntouchedByExit(s, env, gen, start, now, n);
    case Switch(env, unix, spawned) => GreenIsGreen(env);
    case Ready(env, ok) => GreenIsGreen(env);
    case Stop(env) =>
    case Spawn(parent, child, start, now) => UntouchedBySpawn(s, parent, child, start, now, n);
    case Reset(env, start, clear, now) =>
    case Drain(env) =>
    case Register(env, gen) =>
  }

  lemma UntouchedBySpawn(s: State, parent: Option<string>, child: string, start: Start, now: int, n: string)
    requires n in s.nodes
    ensures n in DoSpawn(s, parent, child, start, now).nodes && DoSpawn(s, parent, child, start, now).nodes[n] == s.nodes[n]
  {}

  lemma UntouchedByExit(s: State, env: string, gen: nat, start: Start, now: int, n: string)
    requires Forest(s.nodes) && n in s.nodes
    requires env in s.nodes && s.nodes[env].gen == gen ==> !Under(s.nodes, n, env)
    ensures n in DoExit(s, env, gen, start, now).nodes && DoExit(s, env, gen, start, now).nodes[n] == s.nodes[n]
  {
    if env in s.nodes && s.nodes[env].gen == gen { assert n != env; }
  }

  /** No event of the run touches the record. */
  ghost predicate Unmoved(s: State, es: seq<Event>, n: string)
    requires Inv(s) && Runs(s, es)
    decreases |es|
  {
    es == [] || (!Touches(s, es[0], n) && (StepKeepsInv(s, es[0]); Unmoved(Step(s, es[0]), es[1..], n)))
  }

  /** From the start of a candidate to its rejection, whatever else happens in between: as long as
      nothing that concerns the env itself does, its record is exactly what it was. */
  lemma {:induction false} RecordOutlivesTheSwitch(s: State, es: seq<Event>, n: string)
    requires Inv(s) && Runs(s, es) && n in s.nodes && !IsGreen(n) && Unmoved(s, es, n)
    ensures n in Run(s, es).nodes && Run(s, es).nodes[n] == s.nodes[n]
    decreases |es|
  {
    hide Named, Within, Generations, Forest, Step, Touches, IsGreen;
    if es != [] {
      StepKeepsInv(s, es[0]);
      OnlyTheseTouchARecord(s, es[0], n);
      RecordOutlivesTheSwitch(Step(s, es[0]), es[1..], n);
    }
  }

  // ---------------------------------------------------------------- kernel switches

  /** Whatever happened since the candidate was started, rejecting it removes it and nothing else. */
  lemma RejectionLeavesTheEnv(s: State, env: string)
    ensures var t := DoReady(s, env, false); Green(env) !in t.nodes && t.draining == s.draining
    ensures forall n :: n != Green(env) ==> (n in DoReady(s, env, false).nodes <==> n in s.nodes)
    ensures forall n :: n in s.nodes && n != Green(env) ==> DoReady(s, env, false).nodes[n] == s.nodes[n]
  {}

  /** A switch whose candidate is rejected leaves the tree exactly as it was. */
  lemma FailedSwitchLeavesNoTrace(s: State, env: string, unix: bool, spawned: bool)
    requires Green(env) !in s.nodes
    ensures DoReady(DoSwitch(s, env, unix, spawned), env, false).nodes == s.nodes
  {}

  /** A promotion replaces the process and nothing else: one node under the env's name and none under
      the candidate's, in the same place, with the same sandbox, store, budget and restarts; the old
      process is left to be drained. */
  lemma PromotionMovesTheProcess(s: State, env: string)
    requires Inv(s) && env in s.nodes && Green(env) in s.nodes && !IsGreen(env)
    ensures DoReady(s, env, true).nodes.Keys == s.nodes.Keys - {Green(env)} && env in DoReady(s, env, true).nodes
    ensures forall n :: n in DoReady(s, env, true).nodes && n != env ==> DoReady(s, env, true).nodes[n] == s.nodes[n]
    ensures var was, t := s.nodes[env], DoReady(s, env, true).nodes[env];
      t.role == was.role && t.parent == was.parent && t.depth == was.depth && t.restarts == was.restarts
      && t.sandbox == was.sandbox && t.store == was.store && t.budget == was.budget && !t.shadow
    ensures var c, t := s.nodes[Green(env)], DoReady(s, env, true).nodes[env];
      t.gen == c.gen && t.pid == c.pid && t.registered == c.registered && t.gen != s.nodes[env].gen
    ensures s.nodes[env].pid.Some? ==> DoReady(s, env, true).draining == s.draining[env := s.nodes[env].pid.value]
  {
    assert |Green(env)| > |env|;
  }

  // ---------------------------------------------------------------- where the tree would break

  /** A promotion, or a rejection, keeps the forest exactly when nothing was spawned under the candidate. */
  lemma SwitchKeepsForestIff(s: State, env: string, ok: bool)
    requires Forest(s.nodes) && Green(env) in s.nodes
    ensures Forest(DoReady(s, env, ok).nodes) <==> Children(s.nodes, Green(env)) == {}
  {
    var green, t := Green(env), DoReady(s, env, ok);
    assert |green| > |env|;
    if c :| c in Children(s.nodes, green) {
      assert c != green && c in t.nodes && t.nodes[c].parent == Some(green);
    } else {
      assert forall n :: n in s.nodes ==> n !in Children(s.nodes, green);
    }
  }

  /** A reset whose sandbox does not come up keeps the forest exactly when the env has no children:
      its record is gone by then, and resets do not prune. */
  lemma ResetKeepsForestIff(s: State, env: string, clear: bool, now: int)
    requires Forest(s.nodes) && env in s.nodes && env != GUARDIAN && s.nodes[env].role == Agent
    ensures Forest(DoReset(s, env, FailsInSandbox, clear, now).nodes) <==> Children(s.nodes, env) == {}
  {
    var t := DoReset(s, env, FailsInSandbox, clear, now);
    assert env !in t.nodes;
    if c :| c in Children(s.nodes, env) {
      assert c != env && c in t.nodes && t.nodes[c].parent == Some(env);
    } else {
      assert forall n :: n in s.nodes ==> n !in Children(s.nodes, env);
    }
  }
}
