/**
 What the supervisor's commands bring about: which processes stand where after a boot, a spawn, an exit,
 a stop and a kernel switch, field by field.
 */
module SupervisorLife {
  import opened Prelude
  import opened SupervisorSpec
  import opened SupervisorRuns

  /** A process just started in the place named, with nothing behind it. */
  predicate Newborn(n: Node, role: Role, gen: nat, parent: Option<string>, depth: nat, now: int) {
    && n.role == role && n.pid == Some(gen) && n.gen == gen && !n.registered && !n.shadow
    && n.parent == parent && n.depth == depth && n.restarts == 0 && n.budget == now
    && n.store == n.sandbox == (if role == Guardian then None else Some(gen))
  }

  /** Nothing but the record of `env` differs. */
  predicate OthersStand(a: map<string, Node>, b: map<string, Node>, env: string) {
    a - {env} == b - {env}
  }

  /** A base comes up with the guardian and the root env, and nothing else. */
  lemma BootStands(limits: Limits, root: string, now: int)
    requires Bootable(limits, root)
    ensures var s := Booted(limits, root, now);
      && s.nodes.Keys == {"guardian", root}
      && Newborn(s.nodes["guardian"], Guardian, 1, None, 0, now) && Newborn(s.nodes[root], Agent, 2, None, 0, now)
      && s.exits == {("guardian", 1), (root, 2)} && s.draining == map[]
  {}

  // ---------------------------------------------------------------- spawning

  /** A child comes up exactly under a known env that is not the guardian, within the depth and the number
      allowed, under a free name, if its process starts: one level below, with a store and a sandbox of its
      own. In any other case the tree is what it was. */
  lemma SpawnedIff(s: State, parent: Option<string>, child: string, start: Start, now: int)
    ensures var t := DoSpawn(s, parent, child, start, now);
      if && parent.Some? && parent.value in s.nodes && s.nodes[parent.value].role == Agent
         && s.nodes[parent.value].depth < s.limits.maxDepth
         && |set n | n in s.nodes && s.nodes[n].role == Agent| < s.limits.maxTotal
         && child !in s.nodes && start == Fine
      then && child in t.nodes && Newborn(t.nodes[child], Agent, s.generation + 1, parent, s.nodes[parent.value].depth + 1, now)
           && OthersStand(s.nodes, t.nodes, child) && t.exits == s.exits + {(child, s.generation + 1)}
      else t.nodes == s.nodes
  {
    assert Agents(s.nodes) == set n | n in s.nodes && s.nodes[n].role == Agent;
  }

  // ---------------------------------------------------------------- exits and stops

  /** The exit of an env's current process takes everything below it out of the tree and nothing else;
      while it has restarts left the env has a new process, counted, and otherwise stays without one. */
  lemma ExitIsHandled(s: State, env: string, gen: nat, now: int)
    requires Forest(s.nodes) && env in s.nodes
    ensures var t := DoExit(s, env, gen, Fine, now); var was := s.nodes[env];
      if was.gen != gen then t.nodes == s.nodes
      else && (forall n :: n != env ==> (n in t.nodes <==> n in s.nodes && !Under(s.nodes, n, env)))
           && (forall n :: n != env && n in t.nodes ==> t.nodes[n] == s.nodes[n])
           && env in t.nodes
           && if was.restarts < s.limits.maxRestarts
              then && t.nodes[env].pid == Some(s.generation + 1) && t.nodes[env].gen == s.generation + 1
                   && t.nodes[env].restarts == was.restarts + 1 && (env, s.generation + 1) in t.exits
              else && t.nodes[env] == was.(pid := None, registered := false) && t.exits == s.exits - {(env, gen)}
  {
    hide Forest, Under, WentDown, Started;
    var r := s.(exits := s.exits - {(env, gen)});
    DownIs(r, env);
    StartedRestarts(WentDown(r, env).nodes[env := WentDown(r, env).nodes[env].(restarts := s.nodes[env].restarts + 1)], s, env, now);
  }

  lemma DownIs(s: State, env: string)
    requires Forest(s.nodes) && env in s.nodes
    ensures var u := WentDown(s, env);
      && u == s.(nodes := u.nodes) && env in u.nodes && u.nodes[env] == s.nodes[env].(pid := None, registered := false)
      && (forall n :: n != env ==> (n in u.nodes <==> n in s.nodes && !Under(s.nodes, n, env)))
      && (forall n :: n != env && n in u.nodes ==> u.nodes[n] == s.nodes[n])
  {
    hide Forest, Under;
  }

  lemma StartedRestarts(nodes: map<string, Node>, s: State, env: string, now: int)
    requires env in nodes && env in s.nodes
    ensures var n := Started(nodes, s.nodes[env].role, env, s.nodes[env].parent, s.generation + 1, now);
      n.pid == Some(s.generation + 1) && n.gen == s.generation + 1 && n.restarts == nodes[env].restarts
  {}

  /** Stopping a child env takes it and everything below it out of the tree, and nothing else; an env
      without a parent cannot be stopped. */
  lemma StoppedIsGone(s: State, env: string)
    requires Forest(s.nodes) && env in s.nodes
    ensures var t := DoStop(s, env);
      if s.nodes[env].parent.None? then t == s
      else && (forall n :: n in t.nodes <==> n in s.nodes && !Under(s.nodes, n, env)) && env !in t.nodes
           && (forall n :: n in t.nodes ==> t.nodes[n] == s.nodes[n])
  {}

  // ---------------------------------------------------------------- kernel switches

  /** A candidate: a process of its own beside the env, with nothing but its place. */
  predicate Candidate(n: Node, gen: nat, env: Node) {
    && n.role == Agent && n.shadow && n.pid == Some(gen) && n.gen == gen && n.restarts == 0
    && n.parent == env.parent && n.depth == env.depth && n.sandbox.None? && n.store.None?
  }

  /** A switch that can be made and whose process starts stands exactly one candidate beside the env, whose
      exit will be reported for the env; any other leaves the tree as it was. */
  lemma SwitchStandsCandidate(s: State, env: string, unix: bool, spawned: bool)
    ensures var t := DoSwitch(s, env, unix, spawned); var green := env + "~green";
      if env in s.nodes && s.nodes[env].role == Agent && unix && spawned
      then && green in t.nodes && Candidate(t.nodes[green], s.generation + 1, s.nodes[env]) && !t.nodes[green].registered
           && OthersStand(s.nodes, t.nodes, green) && env in t.nodes && t.nodes[env] == s.nodes[env]
           && t.exits == s.exits + {(env, s.generation + 1)} && t.generation == s.generation + 1
      else && t.nodes == s.nodes && t.exits == s.exits && t.draining == s.draining
           && t.generation == s.generation + if env in s.nodes && s.nodes[env].role == Agent && unix then 1 else 0
  {
    assert |env + "~green"| > |env|;
  }

  /** The events that may end or replace a candidate: the death or the stop of something above it, its own
      stop, another switch of the env, and the word that it is ready or not. */
  ghost predicate EndsCandidate(s: State, e: Event, env: string)
    requires Forest(s.nodes)
  {
    match e
    case Exit(at, gen, _, _) => at in s.nodes && s.nodes[at].gen == gen && Under(s.nodes, Green(env), at)
    case Stop(at) => at in s.nodes && s.nodes[at].parent.Some? && Under(s.nodes, Green(env), at)
    case Switch(at, _, _) => at == env
    case Ready(at, _) => at == env
    case _ => false
  }

  lemma GreensDiffer(a: string, b: string)
    ensures Green(a) == Green(b) ==> a == b
    ensures IsGreen(Green(a))
  {
    assert Green(a)[..|a|] == a && Green(b)[..|b|] == b;
    GreenIsGreen(a);
  }

  lemma StepKeepsCandidate(s: State, e: Event, env: string)
    requires Inv(s) && Allowed(s, e) && Green(env) in s.nodes && !EndsCandidate(s, e, env)
    ensures var t := Step(s, e); Green(env) in t.nodes && t.nodes[Green(env)].(registered := false) == s.nodes[Green(env)].(registered := false)
  {
    hide Within, Generations, IsGreen;
    var green := Green(env);
    match e
    case Exit(at, gen, start, now) => UntouchedByExit(s, at, gen, start, now, green);
    case Switch(at, unix, spawned) => GreensDiffer(at, env);
    case Ready(at, ok) => GreensDiffer(at, env); GreensDiffer(env, at); assert at != green;
    case Stop(at) =>
    case Spawn(parent, child, start, now) => UntouchedBySpawn(s, parent, child, start, now, green);
    case Reset(at, start, clear, now) => GreensDiffer(env, env);
    case Drain(at) =>
    case Register(at, gen) =>
  }

  /** No event of the run ends the candidate. */
  ghost predicate LeftAlone(s: State, es: seq<Event>, env: string)
    requires Inv(s) && Runs(s, es)
    decreases |es|
  {
    es == [] || (!EndsCandidate(s, es[0], env) && (StepKeepsInv(s, es[0]); LeftAlone(Step(s, es[0]), es[1..], env)))
  }

  lemma {:induction false} CandidateStays(s: State, es: seq<Event>, env: string)
    requires Inv(s) && Runs(s, es) && Green(env) in s.nodes && LeftAlone(s, es, env)
    ensures var t := Run(s, es);
      Green(env) in t.nodes && t.nodes[Green(env)].(registered := false) == s.nodes[Green(env)].(registered := false)
    decreases |es|
  {
    hide Named, Within, Generations, Forest, Step, EndsCandidate, Green;
    if es != [] {
      StepKeepsInv(s, es[0]);
      StepKeepsCandidate(s, es[0], env);
      CandidateStays(Step(s, es[0]), es[1..], env);
    }
  }

  /** A switch, then any run that leaves the env and its candidate alone, then the word that it is healthy:
      the env runs exactly the process the switch started, where it stood and with all it had, the process
      it ran before is left to be drained, and no candidate is left. */
  lemma SwitchedIsPromoted(s: State, env: string, es: seq<Event>)
    requires Inv(s) && env in s.nodes && env != GUARDIAN && !IsGreen(env)
    requires Inv(Step(s, Switch(env, true, true))) && Runs(Step(s, Switch(env, true, true)), es)
    requires Unmoved(Step(s, Switch(env, true, true)), es, env) && LeftAlone(Step(s, Switch(env, true, true)), es, env)
    ensures var was := s.nodes[env]; var t := Step(Run(Step(s, Switch(env, true, true)), es), Ready(env, true));
      && env in t.nodes && Green(env) !in t.nodes
      && t.nodes[env].pid == Some(s.generation + 1) && t.nodes[env].gen == s.generation + 1
      && t.nodes[env] == was.(pid := t.nodes[env].pid, gen := t.nodes[env].gen, registered := t.nodes[env].registered)
      && (was.pid.Some? ==> env in t.draining && t.draining[env] == was.pid.value)
  {
    hide Named, Within, Generations, Runs, Run, Forest, Unmoved, LeftAlone, DoSwitch, DoReady, IsGreen;
    var u := Step(s, Switch(env, true, true));
    RoleOf(s, env);
    SwitchStandsCandidate(s, env, true, true);
    RecordOutlivesTheSwitch(u, es, env);
    CandidateStays(u, es, env);
    PromotionMovesTheProcess(Run(u, es), env);
  }

  /** Once the old process is drained it is forgotten, and nothing else changes. */
  lemma DrainedIsForgotten(s: State, env: string)
    requires Forest(s.nodes)
    ensures Step(s, Drain(env)) == s.(draining := s.draining - {env})
    ensures env !in Step(s, Drain(env)).draining
  {}

  /** An env counts as registered exactly when its current process has said so. */
  lemma RegisteredIff(s: State, env: string, gen: nat)
    requires Forest(s.nodes) && env in s.nodes && !s.nodes[env].registered
    ensures var t := Step(s, Register(env, gen));
      && env in t.nodes && (t.nodes[env].registered <==> gen == s.nodes[env].gen)
      && t.nodes[env].(registered := false) == s.nodes[env] && OthersStand(s.nodes, t.nodes, env)
  {}

  lemma RoleOf(s: State, env: string)
    requires Inv(s) && env in s.nodes
    ensures env != GUARDIAN ==> s.nodes[env].role == Agent && (!IsGreen(env) ==> !s.nodes[env].shadow)
  {}
}
