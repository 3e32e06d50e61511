/**
 The plugin object of the Python SDK, its fields changed frame by frame. Every method is proved to be
 the corresponding function of the state.
 */
module PluginLoop {
  import opened Prelude
  import opened PluginSpec

  class Plugin {
    const limits: Limits

    // the wire
    var input: seq<In>
    var sent: seq<Out>

    var hooks: map<int, Handler>
    var services: map<string, map<string, Handler>>
    var replies: map<Slot, Reply>
    var deferred: seq<Registration>
    var loadHandler: Option<Handler>
    var counter: nat
    var active: bool

    ghost var read: seq<In>
    ghost var taken: set<int>
    ghost var cut: seq<Req>
    ghost var dropped: seq<Drop>

    ghost function Now(): State
      reads this
    {
      State(input, sent, hooks, services, replies, deferred, loadHandler, counter, active, read, taken, cut, dropped)
    }

    method Send(f: Out) returns (k: Sending)
      modifies this`sent
      ensures Now() == DoSend(limits, old(Now()), f) && k == SendOutcome(limits, f)
    {
      if !Jsonable(limits, f) { return NotJson; }
      if limits.size(f) > limits.maxFrame { return TooLarge; }
      sent := sent + [f];
      return Sent;
    }

    method RegisterFrame(row: Registration) returns (w: Wait)
      modifies this`sent, this`deferred
      ensures Now() == DoRegister(limits, old(Now()), row) && w == RegisterOutcome(limits, old(Now()), row)
    {
      if !active {
        deferred := deferred + [row];
        return Got(Ok(NULL));
      }
      var k := Send(Register(row));
      return if k == Sent then Got(Ok(NULL)) else Threw(FRAME_TOO_LARGE);
    }

    /** A failure reply, or the shorter one when it does not fit; nothing for a request without a number. */
    method Fail(req: Req, reason: string, ghost full: Out) returns (x: Exit)
      modifies this`sent, this`dropped
      ensures (Now(), x) == DoFail(limits, old(Now()), req, reason, full)
    {
      if req.None? { return Done; }
      var k := Send(Refuse(req, reason));
      if k == Sent { return Done; }
      k := Send(Refuse(req, FRAME_TOO_LARGE));
      if k == Sent { return Done; }
      dropped := dropped + [Drop(req, NoRoom(full))];
      return Broke(FRAME_TOO_LARGE);
    }

    method AnswerFinished(req: Req, e: Ending, load: bool) returns (x: Exit)
      requires !e.CutRun?
      modifies this`sent, this`dropped
      ensures (Now(), x) == DoAnswer(limits, old(Now()), req, e, load)
    {
      hide DoFail, OrOk;
      if e.Raised? {
        x := Fail(req, e.reason, Refuse(req, e.reason));
        return;
      }
      var v := if load then OrOk(e.value) else e.value;
      var k := Send(Answer(req, v));
      if k == NotJson {
        dropped := dropped + [Drop(req, ResultNotJson(v))];
        return Broke(NOT_JSON);
      }
      if k == TooLarge {
        x := Fail(req, FRAME_TOO_LARGE, Answer(req, v));
        return;
      }
      return Done;
    }

    /** Wait for one slot, serving whatever else arrives. */
    method Settle(slot: Slot) returns (w: Wait)
      modifies this
      ensures (Now(), w) == DoSettle(limits, old(Now()), slot)
      decreases |input|, 1, 0
    {
      hide DoServe;
      ghost var was := Now();
      while slot !in replies
        invariant DoSettle(limits, Now(), slot) == DoSettle(limits, was, slot) && |input| <= |was.input|
        decreases |input|
      {
        if input == [] { return CutWait; }
        var x := Serve();
        if x.Cut? { return CutWait; }
        if x.Broke? { return Threw(x.reason); }
      }
      w := Got(replies[slot]);
      replies := replies - {slot};
      if slot.RepSlot? && slot.id.Some? { taken := taken + {slot.id.value}; }
    }

    /** Read the next frame and dispatch it. */
    method Serve() returns (x: Exit)
      requires input != []
      modifies this
      ensures (Now(), x) == DoServe(limits, old(Now()))
      decreases |input|, 0, 0
    {
      hide DoDispatch;
      var f := input[0];
      input := input[1..];
      read := read + [f];
      x := Dispatch(f);
    }

    method Dispatch(f: In) returns (x: Exit)
      modifies this
      ensures (Now(), x) == DoDispatch(limits, old(Now()), f)
      decreases |input|, 7, 0
    {
      hide DoHandle, DoGuard, DoLoad, DoFail;
      match f
      case Hook(hook, calls, req, args) =>
        x := OnHook(hook, calls, req, args);
      case Svc(req, name, verb, args) =>
        if name !in services || verb !in services[name] {
          x := Fail(req, "unknown method " + verb, Refuse(req, "unknown method " + verb));
        } else {
          x := Guard(req, services[name][verb], args, None, false);
        }
      case Result(req, value) =>
        replies := replies[ResultSlot(req) := Ok(value)];
        return Done;
      case Rep(id, reply) =>
        replies := replies[RepSlot(id) := reply];
        return Done;
      case Load(req, config) =>
        x := OnLoad(req, config);
      case Unload => return Cut;
      case Unknown => return Done;
      case Odd(req, service, verb) =>
        if service.Some? && (service.value !in services || services[service.value] == map[]) {
          x := Fail(req, "unknown method " + verb, Refuse(req, "unknown method " + verb));
        } else {
          dropped := dropped + [Drop(req, Unhashable(f))];
          return Broke(UNHASHABLE);
        }
      case Garbage => return Broke("bad frame");
    }

    method OnHook(hook: int, calls: bool, req: Req, args: Value) returns (x: Exit)
      modifies this
      ensures (Now(), x) == DoDispatch(limits, old(Now()), Hook(hook, calls, req, args))
      decreases |input|, 6, 0
    {
      hide DoHandle, DoGuard, DoFail;
      if !calls {
        if hook !in hooks { return Done; }
        var e := RunHandler(hooks[hook], args, None);
        return if e.CutRun? then Cut else Done;
      }
      if hook !in hooks {
        x := Fail(req, "unknown hook", Refuse(req, "unknown hook"));
      } else {
        x := Guard(req, hooks[hook], args, Some(req), false);
      }
    }

    /** Send the registrations kept back, in order, until one does not fit. */
    method Announce() returns (stuck: Option<Registration>)
      modifies this`sent
      ensures (Now(), stuck) == DoAnnounce(limits, old(Now()), deferred)
    {
      ghost var was := Now();
      for i := 0 to |deferred|
        invariant DoAnnounce(limits, Now(), deferred[i..]) == DoAnnounce(limits, was, deferred)
      {
        assert deferred[i..][0] == deferred[i] && deferred[i..][1..] == deferred[i + 1..];
        var k := Send(Register(deferred[i]));
        if k != Sent { return Some(deferred[i]); }
      }
      return None;
    }

    /** Go live, announce what was registered before, then answer the load. */
    method OnLoad(req: Req, config: Value) returns (x: Exit)
      modifies this
      ensures (Now(), x) == DoLoad(limits, old(Now()), req, config)
      decreases |input|, 6, 0
    {
      hide DoGuard, DoAnnounce;
      ghost var was := Now();
      active := true;
      var stuck := Announce();
      AnnounceOnlySends(limits, was.(active := true), was.deferred);
      if stuck.Some? {
        dropped := dropped + [Drop(req, HeldBack(stuck.value))];
        return Broke(FRAME_TOO_LARGE);
      }
      deferred := [];
      if loadHandler.Some? {
        x := Guard(req, loadHandler.value, config, None, true);
        return;
      }
      var k := Send(Answer(req, OK));
      if k == Sent { return Done; }
      dropped := dropped + [Drop(req, NoRoomForOk)];
      return Broke(SendError(k));
    }

    /** Run a handler for a request and answer it with what came out. */
    method Guard(req: Req, h: Handler, args: Value, next: Option<Req>, load: bool) returns (x: Exit)
      modifies this
      ensures (Now(), x) == DoGuard(limits, old(Now()), req, h, args, next, load)
      decreases |input|, 5, 0
    {
      hide DoHandle, DoAnswer;
      var e := RunHandler(h, args, next);
      if e.CutRun? {
        cut := cut + [req];
        return Cut;
      }
      x := AnswerFinished(req, e, load);
    }

    /** Let a handler act until it returns or raises. */
    method RunHandler(h: Handler, args: Value, next: Option<Req>) returns (e: Ending)
      modifies this
      ensures (Now(), e) == DoHandle(limits, old(Now()), h, args, next, [])
      decreases |input|, 4, h.steps
    {
      hide DoAct;
      ghost var was := Now();
      var seen: seq<Reply> := [];
      while true
        invariant DoHandle(limits, Now(), h, args, next, seen) == DoHandle(limits, was, h, args, next, [])
        invariant |seen| <= h.steps && |input| <= |was.input|
        decreases h.steps - |seen|
      {
        var a := Choice(h, args, seen);
        if a.Return? { return Returned(a.value); }
        if a.Raise? { return Raised(a.reason); }
        var w := Act(a, next);
        if w.CutWait? { return CutRun; }
        seen := seen + [AsReply(w)];
      }
    }

    /** One thing a handler does: wait for another plugin, emit, or change what this one registers. */
    method Act(a: Action, next: Option<Req>) returns (w: Wait)
      requires !a.Return? && !a.Raise?
      modifies this
      ensures (Now(), w) == DoAct(limits, old(Now()), a, next)
      decreases |input|, 3, 0
    {
      hide DoAsk, DoSendAndSettle, DoSend, DoRegister, RegisterOutcome, EmitOutcome, SendOutcome, DoSettle, Fits, Jsonable, Max;
      match a
      case DoCall(args) => w := Ask(false, args);
      case DoSvc(args) => w := Ask(true, args);
      case DoNext(args) =>
        if next.None? { return Threw("no next here"); }
        w := SendAndSettle(NextOut(next.value, args), ResultSlot(next.value));
      case DoEmit(args) =>
        var k := Send(Emit(args));
        return EmitOutcome(k);
      case DoOn(handler) =>
        counter := counter + 1;
        hooks := hooks[counter := handler];
        w := RegisterFrame(On(counter));
      case DoOff(hook) =>
        hooks := hooks - {hook};
        w := RegisterFrame(Off(hook));
      case DoProvide(name, methods) =>
        services := services[name := methods];
        w := RegisterFrame(Provide(name));
      case DoUnprovide(name) =>
        services := services - {name};
        w := RegisterFrame(Unprovide(name));
    }

    /** `call` and `svc`: a new number, the request, and the wait for the reply carrying it. */
    method Ask(verb: bool, args: Value) returns (w: Wait)
      modifies this
      ensures (Now(), w) == DoAsk(limits, old(Now()), verb, args)
      decreases |input|, 2, 1
    {
      hide DoSendAndSettle;
      counter := counter + 1;
      w := SendAndSettle(if verb then SvcOut(counter, args) else CallOut(counter, args), RepSlot(Some(counter)));
    }

    method SendAndSettle(f: Out, slot: Slot) returns (w: Wait)
      modifies this
      ensures (Now(), w) == DoSendAndSettle(limits, old(Now()), f, slot)
      decreases |input|, 2, 0
    {
      hide DoSettle;
      var k := Send(f);
      if k != Sent { return Threw(SendError(k)); }
      w := Settle(slot);
    }

    /** Announce oneself, then serve the wire until it closes, an unload comes or an exception gets out. */
    method Run() returns (x: Exit)
      modifies this
      ensures (Now(), x) == DoRun(limits, old(Now()))
    {
      hide DoServe;
      var k := Send(Hello);
      if k != Sent { return Broke(FRAME_TOO_LARGE); }
      ghost var was := Now();
      while input != []
        invariant DoLoop(limits, Now()) == DoLoop(limits, was)
        decreases |input|
      {
        x := Serve();
        if x != Done { return; }
      }
      return Done;
    }
  }
}
