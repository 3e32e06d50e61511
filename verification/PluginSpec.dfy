/**
 The Python SDK's re-entrant loop as functions of the plugin's state and the wire. Waiting for one
 reply keeps serving inbound frames, so requests nest: each wait may dispatch frames whose handlers
 wait in turn. The wire is a finite sequence of frames; a handler is any function of the replies it has
 seen that ends within a number of actions.
 */
module PluginSpec {
  import opened Prelude

  datatype Value = Value(text: string, truthy: bool)

  datatype Reply = Ok(value: Value) | Err(reason: string)

  /** A request's correlation number; absent when the frame carried none. */
  type Req = Option<int>

  /** Dispatching `Odd` looks up what no dictionary can hold: the number of a hook or the name of a service,
      or, when `service` is given, the method of that one. `req` is absent when nothing is asked. `Garbage`
      is whatever else raises before anything is asked: no JSON object, or a reply that names no slot. */
  datatype In =
    | Hook(hook: int, calls: bool, req: Req, args: Value)
    | Svc(req: Req, name: string, verb: string, args: Value)
    | Result(req: Req, value: Value)
    | Rep(id: Req, reply: Reply)
    | Load(req: Req, config: Value)
    | Unload
    | Unknown
    | Odd(req: Req, service: Option<string>, verb: string)
    | Garbage

  datatype Registration = On(hook: int) | Off(hook: int) | Provide(name: string) | Unprovide(name: string)

  datatype Out =
    | Hello
    | Register(row: Registration)
    | Emit(args: Value)
    | CallOut(id: int, args: Value)
    | SvcOut(id: int, args: Value)
    | NextOut(req: Req, args: Value)
    | Answer(req: Req, result: Value)
    | Refuse(req: Req, reason: string)

  datatype Action =
    | DoCall(args: Value) | DoSvc(args: Value) | DoNext(args: Value) | DoEmit(args: Value)
    | DoOn(handler: Handler) | DoOff(hook: int)
    | DoProvide(name: string, methods: map<string, Handler>) | DoUnprovide(name: string)
    | Return(value: Value) | Raise(reason: string)

  datatype Finish = Gives(value: Value) | Fails(reason: string)

  /** What a handler does next, given its arguments and the replies it has seen; after `steps` actions
      it ends as `last` says. */
  datatype Handler = Handler(steps: nat, decide: (Value, seq<Reply>) -> Action, last: (Value, seq<Reply>) -> Finish)

  datatype Slot = RepSlot(id: Req) | ResultSlot(req: Req)

  /** How a send, a wait, a handler and a dispatch end. `Cut` is an unload or a closed wire, which
      every level passes on; `Broke` is any other exception leaving a dispatch. */
  datatype Sending = Sent | TooLarge | NotJson
  datatype Wait = Got(reply: Reply) | Threw(reason: string) | CutWait
  datatype Ending = Returned(value: Value) | Raised(reason: string) | CutRun
  datatype Exit = Done | Cut | Broke(reason: string)

  /** Why an exception left a request unanswered. */
  datatype Cause =
    | ResultNotJson(result: Value)
    | NoRoom(full: Out)
    | HeldBack(row: Registration)
    | NoRoomForOk
    | Unhashable(frame: In)

  datatype Drop = Drop(req: Req, cause: Cause)

  /** Which values are JSON, how long a frame is, and the cap. */
  datatype Limits = Limits(json: Value -> bool, size: Out -> nat, maxFrame: nat)

  /** The plugin object with its wire; `read`, `taken`, `cut` and `dropped` are history: the frames
      read, the numbers whose reply was picked up, and the requests cut off or left by an exception. */
  datatype State = State(
    input: seq<In>, sent: seq<Out>,
    hooks: map<int, Handler>, services: map<string, map<string, Handler>>,
    replies: map<Slot, Reply>, deferred: seq<Registration>, load: Option<Handler>,
    counter: nat, active: bool,
    read: seq<In>, taken: set<int>, cut: seq<Req>, dropped: seq<Drop>)

  const FRAME_TOO_LARGE := "frame_too_large"
  const NOT_JSON := "not JSON serializable"
  const UNHASHABLE := "unhashable type"
  const NULL := Value("null", false)
  const OK := Value("ok", true)

  function AsReply(w: Wait): Reply
    requires !w.CutWait?
  {
    if w.Got? then w.reply else Err(w.reason)
  }

  function OrOk(v: Value): Value {
    if v.truthy then v else OK
  }

  // ---------------------------------------------------------------- sending

  predicate Jsonable(l: Limits, f: Out) {
    match f
    case Emit(a) => l.json(a)
    case CallOut(_, a) => l.json(a)
    case SvcOut(_, a) => l.json(a)
    case NextOut(_, a) => l.json(a)
    case Answer(_, v) => l.json(v)
    case _ => true
  }

  predicate Fits(l: Limits, f: Out) {
    Jsonable(l, f) && l.size(f) <= l.maxFrame
  }

  function SendOutcome(l: Limits, f: Out): Sending {
    if !Jsonable(l, f) then NotJson else if l.size(f) > l.maxFrame then TooLarge else Sent
  }

  function DoSend(l: Limits, s: State, f: Out): State {
    if Fits(l, f) then s.(sent := s.sent + [f]) else s
  }

  function SendError(k: Sending): string {
    if k == NotJson then NOT_JSON else FRAME_TOO_LARGE
  }

  function DoRegister(l: Limits, s: State, row: Registration): State {
    if s.active then DoSend(l, s, Register(row)) else s.(deferred := s.deferred + [row])
  }

  predicate Registers(l: Limits, s: State, row: Registration) {
    s.active ==> Fits(l, Register(row))
  }

  function Dropped(s: State, req: Req, cause: Cause): State {
    s.(dropped := s.dropped + [Drop(req, cause)])
  }

  /** A failure reply, or the shorter one when it does not fit; nothing for a request without a number.
      `full` is the reply whose failure to fit would be to blame. */
  function DoFail(l: Limits, s: State, req: Req, reason: string, full: Out): (State, Exit) {
    if req.None? then (s, Done)
    else if Fits(l, Refuse(req, reason)) then (DoSend(l, s, Refuse(req, reason)), Done)
    else if Fits(l, Refuse(req, FRAME_TOO_LARGE)) then (DoSend(l, s, Refuse(req, FRAME_TOO_LARGE)), Done)
    else (Dropped(s, req, NoRoom(full)), Broke(FRAME_TOO_LARGE))
  }

  /** A finished handler's reply. */
  function DoAnswer(l: Limits, s: State, req: Req, e: Ending, load: bool): (State, Exit)
    requires !e.CutRun?
  {
    if e.Raised? then DoFail(l, s, req, e.reason, Refuse(req, e.reason))
    else
      var v := if load then OrOk(e.value) else e.value;
      match SendOutcome(l, Answer(req, v))
      case Sent => (DoSend(l, s, Answer(req, v)), Done)
      case TooLarge => DoFail(l, s, req, FRAME_TOO_LARGE, Answer(req, v))
      case NotJson => (Dropped(s, req, ResultNotJson(v)), Broke(NOT_JSON))
  }

  /** Send held-back registrations in order, up to the first that does not fit. */
  function DoAnnounce(l: Limits, s: State, rows: seq<Registration>): (r: (State, Option<Registration>))
    ensures r.0.input == s.input
    decreases |rows|
  {
    if rows == [] then (s, None)
    else if !Fits(l, Register(rows[0])) then (s, Some(rows[0]))
    else DoAnnounce(l, DoSend(l, s, Register(rows[0])), rows[1..])
  }

  /** Announcing changes nothing but what was sent. */
  lemma {:induction false} AnnounceOnlySends(l: Limits, s: State, rows: seq<Registration>)
    ensures DoAnnounce(l, s, rows).0 == s.(sent := DoAnnounce(l, s, rows).0.sent)
    decreases |rows|
  {
    if rows != [] && Fits(l, Register(rows[0])) { AnnounceOnlySends(l, DoSend(l, s, Register(rows[0])), rows[1..]); }
  }

  // ---------------------------------------------------------------- the loop

  function Stored(s: State, slot: Slot, r: Reply): State {
    s.(replies := s.replies[slot := r])
  }

  function PickedUp(s: State, slot: Slot): State {
    s.(replies := s.replies - {slot}, taken := if slot.RepSlot? && slot.id.Some? then s.taken + {slot.id.value} else s.taken)
  }

  function Read(s: State): State
    requires s.input != []
  {
    s.(input := s.input[1..], read := s.read + [s.input[0]])
  }

  /** Wait for a slot, serving whatever else arrives. */
  function DoSettle(l: Limits, s: State, slot: Slot): (r: (State, Wait))
    ensures |r.0.input| <= |s.input|
    decreases |s.input|, 1, 0
  {
    if slot in s.replies then (PickedUp(s, slot), Got(s.replies[slot]))
    else if s.input == [] then (s, CutWait)
    else
      var (t, x) := DoServe(l, s);
      match x
      case Cut => (t, CutWait)
      case Broke(reason) => (t, Threw(reason))
      case Done => DoSettle(l, t, slot)
  }

  /** Read the next frame and dispatch it. */
  function DoServe(l: Limits, s: State): (r: (State, Exit))
    requires s.input != []
    ensures |r.0.input| < |s.input|
    decreases |s.input|, 0, 0
  {
    DoDispatch(l, Read(s), s.input[0])
  }

  function DoDispatch(l: Limits, s: State, f: In): (r: (State, Exit))
    ensures |r.0.input| <= |s.input|
    decreases |s.input|, 7, 0
  {
    match f
    case Hook(hook, false, req, args) =>
      if hook !in s.hooks then (s, Done)
      else
        var (t, e) := DoHandle(l, s, s.hooks[hook], args, None, []);
        (t, if e.CutRun? then Cut else Done)
    case Hook(hook, true, req, args) =>
      if hook !in s.hooks then DoFail(l, s, req, "unknown hook", Refuse(req, "unknown hook"))
      else DoGuard(l, s, req, s.hooks[hook], args, Some(req), false)
    case Svc(req, name, verb, args) =>
      if name !in s.services || verb !in s.services[name]
      then DoFail(l, s, req, "unknown method " + verb, Refuse(req, "unknown method " + verb))
      else DoGuard(l, s, req, s.services[name][verb], args, None, false)
    case Result(req, value) => (Stored(s, ResultSlot(req), Ok(value)), Done)
    case Rep(id, reply) => (Stored(s, RepSlot(id), reply), Done)
    case Load(req, config) => DoLoad(l, s, req, config)
    case Unload => (s, Cut)
    case Unknown => (s, Done)
    case Odd(req, service, verb) =>
      if NoMethods(s, service) then DoFail(l, s, req, "unknown method " + verb, Refuse(req, "unknown method " + verb))
      else (Dropped(s, req, Unhashable(f)), Broke(UNHASHABLE))
    case Garbage => (s, Broke("bad frame"))
  }

  /** The service named is missing or empty: its method is not even looked up. */
  predicate NoMethods(s: State, service: Option<string>) {
    service.Some? && (service.value !in s.services || s.services[service.value] == map[])
  }

  /** Go live, announce what was registered before, then answer the load. */
  function DoLoad(l: Limits, s: State, req: Req, config: Value): (r: (State, Exit))
    ensures |r.0.input| <= |s.input|
    decreases |s.input|, 6, 0
  {
    var (t, stuck) := DoAnnounce(l, s.(active := true), s.deferred);
    if stuck.Some? then (Dropped(t, req, HeldBack(stuck.value)), Broke(FRAME_TOO_LARGE))
    else
      var u := t.(deferred := []);
      if u.load.Some? then DoGuard(l, u, req, u.load.value, config, None, true)
      else if Fits(l, Answer(req, OK)) then (DoSend(l, u, Answer(req, OK)), Done)
      else (Dropped(u, req, NoRoomForOk), Broke(SendError(SendOutcome(l, Answer(req, OK)))))
  }

  /** Run a handler for a request and answer it with what came out. */
  function DoGuard(l: Limits, s: State, req: Req, h: Handler, args: Value, next: Option<Req>, load: bool): (r: (State, Exit))
    ensures |r.0.input| <= |s.input|
    decreases |s.input|, 5, 0
  {
    var (t, e) := DoHandle(l, s, h, args, next, []);
    if e.CutRun? then (t.(cut := t.cut + [req]), Cut) else DoAnswer(l, t, req, e, load)
  }

  /** What a handler does after the replies it has seen. */
  function Choice(h: Handler, args: Value, seen: seq<Reply>): Action {
    if |seen| < h.steps then h.decide(args, seen)
    else match h.last(args, seen) case Gives(v) => Return(v) case Fails(m) => Raise(m)
  }

  /** Let a handler act until it returns or raises. A failed wait is an exception in the handler,
      which it may catch; an unload or a closed wire is not. */
  function DoHandle(l: Limits, s: State, h: Handler, args: Value, next: Option<Req>, seen: seq<Reply>): (r: (State, Ending))
    ensures |r.0.input| <= |s.input|
    decreases |s.input|, 4, Max(h.steps - |seen|, 0)
  {
    var a := Choice(h, args, seen);
    match a
    case Return(v) => (s, Returned(v))
    case Raise(m) => (s, Raised(m))
    case _ =>
      var (t, w) := DoAct(l, s, a, next);
      if w.CutWait? then (t, CutRun) else DoHandle(l, t, h, args, next, seen + [AsReply(w)])
  }

  /** One thing a handler does: wait for another plugin, emit, or change what this one registers. */
  function DoAct(l: Limits, s: State, a: Action, next: Option<Req>): (r: (State, Wait))
    requires !a.Return? && !a.Raise?
    ensures |r.0.input| <= |s.input|
    decreases |s.input|, 3, 0
  {
    match a
    case DoCall(args) => DoAsk(l, s, false, args)
    case DoSvc(args) => DoAsk(l, s, true, args)
    case DoNext(args) =>
      if next.None? then (s, Threw("no next here"))
      else DoSendAndSettle(l, s, NextOut(next.value, args), ResultSlot(next.value))
    case DoEmit(args) => (DoSend(l, s, Emit(args)), EmitOutcome(SendOutcome(l, Emit(args))))
    case DoOn(handler) =>
      var id := s.counter + 1;
      var t := s.(counter := id, hooks := s.hooks[id := handler]);
      (DoRegister(l, t, On(id)), RegisterOutcome(l, t, On(id)))
    case DoOff(hook) =>
      var t := s.(hooks := s.hooks - {hook});
      (DoRegister(l, t, Off(hook)), RegisterOutcome(l, t, Off(hook)))
    case DoProvide(name, methods) =>
      var t := s.(services := s.services[name := methods]);
      (DoRegister(l, t, Provide(name)), RegisterOutcome(l, t, Provide(name)))
    case DoUnprovide(name) =>
      var t := s.(services := s.services - {name});
      (DoRegister(l, t, Unprovide(name)), RegisterOutcome(l, t, Unprovide(name)))
  }

  /** How sending something that waits for nothing looks to the handler. */
  function EmitOutcome(k: Sending): Wait {
    if k == Sent then Got(Ok(NULL)) else Threw(SendError(k))
  }

  function RegisterOutcome(l: Limits, s: State, row: Registration): Wait {
    if Registers(l, s, row) then Got(Ok(NULL)) else Threw(FRAME_TOO_LARGE)
  }

  /** `call` and `svc`: a new number, the request, and the wait for the reply carrying it. */
  function DoAsk(l: Limits, s: State, verb: bool, args: Value): (r: (State, Wait))
    ensures |r.0.input| <= |s.input|
    decreases |s.input|, 2, 1
  {
    var id := s.counter + 1;
    DoSendAndSettle(l, s.(counter := id), if verb then SvcOut(id, args) else CallOut(id, args), RepSlot(Some(id)))
  }

  function DoSendAndSettle(l: Limits, s: State, f: Out, slot: Slot): (r: (State, Wait))
    ensures |r.0.input| <= |s.input|
    decreases |s.input|, 2, 0
  {
    if !Fits(l, f) then (s, Threw(SendError(SendOutcome(l, f)))) else DoSettle(l, DoSend(l, s, f), slot)
  }

  /** Serve the wire until it closes, an unload comes, or an exception gets out. */
  function DoLoop(l: Limits, s: State): (State, Exit)
    decreases |s.input|
  {
    if s.input == [] then (s, Done)
    else
      var (t, x) := DoServe(l, s);
      if x == Done then DoLoop(l, t) else (t, x)
  }

  /** Announce oneself, then serve. */
  function DoRun(l: Limits, s: State): (State, Exit) {
    if Fits(l, Hello) then DoLoop(l, DoSend(l, s, Hello)) else (s, Broke(FRAME_TOO_LARGE))
  }
}
