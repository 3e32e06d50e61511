/**
 What a handler says on the wire, and what it registers: each thing it does has its frame sent before
 anything that is served while it waits, and a registration decides who runs from then on.
 */
module PluginWire {
  import opened Prelude
  import opened PluginSpec
  import opened PluginRuns

  /** The frame an action puts on the wire. */
  function Says(s: State, a: Action, next: Option<Req>): Option<Out> {
    match a
    case DoCall(args) => Some(CallOut(s.counter + 1, args))
    case DoSvc(args) => Some(SvcOut(s.counter + 1, args))
    case DoNext(args) => if next.Some? then Some(NextOut(next.value, args)) else None
    case DoEmit(args) => Some(Emit(args))
    case _ => if s.active && RowOf(s, a).Some? then Some(Register(RowOf(s, a).value)) else None
  }

  /** The registration it makes; a hook gets the next number. */
  function RowOf(s: State, a: Action): Option<Registration> {
    match a
    case DoOn(_) => Some(On(s.counter + 1))
    case DoOff(hook) => Some(Off(hook))
    case DoProvide(name, _) => Some(Provide(name))
    case DoUnprovide(name) => Some(Unprovide(name))
    case _ => None
  }

  /** It goes out first, before whatever is sent while serving, and a call's only once; if it does not fit,
      nothing goes out and the handler is told. */
  ghost predicate Said(l: Limits, s: State, t: State, r: Wait, says: Option<Out>) {
    match says
    case None => t.sent == s.sent
    case Some(f) =>
      && SentFirst(l, s, t, f)
      && (!Fits(l, f) ==> r == Threw(Refusal(l, f)))
      && (Number(f).Some? ==> forall i :: 0 <= i < |t.sent| && i != |s.sent| ==> Number(t.sent[i]) != Number(f))
  }

  /** Whatever a handler does is said at once. */
  lemma ActsAreSaid(l: Limits, s: State, a: Action, next: Option<Req>, w: multiset<int>)
    requires Inv(l, s, w) && !a.Return? && !a.Raise?
    ensures Said(l, s, DoAct(l, s, a, next).0, DoAct(l, s, a, next).1, Says(s, a, next))
  {
    hide Inv, Kept, Broken, Settled, DoAsk, DoSendAndSettle, Fits;
    match a
    case DoCall(args) => AskIsSaid(l, s, false, args, w);
    case DoSvc(args) => AskIsSaid(l, s, true, args, w);
    case DoNext(args) =>
      if next.Some? {
        NextIsUnnumbered(s, next.value, args);
        assert Kept(s, s, false) by { KeptSelf(s); }
        SendAndSettleKeeps(l, s, s, NextOut(next.value, args), ResultSlot(next.value), w);
      }
    case DoEmit(args) => PlainIsSent(l, s, Emit(args));
    case _ => RegistrationIsSaid(l, s, a, next);
  }

  lemma NextIsUnnumbered(s: State, req: Req, args: Value)
    ensures Unused(s.sent, s.counter, NextOut(req, args)) && Replies(NextOut(req, args)) == multiset{}
  {}

  lemma AskIsSaid(l: Limits, s: State, verb: bool, args: Value, w: multiset<int>)
    requires Inv(l, s, w)
    ensures Said(l, s, DoAsk(l, s, verb, args).0, DoAsk(l, s, verb, args).1, Some(AskFrame(s.counter + 1, verb, args)))
  {
    hide Inv, Kept, Broken, Settled, DoAsk, Fits;
    AskKeeps(l, s, verb, args, w);
    var (t, r) := DoAsk(l, s, verb, args);
    var f := AskFrame(s.counter + 1, verb, args);
    NumbersOf(l, s, w);
    NumbersOf(l, t, w);
    if Fits(l, f) {
      assert t.sent[|s.sent|] == f by { assert (s.sent + [f])[|s.sent|] == f; }
    }
  }

  lemma NumbersOf(l: Limits, s: State, w: multiset<int>)
    requires Inv(l, s, w)
    ensures Numbered(s.sent, s.counter)
  {}

  lemma PlainIsSent(l: Limits, s: State, f: Out)
    ensures SentFirst(l, s, DoSend(l, s, f), f) && (SendOutcome(l, f) == Sent <==> Fits(l, f))
  {}

  lemma RegistrationIsSaid(l: Limits, s: State, a: Action, next: Option<Req>)
    requires a.DoOn? || a.DoOff? || a.DoProvide? || a.DoUnprovide?
    ensures Said(l, s, DoAct(l, s, a, next).0, DoAct(l, s, a, next).1, Says(s, a, next))
  {}

  // ---------------------------------------------------------------- whom a frame runs

  /** The handler a frame runs, answered or not, with its arguments and what `next` would pass on. */
  function RunBy(s: State, f: In): Option<(Handler, Value, Option<Req>)> {
    match f
    case Hook(hook, calls, req, args) =>
      if hook in s.hooks then Some((s.hooks[hook], args, if calls then Some(req) else None)) else None
    case Svc(_, name, verb, args) =>
      if name in s.services && verb in s.services[name] then Some((s.services[name][verb], args, None)) else None
    case _ => None
  }

  /** What a handler says first is on the wire first, whether or not it ends well. */
  lemma HandlersSay(l: Limits, s: State, h: Handler, args: Value, next: Option<Req>, w: multiset<int>)
    requires Inv(l, s, w)
    ensures var t := DoHandle(l, s, h, args, next, []).0; var a := Choice(h, args, []);
      if a.Return? || a.Raise? then t == s else Says(s, a, next).Some? ==> SaidFirst(l, s, t, Says(s, a, next).value)
  {
    hide Inv, Kept, DoAct, Said, Says, Fits;
    var a := Choice(h, args, []);
    if !a.Return? && !a.Raise? {
      ActsAreSaid(l, s, a, next, w);
      ActKeeps(l, s, a, next, w);
      var (u, r) := DoAct(l, s, a, next);
      SaidSome(l, s, u, r, Says(s, a, next));
      if !r.CutWait? {
        HandleKeeps(l, u, h, args, next, [] + [AsReply(r)], w);
        KeptFresh(u, DoHandle(l, s, h, args, next, []).0, DoHandle(l, s, h, args, next, []).1.CutRun?);
      }
    }
  }

  /** What a handler sees of its last action is the reply it got or the exception it met, and it goes on from
      there. */
  lemma HandlersSee(l: Limits, s: State, h: Handler, args: Value, next: Option<Req>, seen: seq<Reply>)
    requires !Choice(h, args, seen).Return? && !Choice(h, args, seen).Raise?
    ensures match DoAct(l, s, Choice(h, args, seen), next)
      case (t, CutWait) => DoHandle(l, s, h, args, next, seen) == (t, CutRun)
      case (t, Got(reply)) => DoHandle(l, s, h, args, next, seen) == DoHandle(l, t, h, args, next, seen + [reply])
      case (t, Threw(reason)) => DoHandle(l, s, h, args, next, seen) == DoHandle(l, t, h, args, next, seen + [Err(reason)])
  {
    hide DoAct;
  }

  ghost predicate SaidFirst(l: Limits, s: State, t: State, f: Out) {
    Fits(l, f) ==> s.sent + [f] <= t.sent
  }

  lemma SaidSome(l: Limits, s: State, t: State, r: Wait, says: Option<Out>)
    requires Said(l, s, t, r, says)
    ensures says.Some? ==> SaidFirst(l, s, t, says.value)
  {}

  /** A call, an emit or a service request for something registered runs that handler: what it does first
      is the first thing on the wire. */
  lemma FramesRunTheirHandler(l: Limits, s: State, f: In, w: multiset<int>)
    requires RunBy(s, f).Some? && Inv(l, s, w)
    ensures var (h, args, next) := RunBy(s, f).value; var a := Choice(h, args, []);
      Says(s, a, next).Some? ==> SaidFirst(l, s, DoDispatch(l, s, f).0, Says(s, a, next).value)
  {
    hide Inv, Kept, DoHandle, DoAnswer, DoLoad, DoFail, Says, Fits, Choice;
    var (h, args, next) := RunBy(s, f).value;
    HandlersSay(l, s, h, args, next, w);
    NothingToSay(s, Choice(h, args, []), next);
    var (t, e) := DoHandle(l, s, h, args, next, []);
    if !e.CutRun? && !(f.Hook? && !f.calls) { AnswersAdd(l, t, f.req, e, false); }
  }

  lemma NothingToSay(s: State, a: Action, next: Option<Req>)
    ensures a.Return? || a.Raise? ==> Says(s, a, next) == None
  {}

  lemma AnswersAdd(l: Limits, s: State, req: Req, e: Ending, load: bool)
    requires !e.CutRun?
    ensures s.sent <= DoAnswer(l, s, req, e, load).0.sent
  {
    hide Fits;
  }

  /** An emit's handler may fail as it likes: only the end of the wire gets past it. */
  lemma EmitsSwallow(l: Limits, s: State, hook: int, req: Req, args: Value)
    ensures var (t, x) := DoDispatch(l, s, Hook(hook, false, req, args));
      if hook !in s.hooks then t == s && x == Done
      else (x == Cut <==> DoHandle(l, s, s.hooks[hook], args, None, []).1.CutRun?) && (x == Cut || x == Done)
           && t == DoHandle(l, s, s.hooks[hook], args, None, []).0
  {}

  // ---------------------------------------------------------------- registrations

  /** What is registered decides who runs: from then on a new hook or service runs its handler, one that is
      taken back runs nothing, and all others are as before. Before the load it is held back to be sent. */
  lemma RegistrationsTakeEffect(l: Limits, s: State, a: Action, next: Option<Req>, f: In)
    requires !a.Return? && !a.Raise? && !a.DoCall? && !a.DoSvc? && !a.DoNext?
    ensures var t := DoAct(l, s, a, next).0;
      RunBy(t, f) == match (a, f)
        case (DoOn(h), Hook(hook, calls, req, args)) =>
          if hook == s.counter + 1 then Some((h, args, if calls then Some(req) else None)) else RunBy(s, f)
        case (DoOff(off), Hook(hook, _, _, _)) => if hook == off then None else RunBy(s, f)
        case (DoProvide(name, methods), Svc(_, asked, verb, args)) =>
          if asked != name then RunBy(s, f) else if verb in methods then Some((methods[verb], args, None)) else None
        case (DoUnprovide(name), Svc(_, asked, _, _)) => if asked == name then None else RunBy(s, f)
        case _ => RunBy(s, f)
    ensures DoAct(l, s, a, next).0.deferred == s.deferred + if s.active || RowOf(s, a).None? then [] else [RowOf(s, a).value]
  {
    hide Fits;
  }
}
