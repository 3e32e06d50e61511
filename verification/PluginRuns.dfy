/**
 What holds of the re-entrant loop over every wire and every nesting of handlers: each request read is
 answered once, cut off by an unload or the end of the wire, or left by an exception with a true cause;
 and a wait that returns, returns the payload sent for it.
 */
module PluginRuns {
  import opened Prelude
  import opened PluginSpec

  // ---------------------------------------------------------------- accounts

  function One(req: Req): multiset<int> {
    if req.Some? then multiset{req.value} else multiset{}
  }

  /** The request a frame makes: a hook call, a service call or a load that carries a number, whether or
      not what it names can be looked up. */
  function Asks(f: In): multiset<int> {
    match f
    case Hook(_, calls, req, _) => if calls then One(req) else multiset{}
    case Svc(req, _, _, _) => One(req)
    case Load(req, _) => One(req)
    case Odd(req, _, _) => One(req)
    case _ => multiset{}
  }

  function Replies(f: Out): multiset<int> {
    match f
    case Answer(req, _) => One(req)
    case Refuse(req, _) => One(req)
    case _ => multiset{}
  }

  function Requested(fs: seq<In>): multiset<int>
    decreases |fs|
  {
    if fs == [] then multiset{} else Requested(fs[..|fs| - 1]) + Asks(fs[|fs| - 1])
  }

  function Answered(fs: seq<Out>): multiset<int>
    decreases |fs|
  {
    if fs == [] then multiset{} else Answered(fs[..|fs| - 1]) + Replies(fs[|fs| - 1])
  }

  function CutOff(rs: seq<Req>): multiset<int>
    decreases |rs|
  {
    if rs == [] then multiset{} else CutOff(rs[..|rs| - 1]) + One(rs[|rs| - 1])
  }

  function Left(ds: seq<Drop>): multiset<int>
    decreases |ds|
  {
    if ds == [] then multiset{} else Left(ds[..|ds| - 1]) + One(ds[|ds| - 1].req)
  }

  /** Every request read is answered, cut off, left, or among those being handled, exactly once. */
  ghost predicate Balanced(s: State, working: multiset<int>) {
    Answered(s.sent) + CutOff(s.cut) + Left(s.dropped) + working == Requested(s.read)
  }

  // ---------------------------------------------------------------- replies

  predicate Settles(f: In, slot: Slot) {
    (f.Rep? && slot == RepSlot(f.id)) || (f.Result? && slot == ResultSlot(f.req))
  }

  function Carried(f: In): Reply
    requires f.Rep? || f.Result?
  {
    if f.Rep? then f.reply else Ok(f.value)
  }

  /** The payload of the last frame settling the slot. */
  function Settled(fs: seq<In>, slot: Slot): Option<Reply>
    decreases |fs|
  {
    if fs == [] then None
    else if Settles(fs[|fs| - 1], slot) then Some(Carried(fs[|fs| - 1]))
    else Settled(fs[..|fs| - 1], slot)
  }

  /** A filled slot holds the last payload sent for it; a reply that was read, by whichever level, stays
      until the wait for its number takes it. */
  ghost predicate Delivered(s: State) {
    && (forall slot :: slot in s.replies ==> Settled(s.read, slot) == Some(s.replies[slot]))
    && (forall id :: id !in s.taken && Settled(s.read, RepSlot(Some(id))).Some? ==> RepSlot(Some(id)) in s.replies)
    && (forall id :: id in s.taken ==> id <= s.counter)
  }

  // ---------------------------------------------------------------- causes

  /** The cause recorded for a request left unanswered is the truth. */
  predicate TrueCause(l: Limits, d: Drop) {
    match d.cause
    case ResultNotJson(v) => !l.json(v)
    case NoRoom(full) => d.req.Some? && Replies(full) == One(d.req) && !Fits(l, full) && !Fits(l, Refuse(d.req, FRAME_TOO_LARGE))
    case HeldBack(row) => !Fits(l, Register(row))
    case NoRoomForOk => !Fits(l, Answer(d.req, OK))
    case Unhashable(f) => f.Odd? && f.req == d.req
  }

  /** The frame to blame was read. */
  predicate WasRead(s: State, d: Drop) {
    d.cause.Unhashable? ==> d.cause.frame in s.read
  }

  ghost predicate Caused(l: Limits, s: State) {
    forall d :: d in s.dropped ==> TrueCause(l, d) && WasRead(s, d)
  }

  // ---------------------------------------------------------------- numbers

  /** The number a frame asks under, to be answered by a rep. */
  function Number(f: Out): Option<int> {
    match f
    case CallOut(id, _) => Some(id)
    case SvcOut(id, _) => Some(id)
    case _ => None
  }

  /** Every number is sent once, in order, and none is beyond the counter. */
  ghost predicate Numbered(fs: seq<Out>, counter: int) {
    && (forall i :: 0 <= i < |fs| && Number(fs[i]).Some? ==> Number(fs[i]).value <= counter)
    && (forall i, j :: 0 <= i < j < |fs| && Number(fs[i]).Some? && Number(fs[j]).Some? ==> Number(fs[i]).value < Number(fs[j]).value)
  }

  /** The frame carries no number, or one that is drawn and not yet sent. */
  ghost predicate Unused(fs: seq<Out>, counter: int, f: Out) {
    Number(f).Some? ==> Number(f).value == counter && Numbered(fs, counter - 1)
  }

  lemma NumberedMore(fs: seq<Out>, counter: int, f: Out)
    requires Numbered(fs, counter) && Unused(fs, counter, f)
    ensures Numbered(fs + [f], counter)
  {
    var more := fs + [f];
    forall i | 0 <= i < |more| && Number(more[i]).Some? ensures Number(more[i]).value <= counter {
      assert i < |fs| ==> more[i] == fs[i];
    }
    forall i, j | 0 <= i < j < |more| && Number(more[i]).Some? && Number(more[j]).Some?
      ensures Number(more[i]).value < Number(more[j]).value
    {
      assert more[i] == fs[i];
      if j < |fs| { assert more[j] == fs[j]; }
    }
  }

  lemma NumberedLater(fs: seq<Out>, counter: int, later: int)
    requires Numbered(fs, counter) && counter <= later
    ensures Numbered(fs, later)
  {}

  ghost predicate Inv(l: Limits, s: State, working: multiset<int>) {
    Balanced(s, working) && Delivered(s) && Caused(l, s) && Numbered(s.sent, s.counter)
  }

  // ---------------------------------------------------------------- what a stretch of serving keeps

  predicate LastRead(s: State, f: In) {
    s.read != [] && s.read[|s.read| - 1] == f
  }

  /** The wire has ended or said unload. */
  predicate Over(s: State) {
    s.input == [] || LastRead(s, Unload)
  }

  /** The wire is read in order, nothing is taken back, only replies of new numbers are picked up; and
      requests are cut off only when the wire is over. */
  ghost predicate Kept(a: State, b: State, wasCut: bool) {
    && a.read <= b.read && a.read + a.input == b.read + b.input
    && a.sent <= b.sent && a.counter <= b.counter && a.dropped <= b.dropped
    && a.taken <= b.taken && (forall id :: id in b.taken && id !in a.taken ==> a.counter < id)
    && (if wasCut then a.cut <= b.cut && Over(b) else b.cut == a.cut && (Unload in b.read ==> Unload in a.read))
  }

  /** What an exception leaving a dispatch comes from: a request just left, or a frame that is not JSON. */
  predicate Broken(a: State, b: State) {
    |b.dropped| > |a.dropped| || LastRead(b, Garbage)
  }

  lemma KeptSelf(s: State)
    ensures Kept(s, s, false)
  {}

  lemma KeptTrans(a: State, b: State, c: State, wasCut: bool)
    requires Kept(a, b, false) && Kept(b, c, wasCut)
    ensures Kept(a, c, wasCut)
    ensures Broken(b, c) ==> Broken(a, c)
  {}

  lemma KeptFresh(a: State, b: State, wasCut: bool)
    requires Kept(a, b, wasCut)
    ensures a.counter <= b.counter && a.sent <= b.sent
  {}

  lemma AnsweredMore(fs: seq<Out>, f: Out)
    ensures Answered(fs + [f]) == Answered(fs) + Replies(f)
  {
    assert (fs + [f])[..|fs|] == fs;
  }

  lemma RequestedMore(fs: seq<In>, f: In)
    ensures Requested(fs + [f]) == Requested(fs) + Asks(f)
  {
    assert (fs + [f])[..|fs|] == fs;
  }

  lemma SettledMore(fs: seq<In>, f: In, slot: Slot)
    ensures Settled(fs + [f], slot) == if Settles(f, slot) then Some(Carried(f)) else Settled(fs, slot)
  {
    assert (fs + [f])[..|fs|] == fs;
  }

  lemma CutMore(rs: seq<Req>, r: Req)
    ensures CutOff(rs + [r]) == CutOff(rs) + One(r)
  {
    assert (rs + [r])[..|rs|] == rs;
  }

  lemma LeftMore(ds: seq<Drop>, d: Drop)
    ensures Left(ds + [d]) == Left(ds) + One(d.req)
  {
    assert (ds + [d])[..|ds|] == ds;
  }

  lemma SendingKeeps(l: Limits, s: State, f: Out)
    requires Delivered(s) && Caused(l, s)
    ensures Delivered(DoSend(l, s, f)) && Caused(l, DoSend(l, s, f)) && Kept(s, DoSend(l, s, f), false)
  {
    hide Fits, TrueCause, Settled;
  }

  /** A frame that answers nothing. */
  lemma SendKeeps(l: Limits, s: State, f: Out, w: multiset<int>)
    requires Inv(l, s, w) && Replies(f) == multiset{} && Unused(s.sent, s.counter, f)
    ensures Inv(l, DoSend(l, s, f), w) && Kept(s, DoSend(l, s, f), false)
  {
    hide Delivered, Caused, Kept, Fits, Numbered, Unused;
    AnsweredMore(s.sent, f);
    NumberedMore(s.sent, s.counter, f);
    SendingKeeps(l, s, f);
  }

  lemma AnswersCarryNone(f: Out)
    requires f.Answer? || f.Refuse?
    ensures Number(f) == None
  {}

  lemma AnswerKeeps(l: Limits, s: State, f: Out, req: Req, w: multiset<int>)
    requires Inv(l, s, w + One(req)) && Replies(f) == One(req) && (f.Answer? || f.Refuse?) && Fits(l, f)
    ensures Inv(l, DoSend(l, s, f), w) && Kept(s, DoSend(l, s, f), false)
  {
    hide Delivered, Caused, Kept, Numbered;
    AnsweredMore(s.sent, f);
    AnswersCarryNone(f);
    NumberedMore(s.sent, s.counter, f) by { assert Unused(s.sent, s.counter, f); }
    SendingKeeps(l, s, f);
  }

  lemma DropKeeps(l: Limits, s: State, req: Req, cause: Cause, w: multiset<int>)
    requires Inv(l, s, w + One(req)) && TrueCause(l, Drop(req, cause)) && WasRead(s, Drop(req, cause))
    ensures Inv(l, Dropped(s, req, cause), w) && Kept(s, Dropped(s, req, cause), false) && Broken(s, Dropped(s, req, cause))
  {
    hide TrueCause, Settled, Requested, Answered, CutOff, Numbered;
    LeftMore(s.dropped, Drop(req, cause));
  }

  lemma CutKeeps(l: Limits, a: State, s: State, req: Req, w: multiset<int>)
    requires Inv(l, s, w + One(req)) && Kept(a, s, true)
    ensures Inv(l, s.(cut := s.cut + [req]), w) && Kept(a, s.(cut := s.cut + [req]), true)
  {
    CutMore(s.cut, req);
  }

  /** Changes to what the plugin has registered. */
  lemma FieldsKeep(l: Limits, s: State, t: State, w: multiset<int>)
    requires Inv(l, s, w) && s.counter <= t.counter
    requires t == s.(hooks := t.hooks, services := t.services, deferred := t.deferred, load := t.load,
                     active := t.active, counter := t.counter)
    ensures Inv(l, t, w) && Kept(s, t, false)
  {
    hide Numbered;
    NumberedLater(s.sent, s.counter, t.counter);
  }

  lemma ReadInOrder(s: State)
    requires s.input != []
    ensures s.read + s.input == Read(s).read + Read(s).input
  {}

  lemma ReadKept(s: State)
    requires s.input != []
    ensures Kept(s, Read(s), s.input[0].Unload?) && LastRead(Read(s), s.input[0])
  {
    ReadInOrder(s);
  }

  lemma ReadSettles(s: State, slot: Slot)
    requires s.input != []
    ensures Settled(Read(s).read, slot) == if Settles(s.input[0], slot) then Some(Carried(s.input[0])) else Settled(s.read, slot)
  {
    SettledMore(s.read, s.input[0], slot);
  }

  lemma ReadDelivers(s: State)
    requires Delivered(s) && s.input != [] && !s.input[0].Rep? && !s.input[0].Result?
    ensures Delivered(Read(s))
  {
    hide Settled;
    forall slot ensures Settled(Read(s).read, slot) == Settled(s.read, slot) { ReadSettles(s, slot); }
  }

  lemma ReplyDelivers(s: State, slot: Slot)
    requires Delivered(s) && s.input != [] && Settles(s.input[0], slot)
    ensures Delivered(Stored(Read(s), slot, Carried(s.input[0])))
  {
    hide Settled, Carried;
    forall other ensures Settled(Read(s).read, other) == if other == slot then Some(Carried(s.input[0])) else Settled(s.read, other) {
      ReadSettles(s, other);
    }
  }

  /** A frame other than a reply: its request is now being handled. */
  lemma ReadKeeps(l: Limits, s: State, w: multiset<int>)
    requires Inv(l, s, w) && s.input != [] && !s.input[0].Rep? && !s.input[0].Result?
    ensures Inv(l, Read(s), w + Asks(s.input[0])) && Kept(s, Read(s), s.input[0].Unload?) && LastRead(Read(s), s.input[0])
  {
    hide Delivered, Kept;
    RequestedMore(s.read, s.input[0]);
    ReadKept(s);
    ReadDelivers(s);
  }

  /** A reply frame fills its slot. */
  lemma ReplyKeeps(l: Limits, s: State, slot: Slot, w: multiset<int>)
    requires Inv(l, s, w) && s.input != [] && Settles(s.input[0], slot)
    ensures Inv(l, Stored(Read(s), slot, Carried(s.input[0])), w) && Kept(s, Stored(Read(s), slot, Carried(s.input[0])), false)
  {
    hide Delivered, Carried, Balanced, Kept;
    ReplyBalances(s, slot, w);
    StoredKept(s, slot);
    ReplyDelivers(s, slot);
  }

  lemma ReplyBalances(s: State, slot: Slot, w: multiset<int>)
    requires Balanced(s, w) && s.input != [] && Settles(s.input[0], slot)
    ensures Balanced(Stored(Read(s), slot, Carried(s.input[0])), w)
  {
    RequestedMore(s.read, s.input[0]);
  }

  lemma StoredKept(s: State, slot: Slot)
    requires s.input != [] && Settles(s.input[0], slot)
    ensures Kept(s, Stored(Read(s), slot, Carried(s.input[0])), false)
  {
    hide Carried;
    ReadInOrder(s);
  }

  /** `a` is the state the wait was made for: its number is newer than anything picked up before. */
  lemma PickUpKeeps(l: Limits, a: State, s: State, slot: Slot, w: multiset<int>)
    requires Inv(l, s, w) && Kept(a, s, false) && slot in s.replies
    requires slot.RepSlot? ==> slot.id.Some? && a.counter < slot.id.value <= s.counter
    ensures Inv(l, PickedUp(s, slot), w) && Kept(a, PickedUp(s, slot), false)
    ensures Settled(PickedUp(s, slot).read, slot) == Some(s.replies[slot])
  {
    hide Balanced, Caused, Settled, Kept;
    PickedUpKept(l, a, s, slot, w);
  }

  lemma PickedUpKept(l: Limits, a: State, s: State, slot: Slot, w: multiset<int>)
    requires Balanced(s, w) && Caused(l, s) && Kept(a, s, false) && slot in s.replies
    requires slot.RepSlot? ==> slot.id.Some? && a.counter < slot.id.value <= s.counter
    ensures Balanced(PickedUp(s, slot), w) && Caused(l, PickedUp(s, slot)) && Kept(a, PickedUp(s, slot), false)
  {
    hide Answered, CutOff, Left, Requested, TrueCause;
  }

  // ---------------------------------------------------------------- sending and failing

  lemma FailKeeps(l: Limits, s: State, req: Req, reason: string, full: Out, w: multiset<int>)
    requires Inv(l, s, w + One(req)) && Replies(full) == One(req)
    requires !Fits(l, Refuse(req, reason)) ==> !Fits(l, full) || Fits(l, Refuse(req, FRAME_TOO_LARGE))
    ensures var (t, x) := DoFail(l, s, req, reason, full);
      Inv(l, t, w) && Kept(s, t, false) && x != Cut && (x.Broke? ==> Broken(s, t))
  {
    hide Inv, Kept, Fits;
    KeptSelf(s);
    if req.None? {
      assert w + One(req) == w;
    } else if Fits(l, Refuse(req, reason)) {
      AnswerKeeps(l, s, Refuse(req, reason), req, w);
    } else if Fits(l, Refuse(req, FRAME_TOO_LARGE)) {
      AnswerKeeps(l, s, Refuse(req, FRAME_TOO_LARGE), req, w);
    } else {
      DropKeeps(l, s, req, NoRoom(full), w);
    }
  }

  lemma RefuseKeeps(l: Limits, s: State, req: Req, reason: string, w: multiset<int>)
    requires Inv(l, s, w + One(req))
    ensures var (t, x) := DoFail(l, s, req, reason, Refuse(req, reason));
      Inv(l, t, w) && Kept(s, t, false) && x != Cut && (x.Broke? ==> Broken(s, t))
  {
    hide Inv, Kept, DoFail, Fits, Broken;
    FailKeeps(l, s, req, reason, Refuse(req, reason), w);
  }

  lemma AnswerFinishedKeeps(l: Limits, s: State, req: Req, e: Ending, load: bool, w: multiset<int>)
    requires Inv(l, s, w + One(req)) && !e.CutRun?
    ensures var (t, x) := DoAnswer(l, s, req, e, load);
      Inv(l, t, w) && Kept(s, t, false) && x != Cut && (x.Broke? ==> Broken(s, t))
  {
    hide Inv, Kept, DoFail, OrOk;
    if e.Raised? {
      RefuseKeeps(l, s, req, e.reason, w);
    } else {
      var v := if load then OrOk(e.value) else e.value;
      match SendOutcome(l, Answer(req, v))
      case Sent => AnswerKeeps(l, s, Answer(req, v), req, w);
      case TooLarge => FailKeeps(l, s, req, FRAME_TOO_LARGE, Answer(req, v), w);
      case NotJson => DropKeeps(l, s, req, ResultNotJson(v), w);
    }
  }

  lemma {:induction false} AnnounceKeeps(l: Limits, s: State, rows: seq<Registration>, w: multiset<int>)
    requires Inv(l, s, w)
    ensures var (t, stuck) := DoAnnounce(l, s, rows);
      Inv(l, t, w) && Kept(s, t, false) && (stuck.Some? ==> !Fits(l, Register(stuck.value)))
    decreases |rows|
  {
    hide Inv, Kept, Fits;
    KeptSelf(s);
    if rows != [] && Fits(l, Register(rows[0])) {
      var u := DoSend(l, s, Register(rows[0]));
      SendKeeps(l, s, Register(rows[0]), w);
      AnnounceKeeps(l, u, rows[1..], w);
      KeptTrans(s, u, DoAnnounce(l, s, rows).0, false);
    }
  }

  lemma RegisterKeeps(l: Limits, s: State, row: Registration, w: multiset<int>)
    requires Inv(l, s, w)
    ensures Inv(l, DoRegister(l, s, row), w) && Kept(s, DoRegister(l, s, row), false)
  {
    hide Inv, Kept;
    if s.active { SendKeeps(l, s, Register(row), w); } else { FieldsKeep(l, s, DoRegister(l, s, row), w); }
  }

  // ---------------------------------------------------------------- the loop

  lemma {:induction false} SettleKeeps(l: Limits, a: State, s: State, slot: Slot, w: multiset<int>)
    requires Inv(l, s, w) && Kept(a, s, false)
    requires slot.RepSlot? ==> slot.id.Some? && a.counter < slot.id.value <= s.counter
    ensures var (t, r) := DoSettle(l, s, slot);
      Inv(l, t, w) && Kept(a, t, r.CutWait?) && (r.Threw? ==> Broken(a, t)) && s.sent <= t.sent
      && (r.Got? ==> Settled(t.read, slot) == Some(r.reply) && slot !in t.replies)
    decreases |s.input|, 1, 0
  {
    hide Inv, Kept, Broken, Settled, DoServe;
    if slot in s.replies {
      PickUpKeeps(l, a, s, slot, w);
    } else if s.input == [] {
      EndsHere(a, s);
    } else {
      ServeKeeps(l, s, w);
      var (u, x) := DoServe(l, s);
      KeptTrans(a, s, u, x.Cut?);
      KeptFresh(s, u, x.Cut?);
      if x.Done? { SettleKeeps(l, a, u, slot, w); }
    }
  }

  lemma EndsHere(a: State, s: State)
    requires Kept(a, s, false) && s.input == []
    ensures Kept(a, s, true)
  {}

  lemma {:induction false} ServeKeeps(l: Limits, s: State, w: multiset<int>)
    requires Inv(l, s, w) && s.input != []
    ensures var (t, x) := DoServe(l, s); Inv(l, t, w) && Kept(s, t, x.Cut?) && (x.Broke? ==> Broken(s, t))
    decreases |s.input|, 0, 0
  {
    hide Inv, Kept, Broken, DoHandle, DoGuard, DoLoad, DoFail;
    var f := s.input[0];
    match f
    case Rep(id, reply) => ReplyKeeps(l, s, RepSlot(id), w);
    case Result(req, value) => ReplyKeeps(l, s, ResultSlot(req), w);
    case Unload =>
      ReadKeeps(l, s, w);
      assert w + Asks(f) == w;
    case _ =>
      ReadKeeps(l, s, w);
      DispatchKeeps(l, Read(s), f, w);
      KeptTrans(s, Read(s), DoDispatch(l, Read(s), f).0, DoDispatch(l, Read(s), f).1.Cut?);
  }

  lemma {:induction false} DispatchKeeps(l: Limits, s: State, f: In, w: multiset<int>)
    requires Inv(l, s, w + Asks(f)) && LastRead(s, f) && !f.Rep? && !f.Result? && !f.Unload?
    ensures var (t, x) := DoDispatch(l, s, f); Inv(l, t, w) && Kept(s, t, x.Cut?) && (x.Broke? ==> Broken(s, t))
    decreases |s.input|, 7, 0
  {
    hide Inv, Kept, Broken, DoHandle, DoGuard, DoLoad, DoFail, LastRead, Fits, TrueCause, One;
    KeptSelf(s);
    match f
    case Hook(hook, false, req, args) =>
      assert w + Asks(f) == w;
      if hook in s.hooks { HandleKeeps(l, s, s.hooks[hook], args, None, [], w); }
    case Hook(hook, true, req, args) =>
      if hook !in s.hooks { RefuseKeeps(l, s, req, "unknown hook", w); }
      else { GuardKeeps(l, s, req, s.hooks[hook], args, Some(req), false, w); }
    case Svc(req, name, verb, args) =>
      if name !in s.services || verb !in s.services[name] {
        RefuseKeeps(l, s, req, "unknown method " + verb, w);
      } else {
        GuardKeeps(l, s, req, s.services[name][verb], args, None, false, w);
      }
    case Load(req, config) => LoadKeeps(l, s, req, config, w);
    case Unknown => assert w + Asks(f) == w;
    case Odd(req, service, verb) =>
      if NoMethods(s, service) {
        RefuseKeeps(l, s, req, "unknown method " + verb, w);
      } else {
        OddKeeps(l, s, f, w);
      }
    case Garbage =>
      assert w + Asks(f) == w;
      GarbageBreaks(s);
  }

  lemma OddKeeps(l: Limits, s: State, f: In, w: multiset<int>)
    requires f.Odd? && LastRead(s, f) && Inv(l, s, w + One(f.req))
    ensures var t := Dropped(s, f.req, Unhashable(f)); Inv(l, t, w) && Kept(s, t, false) && Broken(s, t)
  {
    hide Inv;
    DropKeeps(l, s, f.req, Unhashable(f), w);
  }

  lemma GarbageBreaks(s: State)
    requires LastRead(s, Garbage)
    ensures Broken(s, s)
  {}

  lemma {:induction false} LoadKeeps(l: Limits, s: State, req: Req, config: Value, w: multiset<int>)
    requires Inv(l, s, w + One(req))
    ensures var (t, x) := DoLoad(l, s, req, config); Inv(l, t, w) && Kept(s, t, x.Cut?) && (x.Broke? ==> Broken(s, t))
    decreases |s.input|, 6, 0
  {
    hide Inv, Kept, Broken, DoGuard, DoAnnounce, Fits;
    var s1 := s.(active := true);
    FieldsKeep(l, s, s1, w + One(req));
    AnnounceKeeps(l, s1, s.deferred, w + One(req));
    var (t, stuck) := DoAnnounce(l, s1, s.deferred);
    KeptTrans(s, s1, t, false);
    if stuck.Some? {
      DropKeeps(l, t, req, HeldBack(stuck.value), w);
      KeptTrans(s, t, DoLoad(l, s, req, config).0, false);
    } else {
      var u := t.(deferred := []);
      FieldsKeep(l, t, u, w + One(req));
      KeptTrans(s, t, u, false);
      if u.load.Some? { GuardKeeps(l, u, req, u.load.value, config, None, true, w); }
      else if Fits(l, Answer(req, OK)) { AnswerKeeps(l, u, Answer(req, OK), req, w); }
      else { DropKeeps(l, u, req, NoRoomForOk, w); }
      KeptTrans(s, u, DoLoad(l, s, req, config).0, DoLoad(l, s, req, config).1.Cut?);
    }
  }

  lemma {:induction false} GuardKeeps(l: Limits, s: State, req: Req, h: Handler, args: Value, next: Option<Req>, load: bool, w: multiset<int>)
    requires Inv(l, s, w + One(req))
    ensures var (t, x) := DoGuard(l, s, req, h, args, next, load); Inv(l, t, w) && Kept(s, t, x.Cut?) && (x.Broke? ==> Broken(s, t))
    decreases |s.input|, 5, 0
  {
    hide Inv, Kept, Broken, DoHandle, DoAnswer;
    HandleKeeps(l, s, h, args, next, [], w + One(req));
    var (t, e) := DoHandle(l, s, h, args, next, []);
    if e.CutRun? {
      CutKeeps(l, s, t, req, w);
    } else {
      AnswerFinishedKeeps(l, t, req, e, load, w);
      KeptTrans(s, t, DoAnswer(l, t, req, e, load).0, false);
    }
  }

  lemma {:induction false} HandleKeeps(l: Limits, s: State, h: Handler, args: Value, next: Option<Req>, seen: seq<Reply>, w: multiset<int>)
    requires Inv(l, s, w)
    ensures var (t, e) := DoHandle(l, s, h, args, next, seen); Inv(l, t, w) && Kept(s, t, e.CutRun?)
    decreases |s.input|, 4, Max(h.steps - |seen|, 0)
  {
    hide Inv, Kept, Broken, DoAct;
    KeptSelf(s);
    var a := Choice(h, args, seen);
    if !a.Return? && !a.Raise? {
      ActKeeps(l, s, a, next, w);
      var (t, r) := DoAct(l, s, a, next);
      if !r.CutWait? {
        HandleKeeps(l, t, h, args, next, seen + [AsReply(r)], w);
        KeptTrans(s, t, DoHandle(l, s, h, args, next, seen).0, DoHandle(l, s, h, args, next, seen).1.CutRun?);
      }
    }
  }

  lemma {:induction false} ActKeeps(l: Limits, s: State, a: Action, next: Option<Req>, w: multiset<int>)
    requires Inv(l, s, w) && !a.Return? && !a.Raise?
    ensures var (t, r) := DoAct(l, s, a, next); Inv(l, t, w) && Kept(s, t, r.CutWait?)
    decreases |s.input|, 3, 0
  {
    hide Inv, Kept, Broken, Settled, DoAsk, DoSendAndSettle, DoSend, DoRegister;
    KeptSelf(s);
    match a
    case DoCall(args) => AskKeeps(l, s, false, args, w);
    case DoSvc(args) => AskKeeps(l, s, true, args, w);
    case DoNext(args) =>
      if next.Some? { SendAndSettleKeeps(l, s, s, NextOut(next.value, args), ResultSlot(next.value), w); }
    case DoEmit(args) => SendKeeps(l, s, Emit(args), w);
    case DoOn(handler) =>
      ChangedKeeps(l, s, s.(counter := s.counter + 1, hooks := s.hooks[s.counter + 1 := handler]), On(s.counter + 1), w);
    case DoOff(hook) => ChangedKeeps(l, s, s.(hooks := s.hooks - {hook}), Off(hook), w);
    case DoProvide(name, methods) => ChangedKeeps(l, s, s.(services := s.services[name := methods]), Provide(name), w);
    case DoUnprovide(name) => ChangedKeeps(l, s, s.(services := s.services - {name}), Unprovide(name), w);
  }

  lemma ChangedKeeps(l: Limits, s: State, t: State, row: Registration, w: multiset<int>)
    requires Inv(l, s, w) && s.counter <= t.counter
    requires t == s.(hooks := t.hooks, services := t.services, counter := t.counter)
    ensures Inv(l, DoRegister(l, t, row), w) && Kept(s, DoRegister(l, t, row), false)
  {
    hide Inv, Kept;
    FieldsKeep(l, s, t, w);
    RegisterKeeps(l, t, row, w);
    KeptTrans(s, t, DoRegister(l, t, row), false);
  }

  /** `call` and `svc` return the payload of a reply frame with their own number, whichever level read
      it; they give up only when the wire is over, and throw only when their frame does not go out or an
      exception left a dispatch meanwhile. */
  lemma {:induction false} AskKeeps(l: Limits, s: State, verb: bool, args: Value, w: multiset<int>)
    requires Inv(l, s, w)
    ensures var (t, r) := DoAsk(l, s, verb, args);
      Inv(l, t, w) && Kept(s, t, r.CutWait?)
      && (r.Got? ==> Settled(t.read, RepSlot(Some(s.counter + 1))) == Some(r.reply))
      && (r.Threw? ==> Broken(s, t) || !Fits(l, AskFrame(s.counter + 1, verb, args)))
    ensures SentFirst(l, s, DoAsk(l, s, verb, args).0, AskFrame(s.counter + 1, verb, args))
    ensures !Fits(l, AskFrame(s.counter + 1, verb, args)) ==>
      DoAsk(l, s, verb, args).1 == Threw(Refusal(l, AskFrame(s.counter + 1, verb, args)))
    decreases |s.input|, 2, 1
  {
    hide Inv, Kept, Broken, Settled, DoSendAndSettle, Fits, SentFirst, Refusal;
    var t := s.(counter := s.counter + 1);
    FieldsKeep(l, s, t, w);
    DrawnIsUnused(l, s, verb, args, w);
    SentFirstOf(l, s, t, DoAsk(l, s, verb, args).0, AskFrame(s.counter + 1, verb, args));
    SendAndSettleKeeps(l, s, t, AskFrame(s.counter + 1, verb, args), RepSlot(Some(s.counter + 1)), w);
  }

  lemma DrawnIsUnused(l: Limits, s: State, verb: bool, args: Value, w: multiset<int>)
    requires Inv(l, s, w)
    ensures Unused(s.sent, s.counter + 1, AskFrame(s.counter + 1, verb, args))
  {}

  /** What a handler is told of a frame that does not go out. */
  function Refusal(l: Limits, f: Out): string {
    if Jsonable(l, f) then "frame_too_large" else "not JSON serializable"
  }

  /** The frame goes out before anything else, if it fits; and nothing at all does if not. */
  ghost predicate SentFirst(l: Limits, s: State, t: State, f: Out) {
    if Fits(l, f) then s.sent + [f] <= t.sent else t.sent == s.sent
  }

  lemma SentFirstOf(l: Limits, s: State, s': State, t: State, f: Out)
    requires s.sent == s'.sent
    ensures SentFirst(l, s, t, f) <==> SentFirst(l, s', t, f)
  {}

  function AskFrame(id: int, verb: bool, args: Value): Out {
    if verb then SvcOut(id, args) else CallOut(id, args)
  }

  lemma {:induction false} SendAndSettleKeeps(l: Limits, a: State, s: State, f: Out, slot: Slot, w: multiset<int>)
    requires Inv(l, s, w) && Kept(a, s, false) && Replies(f) == multiset{} && Unused(s.sent, s.counter, f)
    requires slot.RepSlot? ==> slot.id.Some? && a.counter < slot.id.value <= s.counter
    ensures var (t, r) := DoSendAndSettle(l, s, f, slot);
      Inv(l, t, w) && Kept(a, t, r.CutWait?) && (r.Got? ==> Settled(t.read, slot) == Some(r.reply) && slot !in t.replies)
      && (r.Threw? ==> Broken(a, t) || !Fits(l, f)) && (!Fits(l, f) ==> r == Threw(Refusal(l, f)))
    ensures SentFirst(l, s, DoSendAndSettle(l, s, f, slot).0, f)
    decreases |s.input|, 2, 0
  {
    hide Inv, Kept, Broken, Settled, DoSettle, Fits, Unused;
    if Fits(l, f) {
      SendKeeps(l, s, f, w);
      KeptTrans(a, s, DoSend(l, s, f), false);
      SettleKeeps(l, a, DoSend(l, s, f), slot, w);
    }
  }

  lemma {:induction false} LoopKeeps(l: Limits, s: State, w: multiset<int>)
    requires Inv(l, s, w)
    ensures var (t, x) := DoLoop(l, s);
      Inv(l, t, w) && Kept(s, t, x.Cut?) && (x.Broke? ==> Broken(s, t)) && (x.Done? ==> t.input == [])
    decreases |s.input|
  {
    hide Inv, Kept, Broken, DoServe;
    KeptSelf(s);
    if s.input != [] {
      ServeKeeps(l, s, w);
      var (u, x) := DoServe(l, s);
      if x == Done {
        LoopKeeps(l, u, w);
        KeptTrans(s, u, DoLoop(l, s).0, DoLoop(l, s).1.Cut?);
      }
    }
  }

  // ---------------------------------------------------------------- whole runs

  /** A plugin that has read and sent nothing yet, whatever is registered and whatever is to come. */
  predicate Unstarted(s: State) {
    s.read == [] && s.sent == [] && s.replies == map[] && s.taken == {} && s.cut == [] && s.dropped == []
  }

  lemma UnstartedInv(l: Limits, s: State)
    requires Unstarted(s)
    ensures Inv(l, s, multiset{})
  {}

  /** When the loop ends, every request read was answered exactly once, or was being handled when the
      wire ended or said unload, or was left by an exception whose recorded cause is true. The loop ends
      by itself only when the whole wire is read; by a cut only when the wire is over; by an exception
      only when its greeting did not fit, a request was left, or the last frame was not JSON. */
  lemma RunAccountsForEveryRequest(l: Limits, s: State)
    requires Unstarted(s)
    ensures var (t, x) := DoRun(l, s);
      Answered(t.sent) + CutOff(t.cut) + Left(t.dropped) == Requested(t.read) && Caused(l, t)
    ensures DoRun(l, s).0.read + DoRun(l, s).0.input == s.input
    ensures SentFirst(l, s, DoRun(l, s).0, Hello) && Numbered(DoRun(l, s).0.sent, DoRun(l, s).0.counter)
    ensures DoRun(l, s).1.Done? ==> DoRun(l, s).0.read == s.input && DoRun(l, s).0.cut == [] && Unload !in s.input
    ensures DoRun(l, s).1.Cut? ==> Over(DoRun(l, s).0)
    ensures DoRun(l, s).1.Broke? ==> DoRun(l, s).0.cut == []
    ensures DoRun(l, s).1.Broke? ==> !Fits(l, Hello) || DoRun(l, s).0.dropped != [] || LastRead(DoRun(l, s).0, Garbage)
  {
    hide DoLoop;
    UnstartedInv(l, s);
    if Fits(l, Hello) {
      var s1 := DoSend(l, s, Hello);
      SendKeeps(l, s, Hello, multiset{});
      LoopKeeps(l, s1, multiset{});
      KeptTrans(s, s1, DoLoop(l, s1).0, DoLoop(l, s1).1.Cut?);
      WholeWire(s, DoLoop(l, s1).0, DoLoop(l, s1).1.Cut?);
    }
  }

  lemma WholeWire(s: State, t: State, wasCut: bool)
    requires Kept(s, t, wasCut) && s.read == []
    ensures t.input == [] ==> t.read == s.input
  {
    assert t.input == [] ==> t.read + t.input == t.read;
  }

  /** Every value is JSON, and the greeting, every registration, the short refusal and the plain answer
      to a load fit. */
  ghost predicate Roomy(l: Limits) {
    && Fits(l, Hello)
    && (forall v :: l.json(v))
    && (forall row :: Fits(l, Register(row)))
    && (forall req :: Fits(l, Refuse(req, FRAME_TOO_LARGE)) && Fits(l, Answer(req, OK)))
  }

  /** Then every request read is answered exactly once, or cut off by the end of the wire or an unload, or
      was made by a frame naming what no dictionary can hold; and when no such frame comes, nothing is left
      and only a frame that is not JSON stops the loop early. */
  lemma RoomyPluginsAnswerEverything(l: Limits, s: State)
    requires Unstarted(s) && Roomy(l)
    ensures Answered(DoRun(l, s).0.sent) + CutOff(DoRun(l, s).0.cut) + Left(DoRun(l, s).0.dropped) == Requested(DoRun(l, s).0.read)
    ensures forall d <- DoRun(l, s).0.dropped :: d.cause.Unhashable? && d.cause.frame.Odd? && d.cause.frame.req == d.req && d.cause.frame in s.input
    ensures (forall f <- s.input :: !f.Odd?) ==> DoRun(l, s).0.dropped == [] && (DoRun(l, s).1.Broke? ==> LastRead(DoRun(l, s).0, Garbage))
  {
    hide DoRun, Answered, CutOff, Left, Requested;
    RunAccountsForEveryRequest(l, s);
    var t := DoRun(l, s).0;
    FirstIsIn(t.dropped);
    forall d | d in t.dropped ensures d.cause.Unhashable? && d.cause.frame.Odd? && d.cause.frame.req == d.req && d.cause.frame in s.input {
      OnlyOdd(l, d);
      assert WasRead(t, d);
      assert d.cause.frame in t.read + t.input;
    }
  }

  lemma OnlyOdd(l: Limits, d: Drop)
    requires Roomy(l) && TrueCause(l, d)
    ensures d.cause.Unhashable?
  {}

  lemma FirstIsIn(ds: seq<Drop>)
    ensures ds == [] || ds[0] in ds
  {}

  // ---------------------------------------------------------------- which requests stay unanswered

  /** A handler that finished leaves its request unanswered exactly when its result is not JSON, or its
      reply does not fit and the short one does not either. Otherwise the reply is its result, its error,
      or frame_too_large. */
  lemma LeftUnansweredIff(l: Limits, s: State, req: int, e: Ending, load: bool)
    requires !e.CutRun?
    ensures var v := if e.Raised? then NULL else if load && !e.value.truthy then Value("ok", true) else e.value;
      var full := if e.Raised? then Refuse(Some(req), e.reason) else Answer(Some(req), v);
      var (t, x) := DoAnswer(l, s, Some(req), e, load);
      (x.Broke? <==> (e.Returned? && !l.json(v)) || (!Fits(l, full) && !Fits(l, Refuse(Some(req), FRAME_TOO_LARGE))))
      && (x.Broke? ==> t.sent == s.sent)
      && (!x.Broke? ==> x == Done && t.sent == s.sent + [if Fits(l, full) then full else Refuse(Some(req), FRAME_TOO_LARGE)])
  {}

  /** The first registration of a list that does not fit. */
  function FirstStuck(l: Limits, rows: seq<Registration>): Option<Registration>
    decreases |rows|
  {
    if rows == [] then None else if !Fits(l, Register(rows[0])) then Some(rows[0]) else FirstStuck(l, rows[1..])
  }

  function Announced(rows: seq<Registration>): seq<Out>
    decreases |rows|
  {
    if rows == [] then [] else [Register(rows[0])] + Announced(rows[1..])
  }

  lemma {:induction false} AnnounceSends(l: Limits, s: State, rows: seq<Registration>)
    ensures DoAnnounce(l, s, rows).1 == FirstStuck(l, rows)
    ensures FirstStuck(l, rows).None? ==> DoAnnounce(l, s, rows).0 == s.(sent := s.sent + Announced(rows))
    decreases |rows|
  {
    hide Fits, DoSend;
    if rows == [] {
      assert s.sent + [] == s.sent;
    } else if Fits(l, Register(rows[0])) {
      AnnounceSends(l, DoSend(l, s, Register(rows[0])), rows[1..]);
      SentThen(l, s, Register(rows[0]), Announced(rows[1..]));
    }
  }

  lemma SentThen(l: Limits, s: State, f: Out, more: seq<Out>)
    requires Fits(l, f)
    ensures DoSend(l, s, f).(sent := DoSend(l, s, f).sent + more) == s.(sent := s.sent + ([f] + more))
  {
    assert (s.sent + [f]) + more == s.sent + ([f] + more);
  }

  /** A load sends exactly what was held back, in order, then runs the load handler or answers ok; it is
      left unanswered before that exactly when some registration held back does not fit. */
  lemma LoadAnnouncesFirst(l: Limits, s: State, req: Req, config: Value)
    ensures var live := s.(active := true, deferred := [], sent := s.sent + Announced(s.deferred));
      var (t, x) := DoLoad(l, s, req, config);
      match FirstStuck(l, s.deferred)
      case Some(row) => x.Broke? && t.deferred == s.deferred && t.dropped == s.dropped + [Drop(req, HeldBack(row))]
      case None =>
        if s.load.Some? then (t, x) == DoGuard(l, live, req, s.load.value, config, None, true)
        else if Fits(l, Answer(req, OK)) then x == Done && t == DoSend(l, live, Answer(req, OK))
        else x.Broke? && t == Dropped(live, req, NoRoomForOk)
  {
    hide DoGuard;
    AnnounceSends(l, s.(active := true), s.deferred);
    AnnounceOnlySends(l, s.(active := true), s.deferred);
  }

  /** A handler ends as it decides: after some replies seen, with exactly the value or error it then
      gives; unless the wire was over first. */
  lemma {:induction false} HandlersEndAsTheyDecide(l: Limits, s: State, h: Handler, args: Value, next: Option<Req>, seen: seq<Reply>)
    returns (all: seq<Reply>)
    ensures seen <= all
    ensures match DoHandle(l, s, h, args, next, seen).1
      case Returned(v) => Choice(h, args, all) == Return(v)
      case Raised(m) => Choice(h, args, all) == Raise(m)
      case CutRun => !Choice(h, args, all).Return? && !Choice(h, args, all).Raise?
    decreases |s.input|, Max(h.steps - |seen|, 0)
  {
    hide DoAct;
    var a := Choice(h, args, seen);
    all := seen;
    if !a.Return? && !a.Raise? {
      var (t, w) := DoAct(l, s, a, next);
      if !w.CutWait? { all := HandlersEndAsTheyDecide(l, t, h, args, next, seen + [AsReply(w)]); }
    }
  }

  /** The handler a request frame names, with its arguments and what `next` would pass on. */
  function HandlerOf(s: State, f: In): Option<(Handler, Option<Req>)> {
    match f
    case Hook(hook, true, req, _) => if hook in s.hooks then Some((s.hooks[hook], Some(req))) else None
    case Svc(_, name, verb, _) => if name in s.services && verb in s.services[name] then Some((s.services[name][verb], None)) else None
    case _ => None
  }

  /** What a request is answered with when its handler ends like this. */
  function ReplyTo(l: Limits, req: int, end: Action): Out
    requires end.Return? || end.Raise?
  {
    var full := if end.Return? then Answer(Some(req), end.value) else Refuse(Some(req), end.reason);
    if Fits(l, full) then full else Refuse(Some(req), FRAME_TOO_LARGE)
  }

  /** A numbered request that is not cut off or left is answered last of all, with what its own handler
      decided on the replies it saw. */
  lemma AnswersComeFromTheHandler(l: Limits, s: State, f: In, req: int) returns (seen: seq<Reply>)
    requires HandlerOf(s, f).Some? && f.req == Some(req) && DoDispatch(l, s, f).1.Done?
    ensures var end := Choice(HandlerOf(s, f).value.0, f.args, seen); var t := DoDispatch(l, s, f).0;
      (end.Return? || end.Raise?) && t.sent != [] && t.sent[|t.sent| - 1] == ReplyTo(l, req, end)
  {
    hide DoHandle, DoAnswer, DoLoad, Fits;
    var (h, next) := HandlerOf(s, f).value;
    seen := HandlersEndAsTheyDecide(l, s, h, f.args, next, []);
    var (t, e) := DoHandle(l, s, h, f.args, next, []);
    if !e.CutRun? { LeftUnansweredIff(l, t, req, e, false); }
  }

  /** A request for something that is not registered is refused by name, never run. */
  lemma UnknownIsRefused(l: Limits, s: State, f: In, req: int)
    requires (f.Hook? && f.calls) || f.Svc?
    requires HandlerOf(s, f).None? && f.req == Some(req) && Fits(l, Refuse(Some(req), FRAME_TOO_LARGE))
    ensures var full := Refuse(Some(req), if f.Hook? then "unknown hook" else "unknown method " + f.verb);
      DoDispatch(l, s, f)
      == (s.(sent := s.sent + [if Fits(l, full) then full else Refuse(Some(req), "frame_too_large")]), Done)
  {}

  // ---------------------------------------------------------------- two plugins that leave a request

  const BLOB := Value("blob", true)

  /** Everything but one value is JSON, and everything fits. */
  const PICKY := Limits((v: Value) => v != BLOB, (f: Out) => 0, 10)

  const BLOBBER := Handler(0, (v: Value, seen: seq<Reply>) => Return(BLOB), (v: Value, seen: seq<Reply>) => Gives(BLOB))

  const SERVING := State([Svc(Some(7), "store", "get", NULL)], [], map[], map["store" := map["get" := BLOBBER]],
                         map[], [], None, 0, true, [], {}, [], [])

  /** A service that returns something that is not JSON: its caller is never answered, and the loop ends. */
  lemma ResultNotJsonIsLeft()
    ensures Unstarted(SERVING)
    ensures var (t, x) := DoRun(PICKY, SERVING);
      t.sent == [Hello] && t.dropped == [Drop(Some(7), ResultNotJson(BLOB))] && x == Broke(NOT_JSON)
  {
    var s := DoSend(PICKY, SERVING, Hello);
    assert Fits(PICKY, Hello);
    var r := Read(s);
    assert DoHandle(PICKY, r, BLOBBER, NULL, None, []) == (r, Returned(BLOB));
    assert DoGuard(PICKY, r, Some(7), BLOBBER, NULL, None, false) == (Dropped(r, Some(7), ResultNotJson(BLOB)), Broke(NOT_JSON));
    assert DoServe(PICKY, s) == (Dropped(r, Some(7), ResultNotJson(BLOB)), Broke(NOT_JSON));
  }

  /** Registrations do not fit, everything else does. */
  const NARROW := Limits((v: Value) => true, (f: Out) => if f.Register? then 11 else 0, 10)

  const LOADING := State([Load(Some(3), NULL)], [], map[], map[], map[], [Provide("store")], None, 0, false, [], {}, [], [])

  /** A held-back registration over the cap: the load is never answered. */
  lemma HeldBackIsLeft()
    ensures Unstarted(LOADING)
    ensures var (t, x) := DoRun(NARROW, LOADING);
      t.sent == [Hello] && t.dropped == [Drop(Some(3), HeldBack(Provide("store")))] && x.Broke?
  {
    var s := DoSend(NARROW, LOADING, Hello);
    assert Fits(NARROW, Hello) && !Fits(NARROW, Register(Provide("store")));
    var r := Read(s);
    assert DoAnnounce(NARROW, r.(active := true), r.deferred) == (r.(active := true), Some(Provide("store")));
    assert DoLoad(NARROW, r, Some(3), NULL) == (Dropped(r.(active := true), Some(3), HeldBack(Provide("store"))), Broke(FRAME_TOO_LARGE));
    assert DoServe(NARROW, s) == DoLoad(NARROW, r, Some(3), NULL);
  }
}
