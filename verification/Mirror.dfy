/**
 The bounded projection of host objects for the wire. Objects live in a heap and may point at each
 other in cycles; the projection is a finite tree. The marker strings `[circular]`, `[depth]` and
 `[opaque]` are constructors here, so that they cannot be confused with strings of the host.
 */
module Mirror {
  import opened Prelude

  const MAX_DEPTH := 4
  const MAX_ITEMS := 64
  const MAX_STRING := 4096

  datatype Val =
    | Null | Text(s: string) | Num(text: string, finite: bool) | Flag(b: bool) | Big(text: string)
    | Undefined | Ref(r: nat)

  /** What reading a property does. */
  datatype Got = Field(v: Val) | Throws

  /** `keys` is absent when listing the keys throws; a property may be readable without being listed. */
  datatype Obj = List(items: seq<Val>) | Rec(keys: Option<Listing>, props: map<string, Got>)

  /** What listing the keys of an object gives: each of them once. */
  type Listing = keys: seq<string> | forall i, j :: 0 <= i < j < |keys| ==> keys[i] != keys[j]

  type Heap = nat -> Obj

  datatype Out =
    | ONull | OText(s: string) | ONum(text: string) | OFlag(b: bool)
    | Circular | TooDeep | Closed
    | OList(items: seq<Out>) | ORec(fields: Fields)

  datatype Row = Row(key: string, value: Out)

  /** The properties of an object built here, and whether `Object.prototype` is no longer behind it. */
  datatype Fields = Fields(rows: seq<Row>, bare: bool)

  const NONE := Fields([], false)

  function Cut(s: string): string {
    if |s| > MAX_STRING then s[..MAX_STRING] + "..." else s
  }

  function First<T>(s: seq<T>): seq<T> {
    if |s| > MAX_ITEMS then s[..MAX_ITEMS] else s
  }

  function OrNull(o: Option<Out>): Out {
    if o.Some? then o.value else ONull
  }

  /** The one key whose assignment adds no property while `Object.prototype` is behind the object: it sets
      the object's own prototype, unless the value is a primitive. */
  const PROTO := "__proto__"

  function Assign(f: Fields, k: string, o: Out): Fields {
    if k == PROTO && !f.bare then f.(bare := Unlinks(o)) else f.(rows := Put(f.rows, k, o))
  }

  /** As a prototype it leaves nothing of `Object.prototype` in the chain. */
  predicate Unlinks(o: Out) {
    o.ONull? || (o.ORec? && o.fields.bare)
  }

  function Times(keys: seq<string>, k: string): nat
    decreases |keys|
  {
    if keys == [] then 0 else Times(keys[..|keys| - 1], k) + if keys[|keys| - 1] == k then 1 else 0
  }

  /** Adding a property: an existing key keeps its place. */
  function Put(rows: seq<Row>, k: string, o: Out): seq<Row>
    decreases |rows|
  {
    if rows == [] then [Row(k, o)]
    else if rows[0].key == k then [Row(k, o)] + rows[1..]
    else [rows[0]] + Put(rows[1..], k, o)
  }

  function Lookup(rows: seq<Row>, k: string): Option<Out>
    decreases |rows|
  {
    if rows == [] then None
    else if rows[0].key == k then Some(rows[0].value)
    else Lookup(rows[1..], k)
  }

  /** What a value projects to, given the objects on the way to it; nothing for what JSON cannot say. */
  function Project(h: Heap, v: Val, depth: nat, path: set<nat>): Option<Out>
    requires depth <= MAX_DEPTH
    decreases MAX_DEPTH - depth, 1, 0
  {
    match v
    case Null => Some(ONull)
    case Text(s) => Some(OText(Cut(s)))
    case Num(text, finite) => Some(if finite then ONum(text) else OText(text))
    case Flag(b) => Some(OFlag(b))
    case Big(text) => Some(OText(text))
    case Undefined => None
    case Ref(r) =>
      if r in path then Some(Circular)
      else if depth >= MAX_DEPTH then Some(TooDeep)
      else match h(r)
        case List(items) => Some(OList(Items(h, First(items), depth, path + {r})))
        case Rec(None, _) => Some(Closed)
        case Rec(Some(keys), props) => Some(ORec(Rows(h, props, First(keys), depth, path + {r})))
  }

  function Items(h: Heap, items: seq<Val>, depth: nat, path: set<nat>): (os: seq<Out>)
    requires depth < MAX_DEPTH
    decreases MAX_DEPTH - depth, 0, |items|
  {
    if items == [] then []
    else Items(h, items[..|items| - 1], depth, path) + [OrNull(Project(h, items[|items| - 1], depth + 1, path))]
  }

  function Rows(h: Heap, props: map<string, Got>, keys: seq<string>, depth: nat, path: set<nat>): Fields
    requires depth < MAX_DEPTH
    decreases MAX_DEPTH - depth, 0, |keys|
  {
    if keys == [] then NONE
    else
      var f := Rows(h, props, keys[..|keys| - 1], depth, path);
      var k := keys[|keys| - 1];
      var o := Prop(h, props, k, depth, path);
      if o.Some? then Assign(f, k, o.value) else f
  }

  /** A property's projection: nothing when reading it throws or gives nothing. */
  function Prop(h: Heap, props: map<string, Got>, k: string, depth: nat, path: set<nat>): Option<Out>
    requires depth < MAX_DEPTH
    decreases MAX_DEPTH - depth, 0, 0
  {
    if k !in props then None
    else if props[k].Throws? then None
    else Project(h, props[k].v, depth + 1, path)
  }

  /** One argument: with a pick, an object argument is reduced to the picked properties. */
  function Arg(h: Heap, v: Val, pick: seq<string>): Out {
    if pick != [] && v.Ref? && h(v.r).Rec? then ORec(Rows(h, h(v.r).props, pick, 0, {}))
    else OrNull(Project(h, v, 0, {}))
  }

  /** The walk as it runs: `seen` is one set, added to on the way in and taken from on the way out. */
  class Walk {
    const heap: Heap
    var seen: set<nat>

    constructor (h: Heap)
      ensures heap == h && seen == {}
    {
      heap := h;
      seen := {};
    }

    method ProjectRecord(props: map<string, Got>, keys: seq<string>, depth: nat) returns (out: Fields)
      requires depth < MAX_DEPTH
      modifies this
      ensures seen == old(seen) && out == Rows(heap, props, keys, depth, seen)
      decreases MAX_DEPTH - depth, 0
    {
      out := NONE;
      for i := 0 to |keys|
        invariant seen == old(seen) && out == Rows(heap, props, keys[..i], depth, seen)
      {
        assert keys[..i + 1][..i] == keys[..i];
        if keys[i] in props && props[keys[i]].Throws? { continue; }
        var raw := if keys[i] in props then props[keys[i]].v else Undefined;
        var value := ProjectValue(raw, depth + 1);
        if value.Some? { out := Assign(out, keys[i], value.value); }
      }
      assert keys[..|keys|] == keys;
    }

    method ProjectValue(value: Val, depth: nat) returns (o: Option<Out>)
      requires depth <= MAX_DEPTH
      modifies this
      ensures seen == old(seen) && o == Project(heap, value, depth, seen)
      decreases MAX_DEPTH - depth, 1
    {
      match value
      case Null => return Some(ONull);
      case Text(s) => return Some(OText(if |s| > MAX_STRING then s[..MAX_STRING] + "..." else s));
      case Num(text, finite) => return Some(if finite then ONum(text) else OText(text));
      case Flag(b) => return Some(OFlag(b));
      case Big(text) => return Some(OText(text));
      case Undefined => return None;
      case Ref(r) =>
        if r in seen { return Some(Circular); }
        if depth >= MAX_DEPTH { return Some(TooDeep); }
        ghost var was := seen;
        seen := seen + {r};
        match heap(r) {
          case List(all) =>
            var items := First(all);
            var outs: seq<Out> := [];
            for i := 0 to |items|
              invariant seen == was + {r} && outs == Items(heap, items[..i], depth, seen)
            {
              assert items[..i + 1][..i] == items[..i];
              var projected := ProjectValue(items[i], depth + 1);
              outs := outs + [if projected.Some? then projected.value else ONull];
            }
            assert items[..|items|] == items;
            o := Some(OList(outs));
          case Rec(None, _) =>
            o := Some(Closed);
          case Rec(Some(keys), props) =>
            var fields := ProjectRecord(props, First(keys), depth);
            o := Some(ORec(fields));
        }
        seen := seen - {r};
        assert seen == was;
    }

    /** Every argument is projected as if it were alone: nothing is left in `seen` between them. */
    method ProjectArgs(args: seq<Val>, pick: seq<string>) returns (outs: seq<Out>)
      requires seen == {}
      modifies this
      ensures seen == {} && |outs| == |args| && forall i :: 0 <= i < |args| ==> outs[i] == Arg(heap, args[i], pick)
    {
      outs := [];
      for i := 0 to |args|
        invariant seen == {} && |outs| == i && forall j :: 0 <= j < i ==> outs[j] == Arg(heap, args[j], pick)
      {
        if pick != [] && args[i].Ref? && heap(args[i].r).Rec? {
          var fields := ProjectRecord(heap(args[i].r).props, pick, 0);
          outs := outs + [ORec(fields)];
        } else {
          var projected := ProjectValue(args[i], 0);
          outs := outs + [if projected.Some? then projected.value else ONull];
        }
      }
    }
  }

  // ---------------------------------------------------------------- lists and records, pointwise

  lemma {:induction false} ItemsAt(h: Heap, items: seq<Val>, depth: nat, path: set<nat>)
    requires depth < MAX_DEPTH
    ensures |Items(h, items, depth, path)| == |items|
    ensures forall i :: 0 <= i < |items| ==> Items(h, items, depth, path)[i] == OrNull(Project(h, items[i], depth + 1, path))
    decreases |items|
  {
    hide Project;
    if items != [] { ItemsAt(h, items[..|items| - 1], depth, path); }
  }

  lemma {:induction false} PutLookup(rows: seq<Row>, k: string, o: Out, j: string)
    ensures Lookup(Put(rows, k, o), j) == if j == k then Some(o) else Lookup(rows, j)
    ensures |Put(rows, k, o)| <= |rows| + 1
    decreases |rows|
  {
    if rows != [] {
      PutLookup(rows[1..], k, o, j);
      assert ([Row(k, o)] + rows[1..])[1..] == rows[1..];
      assert ([rows[0]] + Put(rows[1..], k, o))[1..] == Put(rows[1..], k, o);
    }
  }

  /** What a property called `__proto__` is shown as among `n` mentions of it: as itself from the second
      on, when the first took the prototype away; otherwise not at all. */
  function ProtoShown(o: Option<Out>, n: nat): Option<Out> {
    if o.Some? && Unlinks(o.value) && n >= 2 then o else None
  }

  /** A projected record has exactly the listed properties that can be read and projected, apart from
      one called `__proto__`, which it has exactly when that is null, or a record with nothing of
      `Object.prototype` behind it, and is listed twice. */
  lemma {:induction false} RowsLookup(h: Heap, props: map<string, Got>, keys: seq<string>, depth: nat, path: set<nat>, k: string)
    requires depth < MAX_DEPTH
    ensures var f := Rows(h, props, keys, depth, path); var o := Prop(h, props, k, depth, path);
      Lookup(f.rows, k) == if k == PROTO then ProtoShown(o, Times(keys, PROTO)) else if k in keys then o else None
    ensures Rows(h, props, keys, depth, path).bare
        <==> PROTO in keys && Prop(h, props, PROTO, depth, path).Some? && Unlinks(Prop(h, props, PROTO, depth, path).value)
    decreases |keys|
  {
    hide Project, Prop, Put, Lookup, Unlinks;
    if keys == [] {
      EmptyLookup(k);
    } else {
      var less, last := keys[..|keys| - 1], keys[|keys| - 1];
      assert keys == less + [last];
      RowsLookup(h, props, less, depth, path, k);
      TimesIn(less, PROTO);
      var o := Prop(h, props, last, depth, path);
      if o.Some? { PutLookup(Rows(h, props, less, depth, path).rows, last, o.value, k); }
    }
  }

  lemma {:induction false} TimesIn(keys: seq<string>, k: string)
    ensures Times(keys, k) > 0 <==> k in keys
    decreases |keys|
  {
    if keys != [] {
      TimesIn(keys[..|keys| - 1], k);
      assert keys == keys[..|keys| - 1] + [keys[|keys| - 1]];
    }
  }

  lemma {:induction false} ListedOnce(keys: Listing, k: string)
    ensures Times(keys, k) <= 1
    decreases |keys|
  {
    if keys != [] {
      ListedOnce(keys[..|keys| - 1], k);
      TimesIn(keys[..|keys| - 1], k);
    }
  }

  /** So an object whose keys are its own never shows a `__proto__`. */
  lemma ListedLookup(h: Heap, props: map<string, Got>, keys: Listing, depth: nat, path: set<nat>, k: string)
    requires depth < MAX_DEPTH
    ensures Lookup(Rows(h, props, First(keys), depth, path).rows, k)
         == if k in First(keys) && k != PROTO then Prop(h, props, k, depth, path) else None
  {
    hide Rows, Lookup, Prop;
    RowsLookup(h, props, First(keys), depth, path, k);
    ListedOnce(First(keys), PROTO);
  }

  lemma EmptyLookup(k: string)
    ensures Lookup([], k) == None
  {}

  function KeysOf(rows: seq<Row>): seq<string> {
    seq(|rows|, i requires 0 <= i < |rows| => rows[i].key)
  }

  /** The keys that are shown, in the order they are listed. */
  function ShownKeys(h: Heap, props: map<string, Got>, keys: seq<string>, depth: nat, path: set<nat>): seq<string>
    requires depth < MAX_DEPTH
    decreases |keys|
  {
    if keys == [] then []
    else
      var k := keys[|keys| - 1];
      ShownKeys(h, props, keys[..|keys| - 1], depth, path)
      + if k != PROTO && Prop(h, props, k, depth, path).Some? then [k] else []
  }

  lemma {:induction false} PutLast(rows: seq<Row>, k: string, o: Out)
    requires k !in KeysOf(rows)
    ensures Put(rows, k, o) == rows + [Row(k, o)]
    decreases |rows|
  {
    if rows != [] {
      assert KeysOf(rows)[0] == rows[0].key;
      assert KeysOf(rows[1..]) == KeysOf(rows)[1..];
      PutLast(rows[1..], k, o);
      assert rows == [rows[0]] + rows[1..];
    }
  }

  lemma {:induction false} ShownAreListed(h: Heap, props: map<string, Got>, keys: seq<string>, depth: nat, path: set<nat>, k: string)
    requires depth < MAX_DEPTH && k in ShownKeys(h, props, keys, depth, path)
    ensures k in keys
    decreases |keys|
  {
    hide Prop;
    var less, last := keys[..|keys| - 1], keys[|keys| - 1];
    if k in ShownKeys(h, props, less, depth, path) { ShownAreListed(h, props, less, depth, path, k); }
  }

  /** A record shows its properties in the order its keys are listed, each once. */
  lemma {:induction false} RowsInOrder(h: Heap, props: map<string, Got>, keys: Listing, depth: nat, path: set<nat>)
    requires depth < MAX_DEPTH
    ensures KeysOf(Rows(h, props, keys, depth, path).rows) == ShownKeys(h, props, keys, depth, path)
    decreases |keys|
  {
    hide Prop, Put, Unlinks;
    if keys != [] {
      var less, last := keys[..|keys| - 1], keys[|keys| - 1];
      RowsInOrder(h, props, less, depth, path);
      var f, o := Rows(h, props, less, depth, path), Prop(h, props, last, depth, path);
      if o.Some? && last != PROTO {
        if last in ShownKeys(h, props, less, depth, path) { ShownAreListed(h, props, less, depth, path, last); }
        PutLast(f.rows, last, o.value);
        assert KeysOf(f.rows + [Row(last, o.value)]) == KeysOf(f.rows) + [last];
      } else if o.Some? {
        NotYetBare(h, props, less, depth, path);
      }
    }
  }

  lemma NotYetBare(h: Heap, props: map<string, Got>, keys: seq<string>, depth: nat, path: set<nat>)
    requires depth < MAX_DEPTH && PROTO !in keys
    ensures !Rows(h, props, keys, depth, path).bare
  {
    RowsLookup(h, props, keys, depth, path, PROTO);
  }

  // ---------------------------------------------------------------- output against graph

  datatype Step = Item(i: nat) | Key(k: string)

  function At(o: Out, steps: seq<Step>): Option<Out>
    decreases |steps|
  {
    if steps == [] then Some(o)
    else match (o, steps[0])
      case (OList(items), Item(i)) => if i < |items| then At(items[i], steps[1..]) else None
      case (ORec(f), Key(k)) => (match Lookup(f.rows, k) case Some(c) => At(c, steps[1..]) case None => None)
      case _ => None
  }

  /** The value one step into an object leads to. */
  function Next(o: Obj, step: Step): Option<Val> {
    match (o, step)
    case (List(items), Item(i)) => if i < |items| then Some(items[i]) else None
    case (Rec(_, props), Key(k)) => if k in props && props[k].Field? then Some(props[k].v) else None
    case _ => None
  }

  datatype Place = Place(at: Val, trail: seq<nat>)

  /** Follow the steps through the graph itself: where they lead, and the objects passed on the way. */
  function Reach(h: Heap, v: Val, steps: seq<Step>): Option<Place>
    decreases |steps|
  {
    if steps == [] then Some(Place(v, []))
    else if !v.Ref? then None
    else match Next(h(v.r), steps[0])
      case None => None
      case Some(c) =>
        (match Reach(h, c, steps[1..]) case None => None case Some(p) => Some(Place(p.at, [v.r] + p.trail)))
  }

  function Objects(trail: seq<nat>): set<nat> {
    set r | r in trail
  }

  predicate Distinct(trail: seq<nat>) {
    forall i, j :: 0 <= i < j < |trail| ==> trail[i] != trail[j]
  }

  /** Nothing is ever shown under a key `__proto__` of an unpicked value, whatever the object holds there. */
  lemma {:induction false} ProtoIsNeverShown(h: Heap, v: Val, depth: nat, path: set<nat>, steps: seq<Step>)
    requires depth <= MAX_DEPTH && Key(PROTO) in steps
    ensures At(OrNull(Project(h, v, depth, path)), steps) == None
    decreases |steps|
  {
    hide Rows, Items;
    if At(OrNull(Project(h, v, depth, path)), steps).Some? {
      ChildMirrors(h, v, depth, path, steps);
      if steps[0] == Key(PROTO) {
        NoProtoStep(h, v, depth, path, steps);
      } else {
        assert steps == [steps[0]] + steps[1..];
        ProtoIsNeverShown(h, Next(h(v.r), steps[0]).value, depth + 1, path + {v.r}, steps[1..]);
      }
    }
  }

  lemma NoProtoStep(h: Heap, v: Val, depth: nat, path: set<nat>, steps: seq<Step>)
    requires depth <= MAX_DEPTH && steps != [] && steps[0] == Key(PROTO)
    ensures At(OrNull(Project(h, v, depth, path)), steps) == None
  {
    var o := OrNull(Project(h, v, depth, path));
    if v.Ref? && v.r !in path && depth < MAX_DEPTH {
      match h(v.r)
      case Rec(Some(keys), props) =>
        ListedLookup(h, props, keys, depth, path + {v.r}, PROTO);
        assert o == ORec(Rows(h, props, First(keys), depth, path + {v.r}));
      case _ => assert !o.ORec?;
    } else {
      assert !o.ORec?;
    }
    AtKey(o, steps);
  }

  lemma AtKey(o: Out, steps: seq<Step>)
    requires steps != [] && steps[0].Key? && (o.ORec? ==> Lookup(o.fields.rows, steps[0].k).None?)
    ensures At(o, steps) == None
  {
    hide Lookup;
  }

  function Parsed(r: nat): Obj {
    Rec(Some([PROTO]), map[PROTO := Field(Flag(true))])
  }

  /** An object parsed from JSON with such a key is shown without it. */
  lemma ProtoIsLost()
    ensures Reach(Parsed, Ref(0), [Key(PROTO)]) == Some(Place(Flag(true), [0]))
    ensures Project(Parsed, Ref(0), 0, {}) == Some(ORec(NONE))
  {
    var props := Parsed(0).props;
    ReachOne(Parsed, 0, Key(PROTO), Flag(true));
    assert First([PROTO]) == [PROTO] && [PROTO][..0] == [];
    assert Rows(Parsed, props, [], 0, {0}) == NONE;
    assert Rows(Parsed, props, [PROTO], 0, {0}) == NONE;
    ProjectsRecord(Parsed, 0, [PROTO], props);
  }

  lemma ReachOne(h: Heap, r: nat, step: Step, v: Val)
    requires Next(h(r), step) == Some(v)
    ensures Reach(h, Ref(r), [step]) == Some(Place(v, [r]))
  {
    var steps := [step];
    assert steps[1..] == [];
    assert Reach(h, v, steps[1..]) == Some(Place(v, []));
    var none: seq<nat> := [];
    assert [r] + none == [r];
  }

  lemma ProjectsRecord(h: Heap, r: nat, keys: Listing, props: map<string, Got>)
    requires h(r) == Rec(Some(keys), props)
    ensures Project(h, Ref(r), 0, {}) == Some(ORec(Rows(h, props, First(keys), 0, {r})))
  {
    assert {} + {r} == {r};
  }

  lemma MoreObjects(r: nat, trail: seq<nat>, path: set<nat>)
    ensures path + Objects([r] + trail) == (path + {r}) + Objects(trail)
  {}

  /** A place's own projection, with the objects passed on the way there. */
  function Shown(h: Heap, p: Place, depth: nat, path: set<nat>): Out
    requires depth <= MAX_DEPTH
  {
    OrNull(Project(h, p.at, depth, path + Objects(p.trail)))
  }

  /** Every place in the output stands at the same place of the graph, no deeper than the limit, on a
      way that passes no object twice, and shows that value's own projection there. */
  lemma {:induction false} OutputMirrorsGraph(h: Heap, v: Val, depth: nat, path: set<nat>, steps: seq<Step>)
    requires depth <= MAX_DEPTH && At(OrNull(Project(h, v, depth, path)), steps).Some?
    ensures depth + |steps| <= MAX_DEPTH && Reach(h, v, steps).Some?
    ensures var p := Reach(h, v, steps).value; Distinct(p.trail) && Objects(p.trail) !! path
    ensures At(OrNull(Project(h, v, depth, path)), steps).value
         == Shown(h, Reach(h, v, steps).value, depth + |steps|, path)
    decreases |steps|
  {
    hide Project, At, Next;
    if steps == [] {
      assert path + Objects([]) == path;
      AtRoot(OrNull(Project(h, v, depth, path)), steps);
    } else {
      ChildMirrors(h, v, depth, path, steps);
      var c, rest := Next(h(v.r), steps[0]).value, steps[1..];
      OutputMirrorsGraph(h, c, depth + 1, path + {v.r}, rest);
      Lengthen(h, v, depth, path, steps, c);
    }
  }

  lemma AtRoot(o: Out, steps: seq<Step>)
    requires steps == []
    ensures At(o, steps) == Some(o)
  {}

  /** One step of it: the value is an object shown at this depth, and the step leads on inside it. */
  lemma ChildMirrors(h: Heap, v: Val, depth: nat, path: set<nat>, steps: seq<Step>)
    requires depth <= MAX_DEPTH && steps != [] && At(OrNull(Project(h, v, depth, path)), steps).Some?
    ensures v.Ref? && v.r !in path && depth < MAX_DEPTH && Next(h(v.r), steps[0]).Some?
    ensures At(OrNull(Project(h, v, depth, path)), steps)
         == At(OrNull(Project(h, Next(h(v.r), steps[0]).value, depth + 1, path + {v.r})), steps[1..])
  {
    assert v.Ref? && v.r !in path && depth < MAX_DEPTH;
    var inner := path + {v.r};
    match h(v.r)
    case List(items) => ItemsAt(h, First(items), depth, inner);
    case Rec(None, _) =>
    case Rec(Some(keys), props) => ListedLookup(h, props, keys, depth, inner, steps[0].k);
  }

  lemma Lengthen(h: Heap, v: Val, depth: nat, path: set<nat>, steps: seq<Step>, c: Val)
    requires depth < MAX_DEPTH && steps != [] && v.Ref? && v.r !in path
    requires Next(h(v.r), steps[0]) == Some(c) && Reach(h, c, steps[1..]).Some?
    requires var q := Reach(h, c, steps[1..]).value; Distinct(q.trail) && Objects(q.trail) !! (path + {v.r})
    ensures Reach(h, v, steps).Some? && Reach(h, v, steps).value.at == Reach(h, c, steps[1..]).value.at
    ensures var p := Reach(h, v, steps).value; Distinct(p.trail) && Objects(p.trail) !! path
    ensures var p := Reach(h, v, steps).value;
      path + Objects(p.trail) == (path + {v.r}) + Objects(Reach(h, c, steps[1..]).value.trail)
  {
    var q := Reach(h, c, steps[1..]).value;
    MoreObjects(v.r, q.trail, path);
    assert v.r in path + {v.r};
    assert forall r :: r in q.trail ==> r in Objects(q.trail) && r != v.r;
  }

  /** `[circular]` stands exactly where the graph points back at an object on the way there. */
  lemma CircularIsBackReference(h: Heap, v: Val, steps: seq<Step>)
    requires At(OrNull(Project(h, v, 0, {})), steps).Some?
    ensures Reach(h, v, steps).Some?
    ensures var p := Reach(h, v, steps).value;
      At(OrNull(Project(h, v, 0, {})), steps).value == Circular <==> p.at.Ref? && p.at.r in p.trail
  {
    OutputMirrorsGraph(h, v, 0, {}, steps);
    var p := Reach(h, v, steps).value;
    CircularWhen(h, p.at, |steps|, Objects(p.trail));
    assert {} + Objects(p.trail) == Objects(p.trail);
  }

  lemma CircularWhen(h: Heap, v: Val, depth: nat, path: set<nat>)
    requires depth <= MAX_DEPTH
    ensures OrNull(Project(h, v, depth, path)) == Circular <==> v.Ref? && v.r in path
  {}

  /** The steps stay among the items and keys that are shown. */
  predicate Within(h: Heap, v: Val, steps: seq<Step>)
    decreases |steps|
  {
    steps != [] ==>
      v.Ref? && Next(h(v.r), steps[0]).Some? && Within(h, Next(h(v.r), steps[0]).value, steps[1..])
      && (match h(v.r)
          case List(_) => steps[0].i < MAX_ITEMS
          case Rec(keys, _) => keys.Some? && steps[0].k in First(keys.value) && steps[0].k != PROTO)
  }

  /** Conversely, whatever can be reached within the limits without passing an object twice is shown:
      a shared object in full each time, a back reference as `[circular]`. */
  lemma {:induction false} GraphShowsInOutput(h: Heap, v: Val, depth: nat, path: set<nat>, steps: seq<Step>)
    requires depth + |steps| <= MAX_DEPTH && Within(h, v, steps) && Reach(h, v, steps).Some?
    requires var p := Reach(h, v, steps).value; Distinct(p.trail) && Objects(p.trail) !! path && !p.at.Undefined?
    ensures At(OrNull(Project(h, v, depth, path)), steps).Some?
    decreases |steps|
  {
    if steps != [] {
      var c, rest := Next(h(v.r), steps[0]).value, steps[1..];
      var p, q := Reach(h, v, steps).value, Reach(h, c, rest).value;
      assert p.trail == [v.r] + q.trail;
      Shorten(v.r, q.trail, path);
      GraphShowsInOutput(h, c, depth + 1, path + {v.r}, rest);
      if rest == [] { assert !c.Undefined?; } else { assert c.Ref?; }
      ChildShown(h, v, depth, path, steps[0], rest);
      assert steps == [steps[0]] + rest;
    }
  }

  lemma Shorten(r: nat, trail: seq<nat>, path: set<nat>)
    requires Distinct([r] + trail) && Objects([r] + trail) !! path
    ensures Distinct(trail) && Objects(trail) !! path + {r} && r !in path
  {
    hide Objects;
    RestDistinct(r, trail);
    ObjectsOf(r, trail);
  }

  lemma RestDistinct(r: nat, trail: seq<nat>)
    requires Distinct([r] + trail)
    ensures Distinct(trail) && r !in trail
  {
    var whole := [r] + trail;
    assert whole[0] == r;
    forall i | 0 <= i < |trail| ensures trail[i] == whole[i + 1] && trail[i] != r {}
  }

  lemma ObjectsOf(r: nat, trail: seq<nat>)
    ensures Objects([r] + trail) == {r} + Objects(trail) && (r in Objects(trail) <==> r in trail)
  {}

  lemma ChildShown(h: Heap, v: Val, depth: nat, path: set<nat>, step: Step, rest: seq<Step>)
    requires depth < MAX_DEPTH && Within(h, v, [step]) && v.r !in path
    requires !Next(h(v.r), step).value.Undefined?
    ensures At(OrNull(Project(h, v, depth, path)), [step] + rest)
         == At(OrNull(Project(h, Next(h(v.r), step).value, depth + 1, path + {v.r})), rest)
  {
    var inner := path + {v.r};
    assert ([step] + rest)[1..] == rest;
    match h(v.r)
    case List(items) => ItemsAt(h, First(items), depth, inner);
    case Rec(keys, props) => ListedLookup(h, props, keys.value, depth, inner, step.k);
  }

  // ---------------------------------------------------------------- what is shown

  /** What stands for a value that is no object: itself, with long texts cut at 4096 characters, and what JSON
      has no number for as text. */
  function Plain(v: Val): Out {
    match v
    case Null => ONull
    case Text(s) => OText(if |s| <= 4096 then s else s[..4096] + "...")
    case Num(text, finite) => if finite then ONum(text) else OText(text)
    case Flag(b) => OFlag(b)
    case Big(text) => OText(text)
    case _ => ONull
  }

  /** What stands for an object, by its depth and the objects passed on the way to it. */
  predicate Stands(h: Heap, r: nat, o: Out, depth: nat, trail: seq<nat>) {
    if r in trail then o == Circular
    else if depth == 4 then o == TooDeep
    else match h(r)
      case List(items) => o.OList? && |o.items| == if |items| < 64 then |items| else 64
      case Rec(keys, _) => if keys.None? then o == Closed else o.ORec?
  }

  /** At every place of the output stands what the graph has there: a primitive as itself, a list with its
      first 64 items, a record as a record, and a marker only where there is a reason for it. */
  lemma PlacesShowTheirValues(h: Heap, v: Val, steps: seq<Step>)
    requires At(OrNull(Project(h, v, 0, {})), steps).Some?
    ensures Reach(h, v, steps).Some?
    ensures var p := Reach(h, v, steps).value; var o := At(OrNull(Project(h, v, 0, {})), steps).value;
      if p.at.Ref? then Stands(h, p.at.r, o, |steps|, p.trail) else o == Plain(p.at)
  {
    hide Project, At;
    OutputMirrorsGraph(h, v, 0, {}, steps);
    var p := Reach(h, v, steps).value;
    assert {} + Objects(p.trail) == Objects(p.trail);
    ValueShows(h, p.at, |steps|, p.trail);
  }

  lemma ValueShows(h: Heap, v: Val, depth: nat, trail: seq<nat>)
    requires depth <= MAX_DEPTH
    ensures var o := OrNull(Project(h, v, depth, Objects(trail)));
      if v.Ref? then Stands(h, v.r, o, depth, trail) else o == Plain(v)
  {
    hide Rows;
    if v.Ref? && v.r !in trail && depth < MAX_DEPTH && h(v.r).List? {
      ItemsAt(h, First(h(v.r).items), depth, Objects(trail) + {v.r});
    }
  }

  // ---------------------------------------------------------------- size

  function Nodes(o: Out): nat
    decreases o, 0
  {
    match o
    case OList(items) => 1 + NodesOf(items)
    case ORec(f) => 1 + NodesIn(f.rows)
    case _ => 1
  }

  function NodesOf(items: seq<Out>): nat
    decreases items, |items|
  {
    if items == [] then 0 else Nodes(items[0]) + NodesOf(items[1..])
  }

  function NodesIn(rows: seq<Row>): nat
    decreases rows, |rows|
  {
    if rows == [] then 0 else Nodes(rows[0].value) + NodesIn(rows[1..])
  }

  /** The largest tree with `levels` levels below its root and `MAX_ITEMS` children everywhere. */
  function Full(levels: nat): nat {
    if levels == 0 then 1 else 1 + MAX_ITEMS * Full(levels - 1)
  }

  lemma {:induction false} NodesOfMore(items: seq<Out>, o: Out)
    ensures NodesOf(items + [o]) == NodesOf(items) + Nodes(o)
    decreases |items|
  {
    if items == [] {
      assert [o][1..] == [];
    } else {
      NodesOfMore(items[1..], o);
      assert (items + [o])[1..] == items[1..] + [o];
    }
  }

  /** Adding a property adds at most the value's nodes. */
  lemma {:induction false} NodesInPut(rows: seq<Row>, k: string, o: Out)
    ensures NodesIn(Put(rows, k, o)) <= NodesIn(rows) + Nodes(o)
    decreases |rows|
  {
    if rows == [] {
      assert [Row(k, o)][1..] == [];
    } else {
      NodesInPut(rows[1..], k, o);
      assert ([Row(k, o)] + rows[1..])[1..] == rows[1..];
      assert ([rows[0]] + Put(rows[1..], k, o))[1..] == Put(rows[1..], k, o);
    }
  }

  lemma {:induction false} ProjectionFits(h: Heap, v: Val, depth: nat, path: set<nat>)
    requires depth <= MAX_DEPTH
    ensures Nodes(OrNull(Project(h, v, depth, path))) <= Full(MAX_DEPTH - depth)
    decreases MAX_DEPTH - depth, 1, 0
  {
    if v.Ref? && v.r !in path && depth < MAX_DEPTH {
      match h(v.r)
      case List(items) =>
        ItemsFit(h, First(items), depth, path + {v.r});
        Wide(|First(items)|, Full(MAX_DEPTH - depth - 1));
      case Rec(None, _) =>
      case Rec(Some(keys), props) =>
        RowsFit(h, props, First(keys), depth, path + {v.r});
        Wide(|First(keys)|, Full(MAX_DEPTH - depth - 1));
    }
  }

  lemma Wide(n: nat, each: nat)
    requires n <= MAX_ITEMS
    ensures n * each <= MAX_ITEMS * each
  {}

  lemma {:induction false} ItemsFit(h: Heap, items: seq<Val>, depth: nat, path: set<nat>)
    requires depth < MAX_DEPTH
    ensures NodesOf(Items(h, items, depth, path)) <= |items| * Full(MAX_DEPTH - depth - 1)
    decreases MAX_DEPTH - depth, 0, |items|
  {
    hide Project, Full, Nodes;
    if items != [] {
      var less, last := items[..|items| - 1], items[|items| - 1];
      ItemsFit(h, less, depth, path);
      ProjectionFits(h, last, depth + 1, path);
      NodesOfMore(Items(h, less, depth, path), OrNull(Project(h, last, depth + 1, path)));
      OneMore(|less|, Full(MAX_DEPTH - depth - 1));
    }
  }

  lemma OneMore(n: nat, each: nat)
    ensures n * each + each == (n + 1) * each
  {}

  lemma {:induction false} RowsFit(h: Heap, props: map<string, Got>, keys: seq<string>, depth: nat, path: set<nat>)
    requires depth < MAX_DEPTH
    ensures NodesIn(Rows(h, props, keys, depth, path).rows) <= |keys| * Full(MAX_DEPTH - depth - 1)
    decreases MAX_DEPTH - depth, 0, |keys|
  {
    hide Project, Full, Nodes, Put;
    if keys != [] {
      var less, last := keys[..|keys| - 1], keys[|keys| - 1];
      RowsFit(h, props, less, depth, path);
      var o := Prop(h, props, last, depth, path);
      if o.Some? {
        ProjectionFits(h, props[last].v, depth + 1, path);
        NodesInPut(Rows(h, props, less, depth, path).rows, last, o.value);
      }
      OneMore(|less|, Full(MAX_DEPTH - depth - 1));
    }
  }

  /** However large or cyclic the graph, a projected value has at most (64^5 - 1) / 63 nodes. */
  lemma ProjectionIsBounded(h: Heap, v: Val)
    ensures Nodes(OrNull(Project(h, v, 0, {}))) <= 17_043_521
    ensures 17_043_521 * 63 == 64 * 64 * 64 * 64 * 64 - 1
  {
    ProjectionFits(h, v, 0, {});
    assert Full(0) == 1 && Full(1) == 65 && Full(2) == 4161 && Full(3) == 266305 && Full(4) == 17043521;
  }

  /** A picked argument has at most that many nodes per picked key: the pick is not cut to 64 keys. */
  lemma PickedIsBounded(h: Heap, v: Val, pick: seq<string>)
    requires pick != [] && v.Ref? && h(v.r).Rec?
    ensures Nodes(Arg(h, v, pick)) <= 1 + |pick| * 266_305
  {
    RowsFit(h, h(v.r).props, pick, 0, {});
    assert Full(0) == 1 && Full(1) == 65 && Full(2) == 4161 && Full(3) == 266305;
  }

  // ---------------------------------------------------------------- picked arguments

  /** With a pick, the argument itself is not on record while its properties are walked: a place below
      a picked key is `[circular]` exactly when the graph points back at an object passed after the
      argument. */
  lemma PickedCircular(h: Heap, v: Val, pick: seq<string>, steps: seq<Step>)
    requires pick != [] && v.Ref? && h(v.r).Rec? && steps != [] && At(Arg(h, v, pick), steps).Some?
    ensures Reach(h, v, steps).Some?
    ensures Reach(h, v, steps).value.trail != []
    ensures var p := Reach(h, v, steps).value;
      At(Arg(h, v, pick), steps).value == Circular <==> p.at.Ref? && p.at.r in p.trail[1..]
  {
    var props := h(v.r).props;
    RowsLookup(h, props, pick, 0, {}, steps[0].k);
    var c := props[steps[0].k].v;
    OutputMirrorsGraph(h, c, 1, {}, steps[1..]);
    var q := Reach(h, c, steps[1..]).value;
    assert Reach(h, v, steps).value.trail == [v.r] + q.trail;
    CircularWhen(h, q.at, |steps|, Objects(q.trail));
    assert {} + Objects(q.trail) == Objects(q.trail);
  }

  const SELF := "self"

  function OneField(k: string, o: Out): Fields {
    Fields([Row(k, o)], false)
  }

  function Loop(r: nat): Obj {
    Rec(Some([SELF]), map[SELF := Field(Ref(0))])
  }

  /** So an object that holds itself is shown once more when picked: the back reference to the
      argument is only marked one level further down. */
  lemma PickedRootIsShownTwice()
    ensures Arg(Loop, Ref(0), []) == ORec(OneField(SELF, Circular))
    ensures Arg(Loop, Ref(0), [SELF]) == ORec(OneField(SELF, ORec(OneField(SELF, Circular))))
  {
    var props := Loop(0).props;
    OneRow(Loop, props, 0, {});
    OneRow(Loop, props, 0, {0});
    OneRow(Loop, props, 1, {0});
    assert {} + {0} == {0};
    assert First([SELF]) == [SELF];
  }

  lemma OneRow(h: Heap, props: map<string, Got>, depth: nat, path: set<nat>)
    requires depth < MAX_DEPTH && SELF in props && props[SELF].Field?
    requires Project(h, props[SELF].v, depth + 1, path).Some?
    ensures Rows(h, props, [SELF], depth, path) 
         == OneField(SELF, Project(h, props[SELF].v, depth + 1, path).value)
  {
    assert [SELF][..0] == [];
    assert Rows(h, props, [], depth, path) == NONE;
  }

  function Nulled(r: nat): Obj {
    Rec(Some([PROTO]), map[PROTO := Field(Null)])
  }

  /** Nor is `__proto__` always lost from a pick: over a null, its second mention adds the property. */
  lemma PickedTwiceIsShown()
    ensures Arg(Nulled, Ref(0), [PROTO]) == ORec(Fields([], true))
    ensures Arg(Nulled, Ref(0), [PROTO, PROTO]) == ORec(Fields([Row(PROTO, ONull)], true))
  {
    var props := Nulled(0).props;
    assert [PROTO][..0] == [] && [PROTO, PROTO][..1] == [PROTO];
    assert Rows(Nulled, props, [], 0, {}) == NONE;
    assert Prop(Nulled, props, PROTO, 0, {}) == Some(ONull);
    assert Rows(Nulled, props, [PROTO], 0, {}) == Fields([], true);
    assert Assign(Fields([], true), PROTO, ONull).rows == [Row(PROTO, ONull)];
  }
}
