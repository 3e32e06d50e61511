/** The deep merge of JSON documents: object keys merge, everything else replaces. */
module DeepMerge {

  datatype Json =
    | Null | Bool(b: bool) | Num(text: string) | Str(s: string) | Arr(items: seq<Json>)
    | Obj(rows: map<string, Json>)

  /** The recursive specification. */
  function Merged(into: Json, patch: Json): Json
    decreases patch
  {
    if into.Obj? && patch.Obj? then
      Obj(map k | k in into.rows.Keys + patch.rows.Keys ::
        if k !in patch.rows then into.rows[k]
        else if k in into.rows && into.rows[k].Obj? && patch.rows[k].Obj? then Merged(into.rows[k], patch.rows[k])
        else patch.rows[k])
    else patch
  }

  /** The merged value under one key. */
  function Child(target: map<string, Json>, rows: map<string, Json>, k: string): Json
    requires k in target.Keys + rows.Keys
  {
    if k !in rows then target[k]
    else if k in target && target[k].Obj? && rows[k].Obj? then Merged(target[k], rows[k])
    else rows[k]
  }

  lemma MergedAt(a: Json, p: Json, k: string)
    requires a.Obj? && p.Obj?
    ensures Merged(a, p).Obj? && Merged(a, p).rows.Keys == a.rows.Keys + p.rows.Keys
    ensures k in a.rows.Keys + p.rows.Keys ==> Merged(a, p).rows[k] == Child(a.rows, p.rows, k)
  {}

  /** A document that is merged into in place, key by key. */
  class Document {
    var value: Json

    constructor (v: Json)
      ensures value == v
    {
      value := v;
    }

    method Merge(patch: Json)
      modifies this
      ensures value == Merged(old(value), patch)
      decreases patch
    {
      if !value.Obj? || !patch.Obj? {
        value := patch;
        return;
      }
      ghost var was := value.rows;
      var target, rows := value.rows, patch.rows;
      var left := rows.Keys;
      while left != {}
        invariant left <= rows.Keys && value.Obj? && value.rows == was
        invariant target.Keys == was.Keys + (rows.Keys - left)
        invariant forall k :: k in target ==>
          target[k] == if k in left then was[k] else Child(was, rows, k)
      {
        var key :| key in left;
        if key in target && target[key].Obj? && rows[key].Obj? {
          var slot := new Document(target[key]);
          slot.Merge(rows[key]);
          target := target[key := slot.value];
        } else {
          target := target[key := rows[key]];
        }
        left := left - {key};
      }
      value := Obj(target);
      assert value.rows == Merged(Obj(was), patch).rows;
    }
  }

  lemma {:induction false} MergeSelf(v: Json)
    ensures Merged(v, v) == v
    decreases v
  {
    if v.Obj? {
      forall k | k in v.rows ensures Child(v.rows, v.rows, k) == v.rows[k] {
        if v.rows[k].Obj? { MergeSelf(v.rows[k]); }
      }
      assert Merged(v, v).rows == v.rows;
    }
  }

  /** Applying a patch twice is applying it once. */
  lemma {:induction false} MergeIdempotent(a: Json, p: Json)
    ensures Merged(Merged(a, p), p) == Merged(a, p)
    decreases p
  {
    if !a.Obj? || !p.Obj? {
      MergeSelf(p);
    } else {
      var once := Merged(a, p);
      forall k | k in once.rows ensures Merged(once, p).rows[k] == once.rows[k] {
        MergedAt(a, p, k);
        MergedAt(once, p, k);
        if k in p.rows && p.rows[k].Obj? {
          if k in a.rows && a.rows[k].Obj? { MergeIdempotent(a.rows[k], p.rows[k]); }
          else { MergeSelf(p.rows[k]); }
        }
      }
      assert Merged(once, p).rows == once.rows;
    }
  }

  // ---------------------------------------------------------------- paths

  datatype Found = Nothing | There(value: Json)

  function At(j: Json, path: seq<string>): Found
    decreases |path|
  {
    if path == [] then There(j)
    else if j.Obj? && path[0] in j.rows then At(j.rows[path[0]], path[1..])
    else Nothing
  }

  /** The patch says nothing about the path: it is silent on some key of it and on nothing above replaces. */
  predicate Spares(p: Json, path: seq<string>)
    decreases |path|
  {
    path != [] && p.Obj? && (path[0] in p.rows ==> Spares(p.rows[path[0]], path[1..]))
  }

  lemma {:induction false} SparedIsAbsent(p: Json, path: seq<string>)
    requires Spares(p, path)
    ensures At(p, path) == Nothing
    decreases |path|
  {
    if path[0] in p.rows { SparedIsAbsent(p.rows[path[0]], path[1..]); }
  }

  /** Every path the patch does not cover reads as before. */
  lemma {:induction false} MergeKeepsSparedPaths(a: Json, p: Json, path: seq<string>)
    requires Spares(p, path)
    ensures At(Merged(a, p), path) == At(a, path)
    decreases |path|
  {
    var k := path[0];
    if !a.Obj? {
      SparedIsAbsent(p, path);
    } else if k in p.rows {
      if k in a.rows && a.rows[k].Obj? {
        MergeKeepsSparedPaths(a.rows[k], p.rows[k], path[1..]);
      } else {
        SparedIsAbsent(p.rows[k], path[1..]);
        assert path[1..] != [];
      }
    }
  }

  /** Every value the patch sets that is not an object is there afterwards. */
  lemma {:induction false} MergeSetsLeaves(a: Json, p: Json, path: seq<string>)
    requires At(p, path).There? && !At(p, path).value.Obj?
    ensures At(Merged(a, p), path) == At(p, path)
    decreases |path|
  {
    if path != [] && a.Obj? && path[0] in a.rows && a.rows[path[0]].Obj? && p.rows[path[0]].Obj? {
      MergeSetsLeaves(a.rows[path[0]], p.rows[path[0]], path[1..]);
    }
  }

  // ---------------------------------------------------------------- composing patches

  /** Some path holds a non-object in `p` and an object in `q`. */
  predicate Conflict(p: Json, q: Json)
    decreases p
  {
    q.Obj? && (!p.Obj? || exists k | k in p.rows :: k in q.rows && Conflict(p.rows[k], q.rows[k]))
  }

  lemma {:induction false} PatchesCompose(a: Json, p: Json, q: Json)
    requires !Conflict(p, q)
    ensures Merged(Merged(a, p), q) == Merged(a, Merged(p, q))
    decreases p
  {
    if a.Obj? && p.Obj? && q.Obj? {
      var l, r := Merged(Merged(a, p), q), Merged(a, Merged(p, q));
      forall k | k in l.rows ensures l.rows[k] == r.rows[k] {
        MergedAt(a, p, k);
        MergedAt(p, q, k);
        MergedAt(Merged(a, p), q, k);
        MergedAt(a, Merged(p, q), k);
        if k in a.rows && k in p.rows && k in q.rows && a.rows[k].Obj? && p.rows[k].Obj? && q.rows[k].Obj? {
          PatchesCompose(a.rows[k], p.rows[k], q.rows[k]);
        }
      }
      assert l.rows == r.rows;
    }
  }

  lemma LongerThanAll(ks: set<string>) returns (longer: string)
    ensures forall k :: k in ks ==> |k| < |longer|
  {
    longer := "x";
    var left := ks;
    while left != {}
      invariant left <= ks && forall k :: k in ks - left ==> |k| < |longer|
    {
      var k :| k in left;
      if |k| >= |longer| { longer := k + "x"; }
      left := left - {k};
    }
  }

  /** An object document on which the two orders of patching differ. */
  lemma {:induction false} ConflictShows(p: Json, q: Json) returns (a: Json)
    requires Conflict(p, q)
    ensures a.Obj? && Merged(Merged(a, p), q) != Merged(a, Merged(p, q))
    decreases p
  {
    if !p.Obj? {
      var other := LongerThanAll(q.rows.Keys);
      a := Obj(map[other := Null]);
      assert other !in q.rows && other in Merged(a, q).rows;
    } else {
      var k :| k in p.rows && k in q.rows && Conflict(p.rows[k], q.rows[k]);
      var under := ConflictShows(p.rows[k], q.rows[k]);
      a := Obj(map[k := under]);
      var l, r := Merged(Merged(a, p), q), Merged(a, Merged(p, q));
      MergedAt(a, p, k);
      MergedAt(p, q, k);
      MergedAt(Merged(a, p), q, k);
      MergedAt(a, Merged(p, q), k);
      assert l.rows[k] != r.rows[k];
    }
  }

  /** Two patches can be merged first and applied at once, on every document, exactly when no path
      (the empty one included) has a non-object in the first and an object in the second. */
  lemma ComposeIffNoConflict(p: Json, q: Json)
    ensures (forall a: Json :: Merged(Merged(a, p), q) == Merged(a, Merged(p, q))) <==> !Conflict(p, q)
  {
    if Conflict(p, q) {
      var a := ConflictShows(p, q);
    } else {
      forall a: Json ensures Merged(Merged(a, p), q) == Merged(a, Merged(p, q)) {
        PatchesCompose(a, p, q);
      }
    }
  }
}
