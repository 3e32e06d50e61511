/**
 What a watch's subscription hears: the bus matches topics by segments, and a watch subscribes to the
 pattern `kv/<prefix>**`, leading slashes aside.
 */
module KvFilter {
  import opened Prelude
  import opened KvSpec

  /** The segments between slashes; at least one. */
  function Split(s: string): (segs: seq<string>)
    ensures |segs| >= 1
    decreases |s|
  {
    if s == [] then [""]
    else
      var rest := Split(s[1..]);
      if s[0] == '/' then [""] + rest else [[s[0]] + rest[0]] + rest[1..]
  }

  function TrimSlashes(s: string): string
    decreases |s|
  {
    if s != [] && s[0] == '/' then TrimSlashes(s[1..]) else s
  }

  const ANY := "*"
  const ANY_MANY := "**"

  /** `*` stands for one segment, `**` for any number, everything else for itself. */
  predicate SegMatch(pattern: seq<string>, topic: seq<string>)
    decreases |pattern|, |topic|
  {
    if pattern == [] then topic == []
    else if pattern[0] == ANY_MANY then
      |pattern| == 1 || exists skip :: 0 <= skip <= |topic| && SegMatch(pattern[1..], topic[skip..])
    else if pattern[0] == ANY then topic != [] && SegMatch(pattern[1..], topic[1..])
    else topic != [] && topic[0] == pattern[0] && SegMatch(pattern[1..], topic[1..])
  }

  predicate Glob(pattern: string, topic: string) {
    SegMatch(Split(pattern), Split(topic))
  }

  const KV := "kv"

  function Topic(key: string): string {
    KV + ("/" + TrimSlashes(key))
  }

  function Pattern(prefix: string): string {
    KV + ("/" + (TrimSlashes(prefix) + ANY_MANY))
  }

  /** The subscription of a watch lets the key's events through. */
  predicate Hears(env: string, prefix: string, k: Key) {
    k.0 == env && Glob(Pattern(prefix), Topic(k.1))
  }

  /** The prefix ends where a segment does. */
  predicate Aligned(prefix: string) {
    var p := TrimSlashes(prefix);
    p == [] || p[|p| - 1] == '/'
  }

  // ---------------------------------------------------------------- splitting

  /** A character put before a text: a new first segment, or a longer one. */
  function Cons(c: char, segs: seq<string>): seq<string>
    requires segs != []
  {
    if c == '/' then [""] + segs else [[c] + segs[0]] + segs[1..]
  }

  lemma SplitStep(s: string)
    requires s != []
    ensures Split(s) == Cons(s[0], Split(s[1..]))
  {}

  lemma ConsJoins(c: char, a: seq<string>, b: seq<string>)
    requires a != []
    ensures Cons(c, a + b) == Cons(c, a) + b
  {
    assert (a + b)[0] == a[0] && (a + b)[1..] == a[1..] + b;
  }

  lemma ConsFront(c: char, segs: seq<string>, b: string)
    requires segs != []
    ensures Cons(c, Longer(segs, b)) == Longer(Cons(c, segs), b)
  {
    if |segs| == 1 && c != '/' { assert [c] + (segs[0] + b) == ([c] + segs[0]) + b; }
  }

  /** The last segment made longer. */
  function Longer(segs: seq<string>, b: string): seq<string>
    requires segs != []
  {
    segs[..|segs| - 1] + [segs[|segs| - 1] + b]
  }

  lemma {:induction false} SplitJoin(a: string, b: string)
    ensures Split(a + ("/" + b)) == Split(a) + Split(b)
    decreases |a|
  {
    hide Split, Cons;
    var whole := a + ("/" + b);
    if a == [] {
      assert whole == "/" + b;
      SplitSlash(b);
    } else {
      assert whole[0] == a[0] && whole[1..] == a[1..] + ("/" + b);
      SplitStep(whole);
      SplitStep(a);
      SplitJoin(a[1..], b);
      ConsJoins(a[0], Split(a[1..]), Split(b));
    }
  }

  lemma SplitSlash(b: string)
    ensures Split("/" + b) == Split("") + Split(b)
  {
    assert ("/" + b)[1..] == b;
  }

  lemma {:induction false} SplitMore(a: string, b: string)
    requires '/' !in b
    ensures Split(a + b) == Longer(Split(a), b)
    decreases |a|
  {
    hide Split, Cons, Longer;
    if a == [] {
      assert a + b == b;
      OneSegment(b);
      LongerEmpty(b);
    } else {
      assert (a + b)[0] == a[0] && (a + b)[1..] == a[1..] + b;
      SplitStep(a + b);
      SplitStep(a);
      SplitMore(a[1..], b);
      ConsFront(a[0], Split(a[1..]), b);
    }
  }

  lemma LongerEmpty(b: string)
    ensures Longer(Split(""), b) == [b]
  {
    assert "" + b == b;
  }

  function LastSeg(s: string): string {
    var segs := Split(s);
    segs[|segs| - 1]
  }

  lemma LastSegMore(a: string, b: string)
    requires '/' !in b
    ensures LastSeg(a + b) == LastSeg(a) + b
  {
    hide Split;
    SplitMore(a, b);
  }

  lemma {:induction false} OneSegment(b: string)
    requires '/' !in b
    ensures Split(b) == [b]
    decreases |b|
  {
    if b != [] {
      forall c | c in b[1..] ensures c in b {}
      OneSegment(b[1..]);
      assert b == [b[0]] + b[1..];
    }
  }

  lemma {:induction false} LastSegOfWord(s: string)
    requires s != [] && s[|s| - 1] != '/'
    ensures LastSeg(s) != []
    decreases |s|
  {
    var c := s[|s| - 1];
    assert s == s[..|s| - 1] + [c];
    LastSegMore(s[..|s| - 1], [c]);
  }

  lemma {:induction false} TrimMore(prefix: string, rest: string)
    requires TrimSlashes(prefix) != []
    ensures TrimSlashes(prefix + rest) == TrimSlashes(prefix) + rest
    decreases |prefix|
  {
    assert (prefix + rest)[0] == prefix[0] && (prefix + rest)[1..] == prefix[1..] + rest;
    if prefix[0] == '/' { TrimMore(prefix[1..], rest); }
  }

  // ---------------------------------------------------------------- matching

  /** Segments, wildcards or not, match themselves, and `**` the rest. */
  lemma {:induction false} MatchesItself(segs: seq<string>, rest: seq<string>)
    ensures SegMatch(segs + [ANY_MANY], segs + rest)
    decreases |segs|
  {
    var pattern, topic := segs + [ANY_MANY], segs + rest;
    if segs == [] {
      assert pattern == [ANY_MANY];
    } else {
      assert pattern[1..] == segs[1..] + [ANY_MANY] && topic[1..] == segs[1..] + rest;
      MatchesItself(segs[1..], rest);
      if segs[0] == ANY_MANY { assert SegMatch(pattern[1..], topic[1..]); }
    }
  }

  /** `**` stands for any number of segments, none included. */
  lemma ManyIff(rest: seq<string>, topic: seq<string>)
    ensures SegMatch([ANY_MANY] + rest, topic) <==> exists skipped, left :: skipped + left == topic && SegMatch(rest, left)
  {
    var pattern := [ANY_MANY] + rest;
    assert pattern[1..] == rest;
    if rest == [] {
      assert topic + [] == topic && SegMatch(rest, []);
    } else {
      if SegMatch(pattern, topic) {
        var skip :| 0 <= skip <= |topic| && SegMatch(pattern[1..], topic[skip..]);
        assert topic[..skip] + topic[skip..] == topic;
      }
      forall skipped: seq<string>, left: seq<string> | skipped + left == topic && SegMatch(rest, left) ensures SegMatch(pattern, topic) {
        assert topic[|skipped|..] == left;
      }
    }
  }

  /** A pattern that ends in a plain segment matches only topics that end in it. */
  lemma {:induction false} EndsTheSame(pattern: seq<string>, topic: seq<string>)
    requires pattern != [] && SegMatch(pattern, topic)
    requires pattern[|pattern| - 1] != ANY && pattern[|pattern| - 1] != ANY_MANY
    ensures topic != [] && topic[|topic| - 1] == pattern[|pattern| - 1]
    decreases |pattern|
  {
    if pattern[0] == ANY_MANY {
      var skip :| 0 <= skip <= |topic| && SegMatch(pattern[1..], topic[skip..]);
      EndsTheSame(pattern[1..], topic[skip..]);
    } else if |pattern| > 1 {
      EndsTheSame(pattern[1..], topic[1..]);
    } else {
      assert pattern[1..] == [] && topic[1..] == [];
    }
  }

  lemma AlignedHears(env: string, prefix: string, k: Key)
    requires Aligned(prefix) && Under(k, env, prefix)
    ensures Hears(env, prefix, k)
  {
    hide SegMatch, Split;
    var p := TrimSlashes(prefix);
    var rest := k.1[|prefix|..];
    assert k.1 == prefix + rest;
    OneSegment(KV);
    OneSegment(ANY_MANY);
    if p == [] {
      assert p + ANY_MANY == ANY_MANY;
      SplitJoin(KV, ANY_MANY);
      SplitJoin(KV, TrimSlashes(k.1));
      MatchesItself([KV], Split(TrimSlashes(k.1)));
    } else {
      TrimMore(prefix, rest);
      var q := p[..|p| - 1];
      assert p == q + "/";
      assert p + ANY_MANY == q + ("/" + ANY_MANY) && p + rest == q + ("/" + rest);
      SplitJoin(q, ANY_MANY);
      SplitJoin(q, rest);
      SplitJoin(KV, p + ANY_MANY);
      SplitJoin(KV, p + rest);
      assert [KV] + (Split(q) + [ANY_MANY]) == ([KV] + Split(q)) + [ANY_MANY];
      assert [KV] + (Split(q) + Split(rest)) == ([KV] + Split(q)) + Split(rest);
      MatchesItself([KV] + Split(q), Split(rest));
    }
  }

  /** In the middle of a segment the stars are no wildcard: only keys whose last segment is written out
      in the pattern, stars and all, are heard. */
  lemma UnalignedHearsLiterally(env: string, prefix: string, k: Key)
    requires !Aligned(prefix) && Hears(env, prefix, k)
    ensures LastSeg(TrimSlashes(k.1)) == LastSeg(TrimSlashes(prefix)) + ANY_MANY
  {
    hide SegMatch, Split;
    var p := TrimSlashes(prefix);
    LastSegOfWord(p);
    LastSegMore(p, ANY_MANY);
    SplitJoin(KV, p + ANY_MANY);
    SplitJoin(KV, TrimSlashes(k.1));
    EndsTheSame(Split(Pattern(prefix)), Split(Topic(k.1)));
  }

  lemma PrefixItselfUnheard(env: string, prefix: string)
    requires !Aligned(prefix)
    ensures Under((env, prefix), env, prefix) && !Hears(env, prefix, (env, prefix))
  {
    hide Hears, Aligned, LastSeg;
    assert |LastSeg(TrimSlashes(prefix)) + ANY_MANY| == |LastSeg(TrimSlashes(prefix))| + 2;
    if Hears(env, prefix, (env, prefix)) { UnalignedHearsLiterally(env, prefix, (env, prefix)); }
  }

  /** A watch hears every key under its prefix exactly when the prefix, leading slashes aside, is empty or
      ends in a slash. */
  lemma HearsItsPrefixIff(env: string, prefix: string)
    ensures (forall k :: Under(k, env, prefix) ==> Hears(env, prefix, k)) <==> Aligned(prefix)
  {
    hide Hears, Aligned;
    if Aligned(prefix) {
      forall k | Under(k, env, prefix) ensures Hears(env, prefix, k) { AlignedHears(env, prefix, k); }
    } else {
      PrefixItselfUnheard(env, prefix);
    }
  }
}
