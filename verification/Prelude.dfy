/** The failure-carrying datatypes shared by every module. */
module Prelude {

  datatype Option<+T> = None | Some(value: T)

  datatype Result<+R, +E> = Success(value: R) | Failure(error: E)

  function Max(a: int, b: int): int {
    if a < b then b else a
  }

  function Min(a: int, b: int): int {
    if a < b then a else b
  }
}

/** Strict total orders, and the sort-and-dedup that the Rust code takes from its library. */
module Ordering {

  ghost predicate StrictTotal<T(!new)>(less: (T, T) -> bool) {
    && (forall x :: !less(x, x))
    && (forall x, y, z :: less(x, y) && less(y, z) ==> less(x, z))
    && (forall x, y :: x == y || less(x, y) || less(y, x))
  }

  predicate Sorted<T>(less: (T, T) -> bool, s: seq<T>) {
    forall i, j :: 0 <= i < j < |s| ==> less(s[i], s[j])
  }

  function Insert<T(==)>(less: (T, T) -> bool, x: T, s: seq<T>): seq<T> {
    if s == [] then [x]
    else if x == s[0] then s
    else if less(x, s[0]) then [x] + s
    else [s[0]] + Insert(less, x, s[1..])
  }

  function SortDedup<T(==)>(less: (T, T) -> bool, s: seq<T>): seq<T> {
    if s == [] then [] else Insert(less, s[0], SortDedup(less, s[1..]))
  }

  lemma {:induction false} InsertKeepsOrder<T(!new)>(less: (T, T) -> bool, x: T, s: seq<T>)
    requires StrictTotal(less) && Sorted(less, s)
    ensures Sorted(less, Insert(less, x, s))
    ensures forall y :: y in Insert(less, x, s) <==> y == x || y in s
  {
    if s != [] && x != s[0] && !less(x, s[0]) {
      InsertKeepsOrder(less, x, s[1..]);
      var rest := Insert(less, x, s[1..]);
      forall i | 0 <= i < |rest| ensures less(s[0], rest[i]) {
        assert rest[i] in rest;
        if rest[i] != x {
          var k :| 0 <= k < |s[1..]| && s[1..][k] == rest[i];
          assert s[k + 1] == rest[i];
        }
      }
      assert forall y :: y in s <==> y == s[0] || y in s[1..];
    }
  }

  lemma {:induction false} SortDedupIsSorted<T(!new)>(less: (T, T) -> bool, s: seq<T>)
    requires StrictTotal(less)
    ensures Sorted(less, SortDedup(less, s))
    ensures forall y :: y in SortDedup(less, s) <==> y in s
  {
    if s != [] {
      SortDedupIsSorted(less, s[1..]);
      InsertKeepsOrder(less, s[0], SortDedup(less, s[1..]));
      assert forall y :: y in s <==> y == s[0] || y in s[1..];
    }
  }

  /** A strictly sorted sequence is determined by the set of its elements. */
  lemma {:induction false} SortedIsUnique<T(!new)>(less: (T, T) -> bool, a: seq<T>, b: seq<T>)
    requires StrictTotal(less) && Sorted(less, a) && Sorted(less, b)
    requires forall y :: y in a <==> y in b
    ensures a == b
  {
    assert b == [] || b[0] in b;
    if a != [] {
      assert a[0] in b;
      assert b[0] in a;
      var i :| 0 <= i < |b| && b[i] == a[0];
      var j :| 0 <= j < |a| && a[j] == b[0];
      assert a[0] == b[0];
      forall y ensures y in a[1..] <==> y in b[1..] {
        TailMembers(less, a, y);
        TailMembers(less, b, y);
      }
      SortedIsUnique(less, a[1..], b[1..]);
      assert a == [a[0]] + a[1..] && b == [b[0]] + b[1..];
    }
  }

  lemma TailMembers<T(!new)>(less: (T, T) -> bool, a: seq<T>, y: T)
    requires StrictTotal(less) && Sorted(less, a) && a != []
    ensures y in a[1..] <==> y in a && y != a[0]
  {
    assert a == [a[0]] + a[1..];
    if y in a[1..] {
      var i :| 0 <= i < |a[1..]| && a[1..][i] == y;
      assert a[i + 1] == y;
    }
  }

  lemma SortedHasNoRepeats<T(!new)>(less: (T, T) -> bool, a: seq<T>, i: nat, j: nat)
    requires StrictTotal(less) && Sorted(less, a) && i < j < |a|
    ensures a[i] != a[j]
  {
    assert less(a[i], a[j]);
  }

  /** String order as Rust compares strings: code point by code point, a proper prefix first. */
  predicate TextLess(a: string, b: string) {
    b != [] && (a == [] || a[0] < b[0] || (a[0] == b[0] && TextLess(a[1..], b[1..])))
  }

  predicate PairLess(a: (string, string), b: (string, string)) {
    TextLess(a.0, b.0) || (a.0 == b.0 && TextLess(a.1, b.1))
  }

  lemma {:induction false} TextLessIrreflexive(a: string)
    ensures !TextLess(a, a)
  {
    if a != [] { TextLessIrreflexive(a[1..]); }
  }

  lemma {:induction false} TextLessTransitive(a: string, b: string, c: string)
    requires TextLess(a, b) && TextLess(b, c)
    ensures TextLess(a, c)
  {
    if a != [] && a[0] == b[0] && b[0] == c[0] {
      TextLessTransitive(a[1..], b[1..], c[1..]);
    }
  }

  lemma {:induction false} TextLessTotal(a: string, b: string)
    ensures a == b || TextLess(a, b) || TextLess(b, a)
  {
    if a != [] && b != [] && a[0] == b[0] {
      TextLessTotal(a[1..], b[1..]);
      assert a == [a[0]] + a[1..] && b == [b[0]] + b[1..];
    }
  }

  lemma TextOrder()
    ensures StrictTotal(TextLess)
  {
    forall x ensures !TextLess(x, x) { TextLessIrreflexive(x); }
    forall x, y, z | TextLess(x, y) && TextLess(y, z) ensures TextLess(x, z) { TextLessTransitive(x, y, z); }
    forall x, y ensures x == y || TextLess(x, y) || TextLess(y, x) { TextLessTotal(x, y); }
  }

  lemma PairOrder()
    ensures StrictTotal(PairLess)
  {
    TextOrder();
    forall x, y, z | PairLess(x, y) && PairLess(y, z) ensures PairLess(x, z) {}
    forall x, y ensures x == y || PairLess(x, y) || PairLess(y, x) {}
  }
}
