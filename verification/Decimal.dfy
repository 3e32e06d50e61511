/** The decimal text of an `i64`, as `to_string` writes it and `trim().parse::<i64>()` reads it. */
module Decimal {
  import opened Prelude

  const I64_MIN: int := -0x8000_0000_0000_0000
  const I64_MAX: int := 0x7FFF_FFFF_FFFF_FFFF

  predicate InI64(n: int) {
    I64_MIN <= n <= I64_MAX
  }

  /** Two's-complement wrap-around of an `i64` addition. */
  function Wrap64(n: int): (r: int)
    ensures InI64(r) && (r - n) % 0x1_0000_0000_0000_0000 == 0
    ensures InI64(n) ==> r == n
  {
    (n - I64_MIN) % 0x1_0000_0000_0000_0000 + I64_MIN
  }

  predicate IsSpace(c: char) {
    var n := c as int;
    9 <= n <= 13 || n == 32 || n == 0x85 || n == 0xA0 || n == 0x1680 || 0x2000 <= n <= 0x200A
    || n == 0x2028 || n == 0x2029 || n == 0x202F || n == 0x205F || n == 0x3000
  }

  predicate IsDigit(c: char) {
    '0' <= c <= '9'
  }

  function TrimStart(s: string): string {
    if s != [] && IsSpace(s[0]) then TrimStart(s[1..]) else s
  }

  function TrimEnd(s: string): string {
    if s != [] && IsSpace(s[|s| - 1]) then TrimEnd(s[..|s| - 1]) else s
  }

  function Trim(s: string): string {
    TrimEnd(TrimStart(s))
  }

  /** The value of a run of digits, most significant first. */
  function Digits(s: string): nat
    requires forall c <- s :: IsDigit(c)
  {
    if s == [] then 0 else assert IsDigit(s[|s| - 1]); Digits(s[..|s| - 1]) * 10 + (s[|s| - 1] as int - '0' as int)
  }

  function Parse(text: string): Option<int> {
    var s := Trim(text);
    var signed := s != [] && (s[0] == '-' || s[0] == '+');
    var body := if signed then s[1..] else s;
    if body == [] || !(forall c <- body :: IsDigit(c)) then None
    else
      var m: int := Digits(body);
      var n := if signed && s[0] == '-' then -m else m;
      if InI64(n) then Some(n) else None
  }

  function RenderNat(n: nat): (s: string)
    ensures s != [] && forall c <- s :: IsDigit(c)
    ensures Digits(s) == n
  {
    var last := ('0' as int + n % 10) as char;
    assert IsDigit(last);
    if n < 10 then [last]
    else
      var s := RenderNat(n / 10) + [last];
      assert s[..|s| - 1] == RenderNat(n / 10);
      s
  }

  function Render(n: int): string {
    if n < 0 then "-" + RenderNat(-n) else RenderNat(n)
  }

  lemma RenderParses(n: int)
    requires InI64(n)
    ensures Parse(Render(n)) == Some(n)
  {
    var s := Render(n);
    var d := RenderNat(if n < 0 then -n else n);
    assert forall c <- d :: IsDigit(c) && !IsSpace(c);
    assert s[|s| - 1] == d[|d| - 1];
    assert d[|d| - 1] in d;
    assert d[0] in d;
    assert Trim(s) == s;
    if n < 0 { assert s[1..] == d; }
  }
}
