/** JavaScript values as the client code uses them: nullable fields, the
    truthiness tests its guards rely on, `toLowerCase` on addresses,
    `Array.prototype.some` over address lists, `String.prototype.includes`
    and decimal rendering of integers. */
module JsValues {

  datatype Option<+T> = None | Some(value: T)

  /** `if (s)` on a nullable string: null and "" are both falsy. */
  predicate Truthy(o: Option<string>) {
    o.Some? && o.value != ""
  }

  /** `if (n)` on a nullable number or BigInt: null and 0 are both falsy. */
  predicate TruthyInt(o: Option<int>) {
    o.Some? && o.value != 0
  }

  /** `toLowerCase` on one character; addresses are ASCII hex, so only A-Z fold. */
  function LowerChar(c: char): (r: char)
    ensures 'A' <= c <= 'Z' ==> r as int == c as int + 32
    ensures !('A' <= c <= 'Z') ==> r == c
    ensures !('A' <= r <= 'Z')
  {
    if 'A' <= c <= 'Z' then (c as int + 32) as char else c
  }

  function Lower(s: string): (r: string)
    ensures |r| == |s|
    ensures forall i :: 0 <= i < |s| ==> r[i] == LowerChar(s[i])
  {
    if s == [] then [] else [LowerChar(s[0])] + Lower(s[1..])
  }

  /** Lower-casing twice is lower-casing once. */
  lemma LowerIdempotent(s: string)
    ensures Lower(Lower(s)) == Lower(s)
  {
    var l := Lower(s);
    assert forall i :: 0 <= i < |l| ==> LowerChar(l[i]) == l[i];
  }

  /** Two strings compare equal case-insensitively iff they agree at each
      position up to folding A-Z. */
  predicate SameIgnoringCase(a: string, b: string) {
    Lower(a) == Lower(b)
  }

  /** `list.some(x => x.toLowerCase() === a.toLowerCase())`. */
  function ContainsIgnoringCase(list: seq<string>, a: string): (r: bool)
    ensures r <==> exists i :: 0 <= i < |list| && SameIgnoringCase(list[i], a)
  {
    if list == [] then false
    else SameIgnoringCase(list[0], a) || ContainsIgnoringCase(list[1..], a)
  }

  /** The membership test ignores the case of the address looked up. */
  lemma ContainsIgnoresCaseOfKey(list: seq<string>, a: string)
    ensures ContainsIgnoringCase(list, a) == ContainsIgnoringCase(list, Lower(a))
  {
    LowerIdempotent(a);
  }

  /** `sub` occurs in `s` starting at index `i`. */
  predicate OccursAt(s: string, sub: string, i: int) {
    0 <= i <= |s| - |sub| && s[i..i + |sub|] == sub
  }

  /** `s.includes(sub)`. */
  predicate Includes(s: string, sub: string) {
    exists i :: 0 <= i <= |s| - |sub| && OccursAt(s, sub, i)
  }

  /** A string that includes `a + b` includes `b`. */
  lemma IncludesSuffix(s: string, a: string, b: string)
    requires Includes(s, a + b)
    ensures Includes(s, b)
  {
    var i :| 0 <= i <= |s| - |a + b| && OccursAt(s, a + b, i);
    assert s[i..i + |a + b|] == a + b;
    var j := i + |a|;
    assert s[j..j + |b|] == s[i..i + |a + b|][|a|..];
    assert (a + b)[|a|..] == b;
    assert OccursAt(s, b, j);
  }

  /** Every string includes itself. */
  lemma IncludesSelf(s: string)
    ensures Includes(s, s)
  {
    assert s[0..|s|] == s;
    assert OccursAt(s, s, 0);
  }

  function DigitChar(d: nat): (c: char)
    requires d < 10
    ensures '0' <= c <= '9' && c as int - '0' as int == d
  {
    ('0' as int + d) as char
  }

  /** `String(n)` for a natural number. */
  function NatToDecimal(n: nat): (r: string)
    ensures |r| >= 1
    ensures forall i :: 0 <= i < |r| ==> '0' <= r[i] <= '9'
    decreases n
  {
    if n < 10 then [DigitChar(n)] else NatToDecimal(n / 10) + [DigitChar(n % 10)]
  }

  /** The value of a string of decimal digits. */
  function DecimalValue(s: string): int
    decreases |s|
  {
    if s == [] then 0 else DecimalValue(s[..|s| - 1]) * 10 + (s[|s| - 1] as int - '0' as int)
  }

  /** Reading back a rendered natural number gives the number. */
  lemma {:induction false} NatToDecimalRoundTrip(n: nat)
    ensures DecimalValue(NatToDecimal(n)) == n
    decreases n
  {
    if n >= 10 {
      NatToDecimalRoundTrip(n / 10);
      var s := NatToDecimal(n);
      assert s[..|s| - 1] == NatToDecimal(n / 10);
    }
  }

  /** `String(n)` for any integer. */
  function IntToDecimal(n: int): (r: string)
    ensures |r| >= 1
  {
    if n < 0 then "-" + NatToDecimal(-n) else NatToDecimal(n)
  }

  /** The value of a rendered integer: an optional '-' and decimal digits. */
  function SignedDecimalValue(s: string): int {
    if |s| > 0 && s[0] == '-' then -DecimalValue(s[1..]) else DecimalValue(s)
  }

  /** Reading back a rendered integer gives the integer. */
  lemma IntToDecimalRoundTrip(n: int)
    ensures SignedDecimalValue(IntToDecimal(n)) == n
  {
    var s := IntToDecimal(n);
    if n < 0 {
      assert s[1..] == NatToDecimal(-n);
      NatToDecimalRoundTrip(-n);
    } else {
      assert s[0] != '-';
      NatToDecimalRoundTrip(n);
    }
  }

  /** Distinct integers render as distinct strings. */
  lemma IntToDecimalInjective(m: int, n: int)
    requires IntToDecimal(m) == IntToDecimal(n)
    ensures m == n
  {
    IntToDecimalRoundTrip(m);
    IntToDecimalRoundTrip(n);
  }

  /** `String(n).padStart(2, "0")` for a number below 100. */
  function PadTwo(n: nat): (r: string)
    requires n < 100
    ensures |r| == 2
    ensures forall i :: 0 <= i < 2 ==> '0' <= r[i] <= '9'
  {
    [DigitChar(n / 10), DigitChar(n % 10)]
  }

  /** A padded two-digit rendering reads back as the number. */
  lemma PadTwoRoundTrip(n: nat)
    requires n < 100
    ensures DecimalValue(PadTwo(n)) == n
  {
    var r := PadTwo(n);
    var hi := [DigitChar(n / 10)];
    assert r[..1] == hi;
    assert hi[..0] == [];
    assert DecimalValue(hi) == n / 10;
    assert DecimalValue(r) == DecimalValue(hi) * 10 + n % 10;
  }

  /** `s.substring(start)` with JavaScript's clamping of out-of-range indexes. */
  function SubstringFrom(s: string, start: int): (r: string)
    ensures |r| <= |s|
    ensures r == s[if start < 0 then 0 else if start > |s| then |s| else start..]
  {
    if start <= 0 then s else if start >= |s| then "" else s[start..]
  }

  /** `s.substring(0, end)` with JavaScript's clamping. */
  function SubstringTo(s: string, end: int): (r: string)
    ensures |r| <= |s|
    ensures r == s[..if end < 0 then 0 else if end > |s| then |s| else end]
  {
    if end <= 0 then "" else if end >= |s| then s else s[..end]
  }
}
