/** Text helpers: decimal numerals and letter case. */
module Text {

  datatype Option<+T> = None | Some(value: T)

  predicate IsDigit(c: char) {
    '0' <= c <= '9'
  }

  /** The decimal numeral of `n`. */
  function Decimal(n: nat): (s: string)
    ensures s != [] && forall c :: c in s ==> IsDigit(c)
  {
    var last := [('0' as int + n % 10) as char];
    if n < 10 then last else Decimal(n / 10) + last
  }

  function ParseDigits(s: string, acc: nat): Option<nat> {
    if s == [] then Some(acc)
    else if !IsDigit(s[0]) then None
    else ParseDigits(s[1..], 10 * acc + (s[0] as int - '0' as int))
  }

  /** Reads a non-empty string of digits. */
  function ParseDecimal(s: string): Option<nat> {
    if s == [] then None else ParseDigits(s, 0)
  }

  lemma {:induction false} ParseDigitsSplit(a: string, b: string, acc: nat)
    requires ParseDigits(a, acc).Some?
    ensures ParseDigits(a + b, acc) == ParseDigits(b, ParseDigits(a, acc).value)
    decreases |a|
  {
    if a == [] {
      assert a + b == b;
    } else {
      assert (a + b)[1..] == a[1..] + b;
      ParseDigitsSplit(a[1..], b, 10 * acc + (a[0] as int - '0' as int));
    }
  }

  lemma {:induction false} ParseDecimalRoundTrip(n: nat)
    ensures ParseDecimal(Decimal(n)) == Some(n)
  {
    var last := [('0' as int + n % 10) as char];
    assert last[1..] == [];
    if n < 10 {
      assert ParseDigits(last, 0) == ParseDigits([], n);
    } else {
      ParseDecimalRoundTrip(n / 10);
      ParseDigitsSplit(Decimal(n / 10), last, 0);
      assert ParseDigits(last, n / 10) == ParseDigits([], 10 * (n / 10) + n % 10);
    }
  }

  /** ASCII letter case; identifiers on the wire are ASCII. */
  function LowerChar(c: char): char {
    if 'A' <= c <= 'Z' then (c as int - 'A' as int + 'a' as int) as char else c
  }

  function Lower(s: string): (r: string)
    ensures |r| == |s|
    ensures forall k :: 0 <= k < |s| ==> r[k] == LowerChar(s[k])
  {
    if s == [] then [] else [LowerChar(s[0])] + Lower(s[1..])
  }

  predicate EqualFold(a: string, b: string) {
    Lower(a) == Lower(b)
  }

  lemma LowerIdempotent(s: string)
    ensures Lower(Lower(s)) == Lower(s)
  {
  }

  predicate IsSpace(c: char) {
    c in {' ', '\t', '\n', '\r'}
  }

  /** The text without white space at its ends. */
  function Trim(s: string): string {
    if s == "" then ""
    else if IsSpace(s[0]) then Trim(s[1..])
    else if IsSpace(s[|s| - 1]) then Trim(s[..|s| - 1])
    else s
  }

  lemma TrimSame(s: string)
    requires forall k :: 0 <= k < |s| ==> !IsSpace(s[k])
    ensures Trim(s) == s
  {
  }

  /** Reads a whole number with an optional sign. */
  function ParseInt(s: string): Option<int> {
    if s != "" && s[0] in {'+', '-'} then
      match ParseDecimal(s[1..])
      case None => None
      case Some(n) =>
        var v: int := if s[0] == '-' then 0 - n else n;
        Some(v)
    else
      match ParseDecimal(s)
      case None => None
      case Some(n) => Some(n)
  }

  lemma ParseIntRoundTrip(n: nat)
    ensures ParseInt(Trim(Decimal(n))) == Some(n)
  {
    var s := Decimal(n);
    forall k | 0 <= k < |s| ensures IsDigit(s[k]) {
      assert s[k] in s;
    }
    TrimSame(s);
    ParseDecimalRoundTrip(n);
  }
}
