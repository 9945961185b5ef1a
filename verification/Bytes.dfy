/** Byte-string helpers: what the harness uses of its language's string library. */
module Bytes {
  import opened Conversation

  /** `p` stands in `s` at `i`. */
  predicate OccursAt(s: string, p: string, i: nat) {
    i + |p| <= |s| && forall k :: 0 <= k < |p| ==> s[i + k] == p[k]
  }

  predicate Contains(s: string, p: string) {
    exists i :: 0 <= i <= |s| && OccursAt(s, p, i)
  }

  /** The parts before and after the first occurrence of `p`. */
  function SplitOnce(s: string, p: string): (r: Option<(string, string)>)
    ensures r.Some? ==> s == r.value.0 + p + r.value.1
  {
    SplitFrom(s, p, 0)
  }

  function SplitFrom(s: string, p: string, i: nat): (r: Option<(string, string)>)
    requires i <= |s|
    ensures r.Some? ==> s == r.value.0 + p + r.value.1
    decreases |s| - i
  {
    if OccursAt(s, p, i) then
      assert s == s[..i] + p + s[i + |p|..];
      Some((s[..i], s[i + |p|..]))
    else if i == |s| then None
    else SplitFrom(s, p, i + 1)
  }

  lemma {:induction false} SplitFromAt(s: string, p: string, i: nat, at: nat)
    requires i <= at <= |s| && OccursAt(s, p, at)
    requires forall k :: i <= k < at ==> !OccursAt(s, p, k)
    ensures SplitFrom(s, p, i) == Some((s[..at], s[at + |p|..]))
    decreases at - i
  {
    if i < at {
      SplitFromAt(s, p, i + 1, at);
      assert !OccursAt(s, p, i) && SplitFrom(s, p, i) == SplitFrom(s, p, i + 1);
    } else {
      assert OccursAt(s, p, i) && SplitFrom(s, p, i) == Some((s[..i], s[i + |p|..]));
    }
  }

  lemma {:induction false} SplitFromNone(s: string, p: string, i: nat)
    requires i <= |s|
    requires forall k :: i <= k <= |s| ==> !OccursAt(s, p, k)
    ensures SplitFrom(s, p, i) == None
    decreases |s| - i
  {
    if i < |s| {
      SplitFromNone(s, p, i + 1);
    }
  }

  function StripPrefix(s: string, p: string): Option<string> {
    if p <= s then Some(s[|p|..]) else None
  }

  predicate EndsWith(s: string, p: string) {
    |p| <= |s| && s[|s| - |p|..] == p
  }

  function StripSuffix(s: string, p: string): Option<string> {
    if EndsWith(s, p) then Some(s[..|s| - |p|]) else None
  }

  // ----------------------------------------------------------------- decimals

  function Digit(n: nat): char
    requires n < 10
  {
    '0' + n as char
  }

  predicate IsDigit(c: char) {
    '0' <= c <= '9'
  }

  /** A number as it prints. */
  function Decimal(n: nat): (s: string)
    ensures |s| > 0 && (forall i :: 0 <= i < |s| ==> IsDigit(s[i]))
    ensures |s| <= n / 10 + 1
  {
    if n < 10 then [Digit(n)] else Decimal(n / 10) + [Digit(n % 10)]
  }

  /** A number as it is read back: digits, with a plus sign allowed before them. */
  function ParseDecimal(s: string): Option<nat> {
    var digits := if s != "" && s[0] == '+' then s[1..] else s;
    if digits == "" then None else DigitsValue(digits)
  }

  function DigitsValue(s: string): Option<nat> {
    if s == "" then Some(0)
    else
      var n := |s| - 1;
      var high := DigitsValue(s[..n]);
      if high.Some? && IsDigit(s[n]) then Some(10 * high.value + (s[n] - '0') as nat) else None
  }

  lemma {:induction false} DecimalValue(n: nat)
    ensures DigitsValue(Decimal(n)) == Some(n)
  {
    var s := Decimal(n);
    if n < 10 {
      assert s[..0] == "";
    } else {
      DecimalValue(n / 10);
      assert s[..|s| - 1] == Decimal(n / 10);
    }
  }

  lemma DecimalReadsBack(n: nat)
    ensures ParseDecimal(Decimal(n)) == Some(n)
  {
    DecimalValue(n);
    assert IsDigit(Decimal(n)[0]);
  }

  lemma {:induction false} NotADecimal(s: string, i: nat)
    requires i < |s| && !IsDigit(s[i])
    ensures DigitsValue(s) == None
  {
    var n := |s| - 1;
    if i < n {
      NotADecimal(s[..n], i);
    }
  }
}
