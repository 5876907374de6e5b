/** JSON integers of any size, converted in groups of digits that Python's limit on decimal
    conversions allows. */
module JsonIntegers {
  import opened Protocol

  // ---------------------------------------------------------------- decimal text

  predicate IsDigit(c: char) {
    '0' <= c <= '9'
  }

  predicate AllDigits(s: string) {
    forall i :: 0 <= i < |s| ==> IsDigit(s[i])
  }

  function DigitValue(c: char): nat
    requires IsDigit(c)
  {
    (c - '0') as nat
  }

  function DigitChar(d: nat): (c: char)
    requires d < 10
    ensures IsDigit(c) && DigitValue(c) == d
  {
    '0' + d as char
  }

  /** The number a digit string denotes; leading zeros do not matter. */
  function NatValue(s: string): nat
    requires AllDigits(s)
    decreases |s|
  {
    if s == "" then 0 else 10 * NatValue(s[..|s| - 1]) + DigitValue(s[|s| - 1])
  }

  function NatText(n: nat): (s: string)
    ensures s != "" && AllDigits(s)
  {
    if n < 10 then [DigitChar(n)] else NatText(n / 10) + [DigitChar(n % 10)]
  }

  /** No digit could be left out at the front. */
  predicate Canonical(s: string) {
    s != "" && AllDigits(s) && (|s| > 1 ==> s[0] != '0')
  }

  /** The integers of section 6 of RFC 8259. */
  predicate IsInteger(s: string) {
    Canonical(if s != "" && s[0] == '-' then s[1..] else s)
  }

  function IntValue(s: string): int
    requires IsInteger(s)
  {
    if s[0] == '-' then 0 - NatValue(s[1..]) else NatValue(s)
  }

  function IntText(n: int): string {
    if n < 0 then "-" + NatText(-n) else NatText(n)
  }

  // ---------------------------------------------------------------- the two are inverse

  lemma {:induction false} TextHasValue(n: nat)
    ensures NatValue(NatText(n)) == n
    ensures Canonical(NatText(n)) && (n > 0 ==> NatText(n)[0] != '0')
  {
    if n >= 10 {
      TextHasValue(n / 10);
      assert NatText(n)[..|NatText(n)| - 1] == NatText(n / 10);
    } else {
      assert NatText(n)[..0] == "";
    }
  }

  lemma {:induction false} ValueHasText(s: string)
    requires Canonical(s)
    ensures NatText(NatValue(s)) == s
    ensures s[0] != '0' ==> NatValue(s) > 0
    decreases |s|
  {
    var front := s[..|s| - 1];
    if front != "" {
      ValueHasText(front);
      assert s == front + [s[|s| - 1]];
    } else {
      assert s == [s[0]] && NatValue(front) == 0;
    }
  }

  /** Writing an integer and reading it back is the identity, for every integer. */
  lemma IntegerRoundTrip(n: int)
    ensures IsInteger(IntText(n)) && IntValue(IntText(n)) == n
  {
    TextHasValue(if n < 0 then -n else n);
    if n < 0 {
      assert IntText(n)[1..] == NatText(-n);
    }
  }

  /** Reading a JSON integer and writing it back is the identity, except for "-0". */
  lemma TextRoundTrip(s: string)
    requires IsInteger(s)
    ensures IntText(IntValue(s)) == s <==> s != "-0"
  {
    if s[0] == '-' {
      ValueHasText(s[1..]);
      assert s == "-" + s[1..];
      if s[1] == '0' {
        assert s[1..] == "0" && NatValue(s[1..]) == 0;
      }
    } else {
      ValueHasText(s);
    }
  }

  // ---------------------------------------------------------------- groups of digits

  function Pow10(k: nat): (p: nat)
    ensures p > 0
  {
    if k == 0 then 1 else 10 * Pow10(k - 1)
  }

  lemma {:induction false} ValueOfGroups(a: string, b: string)
    requires AllDigits(a) && AllDigits(b)
    ensures NatValue(a + b) == NatValue(a) * Pow10(|b|) + NatValue(b)
    decreases |b|
  {
    if b == "" {
      assert a + b == a;
    } else {
      var front := b[..|b| - 1];
      ValueOfGroups(a, front);
      assert (a + b)[..|a + b| - 1] == a + front;
      assert NatValue(a + b) == 10 * NatValue(a + front) + DigitValue(b[|front|]);
      Distribute(NatValue(a), Pow10(|front|), NatValue(front));
      assert Pow10(|b|) == 10 * Pow10(|front|);
    }
  }

  lemma Distribute(a: nat, p: nat, v: nat)
    ensures 10 * (a * p + v) == a * (10 * p) + 10 * v
  {
  }

  /** `str.zfill`. */
  function ZeroFilled(s: string, d: nat): (filled: string)
    requires AllDigits(s)
    ensures AllDigits(filled)
    decreases d
  {
    if |s| >= d then s else "0" + ZeroFilled(s, d - 1)
  }

  lemma LeadingZero(s: string)
    requires AllDigits(s)
    ensures AllDigits("0" + s) && NatValue("0" + s) == NatValue(s)
  {
    ValueOfGroups("0", s);
    assert NatValue("0") == 0 by {
      assert "0"[..0] == "";
    }
  }

  lemma {:induction false} FillingKeepsValue(s: string, d: nat)
    requires AllDigits(s)
    ensures NatValue(ZeroFilled(s, d)) == NatValue(s)
    ensures |ZeroFilled(s, d)| == if |s| < d then d else |s|
    decreases d
  {
    if |s| < d {
      FillingKeepsValue(s, d - 1);
      LeadingZero(ZeroFilled(s, d - 1));
    }
  }

  lemma {:induction false} SmallIsShort(n: nat, d: nat)
    requires d >= 1 && n < Pow10(d)
    ensures |NatText(n)| <= d
    decreases d
  {
    if n >= 10 {
      assert d > 1;
      SmallIsShort(n / 10, d - 1);
    }
  }

  /** `divmod` on natural numbers. */
  function DivMod(n: nat, p: nat): (r: (nat, nat))
    requires p > 0
    ensures r.0 * p + r.1 == n && r.1 < p
    decreases n
  {
    if n < p then (0, n)
    else
      var (q, r) := DivMod(n - p, p);
      (q + 1, r)
  }

  lemma QuotientBounds(n: nat, p: nat)
    requires p > 0
    ensures n >= p <==> DivMod(n, p).0 > 0
    ensures n < p ==> DivMod(n, p) == (0, n)
    ensures p > 1 && n > 0 ==> DivMod(n, p).0 < n
  {
    var q := DivMod(n, p).0;
    Doubles(q, p);
  }

  lemma Doubles(q: nat, p: nat)
    ensures p > 1 ==> q * p >= q + q
  {
  }

  /** The text of a number is the text of its upper part and the zero-filled text of its
      lower `d` digits. */
  lemma SplitText(n: nat, d: nat)
    requires d >= 1 && n >= Pow10(d)
    ensures NatText(n) == NatText(DivMod(n, Pow10(d)).0) + ZeroFilled(NatText(DivMod(n, Pow10(d)).1), d)
  {
    var (q, r) := DivMod(n, Pow10(d));
    QuotientBounds(n, Pow10(d));
    TextHasValue(q);
    TextHasValue(r);
    SmallIsShort(r, d);
    FillingKeepsValue(NatText(r), d);
    SplitValue(NatText(q), ZeroFilled(NatText(r), d), n, Pow10(d));
    ValueHasText(NatText(q) + ZeroFilled(NatText(r), d));
  }

  lemma SplitValue(upper: string, lower: string, n: nat, p: nat)
    requires AllDigits(upper) && AllDigits(lower) && p > 0 && Pow10(|lower|) == p
    requires (NatValue(upper), NatValue(lower)) == DivMod(n, p)
    ensures NatValue(upper + lower) == n
  {
    ValueOfGroups(upper, lower);
  }

  // ---------------------------------------------------------------- the interpreter's own conversions

  /** `sys.set_int_max_str_digits`: no limit, or at least 640. */
  predicate IsDigitLimit(limit: nat) {
    limit == 0 || limit >= 640
  }

  predicate WithinLimit(digits: nat, limit: nat) {
    limit == 0 || digits <= limit
  }

  /** `int` of a digit string; None is ValueError. */
  function NativeValue(s: string, limit: nat): Option<nat>
    requires AllDigits(s)
  {
    if WithinLimit(|s|, limit) then Some(NatValue(s)) else None
  }

  function NativeText(n: nat, limit: nat): Option<string> {
    if WithinLimit(|NatText(n)|, limit) then Some(NatText(n)) else None
  }

  // ---------------------------------------------------------------- _parse_int and _integer_text

  const DIGITS: nat := 500

  function Min(a: nat, b: nat): nat {
    if a < b then a else b
  }

  /** The fallback loop of `_parse_int`: groups of `d` digits, from the left. */
  method ParseGroups(digits: string, d: nat, limit: nat) returns (value: nat)
    requires AllDigits(digits) && d >= 1 && WithinLimit(d, limit)
    ensures value == NatValue(digits)
  {
    value := 0;
    var offset := 0;
    while offset < |digits|
      invariant offset <= |digits| && value == NatValue(digits[..offset])
    {
      var group := digits[offset..Min(offset + d, |digits|)];
      var small := NativeValue(group, limit);
      assert digits[..offset] + group == digits[..Min(offset + d, |digits|)];
      ValueOfGroups(digits[..offset], group);
      value := value * Pow10(|group|) + small.value;
      offset := Min(offset + d, |digits|);
    }
    assert digits[..offset] == digits;
  }

  /** The groups, the lowest first, as the text below what is left. */
  function Tail(groups: seq<nat>, d: nat): (s: string)
    decreases |groups|
  {
    if groups == [] then ""
    else ZeroFilled(NatText(groups[|groups| - 1]), d) + Tail(groups[..|groups| - 1], d)
  }

  /** The fallback loop of `_integer_text`: groups of `d` digits, from the right. */
  method TextOfGroups(n: nat, d: nat, limit: nat) returns (text: string)
    requires n > 0 && d >= 1 && WithinLimit(d, limit)
    ensures text == NatText(n)
  {
    var value, groups, base := n, [], Pow10(d);
    assert NatText(n) + "" == NatText(n);
    while value > 0
      invariant Grouped(n, value, groups, d)
      decreases value
    {
      GroupStep(n, value, groups, d);
      QuotientBounds(value, base);
      assert base > 1;
      var (rest, remainder) := DivMod(value, base);
      value, groups := rest, groups + [remainder];
    }
    text := JoinGroups(groups, d, limit);
  }

  /** The groups cut off so far, and what they leave of the text of `n`. */
  ghost predicate Grouped(n: nat, value: nat, groups: seq<nat>, d: nat) {
    && (forall i :: 0 <= i < |groups| ==> groups[i] < Pow10(d))
    && if value > 0 then NatText(n) == NatText(value) + Tail(groups, d)
       else groups != [] && NatText(n) == NatText(groups[|groups| - 1]) + Tail(groups[..|groups| - 1], d)
  }

  lemma GroupStep(n: nat, value: nat, groups: seq<nat>, d: nat)
    requires d >= 1 && value > 0 && Grouped(n, value, groups, d)
    ensures Grouped(n, DivMod(value, Pow10(d)).0, groups + [DivMod(value, Pow10(d)).1], d)
  {
    var (rest, last) := DivMod(value, Pow10(d));
    assert (groups + [last])[..|groups|] == groups;
    QuotientBounds(value, Pow10(d));
    if value >= Pow10(d) {
      SplitText(value, d);
      assert NatText(n) == NatText(rest) + (ZeroFilled(NatText(last), d) + Tail(groups, d));
    }
  }

  /** The highest group without zeros in front, the others filled up to `d` digits. */
  method JoinGroups(groups: seq<nat>, d: nat, limit: nat) returns (text: string)
    requires groups != [] && d >= 1 && WithinLimit(d, limit)
    requires forall i :: 0 <= i < |groups| ==> groups[i] < Pow10(d)
    ensures text == NatText(groups[|groups| - 1]) + Tail(groups[..|groups| - 1], d)
  {
    var i := |groups| - 1;
    SmallIsShort(groups[i], d);
    text := NativeText(groups[i], limit).value;
    ghost var goal := text + Tail(groups[..i], d);
    while i > 0
      invariant 0 <= i < |groups| && text + Tail(groups[..i], d) == goal
    {
      i := i - 1;
      SmallIsShort(groups[i], d);
      var group := NativeText(groups[i], limit);
      assert groups[..i + 1][..i] == groups[..i];
      assert text + (ZeroFilled(group.value, d) + Tail(groups[..i], d))
             == text + ZeroFilled(group.value, d) + Tail(groups[..i], d);
      text := text + ZeroFilled(group.value, d);
    }
    assert text + "" == text;
  }

  /** `_parse_int`: the value of every JSON integer, whatever the interpreter's limit. */
  method ParseInt(text: string, limit: nat) returns (value: int)
    requires IsInteger(text) && IsDigitLimit(limit)
    ensures value == IntValue(text)
  {
    var negative := text[0] == '-';
    var digits := if negative then text[1..] else text;
    var native := NativeValue(digits, limit);
    var magnitude: nat;
    if native.Some? {
      magnitude := native.value;
    } else {
      magnitude := ParseGroups(digits, DIGITS, limit);
    }
    value := if negative then 0 - magnitude else magnitude;
  }

  /** `_integer_text`: the text of every integer, whatever the interpreter's limit. */
  method IntegerText(value: int, limit: nat) returns (text: string)
    requires IsDigitLimit(limit)
    ensures text == IntText(value)
  {
    var magnitude := if value < 0 then -value else value;
    var native := NativeText(magnitude, limit);
    var digits: string;
    if native.Some? {
      digits := native.value;
    } else {
      digits := TextOfGroups(magnitude, DIGITS, limit);
    }
    text := if value < 0 then "-" + digits else digits;
  }
}
