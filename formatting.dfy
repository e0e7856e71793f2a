/**
  The parts of Python's string conversion that the job generator relies on:
  `str(n)` for an integer, the `{n:0Wd}` format specification, `", ".join`
  over the string forms of a list of integers, and `int(s)` restricted to
  strings of ASCII decimal digits. Every formatter is paired with a parser
  and a round-trip lemma.
*/
module Formatting {
  import opened Wrappers

  predicate IsDigit(ch: char) {
    '0' <= ch <= '9'
  }

  predicate AllDigits(s: string) {
    forall i :: 0 <= i < |s| ==> IsDigit(s[i])
  }

  function DigitChar(d: nat): (ch: char)
    requires d < 10
    ensures IsDigit(ch) && ch as int - '0' as int == d
  {
    ('0' as int + d) as char
  }

  /** The decimal digits of `n`, most significant first, without leading zeros. */
  function Digits(n: nat): (s: string)
    ensures |s| >= 1 && AllDigits(s)
    ensures n >= 10 ==> s[0] != '0'
    decreases n
  {
    if n < 10 then [DigitChar(n)] else Digits(n / 10) + [DigitChar(n % 10)]
  }

  /** The number that a string of decimal digits denotes (leading zeros allowed). */
  function DigitsValue(s: string): nat
    requires AllDigits(s)
  {
    if s == [] then 0
    else DigitsValue(s[..|s| - 1]) * 10 + (s[|s| - 1] as int - '0' as int)
  }

  /** `int(s)` for the strings this model accepts: one or more ASCII digits. */
  function ParseDigits(s: string): (r: Option<int>)
    ensures r.Some? <==> |s| > 0 && AllDigits(s)
    ensures r.Some? ==> r.value >= 0
  {
    if |s| > 0 && AllDigits(s) then Some(DigitsValue(s)) else None
  }

  /** Python's `str(n)`. */
  function IntToString(n: int): string {
    if n < 0 then "-" + Digits(-n) else Digits(n)
  }

  /** Python's `int(s)` restricted to an optional minus sign followed by ASCII digits. */
  function ParseInt(s: string): Option<int> {
    if |s| > 0 && s[0] == '-' then
      match ParseDigits(s[1..])
      case Some(m) => Some(-m)
      case None => None
    else ParseDigits(s)
  }

  function Zeros(k: nat): (s: string)
    ensures |s| == k && AllDigits(s)
  {
    if k == 0 then "" else Zeros(k - 1) + "0"
  }

  /** `s` prefixed with zeros up to `width` characters. */
  function PadLeft(s: string, width: nat): string {
    if |s| < width then Zeros(width - |s|) + s else s
  }

  /**
    Python's `f"{n:0{width}d}"`: a minus sign counts towards the width,
    and the zeros go between the sign and the digits.
  */
  function ZeroPad(n: int, width: nat): string {
    if n < 0 then "-" + PadLeft(Digits(-n), if width > 0 then width - 1 else 0)
    else PadLeft(Digits(n), width)
  }

  /** `", ".join(str(x) for x in ids)`. */
  function JoinInts(ids: seq<int>): string {
    if |ids| == 0 then ""
    else if |ids| == 1 then IntToString(ids[0])
    else IntToString(ids[0]) + ", " + JoinInts(ids[1..])
  }

  /** `"[" + ", ".join(...) + "]"`: the form in which a detector list is put on a command line. */
  function FormatIntList(ids: seq<int>): string {
    "[" + JoinInts(ids) + "]"
  }

  /** Index of the first comma of `s`, or `|s|` when there is none. */
  function CommaIndex(s: string): (i: nat)
    ensures i <= |s|
    ensures i < |s| ==> s[i] == ','
    ensures forall j :: 0 <= j < i ==> s[j] != ','
  {
    if s == [] then 0 else if s[0] == ',' then 0 else 1 + CommaIndex(s[1..])
  }

  /** Reads `x1, x2, ..., xk` (k >= 1) back into the integers. */
  function ParseItems(s: string): Option<seq<int>>
    decreases |s|
  {
    var i := CommaIndex(s);
    if i == |s| then
      match ParseInt(s)
      case Some(x) => Some([x])
      case None => None
    else if i + 1 < |s| && s[i + 1] == ' ' then
      match ParseInt(s[..i])
      case None => None
      case Some(x) =>
        match ParseItems(s[i + 2..])
        case None => None
        case Some(xs) => Some([x] + xs)
    else None
  }

  /** Reads a bracketed, comma-separated integer list back. */
  function ParseIntList(s: string): Option<seq<int>> {
    if |s| >= 2 && s[0] == '[' && s[|s| - 1] == ']' then
      if |s| == 2 then Some([]) else ParseItems(s[1..|s| - 1])
    else None
  }

  function Pow10(k: nat): (p: nat)
    ensures p >= 1
  {
    if k == 0 then 1 else 10 * Pow10(k - 1)
  }

  // ---------------------------------------------------------------------
  // Round trips

  lemma {:induction false} DigitsRoundTrip(n: nat)
    ensures DigitsValue(Digits(n)) == n
    decreases n
  {
    if n >= 10 {
      var s := Digits(n);
      assert s[..|s| - 1] == Digits(n / 10);
      DigitsRoundTrip(n / 10);
    }
  }

  lemma {:induction false} LeadingZerosIgnored(k: nat, s: string)
    requires AllDigits(s)
    ensures AllDigits(Zeros(k) + s) && DigitsValue(Zeros(k) + s) == DigitsValue(s)
    decreases |s|
  {
    var t := Zeros(k) + s;
    if s == [] {
      assert t == Zeros(k);
      ZerosValue(k);
    } else {
      assert t[..|t| - 1] == Zeros(k) + s[..|s| - 1];
      LeadingZerosIgnored(k, s[..|s| - 1]);
    }
  }

  lemma {:induction false} ZerosValue(k: nat)
    ensures DigitsValue(Zeros(k)) == 0
  {
    if k > 0 {
      assert Zeros(k)[..k - 1] == Zeros(k - 1);
      ZerosValue(k - 1);
    }
  }

  /** `str` and `int` are inverse on every integer. */
  lemma IntToStringRoundTrip(n: int)
    ensures ParseInt(IntToString(n)) == Some(n)
  {
    if n < 0 {
      DigitsRoundTrip(-n);
      assert IntToString(n)[1..] == Digits(-n);
    } else {
      DigitsRoundTrip(n);
    }
  }

  lemma {:induction false} DigitsLength(n: nat, k: nat)
    requires n < Pow10(k)
    ensures |Digits(n)| <= if k == 0 then 1 else k
    decreases n
  {
    if n >= 10 {
      DigitsLength(n / 10, k - 1);
    }
  }

  /**
    A non-negative number below 10^width formats to exactly `width` digits
    that read back as the number.
  */
  lemma ZeroPadRoundTrip(n: nat, width: nat)
    requires width >= 1 && n < Pow10(width)
    ensures |ZeroPad(n, width)| == width
    ensures ParseDigits(ZeroPad(n, width)) == Some(n)
  {
    DigitsLength(n, width);
    DigitsRoundTrip(n);
    if |Digits(n)| < width {
      LeadingZerosIgnored(width - |Digits(n)|, Digits(n));
    }
  }

  lemma IntToStringHasNoSeparator(n: int)
    ensures |IntToString(n)| >= 1
    ensures forall j :: 0 <= j < |IntToString(n)| ==> IntToString(n)[j] != ',' && IntToString(n)[j] != ']'
  {
  }

  lemma {:induction false} ParseItemsRoundTrip(ids: seq<int>)
    requires |ids| >= 1
    ensures ParseItems(JoinInts(ids)) == Some(ids)
    decreases |ids|
  {
    var head := IntToString(ids[0]);
    IntToStringHasNoSeparator(ids[0]);
    IntToStringRoundTrip(ids[0]);
    if |ids| == 1 {
      ParseLastItem(head, ids[0]);
      assert ids == [ids[0]];
    } else {
      ParseItemsRoundTrip(ids[1..]);
      ParseLeadingItem(head, JoinInts(ids[1..]), ids[0], ids[1..]);
      assert [ids[0]] + ids[1..] == ids;
    }
  }

  lemma ParseLastItem(head: string, x: int)
    requires forall j :: 0 <= j < |head| ==> head[j] != ','
    requires ParseInt(head) == Some(x)
    ensures ParseItems(head) == Some([x])
  {
    CommaIndexOfNoComma(head, "");
    assert head + "" == head;
  }

  lemma ParseLeadingItem(head: string, rest: string, x: int, xs: seq<int>)
    requires forall j :: 0 <= j < |head| ==> head[j] != ','
    requires ParseInt(head) == Some(x) && ParseItems(rest) == Some(xs)
    ensures ParseItems(head + ", " + rest) == Some([x] + xs)
  {
    var s := head + ", " + rest;
    CommaIndexOfNoComma(head, ", " + rest);
    assert head + (", " + rest) == s;
    assert s[..|head|] == head;
    assert s[|head| + 2..] == rest;
  }

  lemma {:induction false} CommaIndexOfNoComma(a: string, b: string)
    requires forall j :: 0 <= j < |a| ==> a[j] != ','
    requires b == [] || b[0] == ','
    ensures CommaIndex(a + b) == |a|
    decreases |a|
  {
    if a != [] {
      assert (a + b)[1..] == a[1..] + b;
      CommaIndexOfNoComma(a[1..], b);
    }
  }

  /** The detector-list string reads back as the list it was made from. */
  lemma FormatIntListRoundTrip(ids: seq<int>)
    ensures ParseIntList(FormatIntList(ids)) == Some(ids)
  {
    var s := FormatIntList(ids);
    if |ids| == 0 {
      assert s == "[]";
    } else {
      IntToStringHasNoSeparator(ids[0]);
      JoinIntsNonEmpty(ids);
      assert s[1..|s| - 1] == JoinInts(ids);
      ParseItemsRoundTrip(ids);
    }
  }

  lemma JoinIntsNonEmpty(ids: seq<int>)
    requires |ids| >= 1
    ensures |JoinInts(ids)| >= |IntToString(ids[0])| >= 1
  {
  }
}
