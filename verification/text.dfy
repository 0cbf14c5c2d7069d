/** Text primitives used by the error renderings: Go's `%d` on an `int`,
    Go's `%s` on a `[]byte`, and the inverse functions that read them back. */
module Text {
  import opened Wrappers

  /** One octet of a response body. */
  type byte = x: int | 0 <= x < 256

  predicate IsDigit(c: char) {
    '0' <= c <= '9'
  }

  function DigitValue(c: char): (d: nat)
    requires IsDigit(c)
    ensures d < 10
  {
    (c as int) - ('0' as int)
  }

  function DigitChar(d: nat): (c: char)
    requires d < 10
    ensures IsDigit(c) && DigitValue(c) == d
  {
    (d + ('0' as int)) as char
  }

  predicate AllDigits(s: string) {
    forall i :: 0 <= i < |s| ==> IsDigit(s[i])
  }

  /** Decimal digits of a natural number, most significant first, no leading zero. */
  function FormatNat(n: nat): (s: string)
    ensures |s| > 0 && AllDigits(s)
    ensures n >= 10 ==> |s| >= 2
    ensures n == 0 || s[0] != '0'
    decreases n
  {
    if n < 10 then [DigitChar(n)] else FormatNat(n / 10) + [DigitChar(n % 10)]
  }

  /** Go's `%d` verb on a signed integer: a minus sign, then the digits of the magnitude. */
  function FormatInt(i: int): (s: string)
    ensures |s| > 0
    ensures s[0] == '-' <==> i < 0
    ensures '\n' !in s
  {
    var digits := FormatNat(if i < 0 then -i else i);
    assert IsDigit(digits[0]) && '\n' !in digits;
    if i < 0 then "-" + digits else digits
  }

  /** Reads a non-empty run of decimal digits; anything else is rejected. */
  function ParseNat(s: string): (r: Option<nat>)
    ensures r.Some? <==> |s| > 0 && AllDigits(s)
    decreases |s|
  {
    if |s| == 0 || !IsDigit(s[|s| - 1]) then None
    else if |s| == 1 then Some(DigitValue(s[0]))
    else
      match ParseNat(s[..|s| - 1])
      case None => None
      case Some(p) => Some(10 * p + DigitValue(s[|s| - 1]))
  }

  /** Reads what `FormatInt` writes: an optional minus sign, then digits. */
  function ParseInt(s: string): Option<int> {
    if |s| > 0 && s[0] == '-' then
      match ParseNat(s[1..])
      case None => None
      case Some(n) => Some(-(n as int))
    else
      match ParseNat(s)
      case None => None
      case Some(n) => Some(n)
  }

  lemma {:induction false} NatRoundTrip(n: nat)
    ensures ParseNat(FormatNat(n)) == Some(n)
    decreases n
  {
    if n >= 10 {
      var s := FormatNat(n);
      assert s == FormatNat(n / 10) + [DigitChar(n % 10)];
      assert s[..|s| - 1] == FormatNat(n / 10);
      NatRoundTrip(n / 10);
    }
  }

  /** `%d` loses nothing: the decimal rendering of any integer reads back to it. */
  lemma {:induction false} IntRoundTrip(i: int)
    ensures ParseInt(FormatInt(i)) == Some(i)
  {
    var s := FormatInt(i);
    if i < 0 {
      assert s[1..] == FormatNat(-i);
      NatRoundTrip(-i);
    } else {
      assert IsDigit(s[0]);
      NatRoundTrip(i);
    }
  }

  /** Go's `%s` on a `[]byte`: every octet is written out as it is. A character
      whose code is the octet's value stands for that octet. */
  function BytesAsText(b: seq<byte>): (s: string)
    ensures |s| == |b|
    ensures forall i :: 0 <= i < |b| ==> s[i] as int == b[i]
  {
    seq(|b|, i requires 0 <= i < |b| => b[i] as char)
  }

  /** The inverse reading of `BytesAsText`: defined exactly on octet-valued text. */
  function TextAsBytes(s: string): (r: Option<seq<byte>>)
    ensures r.Some? <==> forall i :: 0 <= i < |s| ==> (s[i] as int) < 256
    ensures r.Some? ==> |r.value| == |s| && forall i :: 0 <= i < |s| ==> r.value[i] == s[i] as int
  {
    if forall i :: 0 <= i < |s| ==> (s[i] as int) < 256 then
      Some(seq(|s|, i requires 0 <= i < |s| => s[i] as int))
    else
      None
  }

  lemma BytesRoundTrip(b: seq<byte>)
    ensures TextAsBytes(BytesAsText(b)) == Some(b)
  {
    var s := BytesAsText(b);
    assert forall i :: 0 <= i < |s| ==> (s[i] as int) < 256;
    assert TextAsBytes(s).value == b;
  }

  /** Position of the first occurrence of `c` in `s`. */
  function IndexOf(s: string, c: char): (r: Option<nat>)
    ensures r.Some? ==> r.value < |s| && s[r.value] == c && c !in s[..r.value]
    ensures r.None? ==> c !in s
  {
    if |s| == 0 then None
    else if s[0] == c then Some(0)
    else
      match IndexOf(s[1..], c)
      case None => None
      case Some(i) =>
        assert s[..i + 1] == [s[0]] + s[1..][..i];
        Some(i + 1)
  }

  /** Splits `label1 + first + label2 + second` into `(first, second)`, where
      `label2` begins with a line break and `first` is the text before the first
      line break that follows `label1`. */
  function SplitLabelled(s: string, label1: string, label2: string): Option<(string, string)>
  {
    if !(label1 <= s) then None
    else
      var rest := s[|label1|..];
      match IndexOf(rest, '\n')
      case None => None
      case Some(i) =>
        var tail := rest[i..];
        if label2 <= tail then Some((rest[..i], tail[|label2|..])) else None
  }

  lemma SplitLabelledRoundTrip(label1: string, first: string, label2: string, second: string)
    requires |label2| > 0 && label2[0] == '\n'
    requires '\n' !in first
    ensures SplitLabelled(label1 + first + label2 + second, label1, label2) == Some((first, second))
  {
    var s := label1 + first + label2 + second;
    assert s[..|label1|] == label1;
    var rest := s[|label1|..];
    assert rest == first + label2 + second;
    assert rest[|first|] == '\n';
    var j := IndexOf(rest, '\n');
    assert j == Some(|first|) by {
      assert forall k :: 0 <= k < |first| ==> rest[k] == first[k];
    }
    assert rest[..|first|] == first;
    var tail := rest[|first|..];
    assert tail == label2 + second;
    assert tail[..|label2|] == label2;
    assert tail[|label2|..] == second;
  }
}
