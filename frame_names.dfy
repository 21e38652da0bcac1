/** Frame file names: `str(index).zfill(digits)` with
    `digits = len(str(frames_to_generate))`, as both drivers write them. */
module FrameNames {

  predicate IsDigit(c: char) {
    '0' <= c <= '9'
  }

  predicate AllDigits(s: string) {
    forall i :: 0 <= i < |s| ==> IsDigit(s[i])
  }

  function DigitChar(d: nat): (c: char)
    requires d < 10
    ensures IsDigit(c) && c as int - '0' as int == d
  {
    (d + '0' as int) as char
  }

  /** Python's `str(n)` for a non-negative integer: decimal, no leading zero. */
  function NatToString(n: nat): (s: string)
    ensures |s| >= 1
    decreases n
  {
    if n < 10 then [DigitChar(n)] else NatToString(n / 10) + [DigitChar(n % 10)]
  }

  /** Python's `str(n)` for any integer: a minus sign before the magnitude. */
  function IntToString(n: int): string {
    if n < 0 then "-" + NatToString(-n) else NatToString(n)
  }

  function Zeros(n: nat): string {
    seq(n, _ => '0')
  }

  /** Python's `str.zfill(width)`: pad on the left with '0' up to `width`
      characters, after a leading sign if there is one; a string already
      that long comes back unchanged. */
  function ZFill(s: string, width: int): (r: string)
    ensures |r| == if width > |s| then width else |s|
    ensures width <= |s| ==> r == s
  {
    if width <= |s| then s
    else if |s| > 0 && (s[0] == '+' || s[0] == '-') then [s[0]] + Zeros(width - |s|) + s[1..]
    else Zeros(width - |s|) + s
  }

  /** The name of frame `index` when `framesToGenerate` frames are made. */
  function FrameName(index: int, framesToGenerate: int): string {
    ZFill(IntToString(index), |IntToString(framesToGenerate)|)
  }

  /** The number a string of decimal digits denotes (reference reading of a name). */
  function DecimalValue(s: string): nat
    requires AllDigits(s)
  {
    if s == [] then 0
    else DecimalValue(s[..|s| - 1]) * 10 + (s[|s| - 1] as int - '0' as int)
  }

  /** `str(n)` reads back as `n`. */
  lemma {:induction false} NatToStringRoundTrip(n: nat)
    ensures AllDigits(NatToString(n)) && DecimalValue(NatToString(n)) == n
    decreases n
  {
    var s := NatToString(n);
    if n >= 10 {
      NatToStringRoundTrip(n / 10);
      assert s[..|s| - 1] == NatToString(n / 10);
    }
  }

  /** Leading zeros do not change the value of a digit string. */
  lemma {:induction false} LeadingZerosValue(k: nat, s: string)
    requires AllDigits(s)
    ensures AllDigits(Zeros(k) + s) && DecimalValue(Zeros(k) + s) == DecimalValue(s)
    decreases |s|
  {
    var t := Zeros(k) + s;
    if s == [] {
      assert t == Zeros(k);
      ZerosValue(k);
    } else {
      LeadingZerosValue(k, s[..|s| - 1]);
      assert t[..|t| - 1] == Zeros(k) + s[..|s| - 1];
    }
  }

  lemma {:induction false} ZerosValue(k: nat)
    ensures AllDigits(Zeros(k)) && DecimalValue(Zeros(k)) == 0
    decreases k
  {
    if k > 0 {
      ZerosValue(k - 1);
      assert Zeros(k)[..k - 1] == Zeros(k - 1);
    }
  }

  /** A smaller number never has more decimal digits. */
  lemma {:induction false} NatToStringMonotone(a: nat, b: nat)
    requires a <= b
    ensures |NatToString(a)| <= |NatToString(b)|
    decreases b
  {
    if a >= 10 {
      NatToStringMonotone(a / 10, b / 10);
    }
  }

  /** Zero-filling prepends zeros to an unsigned string, and puts them
      between the sign and the rest of a signed one. */
  lemma ZFillPads(s: string, width: int)
    ensures var pad := if width > |s| then width - |s| else 0;
      && (|s| == 0 || (s[0] != '+' && s[0] != '-') ==> ZFill(s, width) == Zeros(pad) + s)
      && (|s| > 0 && (s[0] == '+' || s[0] == '-') ==> ZFill(s, width) == [s[0]] + Zeros(pad) + s[1..])
  {
    if width <= |s| {
      assert Zeros(0) + s == s;
      if |s| > 0 {
        assert [s[0]] + Zeros(0) + s[1..] == s;
      }
    }
  }

  /** Every frame of a run gets a name exactly `digits` characters long,
      made of decimal digits, that reads back as its index; so names
      are pairwise distinct. */
  lemma FrameNameDenotesIndex(index: int, framesToGenerate: int)
    requires 0 <= index < framesToGenerate
    ensures |FrameName(index, framesToGenerate)| == |IntToString(framesToGenerate)|
    ensures AllDigits(FrameName(index, framesToGenerate))
    ensures DecimalValue(FrameName(index, framesToGenerate)) == index
  {
    var s := NatToString(index);
    var digits := |NatToString(framesToGenerate)|;
    assert FrameName(index, framesToGenerate) == ZFill(s, digits);
    NatToStringMonotone(index, framesToGenerate);
    NatToStringRoundTrip(index);
    var pad := digits - |s|;
    ZFillPads(s, digits);
    var name := Zeros(pad) + s;
    LeadingZerosValue(pad, s);
    assert |name| == digits;
  }

  lemma FrameNamesDistinct(i: int, j: int, framesToGenerate: int)
    requires 0 <= i < framesToGenerate && 0 <= j < framesToGenerate && i != j
    ensures FrameName(i, framesToGenerate) != FrameName(j, framesToGenerate)
  {
    FrameNameDenotesIndex(i, framesToGenerate);
    FrameNameDenotesIndex(j, framesToGenerate);
  }
}
