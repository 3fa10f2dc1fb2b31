/** Decimal text of integers as Python's `str`/`f"{n}"` and `f"{n:04d}"`
    render them, with the parser that reads them back. */
module Decimal {

  predicate IsDigit(c: char)
  {
    '0' <= c <= '9'
  }

  predicate AllDigits(s: string)
  {
    forall i :: 0 <= i < |s| ==> IsDigit(s[i])
  }

  function DigitChar(d: nat): (c: char)
    requires d < 10
    ensures IsDigit(c)
  {
    (('0' as int) + d) as char
  }

  function DigitValue(c: char): (d: nat)
    requires IsDigit(c)
    ensures d < 10
  {
    (c as int) - ('0' as int)
  }

  lemma DigitRoundTrip(d: nat)
    requires d < 10
    ensures DigitValue(DigitChar(d)) == d
  {
  }

  /** The canonical decimal text of a natural number: at least one digit and
      no leading zero. */
  function Show(n: nat): (s: string)
    ensures |s| > 0 && AllDigits(s)
    ensures |s| > 1 ==> s[0] != '0'
    ensures n < 10 <==> |s| == 1
  {
    if n < 10 then [DigitChar(n)]
    else
      var s := Show(n / 10) + [DigitChar(n % 10)];
      assert s[0] == Show(n / 10)[0];
      s
  }

  /** The value of a string of decimal digits (the empty string reads as 0). */
  function Parse(s: string): nat
    requires AllDigits(s)
  {
    if |s| == 0 then 0 else Parse(s[..|s| - 1]) * 10 + DigitValue(s[|s| - 1])
  }

  /** Reading back the rendering of n gives n. */
  lemma {:induction false} ParseShow(n: nat)
    ensures Parse(Show(n)) == n
  {
    if n >= 10 {
      var s := Show(n);
      assert s[..|s| - 1] == Show(n / 10);
      ParseShow(n / 10);
      DigitRoundTrip(n % 10);
    } else {
      DigitRoundTrip(n);
    }
  }

  /** Rendering what was parsed gives the text back, for any canonical text. */
  lemma {:induction false} ShowParse(s: string)
    requires |s| > 0 && AllDigits(s)
    requires |s| > 1 ==> s[0] != '0'
    ensures Show(Parse(s)) == s
    decreases |s|
  {
    var init := s[..|s| - 1];
    var d := DigitValue(s[|s| - 1]);
    if |s| == 1 {
      assert DigitChar(d) == s[0];
    } else {
      assert init[0] == s[0];
      ShowParse(init);
      ParsePositive(init);
      assert Parse(s) / 10 == Parse(init);
      assert Parse(s) % 10 == d;
      assert DigitChar(d) == s[|s| - 1];
      assert s == init + [s[|s| - 1]];
    }
  }

  /** A canonical text of two or more digits stands for a value of ten or more. */
  lemma {:induction false} ParsePositive(s: string)
    requires |s| > 0 && AllDigits(s) && s[0] != '0'
    ensures Parse(s) > 0
    decreases |s|
  {
    if |s| > 1 {
      assert s[..|s| - 1][0] == s[0];
      ParsePositive(s[..|s| - 1]);
    }
  }

  function Zeros(k: nat): (z: string)
    ensures |z| == k && forall i :: 0 <= i < k ==> z[i] == '0'
  {
    seq(k, _ => '0')
  }

  /** Left-pad with '0' to width w, as the `0w` format flag does for a
      non-negative number. */
  function ZeroPad(s: string, w: nat): (r: string)
    ensures |r| == (if |s| < w then w else |s|)
    ensures r[|r| - |s|..] == s
    ensures forall i :: 0 <= i < |r| - |s| ==> r[i] == '0'
  {
    if |s| < w then Zeros(w - |s|) + s else s
  }

  /** `f"{n:04d}"` for n >= 0: four digits below 10^4, more above. */
  function Show4(n: nat): (s: string)
    ensures AllDigits(s) && |s| >= 4
    ensures n < 10000 ==> |s| == 4
  {
    ShowLength(n);
    ZeroPad(Show(n), 4)
  }

  /** Numbers below 10^4 take at most four digits. */
  lemma ShowLength(n: nat)
    ensures n < 10000 ==> |Show(n)| <= 4
  {
    if n >= 10 {
      ShowLength(n / 10);
    }
  }

  /** Leading zeros do not change the value. */
  lemma {:induction false} ParseLeadingZero(s: string)
    requires AllDigits(s)
    ensures Parse(['0'] + s) == Parse(s)
    decreases |s|
  {
    if |s| > 0 {
      var t := ['0'] + s;
      assert t[..|t| - 1] == ['0'] + s[..|s| - 1];
      ParseLeadingZero(s[..|s| - 1]);
    }
  }

  lemma {:induction false} ParseZeroPad(s: string, k: nat)
    requires AllDigits(s)
    ensures Parse(Zeros(k) + s) == Parse(s)
    decreases k
  {
    if k == 0 {
      assert Zeros(k) + s == s;
    } else {
      assert Zeros(k) + s == ['0'] + (Zeros(k - 1) + s);
      ParseLeadingZero(Zeros(k - 1) + s);
      ParseZeroPad(s, k - 1);
    }
  }

  /** The zero-padded index reads back as the index. */
  lemma ParseShow4(n: nat)
    ensures Parse(Show4(n)) == n
  {
    var t := Show(n);
    ParseShow(n);
    if |t| < 4 {
      ParseZeroPad(t, 4 - |t|);
    }
  }

  /** `str(z)` / `f"{z}"` for any integer. */
  function ShowInt(z: int): (s: string)
    ensures |s| > 0
    ensures z < 0 <==> s[0] == '-'
  {
    if z < 0 then "-" + Show(-z) else Show(z)
  }

  /** The value of an optionally signed decimal text. */
  function ParseInt(s: string): int
    requires |s| > 0
    requires s[0] == '-' ==> AllDigits(s[1..])
    requires s[0] != '-' ==> AllDigits(s)
  {
    if s[0] == '-' then -(Parse(s[1..]) as int) else Parse(s) as int
  }

  lemma ParseShowInt(z: int)
    ensures ParseInt(ShowInt(z)) == z
  {
    if z < 0 {
      assert ShowInt(z)[1..] == Show(-z);
      ParseShow(-z);
    } else {
      ParseShow(z);
    }
  }
}
