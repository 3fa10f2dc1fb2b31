/** The deployment converter's text output: the model bytes as a C array of
    `0x..` literals inside a C++ source with its length, and the calibration
    sample stream used for quantisation. */
module Convert {
  import opened Base
  import Decimal

  newtype byte = b: int | 0 <= b < 256

  predicate IsLowerHex(c: char)
  {
    ('0' <= c <= '9') || ('a' <= c <= 'f')
  }

  function HexChar(d: nat): (c: char)
    requires d < 16
    ensures IsLowerHex(c)
  {
    if d < 10 then (('0' as int) + d) as char else (('a' as int) + d - 10) as char
  }

  function HexValue(c: char): (d: nat)
    requires IsLowerHex(c)
    ensures d < 16
  {
    if c <= '9' then (c as int) - ('0' as int) else (c as int) - ('a' as int) + 10
  }

  lemma HexCharRoundTrip(d: nat)
    requires d < 16
    ensures HexValue(HexChar(d)) == d
  {
  }

  lemma HexValueRoundTrip(c: char)
    requires IsLowerHex(c)
    ensures HexChar(HexValue(c)) == c
  {
  }

  /** `f'0x{val:02x}'`: "0x" and exactly two lowercase hex digits, high first. */
  function HexByte(b: byte): (s: string)
    ensures |s| == 4 && s[0] == '0' && s[1] == 'x'
    ensures IsLowerHex(s[2]) && IsLowerHex(s[3])
    ensures 16 * HexValue(s[2]) + HexValue(s[3]) == b as int
  {
    HexCharRoundTrip(b as nat / 16);
    HexCharRoundTrip(b as nat % 16);
    ['0', 'x', HexChar(b as nat / 16), HexChar(b as nat % 16)]
  }

  /** `', '.join(...)` of the byte literals. */
  function HexArray(bs: seq<byte>): (s: string)
    ensures |bs| == 0 ==> s == ""
    ensures |bs| >= 1 ==> |s| == 6 * |bs| - 2
  {
    if |bs| == 0 then ""
    else if |bs| == 1 then HexByte(bs[0])
    else HexByte(bs[0]) + (", " + HexArray(bs[1..]))
  }

  /** What may follow an array text without being read as part of it. */
  predicate Terminates(t: string)
  {
    |t| == 0 || (t[0] != '0' && t[0] != ',')
  }

  /** Read byte literals separated by ", " from the front of `s`; returns the
      bytes and the unread rest, or None on a dangling separator. */
  function ParseEntries(s: string): Option<(seq<byte>, string)>
    decreases |s|
  {
    if |s| >= 4 && s[0] == '0' && s[1] == 'x' && IsLowerHex(s[2]) && IsLowerHex(s[3]) then
      var b := (16 * HexValue(s[2]) + HexValue(s[3])) as byte;
      if |s| >= 6 && s[4] == ',' && s[5] == ' ' then
        match ParseEntries(s[6..])
        case None => None
        case Some(r) => if |r.0| == 0 then None else Some(([b] + r.0, r.1))
      else Some(([b], s[4..]))
    else Some(([], s))
  }

  /** Reading the head of a text that starts with a rendered byte. */
  lemma EntryHead(b: byte, u: string)
    ensures var s := HexByte(b) + u;
      && |s| >= 4 && s[0] == '0' && s[1] == 'x' && IsLowerHex(s[2]) && IsLowerHex(s[3])
      && (16 * HexValue(s[2]) + HexValue(s[3])) as byte == b
      && s[4..] == u
  {
    var h := HexByte(b);
    var s := h + u;
    assert s[0] == h[0] && s[1] == h[1] && s[2] == h[2] && s[3] == h[3];
  }

  lemma ParseLastEntry(b: byte, t: string)
    requires Terminates(t)
    ensures ParseEntries(HexByte(b) + t) == Some(([b], t))
  {
    EntryHead(b, t);
    assert |t| > 0 ==> (HexByte(b) + t)[4] == t[0];
  }

  lemma ParseNextEntry(b: byte, rest: string, bs: seq<byte>, t: string)
    requires ParseEntries(rest) == Some((bs, t)) && |bs| > 0
    ensures ParseEntries(HexByte(b) + (", " + rest)) == Some(([b] + bs, t))
  {
    var u := ", " + rest;
    EntryHead(b, u);
    var s := HexByte(b) + u;
    assert s[4] == ',' && s[5] == ' ';
    assert s[6..] == rest;
  }

  /** Round trip: the array text of any bytes reads back as those bytes, and
      whatever follows it is left unread. */
  lemma {:induction false} ParseHexArray(bs: seq<byte>, t: string)
    requires Terminates(t)
    ensures ParseEntries(HexArray(bs) + t) == Some((bs, t))
  {
    if |bs| == 0 {
      assert HexArray(bs) + t == t;
    } else if |bs| == 1 {
      ParseLastEntry(bs[0], t);
      assert bs == [bs[0]];
    } else {
      var h := HexByte(bs[0]);
      var tailText := HexArray(bs[1..]);
      ParseHexArray(bs[1..], t);
      ParseNextEntry(bs[0], tailText + t, bs[1..], t);
      calc {
        HexArray(bs) + t;
        (h + (", " + tailText)) + t;
        h + ((", " + tailText) + t);
        h + (", " + (tailText + t));
      }
      assert [bs[0]] + bs[1..] == bs;
    }
  }

  /** The converse: whatever the reader accepts is exactly the array text of
      the bytes it returns, followed by the unread rest. */
  lemma {:induction false} HexArrayOfParsed(s: string)
    requires ParseEntries(s).Some?
    ensures s == HexArray(ParseEntries(s).value.0) + ParseEntries(s).value.1
    decreases |s|
  {
    if |s| >= 4 && s[0] == '0' && s[1] == 'x' && IsLowerHex(s[2]) && IsLowerHex(s[3]) {
      var b := (16 * HexValue(s[2]) + HexValue(s[3])) as byte;
      HexValueRoundTrip(s[2]);
      HexValueRoundTrip(s[3]);
      assert b as nat / 16 == HexValue(s[2]) && b as nat % 16 == HexValue(s[3]);
      assert HexByte(b) == s[..4];
      if |s| >= 6 && s[4] == ',' && s[5] == ' ' {
        var r := ParseEntries(s[6..]).value;
        HexArrayOfParsed(s[6..]);
        var bs := [b] + r.0;
        assert bs[1..] == r.0;
        assert s == s[..4] + ", " + s[6..];
      } else {
        assert s == s[..4] + s[4..];
      }
    }
  }

  const Lead: string := "\n#include <cstdint>\n\n// TFLite Model Data\n// Length: "
  const ArrayOpen: string := [' '] + "bytes\nalignas(16) const unsigned char g_model[] = {\n    "
  const ArrayClose: string := "\n};\n\nconst unsigned int g_model_len = "
  const Tail: string := [';', '\n']

  /** `convert_to_c_array`: the C++ source text written for the model bytes. */
  function CSource(bs: seq<byte>): string
  {
    Lead + (Decimal.Show(|bs|) + (ArrayOpen + (HexArray(bs) + (ArrayClose + (Decimal.Show(|bs|) + Tail)))))
  }

  /** The three facts a reader takes from a generated source. */
  datatype CModel = CModel(declaredLength: nat, data: seq<byte>, lengthConstant: nat)

  /** The number of leading decimal digits. */
  function DigitRun(s: string): (k: nat)
    ensures k <= |s|
    ensures forall i :: 0 <= i < k ==> Decimal.IsDigit(s[i])
    ensures k < |s| ==> !Decimal.IsDigit(s[k])
  {
    if |s| > 0 && Decimal.IsDigit(s[0]) then
      var k := DigitRun(s[1..]);
      assert forall i :: 1 <= i < k + 1 ==> s[i] == s[1..][i - 1];
      k + 1
    else 0
  }

  /** Split off the longest run of leading digits. */
  function SplitDigits(s: string): (r: (string, string))
    ensures r.0 + r.1 == s && Decimal.AllDigits(r.0)
    ensures |r.1| > 0 ==> !Decimal.IsDigit(r.1[0])
  {
    var k := DigitRun(s);
    assert s[..k] + s[k..] == s;
    (s[..k], s[k..])
  }

  lemma {:induction false} SplitDigitsShow(n: nat, t: string)
    requires |t| > 0 && !Decimal.IsDigit(t[0])
    ensures SplitDigits(Decimal.Show(n) + t) == (Decimal.Show(n), t)
  {
    SplitDigitsPrefix(Decimal.Show(n), t);
  }

  lemma {:induction false} SplitDigitsPrefix(d: string, t: string)
    requires Decimal.AllDigits(d)
    requires |t| > 0 && !Decimal.IsDigit(t[0])
    ensures SplitDigits(d + t) == (d, t)
    decreases |d|
  {
    if |d| > 0 {
      assert (d + t)[1..] == d[1..] + t;
      SplitDigitsPrefix(d[1..], t);
    }
    assert (d + t)[|d|] == t[0];
    assert DigitRun(d + t) == |d|;
    assert (d + t)[..|d|] == d;
    assert (d + t)[|d|..] == t;
  }

  /** Read back the declared length, the array and the length constant. */
  function ReadCSource(text: string): Option<CModel>
  {
    if !(Lead <= text) then None
    else
      var (d1, r1) := SplitDigits(text[|Lead|..]);
      if |d1| == 0 || !(ArrayOpen <= r1) then None
      else
        match ParseEntries(r1[|ArrayOpen|..])
        case None => None
        case Some(p) =>
          var (bs, r2) := p;
          if !(ArrayClose <= r2) then None
          else
            var (d2, r3) := SplitDigits(r2[|ArrayClose|..]);
            if |d2| == 0 || r3 != Tail then None
            else Some(CModel(Decimal.Parse(d1), bs, Decimal.Parse(d2)))
  }

  /** The generated source declares the byte count both in its `Length:`
      comment and in `g_model_len`, and its array holds exactly the bytes. */
  lemma CSourceReadsBack(bs: seq<byte>)
    ensures ReadCSource(CSource(bs)) == Some(CModel(|bs|, bs, |bs|))
  {
    var n := Decimal.Show(|bs|);
    var text := CSource(bs);
    var afterLead := n + (ArrayOpen + (HexArray(bs) + (ArrayClose + (n + Tail))));
    assert text[|Lead|..] == afterLead;
    assert ArrayOpen[0] == ' ';
    assert Tail[0] == ';';
    SplitDigitsShow(|bs|, ArrayOpen + (HexArray(bs) + (ArrayClose + (n + Tail))));
    var r1 := ArrayOpen + (HexArray(bs) + (ArrayClose + (n + Tail)));
    assert r1[|ArrayOpen|..] == HexArray(bs) + (ArrayClose + (n + Tail));
    ParseHexArray(bs, ArrayClose + (n + Tail));
    var r2 := ArrayClose + (n + Tail);
    assert r2[|ArrayClose|..] == n + Tail;
    SplitDigitsShow(|bs|, Tail);
    Decimal.ParseShow(|bs|);
  }

  /** `representative_dataset_gen`: the first min(100, len(X)) samples in
      index order, or nothing when the feature file is missing. */
  method RepresentativeDataset<T>(x: Option<seq<T>>) returns (samples: seq<T>)
    ensures x.None? ==> samples == []
    ensures x.Some? ==> |samples| == MinNat(100, |x.value|)
    ensures x.Some? ==> forall i :: 0 <= i < |samples| ==> samples[i] == x.value[i]
  {
    samples := [];
    if x.None? {
      return;
    }
    var xs := x.value;
    var i := 0;
    while i < MinNat(100, |xs|)
      invariant i <= MinNat(100, |xs|)
      invariant |samples| == i
      invariant forall j :: 0 <= j < i ==> samples[j] == xs[j]
    {
      samples := samples + [xs[i]];
      i := i + 1;
    }
  }
}
