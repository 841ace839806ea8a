/**
 * String helpers the report code relies on: Python's decimal rendering of
 * integers, zero padding, newline replacement and the fixed-width slicing
 * `text[i:i+50]` for `i in range(0, len(text), 50)`.
 */
module Text {

  /** Width of one wrapped chunk in the customer report. */
  const ChunkWidth: nat := 50

  predicate IsDigit(c: char) {
    '0' <= c <= '9'
  }

  predicate AllDigits(s: string) {
    forall i :: 0 <= i < |s| ==> IsDigit(s[i])
  }

  function DigitChar(d: nat): (c: char)
    requires d < 10
    ensures IsDigit(c)
  {
    (48 + d) as char
  }

  function DigitValue(c: char): (d: nat)
    requires IsDigit(c)
    ensures d < 10
  {
    c as int - 48
  }

  /** Python's `str(n)` for a non-negative integer. */
  function NatToDecimal(n: nat): (s: string)
    ensures |s| >= 1 && AllDigits(s)
    ensures s[0] == '0' ==> n == 0
    decreases n
  {
    if n < 10 then [DigitChar(n)] else NatToDecimal(n / 10) + [DigitChar(n % 10)]
  }

  /** Python's `str(i)` for any integer: a minus sign, then the digits. */
  function IntToDecimal(i: int): (s: string)
    ensures |s| >= 1
    ensures s[0] == '-' <==> i < 0
  {
    if i < 0 then "-" + NatToDecimal(-i) else NatToDecimal(i)
  }

  /** Reads a string of decimal digits (the empty string reads as 0). */
  function ParseDecimal(s: string): nat
    requires AllDigits(s)
  {
    if s == [] then 0 else ParseDecimal(s[..|s| - 1]) * 10 + DigitValue(s[|s| - 1])
  }

  function ParseInt(s: string): int
    requires |s| >= 1
    requires s[0] == '-' ==> AllDigits(s[1..])
    requires s[0] != '-' ==> AllDigits(s)
  {
    if s[0] == '-' then -(ParseDecimal(s[1..]) as int) else ParseDecimal(s) as int
  }

  lemma {:induction false} NatToDecimalRoundTrip(n: nat)
    ensures ParseDecimal(NatToDecimal(n)) == n
    decreases n
  {
    if n >= 10 {
      var s := NatToDecimal(n / 10);
      NatToDecimalRoundTrip(n / 10);
      assert (s + [DigitChar(n % 10)])[..|s|] == s;
    }
  }

  lemma IntToDecimalRoundTrip(i: int)
    ensures ParseInt(IntToDecimal(i)) == i
  {
    var s := IntToDecimal(i);
    if i < 0 {
      assert s[1..] == NatToDecimal(-i);
      NatToDecimalRoundTrip(-i);
    } else {
      NatToDecimalRoundTrip(i);
    }
  }

  function Pow10(k: nat): (p: nat)
    ensures p >= 1
  {
    if k == 0 then 1 else 10 * Pow10(k - 1)
  }

  /** A number below 10^k takes at most k digits. */
  lemma {:induction false} DecimalLengthBound(n: nat, k: nat)
    requires k >= 1 && n < Pow10(k)
    ensures |NatToDecimal(n)| <= k
    decreases n
  {
    if n >= 10 {
      assert n / 10 < Pow10(k - 1);
      assert k >= 2 by { assert Pow10(0) == 1; }
      DecimalLengthBound(n / 10, k - 1);
    }
  }

  function Zeros(k: nat): (z: string)
    ensures |z| == k && forall i :: 0 <= i < k ==> z[i] == '0'
  {
    if k == 0 then [] else Zeros(k - 1) + "0"
  }

  /** Left-pads `s` with '0' to at least `width` characters, as `%02d`/`%04d` do. */
  function ZeroPad(s: string, width: nat): string {
    if |s| >= width then s else Zeros(width - |s|) + s
  }

  /** The padded string is `s` behind just enough zeros to reach `width`. */
  lemma ZeroPadShape(s: string, width: nat)
    ensures |ZeroPad(s, width)| == if |s| >= width then |s| else width
    ensures ZeroPad(s, width)[|ZeroPad(s, width)| - |s|..] == s
    ensures forall i :: 0 <= i < |ZeroPad(s, width)| - |s| ==> ZeroPad(s, width)[i] == '0'
  {
    if |s| < width {
      var z := Zeros(width - |s|);
      assert (z + s)[|z|..] == s;
    }
  }

  /** Leading zeros do not change the value read back. */
  lemma {:induction false} ParseDecimalLeadingZeros(z: string, s: string)
    requires AllDigits(s)
    requires forall i :: 0 <= i < |z| ==> z[i] == '0'
    ensures AllDigits(z + s)
    ensures ParseDecimal(z + s) == ParseDecimal(s)
    decreases |s|
  {
    assert AllDigits(z + s) by {
      forall i | 0 <= i < |z + s| ensures IsDigit((z + s)[i]) {
        if i < |z| { assert (z + s)[i] == z[i]; } else { assert (z + s)[i] == s[i - |z|]; }
      }
    }
    if s == [] {
      assert z + s == z;
      ZerosReadAsZero(z);
    } else {
      var init := s[..|s| - 1];
      assert (z + s)[..|z + s| - 1] == z + init;
      ParseDecimalLeadingZeros(z, init);
    }
  }

  lemma {:induction false} ZerosReadAsZero(z: string)
    requires forall i :: 0 <= i < |z| ==> z[i] == '0'
    ensures AllDigits(z) && ParseDecimal(z) == 0
    decreases |z|
  {
    if z != [] {
      ZerosReadAsZero(z[..|z| - 1]);
    }
  }

  /** Padding a decimal to a width it fits in keeps its digits and its value. */
  lemma PaddedDecimal(n: nat, width: nat)
    requires width >= 1 && n < Pow10(width)
    ensures |ZeroPad(NatToDecimal(n), width)| == width
    ensures AllDigits(ZeroPad(NatToDecimal(n), width))
    ensures ParseDecimal(ZeroPad(NatToDecimal(n), width)) == n
  {
    var s := NatToDecimal(n);
    DecimalLengthBound(n, width);
    var r := ZeroPad(s, width);
    var z := Zeros(width - |s|);
    assert r == z + s;
    ParseDecimalLeadingZeros(z, s);
    NatToDecimalRoundTrip(n);
  }

  /** Regrouping a concatenation; stated once so that callers need no extensionality reasoning. */
  lemma AppendAssoc<T>(a: seq<T>, b: seq<T>, c: seq<T>)
    ensures a + b + c == a + (b + c)
  {
  }

  /** Concatenation of a sequence of strings, in order. */
  function Concat(ss: seq<string>): string
  {
    if ss == [] then [] else Concat(ss[..|ss| - 1]) + ss[|ss| - 1]
  }

  lemma {:induction false} ConcatAppend(a: seq<string>, b: seq<string>)
    ensures Concat(a + b) == Concat(a) + Concat(b)
    decreases |b|
  {
    if b != [] {
      assert (a + b)[..|a + b| - 1] == a + b[..|b| - 1];
      ConcatAppend(a, b[..|b| - 1]);
    } else {
      assert a + b == a;
    }
  }

  /** `s.replace("\n", " ")`: every newline becomes a space, nothing else moves. */
  function ReplaceNewlines(s: string): (r: string)
    ensures |r| == |s|
    ensures forall i :: 0 <= i < |s| ==> r[i] == (if s[i] == '\n' then ' ' else s[i])
    ensures '\n' !in r
  {
    if s == [] then [] else [if s[0] == '\n' then ' ' else s[0]] + ReplaceNewlines(s[1..])
  }

  function Min(a: int, b: int): int {
    if a <= b then a else b
  }

  /**
   * The chunks `text[i:i+50]` for `i` in `range(0, len(text), 50)`, in order.
   * Python slicing clamps the end of the last slice to the length of the text.
   */
  function Chunks(text: string): seq<string>
    decreases |text|
  {
    if |text| == 0 then []
    else if |text| <= ChunkWidth then [text]
    else [text[..ChunkWidth]] + Chunks(text[ChunkWidth..])
  }

  /** The number of loop iterations of `range(0, L, 50)`, i.e. ceil(L / 50). */
  function ChunkCount(len: nat): nat {
    (len + ChunkWidth - 1) / ChunkWidth
  }

  /** Joining the chunks in order gives back the text exactly. */
  lemma {:induction false} ChunksConcat(text: string)
    ensures Concat(Chunks(text)) == text
    decreases |text|
  {
    if 0 < |text| <= ChunkWidth {
      assert Concat([text]) == Concat([]) + text;
    } else if |text| > ChunkWidth {
      var head, tail := text[..ChunkWidth], text[ChunkWidth..];
      ChunksConcat(tail);
      ConcatAppend([head], Chunks(tail));
      assert Concat([head]) == Concat([]) + head;
      assert head + tail == text;
    }
  }

  /**
   * There are ceil(L/50) chunks; every chunk but the last has exactly 50
   * characters and the last has between 1 and 50.
   */
  lemma {:induction false} ChunksShape(text: string)
    ensures |Chunks(text)| == ChunkCount(|text|)
    ensures forall k :: 0 <= k < |Chunks(text)| - 1 ==> |Chunks(text)[k]| == ChunkWidth
    ensures Chunks(text) != [] ==> 1 <= |Chunks(text)[|Chunks(text)| - 1]| <= ChunkWidth
    ensures Chunks(text) == [] <==> text == []
    decreases |text|
  {
    if |text| > ChunkWidth {
      var tail := text[ChunkWidth..];
      ChunksShape(tail);
      assert Chunks(text) == [text[..ChunkWidth]] + Chunks(tail);
      assert ChunkCount(|text|) == ChunkCount(|tail|) + 1;
    }
  }

  /**
   * Chunk number k exists exactly when its offset 50k lies inside the text,
   * and it is then the clamped slice starting at that offset.
   */
  lemma {:induction false} ChunkAt(text: string, k: nat)
    ensures k < |Chunks(text)| <==> ChunkWidth * k < |text|
    ensures k < |Chunks(text)| ==>
      Chunks(text)[k] == text[ChunkWidth * k..Min(ChunkWidth * k + ChunkWidth, |text|)]
    decreases |text|
  {
    if |text| > ChunkWidth && k > 0 {
      var tail := text[ChunkWidth..];
      ChunkAt(tail, k - 1);
      assert Chunks(text) == [text[..ChunkWidth]] + Chunks(tail);
      if k < |Chunks(text)| {
        assert Chunks(text)[k] == Chunks(tail)[k - 1];
        assert tail[ChunkWidth * (k - 1)..Min(ChunkWidth * (k - 1) + ChunkWidth, |tail|)]
            == text[ChunkWidth * k..Min(ChunkWidth * k + ChunkWidth, |text|)];
      }
    }
  }

  /** Chunks are slices of their text, so a text without newlines yields chunks without newlines. */
  lemma {:induction false} ChunksKeepNoNewline(text: string)
    requires '\n' !in text
    ensures forall k :: 0 <= k < |Chunks(text)| ==> '\n' !in Chunks(text)[k]
    decreases |text|
  {
    if |text| > ChunkWidth {
      var head, tail := text[..ChunkWidth], text[ChunkWidth..];
      assert forall j :: 0 <= j < |tail| ==> tail[j] == text[ChunkWidth + j];
      assert forall j :: 0 <= j < |head| ==> head[j] == text[j];
      ChunksKeepNoNewline(tail);
    }
  }
}
