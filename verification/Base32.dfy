/** Base32 with the standard alphabet and padding, section 6 of RFC 4648, for byte strings of any length. */
module Base32 {
  import opened Text

  type Byte = x: nat | x < 256

  function Pow2(w: nat): nat {
    if w == 0 then 1 else 2 * Pow2(w - 1)
  }

  /** The `w` bits of `d`, most significant first. */
  function DigitBits(d: nat, w: nat): (b: seq<bool>)
    ensures |b| == w
  {
    if w == 0 then [] else DigitBits(d / 2, w - 1) + [d % 2 == 1]
  }

  function BitsDigit(b: seq<bool>): (d: nat)
    ensures d < Pow2(|b|)
  {
    if b == [] then 0
    else 2 * BitsDigit(b[..|b| - 1]) + (if b[|b| - 1] then 1 else 0)
  }

  lemma {:induction false} DigitRoundTrip(d: nat, w: nat)
    requires d < Pow2(w)
    ensures BitsDigit(DigitBits(d, w)) == d
  {
    if w > 0 {
      DigitRoundTrip(d / 2, w - 1);
      var b := DigitBits(d, w);
      assert b[..w - 1] == DigitBits(d / 2, w - 1);
    }
  }

  lemma {:induction false} BitsRoundTrip(b: seq<bool>)
    ensures DigitBits(BitsDigit(b), |b|) == b
  {
    if b != [] {
      var high, low := b[..|b| - 1], b[|b| - 1];
      BitsRoundTrip(high);
      var d := 2 * BitsDigit(high) + (if low then 1 else 0);
      assert d / 2 == BitsDigit(high) && (d % 2 == 1 <==> low);
      assert b == high + [low];
    }
  }

  /** Digits of `w` bits each, written out as one bit string. */
  function Unpack(ds: seq<nat>, w: nat): seq<bool> {
    if ds == [] then [] else DigitBits(ds[0], w) + Unpack(ds[1..], w)
  }

  /** A bit string cut into digits of `w` bits; an incomplete last group is dropped. */
  function Pack(bits: seq<bool>, w: nat): (ds: seq<nat>)
    requires w > 0
    ensures forall i :: 0 <= i < |ds| ==> ds[i] < Pow2(w)
  {
    if |bits| < w then [] else [BitsDigit(bits[..w])] + Pack(bits[w..], w)
  }

  lemma PackCons(first: seq<bool>, rest: seq<bool>)
    requires |first| > 0
    ensures Pack(first + rest, |first|) == [BitsDigit(first)] + Pack(rest, |first|)
  {
    assert (first + rest)[..|first|] == first && (first + rest)[|first|..] == rest;
  }

  lemma {:induction false} PackUnpack(ds: seq<nat>, tail: seq<bool>, w: nat)
    requires w > 0 && |tail| < w
    requires forall i :: 0 <= i < |ds| ==> ds[i] < Pow2(w)
    ensures Pack(Unpack(ds, w) + tail, w) == ds
  {
    hide BitsDigit, DigitBits, Pow2;
    if ds == [] {
      assert Unpack(ds, w) + tail == tail;
    } else {
      var first, rest := DigitBits(ds[0], w), Unpack(ds[1..], w) + tail;
      assert Unpack(ds, w) + tail == first + rest;
      PackCons(first, rest);
      DigitRoundTrip(ds[0], w);
      PackUnpack(ds[1..], tail, w);
      assert ds == [ds[0]] + ds[1..];
    }
  }

  lemma {:induction false} UnpackPack(bits: seq<bool>, w: nat)
    requires w > 0
    ensures Unpack(Pack(bits, w), w) <= bits
    ensures |bits| - |Unpack(Pack(bits, w), w)| < w
  {
    if |bits| >= w {
      UnpackPack(bits[w..], w);
      BitsRoundTrip(bits[..w]);
      assert bits == bits[..w] + bits[w..];
    }
  }

  lemma UnpackBytesLength(bs: seq<nat>)
    ensures |Unpack(bs, 8)| == 8 * |bs|
  {
    if bs != [] {
      UnpackBytesLength(bs[1..]);
    }
  }

  lemma PackFivesLength(bits: seq<bool>)
    ensures |Pack(bits, 5)| == |bits| / 5
  {
    if |bits| >= 5 {
      PackFivesLength(bits[5..]);
    }
  }

  function EncodeChar(v: nat): (c: char)
    requires v < 32
  {
    if v < 26 then 'A' + (v as char) else '2' + ((v - 26) as char)
  }

  predicate InAlphabet(c: char) {
    IsUpper(c) || '2' <= c <= '7'
  }

  function DecodeChar(c: char): (v: nat)
    requires InAlphabet(c)
    ensures v < 32
  {
    if IsUpper(c) then (c - 'A') as nat else (c - '2') as nat + 26
  }

  lemma CharRoundTrip(v: nat)
    requires v < 32
    ensures InAlphabet(EncodeChar(v)) && DecodeChar(EncodeChar(v)) == v
  {
  }

  /** The 5-bit groups of the input; zero bits complete the last group. */
  function Quintets(bs: seq<Byte>): (vs: seq<nat>)
    ensures |vs| == (8 * |bs| + 4) / 5
    ensures forall i :: 0 <= i < |vs| ==> vs[i] < 32
  {
    UnpackBytesLength(bs);
    PackFivesLength(Unpack(bs, 8) + [false, false, false, false]);
    assert Pow2(5) == 32;
    Pack(Unpack(bs, 8) + [false, false, false, false], 5)
  }

  /** The encoding before padding. */
  function EncodeRaw(bs: seq<Byte>): (s: string)
    ensures |s| == (8 * |bs| + 4) / 5
    ensures forall i :: 0 <= i < |s| ==> InAlphabet(s[i])
  {
    var vs := Quintets(bs);
    seq(|vs|, i requires 0 <= i < |vs| => EncodeChar(vs[i]))
  }

  function Padding(n: nat): (p: string)
    ensures (n + |p|) % 8 == 0 && |p| < 8
    ensures AllAre(p, '=')
  {
    seq((8 - n % 8) % 8, _ => '=')
  }

  /** base32.StdEncoding.EncodeToString */
  function EncodeToString(bs: seq<Byte>): string {
    EncodeRaw(bs) + Padding(|EncodeRaw(bs)|)
  }

  function Values(s: string): (vs: seq<nat>)
    requires forall i :: 0 <= i < |s| ==> InAlphabet(s[i])
    ensures |vs| == |s|
    ensures forall i :: 0 <= i < |s| ==> vs[i] == DecodeChar(s[i])
  {
    seq(|s|, i requires 0 <= i < |s| => DecodeChar(s[i]))
  }

  function DecodeRaw(s: string): (bs: seq<Byte>)
    requires forall i :: 0 <= i < |s| ==> InAlphabet(s[i])
  {
    assert Pow2(8) == 256;
    Pack(Unpack(Values(s), 5), 8)
  }

  /** Unpadded lengths that leave a whole number of bytes. */
  predicate WholeBytes(n: nat) {
    n % 8 == 0 || n % 8 == 2 || n % 8 == 4 || n % 8 == 5 || n % 8 == 7
  }

  function StripNewlines(s: string): string { Remove(Remove(s, '\r'), '\n') }

  /** How many characters of the alphabet the text starts with. */
  function DigitCount(s: string): (n: nat)
    ensures n <= |s| && forall i :: 0 <= i < n ==> InAlphabet(s[i])
    ensures n < |s| ==> !InAlphabet(s[n])
  {
    if s == "" || !InAlphabet(s[0]) then 0
    else
      assert forall i :: 0 <= i < |s| - 1 ==> s[1..][i] == s[i + 1];
      1 + DigitCount(s[1..])
  }

  /**
   * The padding after `n` digits is accepted: it begins less than nine characters
   * before the end, and completes the group of eight. What follows the group is
   * not looked at.
   */
  predicate PaddedAfter(s: string, n: nat)
    requires n < |s|
  {
    var rest := s[n + 1..];
    && s[n] == '=' && n % 8 != 0 && WholeBytes(n)
    && |rest| < 8 && n % 8 + |rest| >= 7
    && forall k :: 0 <= k < 7 - n % 8 ==> rest[k] == '='
  }

  /** base32.StdEncoding.DecodeString; newlines and surplus low bits of the last group are ignored. */
  function DecodeString(s: string): Option<seq<Byte>> {
    DecodeStripped(StripNewlines(s))
  }

  function DecodeStripped(s: string): Option<seq<Byte>> {
    var n := DigitCount(s);
    if if n == |s| then n % 8 == 0 else PaddedAfter(s, n) then Some(DecodeRaw(s[..n])) else None
  }

  lemma RawRoundTrip(bs: seq<Byte>)
    ensures DecodeRaw(EncodeRaw(bs)) == bs
  {
    var zeros := [false, false, false, false];
    var bits := Unpack(bs, 8);
    var vs := Quintets(bs);
    forall i | 0 <= i < |vs| ensures Values(EncodeRaw(bs))[i] == vs[i] {
      CharRoundTrip(vs[i]);
    }
    assert Values(EncodeRaw(bs)) == vs;
    UnpackPack(bits + zeros, 5);
    var back := Unpack(vs, 5);
    var tail := back[|bits|..];
    assert back == bits + tail;
    assert Pow2(8) == 256;
    PackUnpack(bs, tail, 8);
  }

  lemma RawLength(n: nat)
    ensures WholeBytes((8 * n + 4) / 5)
  {
    var q, r := n / 5, n % 5;
    assert (8 * n + 4) / 5 == 8 * q + (8 * r + 4) / 5;
  }

  lemma PaddedDecode(raw: string, pad: string)
    requires forall i :: 0 <= i < |raw| ==> InAlphabet(raw[i])
    requires AllAre(pad, '=') && |pad| < 8 && (|raw| + |pad|) % 8 == 0 && WholeBytes(|raw|)
    ensures DecodeString(raw + pad) == Some(DecodeRaw(raw))
  {
    hide DecodeRaw, Remove;
    var s := raw + pad;
    NoNewlines(raw, pad);
    RemoveAbsent(s, '\r');
    RemoveAbsent(s, '\n');
    assert StripNewlines(s) == s;
    DigitsOf(raw, pad);
    assert s[..|raw|] == raw;
    if pad != "" {
      assert s[|raw| + 1..] == pad[1..];
    }
  }

  lemma DigitsOf(raw: string, pad: string)
    requires forall i :: 0 <= i < |raw| ==> InAlphabet(raw[i])
    requires AllAre(pad, '=')
    ensures DigitCount(raw + pad) == |raw|
  {
    var s := raw + pad;
    assert forall i :: 0 <= i < |raw| ==> s[i] == raw[i];
    assert pad != "" ==> s[|raw|] == pad[0] == '=';
  }

  lemma NoNewlines(raw: string, pad: string)
    requires forall i :: 0 <= i < |raw| ==> InAlphabet(raw[i])
    requires AllAre(pad, '=')
    ensures '\r' !in raw + pad && '\n' !in raw + pad
  {
  }

  /** Decoding undoes encoding for every byte string, whatever its length. */
  lemma DecodeEncode(bs: seq<Byte>)
    ensures DecodeString(EncodeToString(bs)) == Some(bs)
  {
    var raw := EncodeRaw(bs);
    RawRoundTrip(bs);
    RawLength(|bs|);
    PaddedDecode(raw, Padding(|raw|));
  }

  // ------------------------------------------- the text that the standard defines

  const ALPHABET := "ABCDEFGHIJKLMNOPQRSTUVWXYZ234567"

  /** The place values of the bits of a byte, in the order in which they are written. */
  const PLACES: seq<nat> := [128, 64, 32, 16, 8, 4, 2, 1]

  /** Bit `k` of the input, counted from its first byte's most significant bit; zero past the end. */
  function InputBit(bs: seq<Byte>, k: nat): (b: nat)
    ensures b < 2
  {
    if k / 8 < |bs| then bs[k / 8] / PLACES[k % 8] % 2 else 0
  }

  /** Character `i` of the text: five bits of the input pick a character of the alphabet. */
  function StandardChar(bs: seq<Byte>, i: nat): char {
    ALPHABET[16 * InputBit(bs, 5 * i) + 8 * InputBit(bs, 5 * i + 1) + 4 * InputBit(bs, 5 * i + 2)
             + 2 * InputBit(bs, 5 * i + 3) + InputBit(bs, 5 * i + 4)]
  }

  lemma AlphabetAt(v: nat)
    requires v < 32
    ensures EncodeChar(v) == ALPHABET[v]
  {
  }

  lemma HalveFirst(d: nat, p: nat)
    requires p == 1 || p == 2 || p == 4 || p == 8 || p == 16 || p == 32 || p == 64
    ensures d / 2 / p == d / (2 * p)
  {
    if p == 1 {
    } else if p == 2 {
    } else if p == 4 {
    } else if p == 8 {
    } else if p == 16 {
    } else if p == 32 {
    }
  }

  lemma {:induction false} DigitBitsAt(d: nat, w: nat, j: nat)
    requires j < w <= 8
    ensures DigitBits(d, w)[j] <==> d / PLACES[8 - w + j] % 2 == 1
  {
    if j < w - 1 {
      DigitBitsAt(d / 2, w - 1, j);
      HalveFirst(d, PLACES[8 - w + 1 + j]);
    }
  }

  lemma {:induction false} UnpackAt(bs: seq<nat>, k: nat)
    requires k < 8 * |bs|
    ensures |Unpack(bs, 8)| == 8 * |bs|
    ensures Unpack(bs, 8)[k] == DigitBits(bs[k / 8], 8)[k % 8]
  {
    hide DigitBits;
    UnpackBytesLength(bs);
    if k >= 8 {
      UnpackAt(bs[1..], k - 8);
      assert bs[1..][(k - 8) / 8] == bs[k / 8];
      assert Unpack(bs, 8)[k] == Unpack(bs[1..], 8)[k - 8];
    }
  }

  lemma {:induction false} PackAt(bits: seq<bool>, i: nat)
    requires 5 * i + 5 <= |bits|
    ensures i < |Pack(bits, 5)| && Pack(bits, 5)[i] == BitsDigit(bits[5 * i..5 * i + 5])
  {
    hide BitsDigit;
    PackFivesLength(bits);
    if i > 0 {
      PackAt(bits[5..], i - 1);
      var j := 5 * (i - 1);
      assert bits[5..][j..j + 5] == bits[j + 5..j + 10];
    }
  }

  function BitValue(b: bool): nat { if b then 1 else 0 }

  lemma FiveBits(b: seq<bool>)
    requires |b| == 5
    ensures BitsDigit(b) == 16 * BitValue(b[0]) + 8 * BitValue(b[1]) + 4 * BitValue(b[2]) + 2 * BitValue(b[3]) + BitValue(b[4])
  {
    assert b[..4][..3] == b[..3] && b[..3][..2] == b[..2] && b[..2][..1] == b[..1] && b[..1][..0] == [];
    assert BitsDigit(b[..1]) == BitValue(b[0]);
    assert BitsDigit(b[..2]) == 2 * BitValue(b[0]) + BitValue(b[1]);
    assert BitsDigit(b[..3]) == 4 * BitValue(b[0]) + 2 * BitValue(b[1]) + BitValue(b[2]);
    assert BitsDigit(b[..4]) == 8 * BitValue(b[0]) + 4 * BitValue(b[1]) + 2 * BitValue(b[2]) + BitValue(b[3]);
  }

  /** The bits that are cut into groups of five are those of the input, and zeros after them. */
  lemma GroupedBit(bs: seq<Byte>, k: nat)
    requires k < 8 * |bs| + 4
    ensures |Unpack(bs, 8)| == 8 * |bs|
    ensures BitValue((Unpack(bs, 8) + [false, false, false, false])[k]) == InputBit(bs, k)
  {
    hide DigitBits, Unpack;
    UnpackBytesLength(bs);
    if k < 8 * |bs| {
      UnpackAt(bs, k);
      DigitBitsAt(bs[k / 8], 8, k % 8);
    }
  }

  lemma GroupValue(bs: seq<Byte>, i: nat)
    requires i < (8 * |bs| + 4) / 5
    ensures Quintets(bs)[i] == 16 * InputBit(bs, 5 * i) + 8 * InputBit(bs, 5 * i + 1) + 4 * InputBit(bs, 5 * i + 2)
                               + 2 * InputBit(bs, 5 * i + 3) + InputBit(bs, 5 * i + 4)
  {
    hide Unpack, Pack, BitsDigit, InputBit, BitValue;
    var bits := Unpack(bs, 8) + [false, false, false, false];
    GroupedBit(bs, 5 * i);
    GroupedBit(bs, 5 * i + 1);
    GroupedBit(bs, 5 * i + 2);
    GroupedBit(bs, 5 * i + 3);
    GroupedBit(bs, 5 * i + 4);
    PackAt(bits, i);
    FiveBits(bits[5 * i..5 * i + 5]);
  }

  /** The encoding is the one the standard defines, character by character. */
  lemma EncodesStandard(bs: seq<Byte>, i: nat)
    requires i < (8 * |bs| + 4) / 5
    ensures EncodeRaw(bs)[i] == StandardChar(bs, i)
  {
    hide Quintets, InputBit, EncodeChar;
    GroupValue(bs, i);
    AlphabetAt(Quintets(bs)[i]);
  }

  /** After those characters only padding follows, to a multiple of eight and less than eight of it. */
  lemma EncodedPadding(bs: seq<Byte>)
    ensures var s, n := EncodeToString(bs), (8 * |bs| + 4) / 5;
            && |s| % 8 == 0 && n <= |s| < n + 8
            && (forall i :: 0 <= i < n ==> s[i] == StandardChar(bs, i))
            && (forall i :: n <= i < |s| ==> s[i] == '=')
  {
    hide StandardChar;
    forall i | 0 <= i < |EncodeRaw(bs)| ensures EncodeToString(bs)[i] == StandardChar(bs, i) {
      EncodesStandard(bs, i);
    }
  }

  /** Decoding takes the input's bits in order; less than a byte of surplus bits, whatever they are, is ignored. */
  lemma SurplusIgnored(s: string, bs: seq<Byte>, surplus: seq<bool>)
    requires forall i :: 0 <= i < |s| ==> InAlphabet(s[i])
    requires Unpack(Values(s), 5) == Unpack(bs, 8) + surplus && |surplus| < 8
    ensures DecodeRaw(s) == bs
  {
    assert Pow2(8) == 256;
    PackUnpack(bs, surplus, 8);
  }

  /** Newlines anywhere in the text make no difference. */
  lemma NewlinesSkipped(a: string, b: string)
    ensures DecodeString(a + "\n" + b) == DecodeString(a + b) == DecodeString(a + "\r" + b)
  {
    hide DecodeStripped;
    RemoveInside(a, "\n", b, '\r');
    RemoveInside(Remove(a, '\r'), "\n", Remove(b, '\r'), '\n');
    RemoveInside(a, "\r", b, '\r');
    RemoveConcat(a, b, '\r');
    RemoveConcat(Remove(a, '\r'), Remove(b, '\r'), '\n');
    assert Remove("\n", '\r') == "\n" && Remove("\r", '\r') == "" && Remove("\n", '\n') == "";
    assert Remove(a, '\r') + "" == Remove(a, '\r');
    assert Remove(Remove(a, '\r'), '\n') + "" == Remove(Remove(a, '\r'), '\n');
  }

  lemma RemoveInside(a: string, m: string, b: string, c: char)
    ensures Remove(a + m + b, c) == Remove(a, c) + Remove(m, c) + Remove(b, c)
  {
    RemoveConcat(a + m, b, c);
    RemoveConcat(a, m, c);
  }

  lemma EncodeInjective(a: seq<Byte>, b: seq<Byte>)
    requires EncodeToString(a) == EncodeToString(b)
    ensures a == b
  {
    DecodeEncode(a);
    DecodeEncode(b);
  }
}
