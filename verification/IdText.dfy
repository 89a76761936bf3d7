/** Printed form of client identifiers (id/id.go): base32, chunks of seven, and forgiving parsing. */
module IdText {
  import opened Text
  import opened Base32

  type Id = s: seq<Byte> | |s| == 32 witness seq(32, _ => 0)

  function ZeroId(): Id { seq(32, _ => 0) }

  const TEXT_LENGTH := 52

  /**
   * Every leftmost, non-overlapping match of "(.{7})" followed by a hyphen; the
   * dot matches anything but a newline.
   */
  function ChunkReplace(s: string): string {
    if |s| < 7 then s
    else if '\n' !in s[..7] then s[..7] + "-" + ChunkReplace(s[7..])
    else [s[0]] + ChunkReplace(s[1..])
  }

  function Chunkify(s: string): string { Trim(ChunkReplace(s), '-') }

  function Unchunkify(s: string): string { Remove(Remove(s, '-'), ' ') }

  function ReplaceChar(s: string, from: char, to: char): string {
    MapChars(s, c => if c == from then to else c)
  }

  /** The digits 0, 1 and 8 are not in the alphabet; they stand for the letters they resemble. */
  function Untypeoify(s: string): string {
    ReplaceChar(ReplaceChar(ReplaceChar(s, '0', 'O'), '1', 'I'), '8', 'B')
  }

  /** `ID.String` */
  function Print(id: Id): string {
    Chunkify(Trim(EncodeToString(id), '='))
  }

  datatype ParseError = IncorrectLength | CorruptInput

  datatype Parsed = Ok(id: Id) | Err(error: ParseError)

  /** Upper case, no padding, no chunks, look-alike digits replaced. */
  function Canonical(text: string): string {
    Unchunkify(Untypeoify(ToUpper(Trim(text, '='))))
  }

  /** What `UnmarshalText` leaves in a receiver that held `prior`. */
  function ParseInto(prior: Id, text: string): Parsed {
    if |Canonical(text)| != TEXT_LENGTH then Err(IncorrectLength)
    else Decoded(prior, DecodeString(Canonical(text) + "===="))
  }

  function Decoded(prior: Id, dec: Option<seq<Byte>>): Parsed {
    match dec
    case None => Err(CorruptInput)
    case Some(bytes) => Ok(CopyInto(prior, bytes))
  }

  /** Parsing into a fresh identifier. */
  function Parse(text: string): Parsed {
    ParseInto(ZeroId(), text)
  }

  /** Go's `copy(dst[:], src)`: as many bytes as both have. */
  function CopyInto(dst: Id, src: seq<Byte>): Id {
    if |src| >= |dst| then src[..|dst|] else src + dst[|src|..]
  }

  method CopyBytes(dst: array<Byte>, src: seq<Byte>)
    requires dst.Length == 32
    modifies dst
    ensures dst[..] == CopyInto(old(dst[..]), src)
  {
    var i := 0;
    while i < 32 && i < |src|
      invariant 0 <= i <= 32 && i <= |src|
      invariant dst[..i] == src[..i]
      invariant dst[i..] == old(dst[i..])
    {
      dst[i] := src[i];
      i := i + 1;
    }
    assert dst[..] == dst[..i] + dst[i..];
  }

  /** `ID.UnmarshalText`: the receiver is overwritten on success and left alone on failure. */
  method UnmarshalText(receiver: array<Byte>, text: string) returns (error: Option<ParseError>)
    requires receiver.Length == 32
    modifies receiver
    ensures ParseInto(old(receiver[..]), text)
            == if error == None then Ok(receiver[..]) else Err(error.value)
    ensures error.Some? ==> receiver[..] == old(receiver[..])
  {
    hide Trim, ToUpper, Untypeoify, Unchunkify, DecodeString, CopyInto;
    var id := Trim(text, '=');
    id := ToUpper(id);
    id := Untypeoify(id);
    id := Unchunkify(id);
    if |id| != TEXT_LENGTH {
      return Some(IncorrectLength);
    }
    var dec := DecodeString(id + "====");
    if dec == None {
      return Some(CorruptInput);
    }
    CopyBytes(receiver, dec.value);
    return None;
  }

  /** How many characters are neither hyphens nor spaces. */
  function Solid(s: string): nat {
    if s == "" then 0 else (if s[0] == '-' || s[0] == ' ' then 0 else 1) + Solid(s[1..])
  }

  lemma {:induction false} UnchunkifyCounts(s: string)
    ensures |Unchunkify(s)| == Solid(s)
  {
    if s != "" {
      UnchunkifyCounts(s[1..]);
      UnchunkifyStep(s);
    }
  }

  lemma {:induction false} FoldedCounts(m: string)
    ensures |Unchunkify(Folded(m))| == Solid(m)
  {
    hide Folded, Unchunkify;
    if m == "" {
      FoldedEmpty();
      UnchunkifyCounts("");
    } else {
      FoldedCounts(m[1..]);
      FoldedStep(m);
      FoldKeepsSeparators(m[0]);
    }
  }

  lemma FoldKeepsSeparators(c: char)
    ensures IsSeparator(Fold(c)) <==> c == '-' || c == ' '
  {
  }

  /** A text is refused for its length exactly when other than 52 characters are left between the padding at its ends. */
  lemma RefusedForLength(prior: Id, text: string)
    ensures ParseInto(prior, text) == Err(IncorrectLength) <==> Solid(Trim(text, '=')) != 52
  {
    hide DecodeString, Trim, Untypeoify, ToUpper;
    FoldedCounts(Trim(text, '='));
  }

  /** Characters that the decoder skips or takes for the end of the text. */
  predicate HasFiller(id: string) { '=' in id || '\n' in id || '\r' in id }

  lemma RemoveShortens(s: string, c: char)
    ensures |Remove(s, c)| <= |s|
    ensures c in s ==> |Remove(s, c)| < |s|
    ensures forall x :: x in Remove(s, c) <==> x in s && x != c
  {
  }

  lemma StrippedTail(id: string)
    ensures StripNewlines(id + "====") == StripNewlines(id) + "===="
  {
    RemoveConcat(id, "====", '\r');
    RemoveConcat(Remove(id, '\r'), "====", '\n');
    RemoveAbsent("====", '\r');
    RemoveAbsent("====", '\n');
  }

  /** Newlines, or padding that survives inside the text, leave less than an identifier. */
  lemma DecodedLength(id: string)
    requires |id| == TEXT_LENGTH && DecodeString(id + "====").Some?
    ensures |DecodeString(id + "====").value| <= 32
    ensures |DecodeString(id + "====").value| == 32 <==> !HasFiller(id)
  {
    var stripped := StripNewlines(id);
    StrippedTail(id);
    RemoveShortens(id, '\r');
    RemoveShortens(Remove(id, '\r'), '\n');
    if '\n' !in id && '\r' !in id {
      RemoveAbsent(id, '\r');
      RemoveAbsent(id, '\n');
    }
    assert |stripped| == 52 <==> stripped == id;
    StrippedLength(stripped);
  }

  lemma StrippedLength(id: string)
    requires |id| <= TEXT_LENGTH && DecodeStripped(id + "====").Some?
    ensures |DecodeStripped(id + "====").value| <= 32
    ensures |DecodeStripped(id + "====").value| == 32 <==> |id| == 52 && '=' !in id
  {
    var s := id + "====";
    var n := DigitCount(s);
    UnpackFivesLength(Values(s[..n]));
    PackBytesLength(Unpack(Values(s[..n]), 5));
    assert s[|id|] == '=';
    assert n <= |id|;
    if n < |id| {
      assert id[n] == s[n] == '=';
    } else {
      assert forall i :: 0 <= i < |id| ==> id[i] == s[i];
    }
  }

  /**
   * An accepted text stands for one identifier whatever the receiver held before,
   * exactly when normalization leaves no padding or newline inside it.
   */
  lemma ReceiverIrrelevant(prior: Id, text: string)
    requires ParseInto(prior, text).Ok?
    ensures (forall other: Id :: ParseInto(other, text) == ParseInto(prior, text)) <==> !HasFiller(Canonical(text))
  {
    hide Canonical, DecodeString;
    DecodedLength(Canonical(text));
    if HasFiller(Canonical(text)) {
      var other := prior[31 := if prior[31] == 0 then 1 else 0];
      assert ParseInto(other, text).id[31] == other[31];
      assert ParseInto(prior, text).id[31] == prior[31];
    }
  }

  lemma UnpackFivesLength(vs: seq<nat>)
    ensures |Unpack(vs, 5)| == 5 * |vs|
  {
    if vs != [] {
      UnpackFivesLength(vs[1..]);
    }
  }

  lemma PackBytesLength(bits: seq<bool>)
    ensures |Pack(bits, 8)| == |bits| / 8
  {
    if |bits| >= 8 {
      PackBytesLength(bits[8..]);
    }
  }

  // ---------------------------------------------------------------- chunks

  ghost predicate Chunkable(s: string) { '-' !in s && '\n' !in s }

  lemma {:induction false} ChunkReplaceLength(s: string)
    requires Chunkable(s)
    ensures |ChunkReplace(s)| == |s| + |s| / 7
  {
    if |s| >= 7 {
      ChunkReplaceLength(s[7..]);
    }
  }

  /** The index in the original of position `i` of the chunked text. */
  function Unchunked(i: nat): nat { i - i / 8 }

  /** Every eighth character of the chunked text is a hyphen, the others are the text in order. */
  lemma {:induction false} ChunkReplaceAt(s: string, i: nat)
    requires Chunkable(s) && i < |ChunkReplace(s)|
    ensures i % 8 != 7 ==> Unchunked(i) < |s|
    ensures ChunkReplace(s)[i] == if i % 8 == 7 then '-' else s[Unchunked(i)]
  {
    if |s| >= 7 {
      if i >= 8 {
        ChunkReplaceAt(s[7..], i - 8);
        assert i % 8 == (i - 8) % 8 && Unchunked(i) == Unchunked(i - 8) + 7;
        assert ChunkReplace(s)[i] == ChunkReplace(s[7..])[i - 8];
      } else {
        assert i / 8 == 0;
      }
    }
  }

  lemma {:induction false} ChunkReplaceUndone(s: string)
    requires Chunkable(s)
    ensures Remove(ChunkReplace(s), '-') == s
  {
    if |s| < 7 {
      RemoveAbsent(s, '-');
    } else {
      assert s == s[..7] + s[7..];
      ChunkReplaceUndone(s[7..]);
      RemoveConcat(s[..7] + "-", ChunkReplace(s[7..]), '-');
      RemoveConcat(s[..7], "-", '-');
      RemoveAbsent(s[..7], '-');
    }
  }

  lemma ChunkCount(len: nat)
    requires len > 0
    ensures len + len / 7 == len + (len - 1) / 7 + (if len % 7 == 0 then 1 else 0)
    ensures (len + (len - 1) / 7 - 1) % 8 != 7
    ensures len % 7 == 0 ==> (len + (len - 1) / 7) % 8 == 7
  {
    var q, m := (len - 1) / 7, (len - 1) % 7;
    assert len == 7 * q + m + 1 && len + q - 1 == 8 * q + m;
  }

  lemma ChunkEnds(s: string)
    requires Chunkable(s) && s != ""
    ensures var r, n := ChunkReplace(s), |s| + (|s| - 1) / 7;
            && 0 < n && |r| == n + (if |s| % 7 == 0 then 1 else 0)
            && r[0] != '-' && r[n - 1] != '-'
            && (|s| % 7 == 0 ==> r[n] == '-')
  {
    var n := |s| + (|s| - 1) / 7;
    ChunkReplaceLength(s);
    ChunkCount(|s|);
    ChunkReplaceAt(s, 0);
    ChunkReplaceAt(s, n - 1);
    assert s[Unchunked(0)] in s && s[Unchunked(n - 1)] in s;
    if |s| % 7 == 0 {
      ChunkReplaceAt(s, n);
    }
  }

  /** Chunking drops the hyphen that would follow a full last chunk, and nothing else. */
  lemma ChunkifyShape(s: string)
    requires Chunkable(s) && s != ""
    ensures ChunkReplace(s) == Chunkify(s) + (if |s| % 7 == 0 then "-" else "")
    ensures |Chunkify(s)| == |s| + (|s| - 1) / 7
  {
    ChunkEnds(s);
    TrimTrailing(ChunkReplace(s), |s| + (|s| - 1) / 7);
  }

  lemma TrimTrailing(r: string, n: nat)
    requires 0 < n <= |r| <= n + 1
    requires r[0] != '-' && r[n - 1] != '-' && (n < |r| ==> r[n] == '-')
    ensures Trim(r, '-') == r[..n]
  {
    assert r == "" + r[..n] + r[n..];
    TrimPadding("", r[..n], r[n..], '-');
  }

  /** Where each character of a chunked text comes from. */
  lemma ChunkifyAt(s: string, i: nat)
    requires Chunkable(s) && s != "" && i < |Chunkify(s)|
    ensures i % 8 != 7 ==> Unchunked(i) < |s|
    ensures Chunkify(s)[i] == if i % 8 == 7 then '-' else s[Unchunked(i)]
  {
    ChunkifyShape(s);
    ChunkReplaceAt(s, i);
  }

  /** The pattern's dot does not match a newline, so no group of seven is made across one. */
  lemma NewlineUnchunked(s: string)
    requires |s| == 7 && '\n' in s && '-' !in s
    ensures Chunkify(s) == s
  {
    assert ChunkReplace(s) == [s[0]] + s[1..] == s;
    TrimPadding("", s, "", '-');
    assert "" + s + "" == s;
  }

  /** Un-chunking undoes chunking on text without spaces. */
  lemma ChunkifyUndone(s: string)
    requires Chunkable(s) && ' ' !in s && s != ""
    ensures |Chunkify(s)| == |s| + (|s| - 1) / 7
    ensures Unchunkify(Chunkify(s)) == s
  {
    ChunkifyShape(s);
    ChunkReplaceUndone(s);
    var c := Chunkify(s);
    var end := if |s| % 7 == 0 then "-" else "";
    RemoveConcat(c, end, '-');
    assert Remove(end, '-') == "";
    assert Remove(c, '-') == s;
    RemoveAbsent(s, ' ');
  }

  // ------------------------------------------------------------ round trip

  predicate IsSeparator(c: char) { c == '-' || c == ' ' }

  /** What parsing makes of one character. */
  function Fold(c: char): char {
    var u := UpperChar(c);
    if u == '0' then 'O' else if u == '1' then 'I' else if u == '8' then 'B' else u
  }

  /** `m` is how a person may write `c`: the same, in lower case, or the digit it resembles. */
  predicate LooksLike(c: char, m: char) {
    || m == c
    || ('A' <= c <= 'Z' && m as int == c as int + 32)
    || (c == 'O' && m == '0') || (c == 'I' && m == '1') || (c == 'B' && m == '8')
  }

  /** `m` writes `c`, with separators dropped and added anywhere and each character written as it may look. */
  ghost predicate Variant(c: string, m: string)
    decreases |c| + |m|
  {
    || (c == "" && m == "")
    || (m != "" && IsSeparator(m[0]) && Variant(c, m[1..]))
    || (c != "" && IsSeparator(c[0]) && Variant(c[1..], m))
    || (c != "" && m != "" && LooksLike(c[0], m[0]) && Variant(c[1..], m[1..]))
  }

  ghost predicate Printable(c: string) {
    forall i :: 0 <= i < |c| ==> InAlphabet(c[i]) || c[i] == '-'
  }

  lemma UntypeoifyFolds(m: string, i: nat)
    requires i < |m|
    ensures |Untypeoify(ToUpper(m))| == |m|
    ensures Untypeoify(ToUpper(m))[i] == Fold(m[i])
  {
  }

  lemma UnchunkifyCons(a: char, s: string)
    ensures Unchunkify([a] + s) == (if IsSeparator(a) then "" else [a]) + Unchunkify(s)
  {
    assert ([a] + s)[1..] == s;
    if !IsSeparator(a) {
      assert Remove([a] + s, '-') == [a] + Remove(s, '-');
      assert ([a] + Remove(s, '-'))[1..] == Remove(s, '-');
    } else if a == ' ' {
      assert Remove([a] + s, '-') == [a] + Remove(s, '-');
      assert ([a] + Remove(s, '-'))[1..] == Remove(s, '-');
    }
  }

  function Folded(m: string): string { Untypeoify(ToUpper(m)) }

  lemma FoldedCons(m: string)
    requires m != ""
    ensures Folded(m) == [Fold(m[0])] + Folded(m[1..])
  {
    UntypeoifyFolds(m, 0);
    forall i | 0 <= i < |m| - 1 ensures Folded(m)[i + 1] == Folded(m[1..])[i] {
      UntypeoifyFolds(m, i + 1);
      UntypeoifyFolds(m[1..], i);
    }
  }

  lemma LooksLikeFolds(c: char, m: char)
    requires InAlphabet(c) || c == '-'
    requires LooksLike(c, m)
    ensures Fold(m) == c && m != '='
  {
  }

  /** Whatever the variant, folding and un-chunking leave the same characters as the original. */
  lemma {:induction false} VariantFolds(c: string, m: string)
    requires Printable(c) && Variant(c, m)
    ensures Unchunkify(Folded(m)) == Unchunkify(c)
    ensures '=' !in m
    decreases |c| + |m|
  {
    hide Unchunkify, Folded, LooksLike, InAlphabet;
    if c == "" && m == "" {
      FoldedEmpty();
    } else if m != "" && IsSeparator(m[0]) && Variant(c, m[1..]) {
      VariantFolds(c, m[1..]);
      FoldedStep(m);
    } else if c != "" && IsSeparator(c[0]) && Variant(c[1..], m) {
      VariantFolds(c[1..], m);
      UnchunkifyStep(c);
    } else {
      VariantFolds(c[1..], m[1..]);
      LooksLikeFolds(c[0], m[0]);
      FoldedStep(m);
      UnchunkifyStep(c);
      assert m == [m[0]] + m[1..];
    }
  }

  lemma UnchunkifyStep(s: string)
    requires s != ""
    ensures Unchunkify(s) == (if IsSeparator(s[0]) then "" else [s[0]]) + Unchunkify(s[1..])
  {
    assert s == [s[0]] + s[1..];
    UnchunkifyCons(s[0], s[1..]);
  }

  lemma FoldedEmpty()
    ensures Folded("") == "" && Unchunkify(Folded("")) == Unchunkify("")
  {
  }

  lemma FoldedStep(m: string)
    requires m != ""
    ensures Unchunkify(Folded(m)) == (if IsSeparator(Fold(m[0])) then "" else [Fold(m[0])]) + Unchunkify(Folded(m[1..]))
  {
    FoldedCons(m);
    UnchunkifyCons(Fold(m[0]), Folded(m[1..]));
  }

  /** Fifty digits and the padding of a shorter code, shielded by a hyphen. */
  function Shielded(digits: string): string { digits + "==" + "-" }

  lemma FoldsToItself(text: string)
    requires forall i :: 0 <= i < |text| ==> InAlphabet(text[i]) || text[i] == '=' || text[i] == '-'
    ensures Folded(text) == text
  {
    hide Folded;
    forall i | 0 <= i < |text| ensures |Folded(text)| == |text| && Folded(text)[i] == text[i] {
      FoldedAt(text, i);
    }
    if text == "" {
      FoldedEmpty();
    } else {
      FoldedAt(text, 0);
      assert Folded(text) == text;
    }
  }

  lemma FoldedAt(text: string, i: nat)
    requires i < |text|
    ensures |Folded(text)| == |text| && Folded(text)[i] == Fold(text[i])
  {
    UntypeoifyFolds(text, i);
  }

  lemma ShieldedCanonical(digits: string)
    requires |digits| == 50 && forall i :: 0 <= i < 50 ==> InAlphabet(digits[i])
    ensures Canonical(Shielded(digits)) == digits + "=="
  {
    var text := Shielded(digits);
    assert forall i :: 0 <= i < 50 ==> text[i] == digits[i];
    assert Trim(text, '=') == text by {
      TrimPadding("", text, "", '=');
      assert "" + text + "" == text;
    }
    FoldsToItself(text);
    hide Trim, Folded;
    RemoveConcat(digits + "==", "-", '-');
    RemoveAbsent(digits + "==", '-');
    RemoveAbsent(digits + "==", ' ');
    assert Remove("-", '-') == "";
    assert Remove(text, '-') == digits + "==";
    assert Unchunkify(text) == digits + "==";
  }

  /** Such a text is accepted, and the last byte of the receiver shows through. */
  lemma FillerAccepted(digits: string, prior: Id)
    requires |digits| == 50 && forall i :: 0 <= i < 50 ==> InAlphabet(digits[i])
    ensures HasFiller(Canonical(Shielded(digits)))
    ensures ParseInto(prior, Shielded(digits)).Ok? && ParseInto(prior, Shielded(digits)).id[31] == prior[31]
  {
    hide Canonical, DecodeString;
    ShieldedCanonical(digits);
    PaddedDecode(digits, "======");
    assert (digits + "==") + "====" == digits + "======";
    assert (digits + "==")[50] == '=';
    UnpackFivesLength(Values(digits));
    PackBytesLength(Unpack(Values(digits), 5));
  }

  /** A concrete text that stands for more than one identifier: fifty times A, then ==-. */
  lemma AmbiguousExample()
    ensures var text := Shielded(seq(50, _ => 'A'));
            exists a: Id, b: Id :: ParseInto(a, text).Ok? && ParseInto(b, text).Ok? && ParseInto(a, text) != ParseInto(b, text)
  {
    hide ParseInto;
    var digits := seq(50, _ => 'A');
    var a, b := ZeroId(), ZeroId()[31 := 1];
    FillerAccepted(digits, a);
    FillerAccepted(digits, b);
    assert ParseInto(a, Shielded(digits)) != ParseInto(b, Shielded(digits));
  }

  /** The fifty-two characters that `Print` chunks. */
  lemma PrintedRaw(id: Id)
    ensures Trim(EncodeToString(id), '=') == EncodeRaw(id)
    ensures |EncodeRaw(id)| == TEXT_LENGTH && EncodeToString(id) == EncodeRaw(id) + "===="
    ensures Chunkable(EncodeRaw(id)) && ' ' !in EncodeRaw(id)
  {
    var raw := EncodeRaw(id);
    var pad := Padding(|raw|);
    assert |pad| == 4;
    assert pad == "====";
    assert EncodeToString(id) == "" + raw + pad;
    TrimPadding("", raw, pad, '=');
  }

  /** The canonical text: fifty-nine characters, chunks of seven, nothing but the alphabet and hyphens. */
  lemma PrintedShape(id: Id)
    ensures |Print(id)| == 59 && Printable(Print(id))
    ensures forall i :: 0 <= i < 59 ==> (Print(id)[i] == '-' <==> i % 8 == 7)
  {
    PrintedRaw(id);
    var raw := EncodeRaw(id);
    ChunkifyShape(raw);
    forall i | 0 <= i < 59
      ensures InAlphabet(Print(id)[i]) || Print(id)[i] == '-'
      ensures Print(id)[i] == '-' <==> i % 8 == 7
    {
      ChunkifyAt(raw, i);
    }
  }

  /**
   * What an identifier looks like, character by character: the digits that the
   * standard defines for its bytes, with a hyphen after each group of seven.
   */
  lemma PrintedText(id: Id, i: nat)
    requires i < 59
    ensures |Print(id)| == 59
    ensures Print(id)[i] == if i % 8 == 7 then '-' else StandardChar(id, i - i / 8)
  {
    hide StandardChar, EncodeRaw, EncodeToString, Chunkify, Trim;
    PrintedShape(id);
    PrintedRaw(id);
    ChunkifyAt(EncodeRaw(id), i);
    if i % 8 != 7 {
      EncodesStandard(id, i - i / 8);
    }
  }

  /**
   * Parsing recovers an identifier from its printed form however it is written
   * down: any letter case, 0/1/8 for O/I/B, hyphens and spaces anywhere or
   * nowhere, and padding at either end.
   */
  lemma ParseVariant(id: Id, left: string, text: string, right: string, prior: Id)
    requires Variant(Print(id), text)
    requires AllAre(left, '=') && AllAre(right, '=')
    ensures ParseInto(prior, left + text + right) == Ok(id)
  {
    hide Variant, Chunkify, Unchunkify, Untypeoify, ToUpper, Trim, EncodeRaw, EncodeToString, DecodeString, AllAre;
    PrintedShape(id);
    PrintedRaw(id);
    VariantFolds(Print(id), text);
    TrimPadding(left, text, right, '=');
    ChunkifyUndone(EncodeRaw(id));
    DecodeEncode(id);
  }

  lemma {:induction false} VariantOfItself(c: string)
    ensures Variant(c, c)
  {
    if c != "" {
      VariantOfItself(c[1..]);
    }
  }

  /** Parsing undoes printing, so printed identifiers are distinct. */
  lemma ParsePrint(id: Id)
    ensures Parse(Print(id)) == Ok(id)
  {
    VariantOfItself(Print(id));
    ParseVariant(id, "", Print(id), "", ZeroId());
    assert "" + Print(id) + "" == Print(id);
  }

  lemma PrintInjective(a: Id, b: Id)
    requires Print(a) == Print(b)
    ensures a == b
  {
    ParsePrint(a);
    ParsePrint(b);
  }
}
