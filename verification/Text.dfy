/** The few string operations of the Go standard library the tunnel relies on, over ASCII text. */
module Text {

  datatype Option<+T> = None | Some(value: T)

  /** Position of the last `c` in `s`, or -1. */
  function LastIndexOf(s: string, c: char): (i: int)
    ensures -1 <= i < |s|
    ensures i == -1 ==> c !in s
    ensures i >= 0 ==> s[i] == c && c !in s[i + 1..]
  {
    if |s| == 0 then -1
    else if s[|s| - 1] == c then |s| - 1
    else
      var t := s[..|s| - 1];
      var i := LastIndexOf(t, c);
      NotTheLast(t, s[|s| - 1], c);
      if i == -1 then
        assert s == t + [s[|s| - 1]];
        -1
      else
        NotTheLast(t[i + 1..], s[|s| - 1], c);
        assert s[i + 1..] == t[i + 1..] + [s[|s| - 1]];
        i
  }

  /** A last character other than `c` makes no difference to whether `c` occurs. */
  lemma NotTheLast(t: string, last: char, c: char)
    requires last != c
    ensures c in t + [last] <==> c in t
  {
    if c in t {
      var k :| 0 <= k < |t| && t[k] == c;
      assert (t + [last])[k] == c;
    }
  }

  /** Position of the first `c` in `s`, or -1. */
  function IndexOf(s: string, c: char): (i: int)
    ensures -1 <= i < |s|
    ensures i == -1 ==> c !in s
    ensures i >= 0 ==> s[i] == c && c !in s[..i]
  {
    if |s| == 0 then -1
    else if s[0] == c then 0
    else
      var i := IndexOf(s[1..], c);
      assert i >= 0 ==> s[..i + 1] == [s[0]] + s[1..][..i];
      assert s == [s[0]] + s[1..];
      if i == -1 then -1 else i + 1
  }

  lemma {:induction false} LastIndexAt(before: string, c: char, after: string)
    requires c !in after
    ensures LastIndexOf(before + [c] + after, c) == |before|
  {
    var s := before + [c] + after;
    if after == [] {
      assert s[|s| - 1] == c;
    } else {
      assert s[|s| - 1] == after[|after| - 1];
      assert s[..|s| - 1] == before + [c] + after[..|after| - 1];
      LastIndexAt(before, c, after[..|after| - 1]);
    }
  }

  lemma {:induction false} IndexAt(before: string, c: char, after: string)
    requires c !in before
    ensures IndexOf(before + [c] + after, c) == |before|
  {
    var s := before + [c] + after;
    if before != [] {
      assert s[0] == before[0];
      assert s[1..] == before[1..] + [c] + after;
      IndexAt(before[1..], c, after);
    }
  }

  /** The text without any `c`. */
  function Remove(s: string, c: char): (r: string)
    ensures c !in r
  {
    if s == [] then []
    else if s[0] == c then Remove(s[1..], c)
    else [s[0]] + Remove(s[1..], c)
  }

  lemma RemoveConcat(s: string, t: string, c: char)
    ensures Remove(s + t, c) == Remove(s, c) + Remove(t, c)
  {
    if s == [] {
      assert s + t == t;
    } else {
      assert (s + t)[1..] == s[1..] + t;
      RemoveConcat(s[1..], t, c);
    }
  }

  lemma RemoveAbsent(s: string, c: char)
    requires c !in s
    ensures Remove(s, c) == s
  {
    if s != [] {
      RemoveAbsent(s[1..], c);
    }
  }

  /** `f` applied to every character. */
  function MapChars(s: string, f: char -> char): (r: string)
    ensures |r| == |s|
    ensures forall i :: 0 <= i < |s| ==> r[i] == f(s[i])
  {
    seq(|s|, i requires 0 <= i < |s| => f(s[i]))
  }

  function TrimLeft(s: string, c: char): (r: string)
    ensures r != [] ==> r[0] != c
  {
    if s != [] && s[0] == c then TrimLeft(s[1..], c) else s
  }

  function TrimRight(s: string, c: char): (r: string)
    ensures r != [] ==> r[|r| - 1] != c
    ensures r <= s
  {
    if s != [] && s[|s| - 1] == c then TrimRight(s[..|s| - 1], c) else s
  }

  /** strings.Trim with a one-character cut set. */
  function Trim(s: string, c: char): string {
    TrimRight(TrimLeft(s, c), c)
  }

  ghost predicate AllAre(s: string, c: char) {
    forall i :: 0 <= i < |s| ==> s[i] == c
  }

  lemma TrimLeftPadding(pad: string, s: string, c: char)
    requires AllAre(pad, c)
    requires s != [] ==> s[0] != c
    ensures TrimLeft(pad + s, c) == s
  {
    if pad == [] {
      assert pad + s == s;
    } else {
      assert (pad + s)[1..] == pad[1..] + s;
      TrimLeftPadding(pad[1..], s, c);
    }
  }

  lemma TrimRightPadding(s: string, pad: string, c: char)
    requires AllAre(pad, c)
    requires s != [] ==> s[|s| - 1] != c
    ensures TrimRight(s + pad, c) == s
  {
    if pad == [] {
      assert s + pad == s;
    } else {
      assert (s + pad)[..|s + pad| - 1] == s + pad[..|pad| - 1];
      TrimRightPadding(s, pad[..|pad| - 1], c);
    }
  }

  lemma TrimPadding(left: string, s: string, right: string, c: char)
    requires AllAre(left, c) && AllAre(right, c)
    requires s != [] ==> s[0] != c && s[|s| - 1] != c
    ensures Trim(left + s + right, c) == s
  {
    if s == [] {
      assert left + s + right == (left + right) + [];
      TrimLeftPadding(left + right, [], c);
    } else {
      assert left + s + right == left + (s + right);
      TrimLeftPadding(left, s + right, c);
      TrimRightPadding(s, right, c);
    }
  }

  predicate IsUpper(c: char) { 'A' <= c <= 'Z' }
  predicate IsLower(c: char) { 'a' <= c <= 'z' }
  predicate IsDigit(c: char) { '0' <= c <= '9' }

  function LowerChar(c: char): char {
    if IsUpper(c) then ((c as int) + 32) as char else c
  }

  function UpperChar(c: char): char {
    if IsLower(c) then ((c as int) - 32) as char else c
  }

  function ToLower(s: string): string { MapChars(s, LowerChar) }

  function ToUpper(s: string): string { MapChars(s, UpperChar) }

  /** strings.TrimSuffix */
  function TrimSuffix(s: string, suffix: string): string {
    if |suffix| <= |s| && s[|s| - |suffix|..] == suffix then s[..|s| - |suffix|] else s
  }
}
