/** The parts of Go's string handling that the proxy depends on:
    strings.Contains, strings.HasSuffix, the first piece of strings.Split
    for a one-character separator, and the []byte conversion of ASCII text. */
module GoStrings {

  newtype byte = b: int | 0 <= b < 256

  type Bytes = seq<byte>

  /** strings.HasPrefix. */
  predicate HasPrefix(s: string, t: string)
  {
    |t| <= |s| && s[..|t|] == t
  }

  /** `t` occurs in `s` starting at position `i`. */
  predicate OccursAt(s: string, t: string, i: nat)
  {
    i + |t| <= |s| && s[i..i + |t|] == t
  }

  /** strings.Contains, searched front to back: it holds exactly when `t`
      occurs at some position of `s` (the empty string occurs everywhere). */
  predicate Contains(s: string, t: string)
    ensures Contains(s, t) <==> exists i: nat :: OccursAt(s, t, i)
    decreases |s|
  {
    if HasPrefix(s, t) then
      assert OccursAt(s, t, 0);
      true
    else if s == [] then
      assert forall i: nat :: !OccursAt(s, t, i);
      false
    else
      OccursShift(s, t);
      Contains(s[1..], t)
  }

  /** Occurrences in `s[1..]` are those in `s` one position further on. */
  lemma OccursShift(s: string, t: string)
    requires s != []
    ensures forall j: nat :: OccursAt(s[1..], t, j) ==> OccursAt(s, t, j + 1)
    ensures forall i: nat | 1 <= i :: OccursAt(s, t, i) ==> OccursAt(s[1..], t, i - 1)
  {
    forall j: nat | OccursAt(s[1..], t, j)
      ensures OccursAt(s, t, j + 1)
    {
      assert s[1..][j..j + |t|] == s[j + 1..j + 1 + |t|];
    }
    forall i: nat | 1 <= i && OccursAt(s, t, i)
      ensures OccursAt(s[1..], t, i - 1)
    {
      assert s[1..][i - 1..i - 1 + |t|] == s[i..i + |t|];
    }
  }

  /** strings.HasSuffix: the last |t| characters of `s` are those of `t`, one by one. */
  predicate HasSuffix(s: string, t: string)
    ensures HasSuffix(s, t) <==> |t| <= |s| && forall i | 0 <= i < |t| :: s[|s| - |t| + i] == t[i]
  {
    |t| <= |s| && s[|s| - |t|..] == t
  }

  /** Whatever contains `t + u` contains `t`. */
  lemma {:induction false} ContainsPrefix(s: string, t: string, u: string)
    requires Contains(s, t + u)
    ensures Contains(s, t)
  {
    if HasPrefix(s, t + u) {
      assert s[..|t|] == s[..|t + u|][..|t|];
    } else {
      ContainsPrefix(s[1..], t, u);
    }
  }

  /** strings.Split(s, [c])[0]: the text before the first `c`, or all of
      `s` when `c` does not occur in it. */
  function BeforeFirst(s: string, c: char): (r: string)
    ensures |r| <= |s| && r == s[..|r|]
    ensures c !in r
    ensures |r| == |s| || s[|r|] == c
  {
    if s == [] || s[0] == c then [] else [s[0]] + BeforeFirst(s[1..], c)
  }

  predicate IsAscii(s: string)
  {
    forall i | 0 <= i < |s| :: s[i] as int < 128
  }

  /** []byte(s) for ASCII text: one byte per character, same code. */
  function Ascii(s: string): (b: Bytes)
    requires IsAscii(s)
    ensures |b| == |s|
    ensures forall i | 0 <= i < |s| :: b[i] as int == s[i] as int
  {
    seq(|s|, i requires 0 <= i < |s| => s[i] as int as byte)
  }

  lemma AsciiAppend(s: string, t: string)
    requires IsAscii(s) && IsAscii(t)
    ensures IsAscii(s + t)
    ensures Ascii(s + t) == Ascii(s) + Ascii(t)
  {
  }
}
