/**
 * String helpers the bot relies on: Python's argument-less `str.split()`,
 * `sep.join(parts)`, and substring containment.
 */
module Text {

  /** The characters Python's `str.isspace()` accepts, which are the separators of `str.split()`. */
  predicate IsSpace(c: char) {
    ('\U{0009}' <= c <= '\U{000D}') || ('\U{001C}' <= c <= '\U{0020}') ||
    c == '\U{0085}' || c == '\U{00A0}' || c == '\U{1680}' ||
    ('\U{2000}' <= c <= '\U{200A}') || c == '\U{2028}' || c == '\U{2029}' ||
    c == '\U{202F}' || c == '\U{205F}' || c == '\U{3000}'
  }

  /** A token `str.split()` can produce: non-empty and free of whitespace. */
  predicate IsWord(w: string) {
    w != [] && forall i :: 0 <= i < |w| ==> !IsSpace(w[i])
  }

  /** Length of the leading run of non-whitespace characters of `s`. */
  function WordLength(s: string): (n: nat)
    ensures n <= |s|
    ensures forall i :: 0 <= i < n ==> !IsSpace(s[i])
    ensures n < |s| ==> IsSpace(s[n])
  {
    if s == [] || IsSpace(s[0]) then 0 else 1 + WordLength(s[1..])
  }

  /**
   * Python's `s.split()`: the maximal runs of non-whitespace characters, in
   * order; leading, trailing and repeated whitespace produce no empty tokens.
   */
  function Split(s: string): (ws: seq<string>)
    ensures forall i :: 0 <= i < |ws| ==> IsWord(ws[i])
    decreases |s|
  {
    if s == [] then []
    else if IsSpace(s[0]) then Split(s[1..])
    else
      var n := WordLength(s);
      [s[..n]] + Split(s[n..])
  }

  /** Python's `sep.join(parts)`. */
  function Join(parts: seq<string>, sep: string): string
  {
    if |parts| == 0 then ""
    else if |parts| == 1 then parts[0]
    else parts[0] + sep + Join(parts[1..], sep)
  }

  /** `t` occurs in `s` as a contiguous substring (Python's `t in s`). */
  ghost predicate Infix(t: string, s: string) {
    exists i :: 0 <= i <= |s| && OccursAt(t, s, i)
  }

  predicate OccursAt(t: string, s: string, i: int) {
    0 <= i <= |s| - |t| && s[i..i + |t|] == t
  }

  lemma {:induction false} WordLengthOfWord(w: string, rest: string)
    requires IsWord(w)
    requires rest == [] || IsSpace(rest[0])
    ensures WordLength(w + rest) == |w|
    decreases |w|
  {
    var s := w + rest;
    assert s[0] == w[0];
    if |w| > 1 {
      assert s[1..] == w[1..] + rest;
      WordLengthOfWord(w[1..], rest);
    } else {
      assert s[1..] == rest;
    }
  }

  /** Splitting a single-space join of tokens gives the tokens back. */
  lemma {:induction false} SplitJoin(ws: seq<string>)
    requires forall i :: 0 <= i < |ws| ==> IsWord(ws[i])
    ensures Split(Join(ws, " ")) == ws
    decreases |ws|
  {
    if |ws| == 1 {
      var w := ws[0];
      WordLengthOfWord(w, []);
      assert w + [] == w;
      assert w[..|w|] == w && w[|w|..] == [];
    } else if |ws| > 1 {
      var w, tail := ws[0], Join(ws[1..], " ");
      var s := w + " " + tail;
      assert s == w + (" " + tail);
      WordLengthOfWord(w, " " + tail);
      assert s[..|w|] == w;
      assert s[|w|..] == " " + tail;
      assert (" " + tail)[1..] == tail;
      SplitJoin(ws[1..]);
      assert ws == [w] + ws[1..];
    }
  }

  /** Containment survives adding text on either side. */
  lemma InfixExtend(t: string, s: string, p: string, q: string)
    requires Infix(t, s)
    ensures Infix(t, p + s + q)
  {
    var i :| 0 <= i <= |s| && OccursAt(t, s, i);
    assert i + |t| <= |s| && s[i..i + |t|] == t;
    var u := p + s + q;
    assert u[|p| + i..|p| + i + |t|] == s[i..i + |t|];
    assert OccursAt(t, u, |p| + i);
  }

  lemma InfixSelf(t: string, p: string, q: string)
    ensures Infix(t, p + t + q)
  {
    var u := p + t + q;
    assert u[|p|..|p| + |t|] == t;
    assert OccursAt(t, u, |p|);
  }
}
