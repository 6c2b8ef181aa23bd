/**
 * The part of JavaScript's `String.prototype.trim` that the story code relies on:
 * the name prompt (script.js) and the dialogue editor (orchestrator.js) both trim
 * what the user typed before deciding whether it is empty.
 */
module Strings {

  /** JavaScript's WhiteSpace and LineTerminator code points, the set `trim` strips. */
  predicate IsWhitespace(c: char) {
    c == ' ' || c == '\t' || c == '\n' || c == '\r' || c == '\U{000B}' || c == '\U{000C}'
    || c == '\U{00A0}' || c == '\U{1680}' || ('\U{2000}' <= c <= '\U{200A}')
    || c == '\U{2028}' || c == '\U{2029}' || c == '\U{202F}' || c == '\U{205F}'
    || c == '\U{3000}' || c == '\U{FEFF}'
  }

  /** True when every character of `s` is whitespace (vacuously for ""). */
  predicate AllWhitespace(s: string) {
    forall k :: 0 <= k < |s| ==> IsWhitespace(s[k])
  }

  /** Non-empty, and neither starting nor ending with whitespace. */
  predicate Unpadded(s: string) {
    s != [] && !IsWhitespace(s[0]) && !IsWhitespace(s[|s| - 1])
  }

  /**
   * `s.trim()`: whitespace is stripped from the front and from the back until
   * neither end is whitespace. The result is never longer than `s` and is
   * never padded; `TrimCutsBlankEnds` says which piece of `s` it is and
   * `TrimEmptyExactlyWhenBlank` when it is empty.
   */
  function Trim(s: string): (r: string)
    ensures |r| <= |s|
    ensures r != [] ==> Unpadded(r)
    decreases |s|
  {
    if s == [] then []
    else if IsWhitespace(s[0]) then Trim(s[1..])
    else if IsWhitespace(s[|s| - 1]) then Trim(s[..|s| - 1])
    else s
  }

  /** `r` is the piece of `s` that starts at `a`, with only whitespace
      before and after it. */
  predicate CutAt(s: string, r: string, a: nat) {
    a + |r| <= |s| && r == s[a..a + |r|] && AllWhitespace(s[..a]) && AllWhitespace(s[a + |r|..])
  }

  /** `s.trim()` is `s` with its blank ends cut off: it starts right after the
      `a` leading whitespace characters, and only whitespace follows it. */
  lemma {:induction false} TrimCutsBlankEnds(s: string) returns (a: nat)
    ensures CutAt(s, Trim(s), a)
    decreases |s|
  {
    if s == [] {
      a := 0;
    } else if IsWhitespace(s[0]) {
      var b := TrimCutsBlankEnds(s[1..]);
      BlankBefore(s, Trim(s[1..]), b);
      a := b + 1;
    } else if IsWhitespace(s[|s| - 1]) {
      a := TrimCutsBlankEnds(s[..|s| - 1]);
      BlankAfter(s, Trim(s[..|s| - 1]), a);
    } else {
      a := 0;
      assert s[0..|s|] == s;
    }
  }

  /** One more blank in front of `s[1..]` shifts where a piece of it starts by one. */
  lemma BlankBefore(s: string, r: string, b: nat)
    requires s != [] && IsWhitespace(s[0]) && CutAt(s[1..], r, b)
    ensures CutAt(s, r, b + 1)
  {
    assert s[..b + 1] == [s[0]] + s[1..][..b];
    BlanksJoin([s[0]], s[1..][..b]);
    assert s[1..][b + |r|..] == s[b + 1 + |r|..];
  }

  /** One more blank behind `s[..|s| - 1]` leaves a piece of it where it was. */
  lemma BlankAfter(s: string, r: string, a: nat)
    requires s != [] && IsWhitespace(s[|s| - 1]) && CutAt(s[..|s| - 1], r, a)
    ensures CutAt(s, r, a)
  {
    assert s[..|s| - 1][..a] == s[..a];
    assert s[a + |r|..] == s[..|s| - 1][a + |r|..] + [s[|s| - 1]];
    BlanksJoin(s[..|s| - 1][a + |r|..], [s[|s| - 1]]);
  }

  /** `s.trim()` is empty exactly when `s` holds nothing but whitespace. */
  lemma TrimEmptyExactlyWhenBlank(s: string)
    ensures Trim(s) == [] <==> AllWhitespace(s)
  {
    var r := Trim(s);
    var a := TrimCutsBlankEnds(s);
    if r == [] {
      assert s == s[..a] + s[a..];
    } else {
      assert r[0] == s[a];
    }
  }

  /** Two blank runs side by side are one blank run. */
  lemma BlanksJoin(x: string, y: string)
    requires AllWhitespace(x) && AllWhitespace(y)
    ensures AllWhitespace(x + y)
  {
  }
}
