/**
 * String operations of JavaScript as the pages use them: `trim()`,
 * `split(/\s+/)`, `toLowerCase()` and `toUpperCase()`.
 *
 * `trim` and the regular-expression class `\s` use the same set of
 * whitespace characters (ECMAScript's WhiteSpace and LineTerminator);
 * `IsWhitespace` writes that set out. Case mapping is modelled for the
 * ASCII letters only.
 */
module Text {

  predicate IsWhitespace(c: char) {
    || c == ' ' || c == '\t' || c == '\n' || c == '\r'
    || c == '\U{000B}' || c == '\U{000C}' || c == '\U{00A0}' || c == '\U{1680}'
    || ('\U{2000}' <= c <= '\U{200A}')
    || c == '\U{2028}' || c == '\U{2029}' || c == '\U{202F}' || c == '\U{205F}'
    || c == '\U{3000}' || c == '\U{FEFF}'
  }

  predicate AllWhitespace(s: string) {
    forall i :: 0 <= i < |s| ==> IsWhitespace(s[i])
  }

  predicate NoWhitespace(s: string) {
    forall i :: 0 <= i < |s| ==> !IsWhitespace(s[i])
  }

  /** Neither starts nor ends with whitespace: what `trim()` returns. */
  predicate IsTrimmed(s: string) {
    s == [] || (!IsWhitespace(s[0]) && !IsWhitespace(s[|s| - 1]))
  }

  /** The first position at or after `i` that does not hold whitespace, or `|s|`. */
  function SkipForward(s: string, i: nat): (j: nat)
    requires i <= |s|
    ensures i <= j <= |s|
    ensures forall k :: i <= k < j ==> IsWhitespace(s[k])
    ensures j < |s| ==> !IsWhitespace(s[j])
    decreases |s| - i
  {
    if i < |s| && IsWhitespace(s[i]) then SkipForward(s, i + 1) else i
  }

  /** The end of `s[lo..j]` once its trailing whitespace is dropped. */
  function SkipBackward(s: string, lo: nat, j: nat): (k: nat)
    requires lo <= j <= |s|
    ensures lo <= k <= j
    ensures forall m :: k <= m < j ==> IsWhitespace(s[m])
    ensures k > lo ==> !IsWhitespace(s[k - 1])
    decreases j
  {
    if j > lo && IsWhitespace(s[j - 1]) then SkipBackward(s, lo, j - 1) else j
  }

  /** Whitespace up to `m` and none at `m` pins down where `SkipForward` stops. */
  lemma SkipForwardAt(s: string, i: nat, m: nat)
    requires i <= m <= |s|
    requires forall k :: i <= k < m ==> IsWhitespace(s[k])
    requires m < |s| ==> !IsWhitespace(s[m])
    ensures SkipForward(s, i) == m
  {
  }

  /** Whitespace from `m` on and none just before `m` pins down where `SkipBackward` stops. */
  lemma SkipBackwardAt(s: string, lo: nat, j: nat, m: nat)
    requires lo <= m <= j <= |s|
    requires forall k :: m <= k < j ==> IsWhitespace(s[k])
    requires m > lo ==> !IsWhitespace(s[m - 1])
    ensures SkipBackward(s, lo, j) == m
  {
  }

  /** Where `trim()` starts: the first non-whitespace position. */
  function TrimStartIndex(s: string): (a: nat)
    ensures a <= |s|
  {
    SkipForward(s, 0)
  }

  /** Where `trim()` ends: just past the last non-whitespace position. */
  function TrimEndIndex(s: string): (b: nat)
    ensures TrimStartIndex(s) <= b <= |s|
  {
    SkipBackward(s, TrimStartIndex(s), |s|)
  }

  /**
   * `trim()`: the result neither starts nor ends with whitespace, and is
   * empty exactly when `s` is whitespace only.
   */
  function Trim(s: string): (r: string)
    ensures IsTrimmed(r)
    ensures r == [] <==> AllWhitespace(s)
  {
    var a, b := TrimStartIndex(s), TrimEndIndex(s);
    s[a..b]
  }

  /** `s` is the result of `trim()` with whitespace on either side. */
  lemma TrimParts(s: string) returns (a: string, b: string)
    ensures AllWhitespace(a) && AllWhitespace(b)
    ensures s == a + Trim(s) + b
  {
    var i, j := TrimStartIndex(s), TrimEndIndex(s);
    a, b := s[..i], s[j..];
    assert s == s[..i] + s[i..j] + s[j..];
  }

  /**
   * `trim()` is characterised by what it returns: whitespace around an
   * already trimmed string `t` is exactly what `trim()` takes away.
   */
  lemma TrimOfPadded(p: string, t: string, q: string)
    requires AllWhitespace(p) && AllWhitespace(q) && IsTrimmed(t)
    ensures Trim(p + t + q) == t
  {
    var s := p + t + q;
    if t == [] {
      assert forall k :: 0 <= k < |s| ==> s[k] == (if k < |p| then p[k] else q[k - |p|]);
      assert AllWhitespace(s);
    } else {
      assert forall k :: 0 <= k < |p| ==> s[k] == p[k];
      assert s[|p|] == t[0];
      SkipForwardAt(s, 0, |p|);
      var e := |p| + |t|;
      assert forall k :: e <= k < |s| ==> s[k] == q[k - e];
      assert s[e - 1] == t[|t| - 1];
      SkipBackwardAt(s, |p|, |s|, e);
      assert s[|p|..e] == t;
    }
  }

  lemma WhitespaceConcat(a: string, b: string)
    requires AllWhitespace(a) && AllWhitespace(b)
    ensures AllWhitespace(a + b)
  {
    assert forall k :: 0 <= k < |a + b| ==> (a + b)[k] == (if k < |a| then a[k] else b[k - |a|]);
  }

  lemma Regroup(p: string, a: string, t: string, b: string, q: string)
    ensures p + (a + t + b) + q == (p + a) + t + (b + q)
  {
  }

  /** Surrounding whitespace, of any length, never changes what `trim()` returns. */
  lemma TrimIgnoresPadding(p: string, s: string, q: string)
    requires AllWhitespace(p) && AllWhitespace(q)
    ensures Trim(p + s + q) == Trim(s)
  {
    var a, b := TrimParts(s);
    var t := Trim(s);
    WhitespaceConcat(p, a);
    WhitespaceConcat(b, q);
    Regroup(p, a, t, b, q);
    TrimOfPadded(p + a, t, b + q);
  }

  /** `trim()` is idempotent. */
  lemma TrimIdempotent(s: string)
    ensures Trim(Trim(s)) == Trim(s)
  {
    var t := Trim(s);
    assert [] + t + [] == t;
    TrimOfPadded([], t, []);
  }

  /** The first whitespace position at or after `i`, or `|s|`. */
  function WordEnd(s: string, i: nat): (j: nat)
    requires i <= |s|
    ensures i <= j <= |s|
    ensures forall k :: i <= k < j ==> !IsWhitespace(s[k])
    ensures j < |s| ==> IsWhitespace(s[j])
    decreases |s| - i
  {
    if i < |s| && !IsWhitespace(s[i]) then WordEnd(s, i + 1) else i
  }

  /** No whitespace up to `m` and whitespace at `m` pins down where `WordEnd` stops. */
  lemma WordEndAt(s: string, i: nat, m: nat)
    requires i <= m <= |s|
    requires forall k :: i <= k < m ==> !IsWhitespace(s[k])
    requires m < |s| ==> IsWhitespace(s[m])
    ensures WordEnd(s, i) == m
  {
  }

  /**
   * `s.split(/\s+/)`: the pieces between maximal runs of whitespace. A
   * leading or trailing run gives an empty first or last piece, and the empty
   * string splits into one empty piece.
   */
  function Split(s: string): (pieces: seq<string>)
    ensures |pieces| >= 1
    ensures pieces[0] == s[..WordEnd(s, 0)]
    decreases |s|
  {
    var i := WordEnd(s, 0);
    if i == |s| then [s]
    else
      var j := SkipForward(s, i);
      assert j > i;
      [s[..i]] + Split(s[j..])
  }

  /** A single word splits into itself. */
  lemma SplitOfWord(w: string)
    requires NoWhitespace(w)
    ensures Split(w) == [w]
  {
    WordEndAt(w, 0, |w|);
  }

  /**
   * A word followed by a whitespace run: the run's length and content do not
   * matter, the word becomes the first piece and splitting continues after
   * the run.
   */
  lemma SplitAfterWord(w: string, ws: string, rest: string)
    requires NoWhitespace(w) && AllWhitespace(ws) && ws != []
    requires rest == [] || !IsWhitespace(rest[0])
    ensures Split(w + ws + rest) == [w] + Split(rest)
  {
    var s := w + ws + rest;
    var e := |w| + |ws|;
    assert forall k :: 0 <= k < |w| ==> s[k] == w[k];
    assert s[|w|] == ws[0];
    WordEndAt(s, 0, |w|);
    assert forall k :: |w| <= k < e ==> s[k] == ws[k - |w|];
    assert e < |s| ==> s[e] == rest[0];
    SkipForwardAt(s, |w|, e);
    assert s[..|w|] == w;
    assert s[e..] == rest;
  }

  /** Every piece of a trimmed, non-empty string is a non-empty word. */
  lemma {:induction false} SplitTrimmedIntoWords(t: string)
    requires IsTrimmed(t) && t != []
    ensures forall k :: 0 <= k < |Split(t)| ==> Split(t)[k] != [] && NoWhitespace(Split(t)[k])
    decreases |t|
  {
    var i := WordEnd(t, 0);
    assert i > 0;
    if i < |t| {
      var j := SkipForward(t, i);
      assert j < |t| by {
        assert i <= |t| - 1 < |t|;
      }
      var rest := t[j..];
      assert rest[0] == t[j] && rest[|rest| - 1] == t[|t| - 1];
      SplitTrimmedIntoWords(rest);
      assert Split(t) == [t[..i]] + Split(rest);
    } else {
      assert Split(t) == [t];
    }
  }

  function LowerChar(c: char): char {
    if 'A' <= c <= 'Z' then (c as int + 32) as char else c
  }

  function UpperChar(c: char): char {
    if 'a' <= c <= 'z' then (c as int - 32) as char else c
  }

  /** `toLowerCase()` over ASCII letters. */
  function ToLower(s: string): (r: string)
    ensures |r| == |s|
    ensures forall i :: 0 <= i < |s| ==> r[i] == LowerChar(s[i])
  {
    seq(|s|, i requires 0 <= i < |s| => LowerChar(s[i]))
  }

  /** `toUpperCase()` over ASCII letters. */
  function ToUpper(s: string): (r: string)
    ensures |r| == |s|
    ensures forall i :: 0 <= i < |s| ==> r[i] == UpperChar(s[i])
  {
    seq(|s|, i requires 0 <= i < |s| => UpperChar(s[i]))
  }

  predicate HasNoUpper(s: string) {
    forall i :: 0 <= i < |s| ==> !('A' <= s[i] <= 'Z')
  }

  predicate HasNoLower(s: string) {
    forall i :: 0 <= i < |s| ==> !('a' <= s[i] <= 'z')
  }
}
