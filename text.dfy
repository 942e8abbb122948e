/**
 * The answer validator shared by the clue screens: a free-text answer is
 * normalised with `toLowerCase()` and then `trim()`, and accepted when the
 * result contains (`includes`) one of a small set of keywords.
 *
 * Lower-casing is modelled on ASCII letters only; `trim` removes exactly the
 * ECMAScript WhiteSpace and LineTerminator code points.
 */
module Text {

  /** The code points `String.prototype.trim` removes from both ends. */
  predicate IsWhitespace(c: char) {
    || c == '\t' || c == '\n' || c == '\U{000B}' || c == '\U{000C}' || c == '\r'
    || c == ' ' || c == '\U{00A0}' || c == '\U{1680}'
    || ('\U{2000}' <= c <= '\U{200A}')
    || c == '\U{2028}' || c == '\U{2029}' || c == '\U{202F}' || c == '\U{205F}'
    || c == '\U{3000}' || c == '\U{FEFF}'
  }

  predicate AllWhitespace(s: string) {
    forall i :: 0 <= i < |s| ==> IsWhitespace(s[i])
  }

  /** `toLowerCase` on one character, for the ASCII letters. */
  function LowerChar(c: char): char {
    if 'A' <= c <= 'Z' then (c as int + 32) as char else c
  }

  /**
   * `toLowerCase`: same length, every upper-case ASCII letter replaced by its
   * lower-case partner, every other character kept.
   */
  function Lower(s: string): (r: string)
    ensures |r| == |s|
    ensures forall i :: 0 <= i < |s| ==> !('A' <= r[i] <= 'Z')
    ensures forall i :: 0 <= i < |s| && 'A' <= s[i] <= 'Z' ==> r[i] == (s[i] as int + 32) as char
    ensures forall i :: 0 <= i < |s| && !('A' <= s[i] <= 'Z') ==> r[i] == s[i]
  {
    seq(|s|, i requires 0 <= i < |s| => LowerChar(s[i]))
  }

  function TrimStart(s: string): string {
    if |s| > 0 && IsWhitespace(s[0]) then TrimStart(s[1..]) else s
  }

  function TrimEnd(s: string): string {
    if |s| > 0 && IsWhitespace(s[|s| - 1]) then TrimEnd(s[..|s| - 1]) else s
  }

  /** `s.trim()`; `TrimSlice` below says what it keeps. */
  function Trim(s: string): string {
    TrimEnd(TrimStart(s))
  }

  /** `raw.toLowerCase().trim()`, the normalisation of every answer check. */
  function Normalize(raw: string): string {
    Trim(Lower(raw))
  }

  predicate OccursAt(s: string, k: string, i: int) {
    0 <= i && i + |k| <= |s| && s[i..i + |k|] == k
  }

  /** `s.includes(k)`: the empty string occurs everywhere, and nothing longer than `s` occurs in it. */
  predicate Contains(s: string, k: string)
    ensures k == [] ==> Contains(s, k)
    ensures Contains(s, k) ==> |k| <= |s|
  {
    assert k == [] ==> s[0..0] == k && OccursAt(s, k, 0);
    exists i | 0 <= i <= |s| - |k| :: OccursAt(s, k, i)
  }

  /**
   * A keyword the validator looks for: non-empty and neither starting nor
   * ending with whitespace (every keyword of the quest is one lower-case word).
   */
  predicate IsKeyword(k: string) {
    |k| > 0 && !IsWhitespace(k[0]) && !IsWhitespace(k[|k| - 1])
  }

  predicate AllKeywords(ks: seq<string>) {
    forall j :: 0 <= j < |ks| ==> IsKeyword(ks[j])
  }

  /** `answer.includes(ks[0]) || answer.includes(ks[1]) || ...` on the normalised answer. */
  predicate Matches(raw: string, ks: seq<string>) {
    exists j | 0 <= j < |ks| :: Contains(Normalize(raw), ks[j])
  }

  // ---------------------------------------------------------------------
  // Trimming

  /** `TrimStart` drops exactly the maximal whitespace prefix. */
  lemma {:induction false} TrimStartSlice(s: string) returns (n: nat)
    ensures n <= |s| && TrimStart(s) == s[n..]
    ensures forall i :: 0 <= i < n ==> IsWhitespace(s[i])
    ensures n < |s| ==> !IsWhitespace(s[n])
  {
    if |s| > 0 && IsWhitespace(s[0]) {
      var m := TrimStartSlice(s[1..]);
      n := m + 1;
      assert s[1..][m..] == s[n..];
      forall i | 0 <= i < n ensures IsWhitespace(s[i]) {
        if i > 0 { assert s[i] == s[1..][i - 1]; }
      }
    } else {
      n := 0;
    }
  }

  /** `TrimEnd` drops exactly the maximal whitespace suffix. */
  lemma {:induction false} TrimEndSlice(s: string) returns (m: nat)
    ensures m <= |s| && TrimEnd(s) == s[..m]
    ensures forall i :: m <= i < |s| ==> IsWhitespace(s[i])
    ensures 0 < m ==> !IsWhitespace(s[m - 1])
  {
    if |s| > 0 && IsWhitespace(s[|s| - 1]) {
      var init := s[..|s| - 1];
      m := TrimEndSlice(init);
      assert init[..m] == s[..m];
      forall i | m <= i < |s| ensures IsWhitespace(s[i]) {
        if i < |s| - 1 { assert s[i] == init[i]; }
      }
    } else {
      m := |s|;
      assert s[..m] == s;
    }
  }

  /**
   * `trim` keeps the middle of its input: the result is the slice `s[a..b]`,
   * everything cut away is whitespace, and a non-empty result neither starts
   * nor ends with whitespace.
   */
  lemma TrimSlice(s: string) returns (a: nat, b: nat)
    ensures a <= b <= |s| && Trim(s) == s[a..b]
    ensures forall i :: 0 <= i < a || b <= i < |s| ==> IsWhitespace(s[i])
    ensures a < b ==> !IsWhitespace(s[a]) && !IsWhitespace(s[b - 1])
  {
    a := TrimStartSlice(s);
    var t := s[a..];
    var m := TrimEndSlice(t);
    b := a + m;
    assert t[..m] == s[a..b];
    forall i | b <= i < |s| ensures IsWhitespace(s[i]) {
      assert s[i] == t[i - a];
    }
    if a < b {
      assert s[b - 1] == t[m - 1];
    }
  }

  /** `s.trim()` is empty exactly when `s` is blank; this is the `!x.trim()` test. */
  lemma TrimEmptyIffBlank(s: string)
    ensures Trim(s) == [] <==> AllWhitespace(s)
  {
    var a, b := TrimSlice(s);
    if Trim(s) != [] {
      assert !IsWhitespace(s[a]);
    } else {
      assert a == b;
    }
  }

  /** A string that starts with a visible character is not blank after `trim()`. */
  lemma FirstVisibleNotBlank(s: string)
    requires |s| > 0 && !IsWhitespace(s[0])
    ensures Trim(s) != ""
  {
    TrimEmptyIffBlank(s);
  }

  /**
   * Trimming never matters to a keyword search: a keyword occurs in
   * `s.trim()` if and only if it occurs in `s`.
   */
  lemma ContainsTrimmed(s: string, k: string)
    requires IsKeyword(k)
    ensures Contains(Trim(s), k) <==> Contains(s, k)
  {
    var a, b := TrimSlice(s);
    var t := Trim(s);
    if Contains(t, k) {
      var i :| 0 <= i <= |t| - |k| && OccursAt(t, k, i);
      assert t == s[a..b];
      var inS, inT := s[a + i..a + i + |k|], t[i..i + |k|];
      forall x | 0 <= x < |k| ensures inS[x] == inT[x] {
        assert t[i + x] == s[a + i + x];
      }
      assert inS == inT;
      assert OccursAt(s, k, a + i);
    }
    if Contains(s, k) {
      var i :| 0 <= i <= |s| - |k| && OccursAt(s, k, i);
      assert s[i] == k[0];
      assert s[i + |k| - 1] == k[|k| - 1];
      assert a <= i && i + |k| <= b;
      assert t == s[a..b];
      var inS, inT := s[i..i + |k|], t[i - a..i - a + |k|];
      forall x | 0 <= x < |k| ensures inT[x] == inS[x] {
        assert t[i - a + x] == s[i + x];
      }
      assert inS == inT;
      assert OccursAt(t, k, i - a);
    }
  }

  /** Leading whitespace is all `TrimStart` sees of its prefix. */
  lemma {:induction false} TrimStartSkipsBlankPrefix(w: string, v: string)
    requires AllWhitespace(w)
    ensures TrimStart(w + v) == TrimStart(v)
  {
    if |w| > 0 {
      assert (w + v)[1..] == w[1..] + v;
      TrimStartSkipsBlankPrefix(w[1..], v);
    } else {
      assert w + v == v;
    }
  }

  /** Trailing whitespace is all `TrimEnd` sees of its suffix. */
  lemma {:induction false} TrimEndSkipsBlankSuffix(v: string, w: string)
    requires AllWhitespace(w)
    ensures TrimEnd(v + w) == TrimEnd(v)
  {
    if |w| > 0 {
      var w' := w[..|w| - 1];
      assert (v + w)[..|v + w| - 1] == v + w';
      TrimEndSkipsBlankSuffix(v, w');
    } else {
      assert v + w == v;
    }
  }

  /** Once `TrimStart` reaches a visible character, what follows is kept whole. */
  lemma {:induction false} TrimStartKeepsTail(u: string, v: string)
    requires !AllWhitespace(u)
    ensures TrimStart(u + v) == TrimStart(u) + v
  {
    if IsWhitespace(u[0]) {
      assert (u + v)[1..] == u[1..] + v;
      assert !AllWhitespace(u[1..]) by {
        var i :| 0 <= i < |u| && !IsWhitespace(u[i]);
        assert u[1..][i - 1] == u[i];
      }
      TrimStartKeepsTail(u[1..], v);
    }
  }

  lemma TrimBlank(w: string)
    requires AllWhitespace(w)
    ensures Trim(w) == []
  {
    TrimEmptyIffBlank(w);
  }

  /** Surrounding whitespace never changes what `trim` returns. */
  lemma TrimIgnoresPadding(pre: string, u: string, post: string)
    requires AllWhitespace(pre) && AllWhitespace(post)
    ensures Trim(pre + u + post) == Trim(u)
  {
    assert pre + u + post == pre + (u + post);
    TrimStartSkipsBlankPrefix(pre, u + post);
    if AllWhitespace(u) {
      TrimBlank(u);
      assert AllWhitespace(u + post) by {
        forall i | 0 <= i < |u + post| ensures IsWhitespace((u + post)[i]) {
          if i < |u| { assert (u + post)[i] == u[i]; } else { assert (u + post)[i] == post[i - |u|]; }
        }
      }
      TrimBlank(u + post);
    } else {
      TrimStartKeepsTail(u, post);
      TrimEndSkipsBlankSuffix(TrimStart(u), post);
    }
  }

  /** Normalising never lengthens an answer, so an answer shorter than every keyword is rejected. */
  lemma ShortAnswerRejected(raw: string, ks: seq<string>)
    requires forall j :: 0 <= j < |ks| ==> |raw| < |ks[j]|
    ensures !Matches(raw, ks)
  {
    var a, b := TrimSlice(Lower(raw));
  }

  lemma LowerConcat(a: string, b: string)
    ensures Lower(a + b) == Lower(a) + Lower(b)
  {
    assert forall i :: 0 <= i < |a + b| ==> Lower(a + b)[i] == (Lower(a) + Lower(b))[i];
  }

  lemma LowerBlank(w: string)
    requires AllWhitespace(w)
    ensures Lower(w) == w
  {
  }

  // ---------------------------------------------------------------------
  // Properties of the validator

  /**
   * Normalisation is whitespace-insensitive at the ends:
   * `"  WISDOM  "` and `"WISDOM"` normalise alike.
   */
  lemma NormalizeIgnoresPadding(pre: string, raw: string, post: string)
    requires AllWhitespace(pre) && AllWhitespace(post)
    ensures Normalize(pre + raw + post) == Normalize(raw)
  {
    LowerConcat(pre + raw, post);
    LowerConcat(pre, raw);
    LowerBlank(pre);
    LowerBlank(post);
    TrimIgnoresPadding(pre, Lower(raw), post);
  }

  /**
   * The validator accepts an answer exactly when its lower-cased text
   * contains one of the keywords; the `trim` step never changes the verdict.
   */
  lemma MatchesIffLowered(raw: string, ks: seq<string>)
    requires AllKeywords(ks)
    ensures Matches(raw, ks) <==> exists j :: 0 <= j < |ks| && Contains(Lower(raw), ks[j])
  {
    forall j | 0 <= j < |ks| ensures Contains(Normalize(raw), ks[j]) <==> Contains(Lower(raw), ks[j]) {
      ContainsTrimmed(Lower(raw), ks[j]);
    }
  }

  /**
   * The validator ignores letter case and surrounding whitespace: answers
   * that agree after lower-casing, padded with any whitespace, get the same
   * verdict.
   */
  lemma MatchesIgnoresCaseAndPadding(pre: string, raw: string, post: string, raw': string, ks: seq<string>)
    requires AllWhitespace(pre) && AllWhitespace(post)
    requires Lower(raw) == Lower(raw')
    ensures Matches(pre + raw + post, ks) <==> Matches(raw', ks)
  {
    NormalizeIgnoresPadding(pre, raw, post);
  }

  /**
   * The validator is lenient by design: a keyword, written in any letter
   * case and embedded in any longer phrase, is accepted.
   */
  lemma MatchesSuperstring(pre: string, word: string, post: string, ks: seq<string>, j: nat)
    requires AllKeywords(ks) && j < |ks|
    requires Lower(word) == ks[j]
    ensures Matches(pre + word + post, ks)
  {
    var raw := pre + word + post;
    LowerConcat(pre + word, post);
    LowerConcat(pre, word);
    assert Lower(raw)[|pre|..|pre| + |ks[j]|] == ks[j];
    assert OccursAt(Lower(raw), ks[j], |pre|);
    MatchesIffLowered(raw, ks);
  }
}
