/**
 * The two text helpers of the key points maker: sentence casing
 * (`to_sentence_case`) and terminal-period enforcement
 * (`ensure_terminal_period`).
 */
module TextNormalizer {
  import opened Chars

  /**
   * The characters after which the next letter starts a new clause. None of
   * them is a letter or whitespace, so sentence casing and stripping keep them.
   */
  predicate IsClauseEnd(c: char): (b: bool)
    ensures b ==> !IsAlpha(c) && !IsSpace(c)
  {
    c == '.' || c == '!' || c == '?' || c == ':'
  }

  /**
   * Whether a letter following the prefix `p` is the first letter of a
   * clause: scanning `p` from its end, a clause end is met before any letter
   * (or the start of the text is reached).
   */
  function CapPending(p: string): bool
  {
    if p == [] then true
    else
      var c := p[|p| - 1];
      if IsClauseEnd(c) then true
      else if IsAlpha(c) then false
      else CapPending(p[..|p| - 1])
  }

  /** The sentence-cased form of the character at index `i` of `s`. */
  function CaseAt(s: string, i: nat): char
    requires i < |s|
  {
    if !IsAlpha(s[i]) then s[i]
    else if CapPending(s[..i]) then Upper(s[i])
    else Lower(s[i])
  }

  /**
   * Sentence case: every letter that opens a clause is upper-case, every
   * other letter lower-case, and nothing else changes.
   */
  function SentenceCase(s: string): (r: string)
    ensures |r| == |s|
    ensures forall i :: 0 <= i < |s| && !IsAlpha(s[i]) ==> r[i] == s[i]
    ensures forall i :: 0 <= i < |s| && IsAlpha(s[i]) ==>
              Lower(r[i]) == Lower(s[i]) && (IsUpperLetter(r[i]) <==> CapPending(s[..i]))
    ensures forall i :: 0 <= i < |s| && IsAlpha(s[i]) && !CapPending(s[..i]) ==> IsLowerLetter(r[i])
  {
    forall i | 0 <= i < |s| { CaseMapsAgree(s[i]); }
    seq(|s|, i requires 0 <= i < |s| => CaseAt(s, i))
  }

  /**
   * `to_sentence_case`: lower-cases the letters, then walks the characters
   * in place with a `capNext` flag that a letter clears and a clause end sets.
   */
  method ToSentenceCase(text: string) returns (r: string)
    ensures r == SentenceCase(text)
  {
    var lowered := seq(|text|, i requires 0 <= i < |text| => if IsAlpha(text[i]) then Lower(text[i]) else text[i]);
    var n := |lowered|;
    var chars := new char[n](i requires 0 <= i < n => lowered[i]);
    var capNext := true;
    var i := 0;
    while i < n
      invariant 0 <= i <= n
      invariant capNext == CapPending(text[..i])
      invariant chars[..i] == SentenceCase(text)[..i]
      invariant forall j :: i <= j < n ==> chars[j] == lowered[j]
    {
      var ch := chars[i];
      assert text[..i + 1][..i] == text[..i];
      if capNext && IsAlpha(ch) {
        chars[i] := Upper(ch);
        capNext := false;
      } else if IsClauseEnd(ch) {
        capNext := true;
      }
      i := i + 1;
    }
    r := chars[..];
  }

  /** Two strings whose characters agree on being letters and clause ends. */
  predicate SameShape(a: string, b: string)
  {
    |a| == |b| && forall i :: 0 <= i < |a| ==> IsAlpha(a[i]) == IsAlpha(b[i]) && IsClauseEnd(a[i]) == IsClauseEnd(b[i])
  }

  /** Whether a clause is pending depends only on where letters and clause ends are. */
  lemma {:induction false} CapPendingShape(a: string, b: string)
    requires SameShape(a, b)
    ensures CapPending(a) == CapPending(b)
  {
    if a != [] {
      assert SameShape(a[..|a| - 1], b[..|b| - 1]);
      CapPendingShape(a[..|a| - 1], b[..|b| - 1]);
    }
  }

  /**
   * The flag is pending exactly when every letter of `p` is followed, later
   * in `p`, by a clause end: the next letter is the first of the text or the
   * first after a clause end.
   */
  lemma {:induction false} CapPendingMeaning(p: string)
    ensures CapPending(p) <==>
            forall j :: 0 <= j < |p| && IsAlpha(p[j]) ==> exists k :: j < k < |p| && IsClauseEnd(p[k])
  {
    if p != [] {
      var q := p[..|p| - 1];
      var c := p[|p| - 1];
      CapPendingMeaning(q);
      if IsClauseEnd(c) {
        forall j | 0 <= j < |p| && IsAlpha(p[j]) ensures exists k :: j < k < |p| && IsClauseEnd(p[k]) {
          assert j < |p| - 1;
          assert IsClauseEnd(p[|p| - 1]);
        }
      } else if IsAlpha(c) {
        var j := |p| - 1;
        assert IsAlpha(p[j]);
      } else {
        if CapPending(q) {
          forall j | 0 <= j < |p| && IsAlpha(p[j]) ensures exists k :: j < k < |p| && IsClauseEnd(p[k]) {
            assert j < |q| && q[j] == p[j];
            var k :| j < k < |q| && IsClauseEnd(q[k]);
            assert p[k] == q[k];
          }
        } else {
          var j :| 0 <= j < |q| && IsAlpha(q[j]) && !(exists k :: j < k < |q| && IsClauseEnd(q[k]));
          assert p[j] == q[j];
          forall k | j < k < |p| ensures !IsClauseEnd(p[k]) {
            if k < |q| { assert p[k] == q[k]; }
          }
        }
      }
    }
  }

  /** Sentence-casing a sentence-cased text changes nothing. */
  lemma {:induction false} SentenceCaseIdempotent(s: string)
    ensures SentenceCase(SentenceCase(s)) == SentenceCase(s)
  {
    var t := SentenceCase(s);
    forall i | 0 <= i < |s| ensures CaseAt(t, i) == t[i] {
      CaseMapsAgree(s[i]);
      assert SameShape(t[..i], s[..i]);
      CapPendingShape(t[..i], s[..i]);
    }
  }

  /**
   * The sentence terminators that `ensure_terminal_period` accepts as an
   * ending: clause ends (a colon is the one clause end that is not one), and
   * so never whitespace.
   */
  predicate IsTerminal(c: char): (b: bool)
    ensures b ==> IsClauseEnd(c) && !IsSpace(c)
    ensures c == ':' ==> !b
  {
    c == '.' || c == '!' || c == '?'
  }

  /**
   * The closing quotation marks: straight double and single, curly double
   * and single. None is a terminator, a letter or whitespace.
   */
  predicate IsClosingQuote(c: char): (b: bool)
    ensures b ==> !IsTerminal(c) && !IsAlpha(c) && !IsSpace(c)
  {
    c == '"' || c == '\'' || c == '\U{201D}' || c == '\U{2019}'
  }

  /** `s` ends in a terminator, or in a closing quote right after a terminator. */
  predicate Terminated(s: string)
  {
    |s| > 0 &&
    (IsTerminal(s[|s| - 1]) || (IsClosingQuote(s[|s| - 1]) && |s| >= 2 && IsTerminal(s[|s| - 2])))
  }

  /** `s` with `c` inserted so that it lands at index `k`. */
  function InsertAt(s: string, k: nat, c: char): (r: string)
    requires k <= |s|
    ensures |r| == |s| + 1 && r[k] == c
    ensures r[..k] + r[k + 1..] == s
  {
    s[..k] + [c] + s[k..]
  }

  /**
   * `ensure_terminal_period`: right-strips the text and, unless it is empty
   * or already terminated, inserts one period, before a trailing closing
   * quote if there is one and at the end otherwise.
   */
  function EnsureTerminalPeriod(s: string): (r: string)
    ensures r == [] <==> RStrip(s) == []
    ensures r != [] ==> Terminated(r)
    ensures Terminated(RStrip(s)) ==> r == RStrip(s)
    ensures var t := RStrip(s);
            r == t || (t != [] && !Terminated(t) &&
                       if IsClosingQuote(t[|t| - 1]) then r == InsertAt(t, |t| - 1, '.') else r == InsertAt(t, |t|, '.'))
  {
    var t := RStrip(s);
    if t == [] then t
    else
      var last := t[|t| - 1];
      if IsTerminal(last) then t
      else if IsClosingQuote(last) then
        if |t| >= 2 && IsTerminal(t[|t| - 2]) then t
        else
          var r := t[..|t| - 1] + ['.'] + [last];
          assert r == InsertAt(t, |t| - 1, '.') by { assert t[|t| - 1..] == [last]; }
          r
      else
        var r := t + ['.'];
        assert r == InsertAt(t, |t|, '.') by { assert t[..|t|] == t && t[|t|..] == []; }
        r
  }

  /** Enforcing the terminal period twice is the same as once. */
  lemma {:induction false} EnsureTerminalPeriodIdempotent(s: string)
    ensures EnsureTerminalPeriod(EnsureTerminalPeriod(s)) == EnsureTerminalPeriod(s)
  {
    var r := EnsureTerminalPeriod(s);
    if r != [] {
      assert !IsSpace(r[|r| - 1]);
      assert RStrip(r) == r;
    }
  }

  /** A text ending in a non-space character gets a terminated, non-empty result from sentence case plus period. */
  lemma {:induction false} SentenceCaseThenPeriod(s: string)
    requires s != [] && !IsSpace(s[|s| - 1])
    ensures var r := EnsureTerminalPeriod(SentenceCase(s));
            r != [] && Terminated(r)
  {
    var t := SentenceCase(s);
    assert !IsSpace(t[|t| - 1]);
    assert RStrip(t) != [];
  }
}
