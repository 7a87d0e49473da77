/**
 * Single-character predicates and maps used by the text helpers, and the
 * string utilities built on them (Python's `isalpha`, `upper`, `lower`,
 * `isspace`, `strip`, `rstrip`, `in` and `endswith`).
 *
 * Letters are the ASCII letters, so that case mapping keeps the length of a
 * string; whitespace is the exact set of code points Python's `str.isspace`
 * accepts.
 */
module Chars {

  predicate IsUpperLetter(c: char) { 'A' <= c <= 'Z' }

  predicate IsLowerLetter(c: char) { 'a' <= c <= 'z' }

  /** Python's `str.isalpha` on one character: the letters are ASCII, from `A` to `z`. */
  predicate IsAlpha(c: char): (b: bool)
    ensures b ==> 'A' <= c <= 'z'
  {
    IsUpperLetter(c) || IsLowerLetter(c)
  }

  /**
   * Python's `str.isspace` on one character (the characters `strip` removes):
   * the blank and the no-break space are, and no ASCII letter or digit is.
   */
  predicate IsSpace(c: char): (b: bool)
    ensures c == ' ' || c == '\U{A0}' ==> b
    ensures b ==> !('0' <= c <= '9') && !('A' <= c <= 'Z') && !('a' <= c <= 'z')
  {
    ('\t' <= c <= '\r') || ('\U{1C}' <= c <= ' ') || c == '\U{85}' || c == '\U{A0}'
    || c == '\U{1680}' || ('\U{2000}' <= c <= '\U{200A}') || c == '\U{2028}' || c == '\U{2029}'
    || c == '\U{202F}' || c == '\U{205F}' || c == '\U{3000}'
  }

  /** Upper-case mapping of one character; non-letters map to themselves. */
  function Upper(c: char): (u: char)
    ensures IsAlpha(c) ==> IsUpperLetter(u)
    ensures !IsAlpha(c) ==> u == c
    ensures IsAlpha(u) == IsAlpha(c)
  {
    if IsLowerLetter(c) then (c as int - 'a' as int + 'A' as int) as char else c
  }

  /** Lower-case mapping of one character; non-letters map to themselves. */
  function Lower(c: char): (l: char)
    ensures IsAlpha(c) ==> IsLowerLetter(l)
    ensures !IsAlpha(c) ==> l == c
    ensures IsAlpha(l) == IsAlpha(c)
  {
    if IsUpperLetter(c) then (c as int - 'A' as int + 'a' as int) as char else c
  }

  /** Mapping a character to one case forgets which case it had. */
  lemma {:induction false} CaseMapsAgree(c: char)
    ensures Lower(Upper(c)) == Lower(c) && Upper(Lower(c)) == Upper(c)
    ensures Upper(Upper(c)) == Upper(c) && Lower(Lower(c)) == Lower(c)
  {
  }

  /** Python's `str.upper`. */
  function UpperStr(s: string): (r: string)
    ensures |r| == |s|
    ensures forall i :: 0 <= i < |s| ==> r[i] == Upper(s[i])
  {
    seq(|s|, i requires 0 <= i < |s| => Upper(s[i]))
  }

  /** Python's `str.lower`. */
  function LowerStr(s: string): (r: string)
    ensures |r| == |s|
    ensures forall i :: 0 <= i < |s| ==> r[i] == Lower(s[i])
  {
    seq(|s|, i requires 0 <= i < |s| => Lower(s[i]))
  }

  /** Python's `str.rstrip()`: drops trailing whitespace. */
  function RStrip(s: string): (r: string)
    ensures |r| <= |s| && r == s[..|r|]
    ensures r == [] || !IsSpace(r[|r| - 1])
    ensures forall i :: |r| <= i < |s| ==> IsSpace(s[i])
  {
    if s != [] && IsSpace(s[|s| - 1]) then RStrip(s[..|s| - 1]) else s
  }

  /** Python's `str.lstrip()`: drops leading whitespace. */
  function LStrip(s: string): (r: string)
    ensures |r| <= |s| && r == s[|s| - |r|..]
    ensures r == [] || !IsSpace(r[0])
    ensures forall i :: 0 <= i < |s| - |r| ==> IsSpace(s[i])
  {
    if s != [] && IsSpace(s[0]) then LStrip(s[1..]) else s
  }

  /** Python's `str.strip()`: the longest infix without whitespace at either end. */
  function Strip(s: string): (r: string)
    ensures r != [] ==> !IsSpace(r[0]) && !IsSpace(r[|r| - 1])
    ensures |r| <= |s|
  {
    LStrip(RStrip(s))
  }

  /**
   * The stripped text is the infix of `s` that starts at offset `a`: every
   * character before it and every character after it is whitespace.
   */
  lemma {:induction false} StripInfix(s: string)
    ensures var r, a := Strip(s), |RStrip(s)| - |Strip(s)|;
            0 <= a && a + |r| <= |s| && r == s[a..a + |r|] &&
            (forall i :: 0 <= i < a ==> IsSpace(s[i])) &&
            (forall i :: a + |r| <= i < |s| ==> IsSpace(s[i]))
  {
    var t := RStrip(s);
    var r := Strip(s);
    var a := |t| - |r|;
    assert r == s[a..a + |r|] by {
      assert r == t[a..] && t == s[..|t|] && a + |r| == |t|;
    }
    assert forall i :: 0 <= i < a ==> IsSpace(s[i]) by {
      forall i | 0 <= i < a ensures IsSpace(s[i]) {
        assert t[i] == s[i];
      }
    }
  }

  /** A non-empty text with no whitespace at either end. */
  predicate Trimmed(t: string)
  {
    t != [] && !IsSpace(t[0]) && !IsSpace(t[|t| - 1])
  }

  /** Character `i` of the stripped text is the character of `s` at the same place in the infix. */
  lemma {:induction false} StripAt(s: string, i: nat)
    requires i < |Strip(s)|
    ensures |RStrip(s)| - |Strip(s)| + i < |s| && Strip(s)[i] == s[|RStrip(s)| - |Strip(s)| + i]
  {
    var t, r := RStrip(s), Strip(s);
    assert r == t[|t| - |r|..];
    assert r[i] == t[|t| - |r| + i];
  }

  /** Stripping leaves nothing exactly when every character is whitespace. */
  lemma {:induction false} StripEmpty(s: string)
    ensures Strip(s) == [] <==> forall i :: 0 <= i < |s| ==> IsSpace(s[i])
  {
    var t := RStrip(s);
    if Strip(s) == [] {
      forall i | 0 <= i < |s| ensures IsSpace(s[i]) {
        if i < |t| { assert t[i] == s[i]; }
      }
    }
  }

  /** A text with no whitespace at either end strips to itself. */
  lemma {:induction false} StripTrimmed(s: string)
    requires s != [] && !IsSpace(s[0]) && !IsSpace(s[|s| - 1])
    ensures Strip(s) == s
  {
  }

  /** `sub` occurs in `s` starting at index `i`. */
  predicate OccursAt(s: string, sub: string, i: nat)
  {
    i + |sub| <= |s| && s[i..i + |sub|] == sub
  }

  /** Python's `sub in s` for strings: the empty string and `s` itself are contained in `s`. */
  predicate Contains(s: string, sub: string): (b: bool)
    ensures sub == [] || sub == s ==> b
  {
    assert OccursAt(s, [], 0);
    assert s[0..|s|] == s;
    assert OccursAt(s, s, 0);
    exists i: nat :: i <= |s| && OccursAt(s, sub, i)
  }

  /** Python's `s.endswith(suffix)`: only a text no longer than `s` can end it, and a non-empty one shares its last character. */
  predicate EndsWith(s: string, suffix: string): (b: bool)
    ensures b ==> |suffix| <= |s|
    ensures b && suffix != [] ==> s[|s| - 1] == suffix[|suffix| - 1]
  {
    |suffix| <= |s| && s[|s| - |suffix|..] == suffix
  }

  /** Between strings of equal length, containment is equality. */
  lemma {:induction false} ContainsSameLength(s: string, sub: string)
    requires |s| == |sub|
    ensures Contains(s, sub) <==> s == sub
  {
    if s == sub {
      assert OccursAt(s, sub, 0);
    }
  }

  /** A string never contains a longer one. */
  lemma {:induction false} ContainsShorter(s: string, sub: string)
    requires |s| < |sub|
    ensures !Contains(s, sub)
  {
  }
}
