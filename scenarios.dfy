/**
 * Worked examples of the key points maker on concrete inputs: the text
 * helpers, the classifier and one whole transformation.
 */
module Scenarios {
  import opened Chars
  import opened TextNormalizer
  import opened HeadingClassifier
  import opened Docx
  import opened Transformer

  /** Sentence case capitalises the first letter and the first letter after a clause end. */
  lemma SentenceCaseExamples()
    ensures SentenceCase("") == ""
    ensures SentenceCase("a b: c") == "A b: C"
  {
    var s := "a b: c";
    var t := SentenceCase(s);
    assert s[..0] == [] && s[..2] == "a " && s[..5] == "a b: ";
    assert t[0] == 'A' && t[2] == 'b' && t[5] == 'C';
  }

  /** A letter right after another letter is lower-cased. */
  lemma {:induction false} AfterLetterLower(s: string)
    ensures forall i :: 0 < i < |s| && IsAlpha(s[i]) && IsAlpha(s[i - 1]) ==> SentenceCase(s)[i] == Lower(s[i])
  {
    forall i | 0 < i < |s| && IsAlpha(s[i]) && IsAlpha(s[i - 1]) ensures SentenceCase(s)[i] == Lower(s[i]) {
      assert s[..i][i - 1] == s[i - 1];
    }
  }

  /** Two clauses, each opening with a capital. */
  lemma SentenceCaseTwoClauses()
    ensures SentenceCase("hello. world") == "Hello. World"
  {
    var s := "hello. world";
    AfterLetterLower(s);
    assert IsAlpha(s[0]) && IsAlpha(s[1]) && IsAlpha(s[2]) && IsAlpha(s[3]) && IsAlpha(s[4]);
    assert IsClauseEnd(s[5]) && !IsAlpha(s[5]) && !IsAlpha(s[6]) && !IsClauseEnd(s[6]);
    assert SentenceCase(s)[0] == 'H' by { assert s[..0] == []; }
    assert SentenceCase(s)[7] == 'W' by { assert s[..7] == "hello. "; assert CapPending(s[..6]) == CapPending(s[..7]); }
    var t := SentenceCase(s);
    assert t[1] == 'e' && t[2] == 'l' && t[3] == 'l' && t[4] == 'o' && t[5] == '.' && t[6] == ' ';
    assert t[8] == 'o' && t[9] == 'r' && t[10] == 'l' && t[11] == 'd';
  }

  /** A plain word gets a period at the end; an empty text stays empty. */
  lemma TerminalPeriodPlain()
    ensures EnsureTerminalPeriod("") == ""
    ensures EnsureTerminalPeriod("done") == "done."
  {
    assert RStrip("done") == "done";
  }

  /** A terminated text is returned right-stripped and otherwise unchanged. */
  lemma TerminalPeriodAlreadyTerminated()
    ensures EnsureTerminalPeriod("?  ") == "?"
    ensures EnsureTerminalPeriod("Already done.\"") == "Already done.\""
  {
    assert RStrip("?  ") == "?";
    assert RStrip("Already done.\"") == "Already done.\"";
  }

  /** The period goes before a closing quote, also when the quote is the whole text. */
  lemma TerminalPeriodBeforeQuote()
    ensures EnsureTerminalPeriod("He said \"stop\"") == "He said \"stop.\""
    ensures EnsureTerminalPeriod("\"") == ".\""
  {
    assert RStrip("He said \"stop\"") == "He said \"stop\"";
    var q := "\"";
    assert RStrip(q) == q;
    assert q[..0] + ['.'] + [q[0]] == ".\"";
  }

  /** `Normal` lower-cases and strips to `normal`. */
  lemma NormalNormalized()
    ensures NormalizedStyle("Normal") == "normal"
  {
    var n := "Normal";
    assert Lower(n[0]) == 'n';
    assert LowerStr(n) == "normal";
    StripTrimmed("normal");
  }

  /** A standard heading name classifies by its number. */
  lemma ClassifierHeadingExamples()
    ensures GuessHeadingLevel("Heading 2", "Title") == 1
    ensures GuessHeadingLevel("heading 5", "x") == 4
  {
    StripTrimmed("Title");
    StripTrimmed("x");
    assert "Heading 2" == "Heading " + ['2'];
    assert "heading 5" == "heading " + ['5'];
    StandardHeadingLevel("Heading 2", '2', "Title");
    StandardHeadingLevel("heading 5", '5', "x");
  }

  /** `Normal` matches no heading rule, so its paragraphs are not transformed. */
  lemma ClassifierNormalExample()
    ensures GuessHeadingLevel("Normal", "text") == 0
  {
    NormalNormalized();
    var st := "normal";
    assert !RuleFires(st, 0) by { ContainsShorter(st, "heading 2"); }
    assert !RuleFires(st, 1) by { ContainsShorter(st, "heading 3"); }
    assert !RuleFires(st, 2) by { ContainsShorter(st, "heading 4"); }
    assert !RuleFires(st, 3) by { ContainsShorter(st, "heading 5"); }
    GuessHeadingLevelFirstRule("Normal", "text");
  }

  /** The H4 text of the sample in sentence case. */
  lemma SampleH4SentenceCase()
    ensures SentenceCase("point one") == "Point one"
  {
    var a := "point one";
    AfterLetterLower(a);
    assert !IsAlpha(a[5]) && IsAlpha(a[4]);
    assert SentenceCase(a)[0] == 'P' by { assert a[..0] == []; }
    assert SentenceCase(a)[6] == 'o' by { assert a[..6] == "point "; assert CapPending(a[..5]) == CapPending(a[..6]); }
    var t := SentenceCase(a);
    assert t[1] == 'o' && t[2] == 'i' && t[3] == 'n' && t[4] == 't' && t[5] == ' ' && t[7] == 'n' && t[8] == 'e';
  }

  /** The H5 text of the sample in sentence case. */
  lemma SampleH5SentenceCase()
    ensures SentenceCase("sub point") == "Sub point"
  {
    var b := "sub point";
    AfterLetterLower(b);
    assert !IsAlpha(b[3]) && IsAlpha(b[2]);
    assert SentenceCase(b)[0] == 'S' by { assert b[..0] == []; }
    assert SentenceCase(b)[4] == 'p' by { assert b[..4] == "sub "; }
    var t := SentenceCase(b);
    assert t[1] == 'u' && t[2] == 'b' && t[3] == ' ' && t[5] == 'o' && t[6] == 'i' && t[7] == 'n' && t[8] == 't';
  }

  /** The sample bullet texts gain their final period. */
  lemma SamplePeriods()
    ensures EnsureTerminalPeriod("Point one") == "Point one."
    ensures EnsureTerminalPeriod("Sub point") == "Sub point."
  {
    assert RStrip("Point one") == "Point one";
    assert RStrip("Sub point") == "Sub point";
  }

  /** An all-capital heading is unchanged by upper-casing. */
  lemma SampleCaps()
    ensures UpperStr("INTRO") == "INTRO"
  {
    var w := "INTRO";
    var u := UpperStr(w);
    assert forall i :: 0 <= i < |w| ==> u[i] == Upper(w[i]) == w[i];
  }
}
