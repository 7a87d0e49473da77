/**
 * `guess_heading_level`: maps a paragraph's style name and text to a level,
 * 1 to 4 for the source styles Heading 2 to Heading 5 and 0 for anything
 * that is not transformed.
 */
module HeadingClassifier {
  import opened Chars

  /**
   * The rule table, in priority order: entry `k` is the substring marker
   * and the exact marker that give level `k + 1`.
   */
  const Markers: seq<(string, string)> :=
    [("heading 2", "h2"), ("heading 3", "h3"), ("heading 4", "h4"), ("heading 5", "h5")]

  /**
   * The style name as the classifier compares it: lower-cased, then stripped,
   * so it holds no upper-case letter and no whitespace at either end, and is
   * no longer than the name.
   */
  function NormalizedStyle(styleName: string): (r: string)
    ensures r != [] ==> !IsSpace(r[0]) && !IsSpace(r[|r| - 1])
    ensures forall i :: 0 <= i < |r| ==> !IsUpperLetter(r[i])
    ensures |r| <= |styleName|
  {
    var lowered := LowerStr(styleName);
    var r := Strip(lowered);
    assert forall i :: 0 <= i < |r| ==> !IsUpperLetter(r[i]) by {
      forall i | 0 <= i < |r| ensures !IsUpperLetter(r[i]) {
        StripAt(lowered, i);
      }
    }
    r
  }

  /** Rule `k` of the table fires on the normalised style name `style`. */
  predicate RuleFires(style: string, k: nat)
    requires k < |Markers|
  {
    Contains(style, Markers[k].0) || style == Markers[k].1
  }

  /**
   * The marker checks of the classifier, in their fixed order: the level of
   * the first rule of the table that fires on `style`, or 0 if none does
   * (`MarkerLevelFirstRule` states this).
   */
  function MarkerLevel(style: string): (level: nat)
    ensures level <= |Markers|
  {
    if Contains(style, "heading 2") || style == "h2" then 1
    else if Contains(style, "heading 3") || style == "h3" then 2
    else if Contains(style, "heading 4") || style == "h4" then 3
    else if Contains(style, "heading 5") || style == "h5" then 4
    else 0
  }

  /** A non-zero marker level is that of the first rule that fires; 0 means none fires. */
  lemma {:induction false} MarkerLevelFirstRule(style: string)
    ensures var level := MarkerLevel(style);
            (level != 0 ==> RuleFires(style, level - 1) && forall j :: 0 <= j < level - 1 ==> !RuleFires(style, j)) &&
            (level == 0 <==> forall k :: 0 <= k < |Markers| ==> !RuleFires(style, k))
  {
    assert RuleFires(style, 0) == (Contains(style, "heading 2") || style == "h2");
    assert RuleFires(style, 1) == (Contains(style, "heading 3") || style == "h3");
    assert RuleFires(style, 2) == (Contains(style, "heading 4") || style == "h4");
    assert RuleFires(style, 3) == (Contains(style, "heading 5") || style == "h5");
  }

  /**
   * `guess_heading_level`: 0 when the text strips to nothing, otherwise the
   * marker level of the normalised style name.
   */
  function GuessHeadingLevel(styleName: string, text: string): (level: nat)
    ensures level <= 4
    ensures Strip(text) == [] ==> level == 0
  {
    var style := Strip(LowerStr(styleName));
    var t := Strip(text);
    if t == [] then 0 else MarkerLevel(style)
  }

  /**
   * The level is 0 when the text strips to nothing; otherwise it is that of
   * the first rule of the table that fires on the normalised style name,
   * and 0 when none fires.
   */
  lemma {:induction false} GuessHeadingLevelFirstRule(styleName: string, text: string)
    ensures var level := GuessHeadingLevel(styleName, text);
            (level != 0 ==>
               RuleFires(NormalizedStyle(styleName), level - 1) &&
               forall j :: 0 <= j < level - 1 ==> !RuleFires(NormalizedStyle(styleName), j)) &&
            (level == 0 <==>
               Strip(text) == [] || forall k :: 0 <= k < |Markers| ==> !RuleFires(NormalizedStyle(styleName), k))
  {
    MarkerLevelFirstRule(NormalizedStyle(styleName));
  }

  /**
   * A label carrying both the level-2 and the level-3 marker classifies as
   * level 1: the first rule in priority order wins.
   */
  lemma {:induction false} AmbiguousLabelFirstRuleWins(styleName: string, text: string)
    requires Strip(text) != []
    requires Contains(NormalizedStyle(styleName), "heading 2") && Contains(NormalizedStyle(styleName), "heading 3")
    ensures GuessHeadingLevel(styleName, text) == 1
  {
    GuessHeadingLevelFirstRule(styleName, text);
    assert RuleFires(NormalizedStyle(styleName), 0);
  }

  /** `Heading N` and `heading N` both normalise to `heading N`. */
  lemma {:induction false} HeadingNameNormalized(name: string, d: char)
    requires name == "Heading " + [d] || name == "heading " + [d]
    requires '2' <= d <= '5'
    ensures NormalizedStyle(name) == "heading " + [d]
  {
    var st := "heading " + [d];
    assert LowerStr(name) == st by {
      assert Lower(name[0]) == 'h';
    }
    StripTrimmed(st);
  }

  /** On `heading N`, exactly the rule for level N - 1 fires. */
  lemma {:induction false} HeadingRuleFires(d: char, k: nat)
    requires '2' <= d <= '5' && k < |Markers|
    ensures RuleFires("heading " + [d], k) <==> d as int - '2' as int == k
  {
    var st := "heading " + [d];
    ContainsSameLength(st, Markers[k].0);
    assert st == Markers[k].0 <==> st[8] == Markers[k].0[8];
  }

  /**
   * The standard style names `Heading 2` to `Heading 5` (with either case of
   * the H) classify as levels 1 to 4 when the text is not blank.
   */
  lemma {:induction false} StandardHeadingLevel(name: string, d: char, text: string)
    requires name == "Heading " + [d] || name == "heading " + [d]
    requires '2' <= d <= '5'
    requires Strip(text) != []
    ensures GuessHeadingLevel(name, text) == d as int - '1' as int
  {
    HeadingNameNormalized(name, d);
    forall k | 0 <= k < |Markers|
      ensures RuleFires(NormalizedStyle(name), k) <==> d as int - '2' as int == k
    {
      HeadingRuleFires(d, k);
    }
    var k := d as int - '2' as int;
    assert RuleFires(NormalizedStyle(name), k);
    var level := GuessHeadingLevel(name, text);
    GuessHeadingLevelFirstRule(name, text);
    assert level != 0;
    assert RuleFires(NormalizedStyle(name), level - 1);
  }
}
