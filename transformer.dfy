/**
 * `transform_docx`: one pass over the source paragraphs that renders every
 * Heading 2 to Heading 5 paragraph with non-blank text, in order, counts
 * them per level and drops everything else.
 *
 * The specification side is a fold: `Kept` picks the paragraphs that
 * render, `Layout` gives the paragraphs they become and `Tally` the counts.
 */
module Transformer {
  import opened Wrappers
  import opened Chars
  import opened TextNormalizer
  import opened HeadingClassifier
  import opened Docx

  /** A paragraph of the source document: its text and its style name. */
  datatype SourceParagraph = SourceParagraph(text: string, styleName: string)

  /** The levels that render: 1 to 4, for the source styles Heading 2 to Heading 5. */
  type Level = l: nat | 1 <= l <= 4 witness 1

  /** A paragraph that renders: its level and its stripped text. */
  datatype Entry = Entry(level: Level, text: string)

  /** The per-level counts `transform_docx` returns. */
  datatype Counts = Counts(h2: nat, h3: nat, h4: nat, h5: nat)
  {
    function Total(): nat { h2 + h3 + h4 + h5 }
  }

  /** What `Document()` starts from: the library template's style table and sections. */
  datatype Template = Template(styles: seq<StyleDef>, sections: seq<Section>)

  /** The entry a source paragraph contributes: none for blank text or level 0, else one. */
  function Classify(p: SourceParagraph): (r: seq<Entry>)
    ensures |r| <= 1
    ensures r != [] ==> r[0].text == Strip(p.text) && Renderable(r[0])
  {
    var t := Strip(p.text);
    if t == [] then []
    else
      var level := GuessHeadingLevel(p.styleName, t);
      if level == 0 then [] else [Entry(level, t)]
  }

  /** An entry's text as the renderers receive it: non-empty, with no surrounding whitespace. */
  predicate Renderable(e: Entry)
  {
    e.text != [] && !IsSpace(e.text[0]) && !IsSpace(e.text[|e.text| - 1])
  }

  /** The entries of the paragraphs that render, in source order. */
  function Kept(src: seq<SourceParagraph>): (r: seq<Entry>)
    ensures |r| <= |src|
  {
    if src == [] then [] else Kept(src[..|src| - 1]) + Classify(src[|src| - 1])
  }

  /** Every kept entry carries stripped, non-empty text. */
  lemma {:induction false} KeptRenderable(src: seq<SourceParagraph>)
    ensures forall e :: e in Kept(src) ==> Renderable(e)
  {
    if src != [] {
      var init := src[..|src| - 1];
      KeptRenderable(init);
      assert Kept(src) == Kept(init) + Classify(src[|src| - 1]);
    }
  }

  /**
   * The renderer `transform_docx` dispatches to for an entry, as the block it
   * emits. The block tells the level back: H2 and H3 blocks have no
   * paragraph style and one run, bold for H2 only; H4 blocks are in
   * `List Bullet 2` and H5 blocks in the nested-bullet style.
   */
  function Render(e: Entry, addPeriodToH4: bool): (p: Paragraph)
    ensures p.style == None <==> e.level <= 2
    ensures e.level <= 2 ==> |p.runs| == 1 && p.runs[0].bold == Some(e.level == 1)
    ensures e.level == 3 ==> p.style == Some(LIST_BULLET_2)
    ensures e.level == 4 ==> p.style == Some(H5_STYLE)
  {
    if e.level == 1 then HeadingBlock(e.text)
    else if e.level == 2 then SubheadingBlock(e.text)
    else if e.level == 3 then BulletBlock(e.text, true, addPeriodToH4)
    else H5Block(e.text)
  }

  /** The output body: each entry's block followed by a spacer, two paragraphs per entry. */
  function Layout(entries: seq<Entry>, addPeriodToH4: bool): (r: seq<Paragraph>)
    ensures |r| == 2 * |entries|
  {
    if entries == [] then []
    else
      Layout(entries[..|entries| - 1], addPeriodToH4) + [Render(entries[|entries| - 1], addPeriodToH4), Spacer()]
  }

  /**
   * The body `transform_docx` builds from `src`: the layout of the entries it
   * keeps, two paragraphs per kept source paragraph and so at most twice as
   * many paragraphs as the source.
   */
  function Body(src: seq<SourceParagraph>, addPeriodToH4: bool): (r: seq<Paragraph>)
    ensures |r| == 2 * |Kept(src)|
  {
    Layout(Kept(src), addPeriodToH4)
  }

  /**
   * The counts after one more entry of `level`: no count decreases, and the
   * total grows by one for a level from 1 to 4 and not at all otherwise.
   */
  function Bump(c: Counts, level: nat): (r: Counts)
    ensures r.h2 >= c.h2 && r.h3 >= c.h3 && r.h4 >= c.h4 && r.h5 >= c.h5
    ensures r.Total() == c.Total() + (if 1 <= level <= 4 then 1 else 0)
  {
    if level == 1 then c.(h2 := c.h2 + 1)
    else if level == 2 then c.(h3 := c.h3 + 1)
    else if level == 3 then c.(h4 := c.h4 + 1)
    else if level == 4 then c.(h5 := c.h5 + 1)
    else c
  }

  /** The counts of a sequence of entries, starting from zero; they add up to the number of entries. */
  function Tally(entries: seq<Entry>): (r: Counts)
    ensures r.Total() == |entries|
  {
    if entries == [] then Counts(0, 0, 0, 0) else Bump(Tally(entries[..|entries| - 1]), entries[|entries| - 1].level)
  }

  /** `KeptSnoc` at a prefix: paragraph `i` adds its own entry, if any, to those of the paragraphs before it. */
  lemma {:induction false} KeptStep(src: seq<SourceParagraph>, i: nat)
    requires i < |src|
    ensures Kept(src[..i + 1]) == Kept(src[..i]) + Classify(src[i])
  {
    assert src[..i + 1] == src[..i] + [src[i]];
    KeptSnoc(src[..i], src[i]);
  }

  /** At most one more entry: the layout gains its block and a spacer. */
  lemma {:induction false} LayoutAppend(kept: seq<Entry>, c: seq<Entry>, addPeriodToH4: bool)
    requires |c| <= 1
    ensures Layout(kept + c, addPeriodToH4) ==
              Layout(kept, addPeriodToH4) + (if c == [] then [] else [Render(c[0], addPeriodToH4), Spacer()])
  {
    if c == [] {
      assert kept + c == kept;
    } else {
      assert (kept + c)[..|kept|] == kept;
    }
  }

  /** At most one more entry: the counts gain a bump of its level. */
  lemma {:induction false} TallyAppend(kept: seq<Entry>, c: seq<Entry>)
    requires |c| <= 1
    ensures Tally(kept + c) == if c == [] then Tally(kept) else Bump(Tally(kept), c[0].level)
  {
    if c == [] {
      assert kept + c == kept;
    } else {
      assert (kept + c)[..|kept|] == kept;
    }
  }

  /**
   * The paragraphs a source paragraph adds to the body: its block and a
   * spacer, or nothing; the layout of its own classification.
   */
  function Emitted(p: SourceParagraph, addPeriodToH4: bool): (r: seq<Paragraph>)
    ensures r == Layout(Classify(p), addPeriodToH4)
    ensures |r| == 2 * |Classify(p)|
  {
    var c := Classify(p);
    LayoutAppend([], c, addPeriodToH4);
    assert [] + c == c;
    if c == [] then [] else [Render(c[0], addPeriodToH4), Spacer()]
  }

  /** One more source paragraph appends what it emits to the body. */
  lemma {:induction false} BodyStep(src: seq<SourceParagraph>, i: nat, addPeriodToH4: bool)
    requires i < |src|
    ensures Body(src[..i + 1], addPeriodToH4) == Body(src[..i], addPeriodToH4) + Emitted(src[i], addPeriodToH4)
  {
    var kept, c := Kept(src[..i]), Classify(src[i]);
    assert Kept(src[..i + 1]) == kept + c by { KeptStep(src, i); }
    LayoutAppend(kept, c, addPeriodToH4);
  }

  /** One more source paragraph bumps at most one count: that of its level. */
  lemma {:induction false} TallyStep(src: seq<SourceParagraph>, i: nat)
    requires i < |src|
    ensures Tally(Kept(src[..i + 1])) ==
              if Classify(src[i]) == [] then Tally(Kept(src[..i])) else Bump(Tally(Kept(src[..i])), Classify(src[i])[0].level)
  {
    var kept, c := Kept(src[..i]), Classify(src[i]);
    assert Kept(src[..i + 1]) == kept + c by { KeptStep(src, i); }
    TallyAppend(kept, c);
  }

  /**
   * One iteration of the loop of `transform_docx`: strips the paragraph's
   * text, skips it when blank, otherwise classifies it and, for levels 1 to
   * 4, calls the matching renderer and increments that level's count.
   */
  method TransformParagraph(out: Document, para: SourceParagraph, addPeriodToH4: bool, counts: Counts)
    returns (counts': Counts)
    modifies out
    ensures out.paragraphs == old(out.paragraphs) + Emitted(para, addPeriodToH4)
    ensures counts' == if Classify(para) == [] then counts else Bump(counts, Classify(para)[0].level)
    ensures out.styles == old(out.styles) && out.sections == old(out.sections)
  {
    counts' := counts;
    var text := Strip(para.text);
    if text != [] {
      var level := GuessHeadingLevel(para.styleName, text);
      assert Classify(para) == if level == 0 then [] else [Entry(level, text)];
      if level == 1 {
        out.AddHeading(text);
      } else if level == 2 {
        out.AddSubheadingAllCaps(text);
      } else if level == 3 {
        out.AddBullet(text, true, addPeriodToH4);
      } else if level == 4 {
        out.AddH5Bullet(text);
      } else {
        assert out.paragraphs + [] == out.paragraphs;
      }
      // each renderer branch of `transform_docx` also increments the count of its level
      counts' := Bump(counts, level);
    } else {
      assert out.paragraphs + [] == out.paragraphs;
    }
  }

  /**
   * `transform_docx`: a new document from the template, with the
   * nested-bullet style registered, half-inch side margins and the Arial 10
   * base style, whose body is the rendered blocks with their spacers.
   */
  method TransformDocx(src: seq<SourceParagraph>, addPeriodToH4: bool, template: Template)
    returns (out: Document, counts: Counts)
    requires NORMAL_STYLE in Names(template.styles)
    ensures fresh(out)
    ensures out.paragraphs == Body(src, addPeriodToH4)
    ensures counts == Tally(Kept(src))
    ensures out.styles == WithBaseFormat(RegisterH5(template.styles))
    ensures out.sections == WithNarrowMargins(template.sections)
  {
    out := new Document(template.styles, template.sections);
    out.EnsureH5SubbulletStyle();
    out.SetPageMargins();
    assert Names(out.styles)[..|template.styles|] == Names(template.styles);
    out.SetBaseStyle();
    counts := Counts(0, 0, 0, 0);
    var i := 0;
    assert src[..i] == [];
    while i < |src|
      invariant 0 <= i <= |src|
      invariant fresh(out)
      invariant out.paragraphs == Body(src[..i], addPeriodToH4)
      invariant counts == Tally(Kept(src[..i]))
      invariant out.styles == WithBaseFormat(RegisterH5(template.styles))
      invariant out.sections == WithNarrowMargins(template.sections)
    {
      BodyStep(src, i, addPeriodToH4);
      TallyStep(src, i);
      counts := TransformParagraph(out, src[i], addPeriodToH4, counts);
      i := i + 1;
    }
    assert src[..i] == src;
  }

  // ----- what the result says about the source -----

  /** The levels of the entries, in order. */
  function Levels(entries: seq<Entry>): (r: seq<nat>)
    ensures |r| == |entries| && forall i :: 0 <= i < |entries| ==> r[i] == entries[i].level
  {
    seq(|entries|, i requires 0 <= i < |entries| => entries[i].level)
  }

  /** Each count is the number of entries at that level. */
  lemma {:induction false} TallyCountsLevels(entries: seq<Entry>)
    ensures var m := multiset(Levels(entries));
            Tally(entries) == Counts(m[1], m[2], m[3], m[4])
  {
    if entries != [] {
      var init := entries[..|entries| - 1];
      TallyCountsLevels(init);
      assert Levels(entries) == Levels(init) + [entries[|entries| - 1].level];
    }
  }

  /** The body alternates: entry `i`'s block at `2 * i`, a spacer at `2 * i + 1`. */
  lemma {:induction false} LayoutShape(entries: seq<Entry>, addPeriodToH4: bool)
    ensures |Layout(entries, addPeriodToH4)| == 2 * |entries|
    ensures forall i :: 0 <= i < |entries| ==>
              Layout(entries, addPeriodToH4)[2 * i] == Render(entries[i], addPeriodToH4) &&
              Layout(entries, addPeriodToH4)[2 * i + 1] == Spacer()
  {
    if entries != [] {
      var n := |entries| - 1;
      var init := entries[..n];
      LayoutShape(init, addPeriodToH4);
      var body, prefix := Layout(entries, addPeriodToH4), Layout(init, addPeriodToH4);
      assert body == prefix + [Render(entries[n], addPeriodToH4), Spacer()];
      forall i | 0 <= i < |entries|
        ensures body[2 * i] == Render(entries[i], addPeriodToH4) && body[2 * i + 1] == Spacer()
      {
        if i < n {
          assert entries[i] == init[i];
          assert body[2 * i] == prefix[2 * i] && body[2 * i + 1] == prefix[2 * i + 1];
        } else {
          assert 2 * i == |prefix|;
        }
      }
    }
  }

  /** One more paragraph at the end adds its own entry, if any, at the end. */
  lemma {:induction false} KeptSnoc(s: seq<SourceParagraph>, p: SourceParagraph)
    ensures Kept(s + [p]) == Kept(s) + Classify(p)
  {
    assert (s + [p])[..|s|] == s;
  }

  /** Selection keeps the source order: the entries of a concatenation are those of its parts. */
  lemma {:induction false} KeptAppend(a: seq<SourceParagraph>, b: seq<SourceParagraph>)
    ensures Kept(a + b) == Kept(a) + Kept(b)
  {
    if b == [] {
      assert a + b == a;
    } else {
      var init, last := b[..|b| - 1], b[|b| - 1];
      assert b == init + [last];
      assert a + b == (a + init) + [last];
      KeptAppend(a, init);
      KeptSnoc(a + init, last);
      KeptSnoc(init, last);
      calc {
        Kept(a + b);
        Kept(a + init) + Classify(last);
        (Kept(a) + Kept(init)) + Classify(last);
        { SeqAssoc(Kept(a), Kept(init), Classify(last)); }
        Kept(a) + (Kept(init) + Classify(last));
        Kept(a) + Kept(b);
      }
    }
  }

  /**
   * Concatenation is associative. Stated apart so that the step in
   * `KeptAppend` is taken without unfolding `Kept`.
   */
  lemma {:induction false} SeqAssoc(x: seq<Entry>, y: seq<Entry>, z: seq<Entry>)
    ensures (x + y) + z == x + (y + z)
  {
  }

  /** A paragraph renders nothing exactly when its text is all whitespace or no heading rule fires on its style. */
  lemma {:induction false} ClassifyDropsIff(p: SourceParagraph)
    ensures Classify(p) == [] <==>
              (forall i :: 0 <= i < |p.text| ==> IsSpace(p.text[i])) ||
              (forall k :: 0 <= k < |Markers| ==> !RuleFires(NormalizedStyle(p.styleName), k))
  {
    StripEmpty(p.text);
    var t := Strip(p.text);
    if t != [] {
      StripTrimmed(t);
      GuessHeadingLevelFirstRule(p.styleName, t);
      var level := GuessHeadingLevel(p.styleName, t);
      assert Classify(p) == [] <==> level == 0;
    }
  }

  /** A paragraph whose text strips to `t` and classifies as a non-zero `level` gives that entry. */
  lemma {:induction false} ClassifyOf(p: SourceParagraph, t: string, level: nat)
    requires Strip(p.text) == t && t != [] && GuessHeadingLevel(p.styleName, t) == level && level != 0
    ensures Classify(p) == [Entry(level, t)]
  {
  }

  /** A paragraph with trimmed text in a standard heading style renders as an entry of that level. */
  lemma {:induction false} StandardParagraphClassified(p: SourceParagraph, d: char)
    requires Trimmed(p.text) && '2' <= d <= '5' && p.styleName == "Heading " + [d]
    ensures Classify(p) == [Entry(d as int - '1' as int, p.text)]
  {
    var level := d as int - '1' as int;
    assert Strip(p.text) == p.text by { StripTrimmed(p.text); }
    assert GuessHeadingLevel(p.styleName, p.text) == level by {
      StripTrimmed(p.text);
      StandardHeadingLevel(p.styleName, d, p.text);
    }
    ClassifyOf(p, p.text, level);
  }

  /** A paragraph whose text is all whitespace renders nothing, whatever its style. */
  lemma {:induction false} BlankParagraphDropped(p: SourceParagraph)
    requires forall i :: 0 <= i < |p.text| ==> IsSpace(p.text[i])
    ensures Classify(p) == []
  {
    StripEmpty(p.text);
  }

  /** Nothing is counted, and the body is empty, exactly when no source paragraph renders. */
  lemma {:induction false} NothingFoundIff(src: seq<SourceParagraph>, addPeriodToH4: bool)
    ensures Tally(Kept(src)).Total() == 0 <==> AllDropped(src)
    ensures Body(src, addPeriodToH4) == [] <==> Tally(Kept(src)).Total() == 0
  {
    KeptEmptyIff(src);
  }

  /** No entries are kept exactly when every paragraph classifies to none. */
  lemma {:induction false} KeptEmptyIff(src: seq<SourceParagraph>)
    ensures Kept(src) == [] <==> AllDropped(src)
  {
    if src != [] {
      var init, last := src[..|src| - 1], src[|src| - 1];
      assert src == init + [last];
      KeptSnoc(init, last);
      KeptEmptyIff(init);
      DroppedSnoc(init, last);
    }
  }

  /** Every paragraph of `src` classifies to no entry. */
  predicate AllDropped(src: seq<SourceParagraph>)
  {
    forall i :: 0 <= i < |src| ==> Classify(src[i]) == []
  }

  /** All of `s + [p]` is dropped exactly when all of `s` and `p` are. */
  lemma {:induction false} DroppedSnoc(s: seq<SourceParagraph>, p: SourceParagraph)
    ensures AllDropped(s + [p]) <==> AllDropped(s) && Classify(p) == []
  {
    var sp := s + [p];
    assert forall i :: 0 <= i < |s| ==> sp[i] == s[i];
    assert sp[|s|] == p;
    if AllDropped(s) && Classify(p) == [] {
      assert AllDropped(sp) by {
        forall i | 0 <= i < |sp| ensures Classify(sp[i]) == [] {
          if i < |s| { assert sp[i] == s[i]; }
        }
      }
    }
    if AllDropped(sp) {
      assert AllDropped(s) by {
        forall i | 0 <= i < |s| ensures Classify(s[i]) == [] {
          assert sp[i] == s[i];
        }
      }
    }
  }
}
