/**
 * The entries and counts of an outline: an H2, a blank H3, an H4 and an H5
 * in the standard heading styles.
 */
module OutlineEntries {
  import opened Chars
  import opened HeadingClassifier
  import opened Transformer

  /** The entries of four paragraphs are theirs, in order. */
  lemma {:induction false} KeptOfFour(src: seq<SourceParagraph>, c0: seq<Entry>, c1: seq<Entry>, c2: seq<Entry>, c3: seq<Entry>)
    requires |src| == 4
    requires Classify(src[0]) == c0 && Classify(src[1]) == c1 && Classify(src[2]) == c2 && Classify(src[3]) == c3
    ensures Kept(src) == c0 + c1 + c2 + c3
  {
    assert Kept(src[..1]) == c0 by {
      KeptStep(src, 0);
      assert src[..0] == [];
      assert [] + c0 == c0;
    }
    assert Kept(src[..2]) == c0 + c1 by { KeptStep(src, 1); }
    assert Kept(src[..3]) == c0 + c1 + c2 by { KeptStep(src, 2); }
    KeptStep(src, 3);
    assert src[..4] == src;
  }

  /** The outline's paragraphs classify as an H2 entry, nothing, an H4 entry and an H5 entry. */
  lemma {:induction false} OutlineClassified(src: seq<SourceParagraph>, h2: string, blank: string, h4: string, h5: string)
    requires Trimmed(h2) && Trimmed(h4) && Trimmed(h5)
    requires forall i :: 0 <= i < |blank| ==> IsSpace(blank[i])
    requires |src| == 4
    requires src[0] == SourceParagraph(h2, "Heading " + ['2']) && src[1] == SourceParagraph(blank, "Heading " + ['3'])
    requires src[2] == SourceParagraph(h4, "Heading " + ['4']) && src[3] == SourceParagraph(h5, "Heading " + ['5'])
    ensures Classify(src[0]) == [Entry(1, h2)] && Classify(src[1]) == []
    ensures Classify(src[2]) == [Entry(3, h4)] && Classify(src[3]) == [Entry(4, h5)]
  {
    StandardParagraphClassified(src[0], '2');
    BlankParagraphDropped(src[1]);
    StandardParagraphClassified(src[2], '4');
    StandardParagraphClassified(src[3], '5');
  }

  /** The outline keeps three entries, in source order, and drops the blank H3. */
  lemma {:induction false} OutlineKept(src: seq<SourceParagraph>, h2: string, blank: string, h4: string, h5: string)
    requires Trimmed(h2) && Trimmed(h4) && Trimmed(h5)
    requires forall i :: 0 <= i < |blank| ==> IsSpace(blank[i])
    requires |src| == 4
    requires src[0] == SourceParagraph(h2, "Heading " + ['2']) && src[1] == SourceParagraph(blank, "Heading " + ['3'])
    requires src[2] == SourceParagraph(h4, "Heading " + ['4']) && src[3] == SourceParagraph(h5, "Heading " + ['5'])
    ensures Kept(src) == [Entry(1, h2), Entry(3, h4), Entry(4, h5)]
  {
    var e1, e3, e4 := Entry(1, h2), Entry(3, h4), Entry(4, h5);
    assert [e1] + [] + [e3] + [e4] == [e1, e3, e4];
    OutlineClassified(src, h2, blank, h4, h5);
    KeptOfFour(src, [e1], [], [e3], [e4]);
  }

  /** Three entries of levels 1, 3 and 4 count H2 1, H3 0, H4 1, H5 1. */
  lemma {:induction false} OutlineCounts(h2: string, h4: string, h5: string)
    ensures Tally([Entry(1, h2), Entry(3, h4), Entry(4, h5)]) == Counts(1, 0, 1, 1)
  {
    var kept := [Entry(1, h2), Entry(3, h4), Entry(4, h5)];
    TallyCountsLevels(kept);
    assert Levels(kept) == [1, 3, 4];
  }
}

/**
 * The worked example of a whole transformation: the blocks an outline
 * produces, and the outline `INTRO`, blank, `point one`, `sub point`.
 */
module WorkedExample {
  import opened Chars
  import opened TextNormalizer
  import opened Docx
  import opened Transformer
  import opened OutlineEntries
  import Scenarios

  /** The three kept entries lay out as heading, bullet and H5 blocks, each followed by a spacer. */
  lemma {:induction false} OutlineLayout(h2: string, h4: string, h5: string)
    ensures var body := Layout([Entry(1, h2), Entry(3, h4), Entry(4, h5)], true);
            |body| == 6 && body[0] == HeadingBlock(h2) &&
            body[2] == BulletBlock(h4, true, true) && body[4] == H5Block(h5) &&
            body[1] == Spacer() && body[3] == Spacer() && body[5] == Spacer()
  {
    var entries := [Entry(1, h2), Entry(3, h4), Entry(4, h5)];
    LayoutShape(entries, true);
    var body := Layout(entries, true);
    var i0, i1, i2 := 0, 1, 2;
    assert body[0] == HeadingBlock(h2) by { assert body[2 * i0] == Render(entries[i0], true); }
    assert body[2] == BulletBlock(h4, true, true) by { assert body[2 * i1] == Render(entries[i1], true); }
    assert body[4] == H5Block(h5) by { assert body[2 * i2] == Render(entries[i2], true); }
    assert body[2 * i0 + 1] == Spacer() && body[2 * i1 + 1] == Spacer() && body[2 * i2 + 1] == Spacer();
  }

  /**
   * The outline's body with the H4 period on: three blocks with their
   * spacers, the H2 upper-cased, the H4 and H5 sentence-cased and
   * terminated, the H5 with the nested indent.
   */
  lemma {:induction false} OutlineBody(h2: string, h4: string, h5: string)
    requires Trimmed(h4) && Trimmed(h5)
    ensures var body := Layout([Entry(1, h2), Entry(3, h4), Entry(4, h5)], true);
            |body| == 6 && Text(body[0]) == UpperStr(h2) &&
            Text(body[2]) == EnsureTerminalPeriod(SentenceCase(h4)) &&
            Text(body[4]) == EnsureTerminalPeriod(SentenceCase(h5)) &&
            body[4].props == [Ind(H5_LEFT_TWIPS, H5_HANGING_TWIPS)] &&
            body[1] == Spacer() && body[3] == Spacer() && body[5] == Spacer()
  {
    OutlineLayout(h2, h4, h5);
    CapsBlocks(h2);
    BulletBlockShape(h4, true, true);
    H5BlockShape(h5);
  }

  /**
   * The worked example: `INTRO` as H2, a blank H3, `point one` as H4 and
   * `sub point` as H5 give the counts H2 1, H3 0, H4 1, H5 1 and blocks
   * reading `INTRO`, `Point one.` and `Sub point.` in that order.
   */
  lemma {:induction false} WorkedExample(src: seq<SourceParagraph>)
    requires |src| == 4
    requires src[0] == SourceParagraph("INTRO", "Heading 2") && src[1] == SourceParagraph("", "Heading 3")
    requires src[2] == SourceParagraph("point one", "Heading 4") && src[3] == SourceParagraph("sub point", "Heading 5")
    ensures Tally(Kept(src)) == Counts(1, 0, 1, 1)
    ensures var body := Body(src, true);
            |body| == 6 && Text(body[0]) == "INTRO" && Text(body[2]) == "Point one." && Text(body[4]) == "Sub point."
  {
    assert "Heading 2" == "Heading " + ['2'] && "Heading 3" == "Heading " + ['3'];
    assert "Heading 4" == "Heading " + ['4'] && "Heading 5" == "Heading " + ['5'];
    OutlineKept(src, "INTRO", "", "point one", "sub point");
    OutlineCounts("INTRO", "point one", "sub point");
    OutlineBody("INTRO", "point one", "sub point");
    Scenarios.SampleCaps();
    Scenarios.SampleH4SentenceCase();
    Scenarios.SampleH5SentenceCase();
    Scenarios.SamplePeriods();
  }
}
