/**
 * The output document and the layout helpers and renderers that build it:
 * `_set_xml_indent`, `_add_visible_blank_line`,
 * `ensure_h5_subbullet_style`, `add_heading`, `add_subheading_all_caps`,
 * `add_bullet` and `add_h5_bullet`.
 *
 * A document is its style table, its sections and its paragraphs. A
 * paragraph keeps its style name, its runs and its spacing as fields of
 * their own, and, as `props`, the other children of its paragraph-properties
 * element: the indent node that `_set_xml_indent` replaces and any others.
 */
module Docx {
  import opened Wrappers
  import opened Chars
  import opened TextNormalizer

  const ARIAL: string := "Arial"
  const BODY_SIZE_PT: nat := 10
  const NORMAL_STYLE: string := "Normal"
  const LIST_BULLET: string := "List Bullet"
  const LIST_BULLET_2: string := "List Bullet 2"
  const H5_STYLE: string := "H5Subbullet"
  /** The spacer paragraph's only character, a no-break space. */
  const NBSP: char := '\U{A0}'
  /** Level-5 bullets: text at 0.75 inch, bullet hanging 0.25 inch before it. */
  const H5_LEFT_TWIPS: int := 1080
  const H5_HANGING_TWIPS: int := 360
  /** Half an inch. */
  const MARGIN_TWIPS: nat := 720

  /** Paragraph spacing: inherited, or single line spacing with 0 pt before and after. */
  datatype Spacing = InheritedSpacing | SingleNoGap

  datatype Font = InheritedFont | Font(name: string, sizePt: nat)

  /** A run of text; `None` for bold or underline leaves the attribute to the style. */
  datatype Run = Run(text: string, bold: Option<bool>, underline: Option<bool>, font: Font)

  /** A child of a paragraph-properties element: an indent node (`w:ind`) or any other node. */
  datatype PropChild = Ind(left: int, hanging: int) | OtherProp(tag: string)

  /** A paragraph; `style == None` is the document's default paragraph style. */
  datatype Paragraph = Paragraph(style: Option<string>, runs: seq<Run>, spacing: Spacing, props: seq<PropChild>)

  datatype StyleDef = StyleDef(name: string, font: Font, spacing: Spacing)

  datatype Section = Section(leftMarginTwips: nat, rightMarginTwips: nat, topMarginTwips: nat, bottomMarginTwips: nat)

  function RunsText(runs: seq<Run>): string
  {
    if runs == [] then [] else runs[0].text + RunsText(runs[1..])
  }

  /** The text of a paragraph: its runs' texts, concatenated. */
  function Text(p: Paragraph): string
  {
    RunsText(p.runs)
  }

  // ----- paragraph-properties children (`_set_xml_indent`) -----

  /** The children that are not indent nodes, in their order. */
  function RemoveIndents(props: seq<PropChild>): (r: seq<PropChild>)
    ensures forall c :: c in r ==> !c.Ind? && c in props
  {
    if props == [] then []
    else
      var last := props[|props| - 1];
      RemoveIndents(props[..|props| - 1]) + (if last.Ind? then [] else [last])
  }

  /** Only indent nodes are removed: every other child keeps its number of occurrences. */
  lemma {:induction false} RemoveIndentsKeepsOthers(props: seq<PropChild>, c: PropChild)
    requires !c.Ind?
    ensures multiset(RemoveIndents(props))[c] == multiset(props)[c]
  {
    if props != [] {
      var init, last := props[..|props| - 1], props[|props| - 1];
      assert props == init + [last];
      RemoveIndentsKeepsOthers(init, c);
    }
  }

  lemma {:induction false} RemoveIndentsAppend(a: seq<PropChild>, b: seq<PropChild>)
    ensures RemoveIndents(a + b) == RemoveIndents(a) + RemoveIndents(b)
  {
    if b != [] {
      var init, last := b[..|b| - 1], b[|b| - 1];
      assert (a + b)[..|a + b| - 1] == a + init;
      assert (a + b)[|a + b| - 1] == last;
      var tail := if last.Ind? then [] else [last];
      calc {
        RemoveIndents(a + b);
        RemoveIndents(a + init) + tail;
        { RemoveIndentsAppend(a, init); }
        RemoveIndents(a) + RemoveIndents(init) + tail;
        RemoveIndents(a) + RemoveIndents(b);
      }
    } else {
      assert a + b == a;
    }
  }

  /** The children after every indent node has been removed and one with the given values appended. */
  function WithIndent(props: seq<PropChild>, left: int, hanging: int): (r: seq<PropChild>)
    ensures |r| > 0 && r[|r| - 1] == Ind(left, hanging)
    ensures forall i :: 0 <= i < |r| - 1 ==> !r[i].Ind?
  {
    RemoveIndents(props) + [Ind(left, hanging)]
  }

  /**
   * Setting the indent keeps the other children, in their order, and the
   * last setting wins; in particular setting the same indent twice is the
   * same as setting it once.
   */
  lemma {:induction false} WithIndentLastWins(props: seq<PropChild>, l1: int, h1: int, l2: int, h2: int)
    ensures RemoveIndents(WithIndent(props, l1, h1)) == RemoveIndents(props)
    ensures WithIndent(WithIndent(props, l1, h1), l2, h2) == WithIndent(props, l2, h2)
  {
    RemoveIndentsIdempotent(props);
    RemoveIndentsAppend(RemoveIndents(props), [Ind(l1, h1)]);
    assert RemoveIndents([Ind(l1, h1)]) == [];
  }

  lemma {:induction false} RemoveIndentsIdempotent(props: seq<PropChild>)
    ensures RemoveIndents(RemoveIndents(props)) == RemoveIndents(props)
  {
    if props != [] {
      var init := props[..|props| - 1];
      var last := props[|props| - 1];
      RemoveIndentsIdempotent(init);
      RemoveIndentsAppend(RemoveIndents(init), if last.Ind? then [] else [last]);
      if !last.Ind? {
        assert RemoveIndents([last]) == RemoveIndents([]) + [last];
      }
    }
  }

  // ----- the style table (`ensure_h5_subbullet_style`) -----

  /** The style names, in table order. */
  function Names(styles: seq<StyleDef>): (r: seq<string>)
    ensures |r| == |styles| && forall i :: 0 <= i < |styles| ==> r[i] == styles[i].name
  {
    seq(|styles|, i requires 0 <= i < |styles| => styles[i].name)
  }

  /** How many entries of the table carry `name`. */
  function NameCount(styles: seq<StyleDef>, name: string): nat
  {
    multiset(Names(styles))[name]
  }

  /** The nested-bullet style: Arial 10, single spacing, nothing before or after. */
  function H5SubbulletStyle(): (s: StyleDef)
    ensures s.name == H5_STYLE && s.font == Font(ARIAL, BODY_SIZE_PT) && s.spacing == SingleNoGap
  {
    StyleDef(H5_STYLE, Font(ARIAL, BODY_SIZE_PT), SingleNoGap)
  }

  /** The table after `ensure_h5_subbullet_style`. */
  function RegisterH5(styles: seq<StyleDef>): (r: seq<StyleDef>)
    ensures H5_STYLE in Names(r)
    ensures |styles| <= |r| <= |styles| + 1 && r[..|styles|] == styles
  {
    if H5_STYLE in Names(styles) then styles
    else
      assert Names(styles + [H5SubbulletStyle()])[|styles|] == H5_STYLE;
      styles + [H5SubbulletStyle()]
  }

  /**
   * Registering the nested-bullet style is idempotent, leaves the number
   * of entries of every other name unchanged, and leaves exactly one entry
   * of its own name when there was none (and the same number otherwise).
   */
  lemma {:induction false} RegisterH5Counts(styles: seq<StyleDef>)
    ensures RegisterH5(RegisterH5(styles)) == RegisterH5(styles)
    ensures NameCount(RegisterH5(styles), H5_STYLE) == if NameCount(styles, H5_STYLE) == 0 then 1 else NameCount(styles, H5_STYLE)
    ensures forall n :: n != H5_STYLE ==> NameCount(RegisterH5(styles), n) == NameCount(styles, n)
  {
    var r := RegisterH5(styles);
    if H5_STYLE !in Names(styles) {
      assert Names(r) == Names(styles) + [H5_STYLE];
    }
  }

  /** The index of the first style named `name` (how `styles[name]` finds it). */
  function IndexOfStyle(styles: seq<StyleDef>, name: string): (i: nat)
    requires name in Names(styles)
    ensures i < |styles| && styles[i].name == name
    ensures forall j :: 0 <= j < i ==> styles[j].name != name
  {
    if styles[0].name == name then 0
    else
      var k :| 0 <= k < |styles| && Names(styles)[k] == name;
      assert Names(styles[1..])[k - 1] == name;
      1 + IndexOfStyle(styles[1..], name)
  }

  /**
   * The table once the base style is Arial 10, single-spaced, with nothing
   * before or after: the first `Normal` entry is reformatted under its own
   * name, and every entry of another name is unchanged.
   */
  function WithBaseFormat(styles: seq<StyleDef>): (r: seq<StyleDef>)
    requires NORMAL_STYLE in Names(styles)
    ensures |r| == |styles| && Names(r) == Names(styles)
    ensures var i := IndexOfStyle(styles, NORMAL_STYLE);
            r[i].font == Font(ARIAL, BODY_SIZE_PT) && r[i].spacing == SingleNoGap
    ensures forall j :: 0 <= j < |styles| && styles[j].name != NORMAL_STYLE ==> r[j] == styles[j]
  {
    var i := IndexOfStyle(styles, NORMAL_STYLE);
    styles[i := styles[i].(font := Font(ARIAL, BODY_SIZE_PT), spacing := SingleNoGap)]
  }

  /** The sections once both side margins are half an inch; top and bottom margins are kept. */
  function WithNarrowMargins(sections: seq<Section>): (r: seq<Section>)
    ensures |r| == |sections|
    ensures forall i :: 0 <= i < |r| ==>
              r[i].leftMarginTwips == MARGIN_TWIPS && r[i].rightMarginTwips == MARGIN_TWIPS &&
              r[i].topMarginTwips == sections[i].topMarginTwips && r[i].bottomMarginTwips == sections[i].bottomMarginTwips
  {
    seq(|sections|, i requires 0 <= i < |sections| =>
      sections[i].(leftMarginTwips := MARGIN_TWIPS, rightMarginTwips := MARGIN_TWIPS))
  }

  // ----- the blocks the renderers emit -----

  /** The run every rendered block carries: Arial 10 with the given emphasis. */
  function BodyRun(text: string, bold: Option<bool>, underline: Option<bool>): Run
  {
    Run(text, bold, underline, Font(ARIAL, BODY_SIZE_PT))
  }

  /**
   * The paragraph `_add_visible_blank_line` appends after every block: it
   * reads as one no-break space, so it is blank yet not empty.
   */
  function Spacer(): (p: Paragraph)
    ensures Text(p) == [NBSP] && IsSpace(Text(p)[0])
    ensures p.style == None && p.spacing == SingleNoGap && p.props == []
  {
    var p := Paragraph(None, [Run([NBSP], None, None, InheritedFont)], SingleNoGap, []);
    TextOfOneRun(p);
    p
  }

  /** The paragraph `add_heading` emits: it reads as the upper-cased text, bold and underlined. */
  function HeadingBlock(text: string): (p: Paragraph)
    ensures Text(p) == UpperStr(text) && |p.runs| == 1
    ensures p.runs[0].bold == Some(true) && p.runs[0].underline == Some(true)
  {
    var p := Paragraph(None, [BodyRun(UpperStr(text), Some(true), Some(true))], SingleNoGap, []);
    TextOfOneRun(p);
    p
  }

  /** The paragraph `add_subheading_all_caps` emits: it reads as the upper-cased text, underlined, not bold. */
  function SubheadingBlock(text: string): (p: Paragraph)
    ensures Text(p) == UpperStr(text) && |p.runs| == 1
    ensures p.runs[0].bold == Some(false) && p.runs[0].underline == Some(true)
  {
    var p := Paragraph(None, [BodyRun(UpperStr(text), Some(false), Some(true))], SingleNoGap, []);
    TextOfOneRun(p);
    p
  }

  /** A styled paragraph holding `text` as one run, or no run when `text` is empty. */
  function StyledBlock(text: string, style: string, props: seq<PropChild>): (p: Paragraph)
    ensures Text(p) == text && |p.runs| <= 1
    ensures p.style == Some(style) && p.props == props
  {
    var p := Paragraph(Some(style), if text == [] then [] else [BodyRun(text, None, None)], SingleNoGap, props);
    if text == [] then p else TextOfOneRun(p); p
  }

  /**
   * The text `add_bullet` writes: sentence case, then the period if asked
   * for. Without the period the length is kept; with it, a text ending in a
   * non-space character comes out terminated.
   */
  function BulletText(text: string, addPeriod: bool): (r: string)
    ensures !addPeriod ==> |r| == |text|
    ensures addPeriod && text != [] && !IsSpace(text[|text| - 1]) ==> r != [] && Terminated(r)
  {
    if !addPeriod then SentenceCase(text)
    else
      var r := EnsureTerminalPeriod(SentenceCase(text));
      if text != [] && !IsSpace(text[|text| - 1]) then SentenceCaseThenPeriod(text); r else r
  }

  /** The paragraph `add_bullet` emits, in `List Bullet 2` when indented and `List Bullet` otherwise. */
  function BulletBlock(text: string, indent: bool, addPeriod: bool): (p: Paragraph)
    ensures p.style == Some(if indent then LIST_BULLET_2 else LIST_BULLET) && p.props == []
    ensures Text(p) == BulletText(text, addPeriod)
  {
    StyledBlock(BulletText(text, addPeriod), if indent then LIST_BULLET_2 else LIST_BULLET, [])
  }

  /** The paragraph `add_h5_bullet` emits: sentence case, terminated, with the nested indent as its one property child. */
  function H5Block(text: string): (p: Paragraph)
    ensures p.style == Some(H5_STYLE) && p.props == [Ind(H5_LEFT_TWIPS, H5_HANGING_TWIPS)]
    ensures Text(p) == EnsureTerminalPeriod(SentenceCase(text))
  {
    assert RemoveIndents([]) == [];
    StyledBlock(EnsureTerminalPeriod(SentenceCase(text)), H5_STYLE, WithIndent([], H5_LEFT_TWIPS, H5_HANGING_TWIPS))
  }

  /** The text of a paragraph with a single run is that run's text. */
  lemma {:induction false} TextOfOneRun(p: Paragraph)
    requires |p.runs| == 1
    ensures Text(p) == p.runs[0].text
  {
    assert RunsText(p.runs[1..]) == [];
  }

  /**
   * The H2 and H3 blocks: one Arial 10 run holding the upper-cased text, so
   * no lower-case letter is left; underlined, bold for H2 and explicitly not
   * bold for H3; single-spaced with no gaps and no paragraph style.
   */
  lemma {:induction false} CapsBlocks(text: string)
    ensures forall p :: p in [HeadingBlock(text), SubheadingBlock(text)] ==>
              p.style == None && p.spacing == SingleNoGap && p.props == [] && |p.runs| == 1 &&
              Text(p) == UpperStr(text) && |Text(p)| == |text| &&
              (forall i :: 0 <= i < |Text(p)| ==> !IsLowerLetter(Text(p)[i])) &&
              p.runs[0].font == Font(ARIAL, BODY_SIZE_PT) && p.runs[0].underline == Some(true)
    ensures HeadingBlock(text).runs[0].bold == Some(true) && SubheadingBlock(text).runs[0].bold == Some(false)
  {
    TextOfOneRun(HeadingBlock(text));
    TextOfOneRun(SubheadingBlock(text));
  }

  /**
   * The H4 bullet: in `List Bullet 2` when indented, holding the
   * sentence-cased text, terminated when the period is asked for; a text
   * ending in a non-space character always gets its one Arial 10 run.
   */
  lemma {:induction false} BulletBlockShape(text: string, indent: bool, addPeriod: bool)
    requires text != [] && !IsSpace(text[|text| - 1])
    ensures var p := BulletBlock(text, indent, addPeriod);
            p.style == Some(if indent then LIST_BULLET_2 else LIST_BULLET) && p.spacing == SingleNoGap &&
            p.props == [] && |p.runs| == 1 && p.runs[0].font == Font(ARIAL, BODY_SIZE_PT) &&
            Text(p) == BulletText(text, addPeriod) &&
            (if addPeriod then Terminated(Text(p)) else Text(p) == SentenceCase(text))
  {
    if addPeriod {
      SentenceCaseThenPeriod(text);
    }
    TextOfOneRun(BulletBlock(text, indent, addPeriod));
  }

  /**
   * The H5 bullet: in the nested-bullet style, with the nested indent as the
   * only property child the model tracks besides style and spacing, holding
   * the sentence-cased text, always terminated.
   */
  lemma {:induction false} H5BlockShape(text: string)
    requires text != [] && !IsSpace(text[|text| - 1])
    ensures var p := H5Block(text);
            p.style == Some(H5_STYLE) && p.spacing == SingleNoGap &&
            p.props == [Ind(H5_LEFT_TWIPS, H5_HANGING_TWIPS)] && |p.runs| == 1 &&
            p.runs[0].font == Font(ARIAL, BODY_SIZE_PT) && Terminated(Text(p)) &&
            Text(p) == EnsureTerminalPeriod(SentenceCase(text))
  {
    SentenceCaseThenPeriod(text);
    TextOfOneRun(H5Block(text));
    assert RemoveIndents([]) == [];
  }

  class Document {
    var styles: seq<StyleDef>
    var sections: seq<Section>
    var paragraphs: seq<Paragraph>

    /** A new document from a template's style table and sections; its body is empty. */
    constructor (templateStyles: seq<StyleDef>, templateSections: seq<Section>)
      ensures styles == templateStyles && sections == templateSections && paragraphs == []
    {
      styles := templateStyles;
      sections := templateSections;
      paragraphs := [];
    }

    /** `ensure_h5_subbullet_style`: adds the nested-bullet style unless a style of that name exists. */
    method EnsureH5SubbulletStyle()
      modifies this
      ensures styles == RegisterH5(old(styles))
      ensures sections == old(sections) && paragraphs == old(paragraphs)
    {
      var names := Names(styles);
      if H5_STYLE !in names {
        styles := styles + [H5SubbulletStyle()];
      }
    }

    /** The page setup of `transform_docx`: every section gets half-inch side margins. */
    method SetPageMargins()
      modifies this
      ensures sections == WithNarrowMargins(old(sections))
      ensures styles == old(styles) && paragraphs == old(paragraphs)
    {
      var i := 0;
      while i < |sections|
        invariant 0 <= i <= |sections| == |old(sections)|
        invariant forall j :: 0 <= j < i ==> sections[j] == WithNarrowMargins(old(sections))[j]
        invariant forall j :: i <= j < |sections| ==> sections[j] == old(sections)[j]
        invariant styles == old(styles) && paragraphs == old(paragraphs)
      {
        sections := sections[i := sections[i].(leftMarginTwips := MARGIN_TWIPS, rightMarginTwips := MARGIN_TWIPS)];
        i := i + 1;
      }
    }

    /** The base-style setup of `transform_docx`: `Normal` becomes Arial 10, single-spaced, no gaps. */
    method SetBaseStyle()
      requires NORMAL_STYLE in Names(styles)
      modifies this
      ensures styles == WithBaseFormat(old(styles))
      ensures sections == old(sections) && paragraphs == old(paragraphs)
    {
      var i := IndexOfStyle(styles, NORMAL_STYLE);
      styles := styles[i := styles[i].(font := Font(ARIAL, BODY_SIZE_PT), spacing := SingleNoGap)];
    }

    /**
     * `_set_xml_indent` on paragraph `k`: removes every indent node of its
     * properties, then appends one carrying `left` and `hanging`.
     */
    method SetXmlIndent(k: nat, left: int, hanging: int)
      requires k < |paragraphs|
      modifies this
      ensures paragraphs == old(paragraphs)[k := old(paragraphs)[k].(props := WithIndent(old(paragraphs)[k].props, left, hanging))]
      ensures styles == old(styles) && sections == old(sections)
    {
      var props := paragraphs[k].props;
      var kept: seq<PropChild> := [];
      var i := 0;
      while i < |props|
        invariant 0 <= i <= |props|
        invariant kept == RemoveIndents(props[..i])
      {
        assert props[..i + 1][..i] == props[..i];
        if !props[i].Ind? {
          kept := kept + [props[i]];
        }
        i := i + 1;
      }
      assert props[..i] == props;
      paragraphs := paragraphs[k := paragraphs[k].(props := kept + [Ind(left, hanging)])];
    }

    /** `_add_visible_blank_line`: appends the spacer paragraph. */
    method AddVisibleBlankLine()
      modifies this
      ensures paragraphs == old(paragraphs) + [Spacer()]
      ensures styles == old(styles) && sections == old(sections)
    {
      var spacer := Paragraph(None, [Run([NBSP], None, None, InheritedFont)], InheritedSpacing, []);
      spacer := spacer.(spacing := SingleNoGap);
      paragraphs := paragraphs + [spacer];
    }

    /** `add_heading`: appends the upper-cased text, bold and underlined, then a spacer. */
    method AddHeading(text: string)
      modifies this
      ensures paragraphs == old(paragraphs) + [HeadingBlock(text), Spacer()]
      ensures styles == old(styles) && sections == old(sections)
    {
      var p := Paragraph(None, [], SingleNoGap, []);
      p := p.(runs := p.runs + [BodyRun(UpperStr(text), Some(true), Some(true))]);
      assert p == HeadingBlock(text);
      paragraphs := paragraphs + [p];
      AddVisibleBlankLine();
    }

    /** `add_subheading_all_caps`: appends the upper-cased text, underlined and not bold, then a spacer. */
    method AddSubheadingAllCaps(text: string)
      modifies this
      ensures paragraphs == old(paragraphs) + [SubheadingBlock(text), Spacer()]
      ensures styles == old(styles) && sections == old(sections)
    {
      var p := Paragraph(None, [], SingleNoGap, []);
      p := p.(runs := p.runs + [BodyRun(UpperStr(text), Some(false), Some(true))]);
      assert p == SubheadingBlock(text);
      paragraphs := paragraphs + [p];
      AddVisibleBlankLine();
    }

    /**
     * The part `add_bullet` and `add_h5_bullet` share: a paragraph holding
     * `formatted` in the given style, single-spaced with no gaps, whose first
     * run (if any) is set to Arial 10.
     */
    method AddStyledParagraph(formatted: string, style: string)
      modifies this
      ensures paragraphs == old(paragraphs) + [StyledBlock(formatted, style, [])]
      ensures styles == old(styles) && sections == old(sections)
    {
      var p := Paragraph(Some(style), if formatted == [] then [] else [Run(formatted, None, None, InheritedFont)], InheritedSpacing, []);
      p := p.(spacing := SingleNoGap);
      if p.runs != [] {
        p := p.(runs := p.runs[0 := p.runs[0].(font := Font(ARIAL, BODY_SIZE_PT))]);
        assert p.runs == [BodyRun(formatted, None, None)];
      }
      assert p == StyledBlock(formatted, style, []);
      paragraphs := paragraphs + [p];
    }

    /** `add_bullet`: appends the sentence-cased (and, if asked, terminated) text as a bullet, then a spacer. */
    method AddBullet(text: string, indent: bool, addPeriod: bool)
      modifies this
      ensures paragraphs == old(paragraphs) + [BulletBlock(text, indent, addPeriod), Spacer()]
      ensures styles == old(styles) && sections == old(sections)
    {
      var formatted := ToSentenceCase(text);
      if addPeriod {
        formatted := EnsureTerminalPeriod(formatted);
      }
      var styleName := if indent then LIST_BULLET_2 else LIST_BULLET;
      AddStyledParagraph(formatted, styleName);
      AddVisibleBlankLine();
    }

    /** `add_h5_bullet`: appends the sentence-cased, terminated text as a nested bullet, then a spacer. */
    method AddH5Bullet(text: string)
      modifies this
      ensures paragraphs == old(paragraphs) + [H5Block(text), Spacer()]
      ensures styles == old(styles) && sections == old(sections)
    {
      var cased := ToSentenceCase(text);
      var formatted := EnsureTerminalPeriod(cased);
      AddStyledParagraph(formatted, H5_STYLE);
      ghost var block := StyledBlock(formatted, H5_STYLE, []);
      SetXmlIndent(|paragraphs| - 1, H5_LEFT_TWIPS, H5_HANGING_TWIPS);
      assert paragraphs == old(paragraphs) + [block.(props := WithIndent([], H5_LEFT_TWIPS, H5_HANGING_TWIPS))] by {
        assert |paragraphs| == |old(paragraphs)| + 1;
        assert paragraphs[..|old(paragraphs)|] == old(paragraphs);
      }
      AddVisibleBlankLine();
    }
  }
}
