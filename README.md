# Key Points Maker — a verified model

The Key Points Maker takes a Word document that is structured with the
heading styles Heading 2 to Heading 5 and produces a condensed "key points"
document:

- every Heading 2 paragraph becomes an upper-case, bold, underlined line;
- every Heading 3 becomes an upper-case, underlined line that is not bold;
- every Heading 4 becomes a `List Bullet 2` bullet in sentence case. When
  the user asks for it, the bullet is terminated: it ends in `.`, `!` or
  `?`, possibly followed by a closing quote, and a period is added only
  when none of these is already there;
- every Heading 5 becomes a bullet in a dedicated `H5Subbullet` style, with
  a deeper hanging indent, always terminated in the same way;
- everything else is dropped.

Each block is followed by a visible blank line: a paragraph holding one
no-break space. The output uses Arial 10 with single spacing and no space
before or after, and has half-inch side margins. The application counts
the rendered blocks per level, warns when the count is zero, and names
the download after the upload.

The project models that core:

- `Chars`: the character classes and the Python string methods the program
  relies on, namely `isalpha`, `isspace`, `lower`, `upper`, `strip`,
  `rstrip`, `in` and `endswith`.
- `TextNormalizer`: `to_sentence_case` (an imperative loop over a character
  array, proved equal to a declarative specification) and
  `ensure_terminal_period`.
- `HeadingClassifier`: `guess_heading_level`, as a rule table with
  first-match priority.
- `Docx`: the output document. It is a class whose style table, sections
  and paragraphs the renderers update in place. The module also holds
  `_set_xml_indent`, `_add_visible_blank_line`,
  `ensure_h5_subbullet_style` and the four renderers, each specified by
  the block it appends.
- `Transformer`: `transform_docx`, a loop over the source paragraphs that
  is proved to build the layout of the kept entries and the per-level
  counts. The zero-total warning is characterised here.
- `OutputName`: the download-name rule, including POSIX `os.path.splitext`.
- `Scenarios`, `OutlineEntries` and `WorkedExample`: concrete examples,
  among them a whole transformation of a four-paragraph outline.

## Model

| member | source | states |
|---|---|---|
| Chars.Upper | app.py:91 | letters map to upper-case letters, every other character is unchanged |
| Chars.Lower | app.py:20 | letters map to lower-case letters, every other character is unchanged |
| Chars.IsAlpha | app.py:20 | `isalpha` on one character: every letter is an ASCII character between `A` and `z` |
| Chars.IsSpace | app.py:36 | `isspace` on one character, the set `strip` and `rstrip` remove: the blank and the no-break space are whitespace, and no ASCII letter or digit is |
| Chars.CaseMapsAgree | app.py:20-28 | upper and lower casing are idempotent and each undoes the other up to case |
| Chars.UpperStr | app.py:91 | `str.upper` keeps the length and upper-cases every position |
| Chars.LowerStr | app.py:140 | `str.lower` keeps the length and lower-cases every position |
| Chars.RStrip | app.py:36 | `rstrip` returns a prefix that does not end in whitespace; everything it removed is whitespace |
| Chars.LStrip | app.py:140-141 | the left half of `strip`: a suffix that does not start with whitespace; everything it removed is whitespace |
| Chars.Strip | app.py:177 | `strip` gives a text that neither starts nor ends with whitespace and is no longer than its input |
| Chars.StripInfix | app.py:177 | the stripped text is an infix of the input, and everything before it and after it is whitespace |
| Chars.StripAt | app.py:140 | character `i` of the stripped text is the input's character at the same place in the infix that remains |
| Chars.StripEmpty | app.py:177-179 | a stripped text is empty exactly when the original is all whitespace |
| Chars.StripTrimmed | app.py:141 | stripping a text with no whitespace at either end changes nothing |
| Chars.Contains | app.py:144-150 | the `in` test between strings: the empty string and the text itself are always contained in it |
| Chars.EndsWith | app.py:227 | `endswith`: only a string no longer than the text can end it, and a non-empty one shares the text's last character |
| Chars.ContainsSameLength | app.py:144 | a substring test between equal-length strings is equality |
| Chars.ContainsShorter | app.py:144-150 | a string never contains a longer one |
| TextNormalizer.IsClauseEnd | app.py:30 | the clause ends `.`, `!`, `?` and `:` are neither letters nor whitespace, so lower-casing, upper-casing and stripping keep them |
| TextNormalizer.SentenceCase | app.py:18-33 | same length; non-letters unchanged; a letter is upper-case exactly when no letter stands between it and the start or the last clause end (`.`, `!`, `?`, `:`) before it, and lower-case otherwise |
| TextNormalizer.ToSentenceCase | app.py:18-33 | the in-place loop with the `cap_next` flag returns exactly `SentenceCase` of its input |
| TextNormalizer.CapPendingMeaning | app.py:23-31 | the flag is set before position `i` exactly when every earlier letter is followed by a clause end before `i` |
| TextNormalizer.SentenceCaseIdempotent | app.py:18-33 | sentence-casing twice is the same as once |
| TextNormalizer.IsTerminal | app.py:39 | every terminator is a clause end and not whitespace; the colon is the one clause end that is not a terminator |
| TextNormalizer.IsClosingQuote | app.py:40 | no closing quote is a terminator, a letter or whitespace |
| TextNormalizer.InsertAt | app.py:47-48 | inserting a character puts it at the given index and keeps the rest of the text around it |
| TextNormalizer.EnsureTerminalPeriod | app.py:35-48 | empty exactly when the right-stripped input is; a non-empty result always ends in `.`, `!` or `?`, possibly before a closing quote; an already terminated text is only right-stripped; otherwise exactly one period is inserted, before a trailing closing quote or at the end |
| TextNormalizer.EnsureTerminalPeriodIdempotent | app.py:35-48 | enforcing the period twice is the same as once |
| TextNormalizer.SentenceCaseThenPeriod | app.py:126 | sentence case followed by the period gives a non-empty, terminated text for any text that does not end in whitespace |
| HeadingClassifier.NormalizedStyle | app.py:140 | the normalised style name holds no upper-case letter, has no whitespace at either end, and is no longer than the style name |
| HeadingClassifier.MarkerLevel | app.py:144-152 | the level lies within the rule table |
| HeadingClassifier.MarkerLevelFirstRule | app.py:144-152 | a non-zero level `n` means rule `n` fires and no earlier rule does; 0 means no rule fires |
| HeadingClassifier.GuessHeadingLevel | app.py:139-152 | the level is at most 4, and 0 for blank text |
| HeadingClassifier.GuessHeadingLevelFirstRule | app.py:139-152 | the level is that of the first rule firing on the lower-cased, stripped style name; it is 0 exactly when the text is blank or no rule fires |
| HeadingClassifier.AmbiguousLabelFirstRuleWins | app.py:144-147 | a style name containing both `heading 2` and `heading 3` classifies as level 1 |
| HeadingClassifier.HeadingNameNormalized | app.py:140 | `Heading N` and `heading N` both normalise to `heading N` |
| HeadingClassifier.HeadingRuleFires | app.py:144-151 | on `heading D`, rule `k` fires exactly when `D` is digit `k + 2` |
| HeadingClassifier.StandardHeadingLevel | app.py:139-152 | a non-blank paragraph styled `Heading 2` to `Heading 5` classifies as level 1 to 4 |
| OutputName.RFind | app.py:226 | the index of the last occurrence of a character, or -1 if there is none |
| OutputName.SplitExtRoot | app.py:226 | the root is a prefix of the name; when it is shorter, the cut is at the last dot, in the last path component, with a non-dot character before it |
| OutputName.SplitExtCuts | app.py:226 | conversely, a dot in the last path component with a non-dot character before it always cuts the name, at that dot or a later one |
| OutputName.BaseName | app.py:226 | the base is the right-stripped root, and a prefix of the upload's name |
| OutputName.OutputName | app.py:226-230 | ends in `OUTPUT.docx`; a base ending in `INPUT` in any case has those five characters replaced by `OUTPUT`, otherwise `_OUTPUT` is appended |
| OutputName.RootOfDocx | app.py:226 | the root of `root.docx` is `root` when `root` ends in neither a dot nor a slash |
| OutputName.PlainUploadName | app.py:226-230 | an upload `stem.docx` whose stem ends in a character other than whitespace, `.` and `/`, and not in `INPUT` (in any case), downloads as `stem_OUTPUT.docx` |
| OutputName.MarkedUploadName | app.py:226-228 | an upload `stem` + `input` + `.docx`, with `input` in any mix of cases, downloads as `stem` + `OUTPUT.docx` |
| OutputName.RootOfAppended | app.py:226-230 | the root of `stem_OUTPUT.docx` is `stem_OUTPUT` |
| OutputName.MarkedOutputDiffers | app.py:227-228 | with a trailing `INPUT`, the download name differs from the upload's name |
| OutputName.AppendedOutputDiffers | app.py:229-230 | with `_OUTPUT` appended, the download name differs from the upload's name |
| OutputName.OutputNameDiffers | app.py:226-230 | the download never carries the upload's own name |
| Docx.RemoveIndents | app.py:55-56 | what remains after removing indent nodes holds no indent node and only original children |
| Docx.RemoveIndentsKeepsOthers | app.py:55-56 | only indent nodes are removed: every other child keeps its number of occurrences |
| Docx.RemoveIndentsAppend | app.py:55-56 | removing indent nodes distributes over concatenation |
| Docx.RemoveIndentsIdempotent | app.py:55-56 | removing indent nodes twice is the same as once |
| Docx.WithIndent | app.py:53-60 | after setting the indent, the properties end in the new indent node and hold no other |
| Docx.WithIndentLastWins | app.py:53-60 | setting the indent keeps the other children in order, and a second setting replaces the first |
| Docx.Document.SetXmlIndent | app.py:53-60 | the loop leaves paragraph `k` with `WithIndent` of its properties and changes nothing else |
| Docx.Document.AddVisibleBlankLine | app.py:62-66 | appends exactly the spacer: one no-break space, single-spaced, no gaps |
| Docx.Names | app.py:73 | the style names, in table order |
| Docx.RegisterH5 | app.py:71-84 | the result contains `H5Subbullet` and extends the original table by at most the one new style |
| Docx.RegisterH5Counts | app.py:71-84 | registering is idempotent, leaves exactly one `H5Subbullet` when there was none, and leaves every other name's count unchanged |
| Docx.H5SubbulletStyle | app.py:74-84 | the registered style is named `H5Subbullet` and is Arial 10, single-spaced with no gaps |
| Docx.Document.EnsureH5SubbulletStyle | app.py:71-84 | the style table becomes `RegisterH5` of the old one; the sections and paragraphs are unchanged |
| Docx.IndexOfStyle | app.py:167 | `styles[name]` finds the first style with that name |
| Docx.WithNarrowMargins | app.py:162-164 | every section gets half-inch left and right margins and keeps its top and bottom margins |
| Docx.WithBaseFormat | app.py:167-172 | the first `Normal` entry becomes Arial 10, single-spaced with no gaps; the names, and every entry of another name, are unchanged |
| Docx.Document.SetPageMargins | app.py:161-164 | the loop gives every section half-inch side margins and changes nothing else |
| Docx.Document.SetBaseStyle | app.py:166-172 | `Normal` becomes Arial 10, single-spaced with no gaps; everything else is unchanged |
| Docx.TextOfOneRun | app.py:91 | a one-run paragraph reads as its run |
| Docx.Spacer | app.py:62-66 | the spacer reads as one no-break space, a whitespace character, and is an unstyled paragraph, single-spaced with no gaps |
| Docx.HeadingBlock | app.py:87-95 | the H2 block reads as the upper-cased text, in one bold, underlined run |
| Docx.SubheadingBlock | app.py:99-107 | the H3 block reads as the upper-cased text, in one underlined run that is explicitly not bold |
| Docx.StyledBlock | app.py:115-122 | a paragraph in the given style, with the given property children, that reads as the text and has at most one run |
| Docx.BulletText | app.py:111-113 | without the period the sentence-cased text keeps the input's length; with it, a text that does not end in whitespace comes out non-empty and terminated |
| Docx.BulletBlock | app.py:110-122 | the H4 bullet is in `List Bullet 2` when indented and `List Bullet` otherwise, has no property children, and reads as `BulletText` |
| Docx.H5Block | app.py:125-136 | the H5 bullet is in `H5Subbullet`, has the 1080/360 indent as its only property child, and reads as the sentence-cased text with the period enforced |
| Docx.Document.AddHeading | app.py:86-96 | appends the H2 block and a spacer, and nothing else changes |
| Docx.Document.AddSubheadingAllCaps | app.py:98-108 | appends the H3 block and a spacer, and nothing else changes |
| Docx.CapsBlocks | app.py:86-108 | both caps blocks hold one Arial 10 underlined run with the upper-cased text and no lower-case letter; only H2 is bold |
| Docx.Document.AddStyledParagraph | app.py:115-122 | appends a paragraph in the given style holding the text, single-spaced with no gaps, whose one run (if any) is Arial 10 |
| Docx.Document.AddBullet | app.py:110-123 | appends the bullet block (sentence case, terminated if asked for, `List Bullet 2` when indented) and a spacer |
| Docx.BulletBlockShape | app.py:110-123 | for a text that does not end in whitespace, the bullet has its style and one Arial 10 run, and is terminated when the period is asked for |
| Docx.Document.AddH5Bullet | app.py:125-137 | appends the H5 block (sentence case, terminated, `H5Subbullet`, 1080/360 twip indent) and a spacer |
| Docx.H5BlockShape | app.py:125-137 | the H5 bullet has one Arial 10 run, terminated text, and the nested indent as the only property child the model tracks (style and spacing are fields of their own) |
| Docx.Document.constructor | app.py:158 | a new document has the template's styles and sections and an empty body |
| Transformer.Classify | app.py:177-180 | a paragraph contributes at most one entry, carrying its stripped, non-empty text |
| Transformer.Kept | app.py:176-191 | no more entries than source paragraphs |
| Transformer.KeptRenderable | app.py:177-179 | every kept entry has non-empty text with no whitespace at either end |
| Transformer.Render | app.py:181-188 | the block tells its level back: H2 and H3 blocks are unstyled with one run, bold only for H2; H4 blocks are in `List Bullet 2` and H5 blocks in `H5Subbullet` |
| Transformer.Layout | app.py:176-191 | the body has two paragraphs per entry |
| Transformer.Body | app.py:176-191 | the body has two paragraphs per kept source paragraph |
| Transformer.Bump | app.py:182-188 | no count decreases, and the total grows by one for levels 1 to 4 and not at all otherwise |
| Transformer.Tally | app.py:174-188 | the counts add up to the number of entries, which is the `total` the application tests for zero |
| Transformer.KeptStep | app.py:176 | one more paragraph adds its classification at the end (`KeptSnoc` at a prefix) |
| Transformer.LayoutAppend | app.py:181-188 | one more entry adds its rendered block and a spacer |
| Transformer.TallyAppend | app.py:181-188 | one more entry bumps the count of its level |
| Transformer.Emitted | app.py:177-191 | a source paragraph emits the layout of its own classification: its block and a spacer, or nothing |
| Transformer.BodyStep | app.py:176-191 | one more source paragraph appends exactly what it emits |
| Transformer.TallyStep | app.py:176-191 | one more source paragraph bumps at most one count, that of its level |
| Transformer.TransformParagraph | app.py:177-191 | one iteration appends the paragraph's block and spacer (or nothing for blank text or level 0) and bumps the matching count |
| Transformer.TransformDocx | app.py:157-193 | the new document's body is the layout of the kept entries and the counts are their tally; styles get `H5Subbullet` and the Normal format, sections get the narrow margins |
| Transformer.Levels | app.py:181-188 | the levels of the entries, in order |
| Transformer.TallyCountsLevels | app.py:174-188 | each count is the number of entries of its level |
| Transformer.LayoutShape | app.py:176-191 | the body alternates: entry `i`'s block at `2i`, a spacer at `2i+1` |
| Transformer.KeptSnoc | app.py:176 | one more paragraph at the end adds its own entry, if any, at the end |
| Transformer.KeptAppend | app.py:176-191 | selection preserves source order: the entries of a concatenation are those of its parts |
| Transformer.ClassifyDropsIff | app.py:177-191 | a paragraph renders nothing exactly when its text is all whitespace or no heading rule fires on its style |
| Transformer.ClassifyOf | app.py:177-188 | a non-blank paragraph of non-zero level gives the entry of that level and its stripped text |
| Transformer.StandardParagraphClassified | app.py:177-188 | a trimmed paragraph styled `Heading D` gives an entry of level `D - 1` |
| Transformer.BlankParagraphDropped | app.py:177-179 | a whitespace-only paragraph renders nothing, whatever its style |
| Transformer.KeptEmptyIff | app.py:176-191 | no entry is kept exactly when every paragraph is dropped |
| Transformer.DroppedSnoc | app.py:176-191 | all of `s + [p]` is dropped exactly when all of `s` is and `p` is |
| Transformer.NothingFoundIff | app.py:213-215 | the total is zero (the warning case) exactly when every paragraph is dropped, which is exactly when the body is empty |
| Scenarios.SentenceCaseExamples | app.py:18-33 | `""` stays empty and `a b: c` becomes `A b: C` |
| Scenarios.AfterLetterLower | app.py:20-31 | a letter right after another letter is lower-cased |
| Scenarios.SentenceCaseTwoClauses | app.py:18-33 | `hello. world` becomes `Hello. World` |
| Scenarios.TerminalPeriodPlain | app.py:35-48 | `""` stays empty and `done` becomes `done.` |
| Scenarios.TerminalPeriodAlreadyTerminated | app.py:36-46 | `?  ` is only right-stripped, and `Already done."` is unchanged |
| Scenarios.TerminalPeriodBeforeQuote | app.py:44-47 | the period goes before a closing quote, also when the quote is the whole text |
| Scenarios.NormalNormalized | app.py:140 | `Normal` normalises to `normal` |
| Scenarios.ClassifierHeadingExamples | app.py:139-152 | `Heading 2` is level 1 and `heading 5` is level 4 |
| Scenarios.ClassifierNormalExample | app.py:139-152 | `Normal` is level 0 |
| Scenarios.SampleH4SentenceCase | app.py:18-33 | `point one` becomes `Point one` |
| Scenarios.SampleH5SentenceCase | app.py:18-33 | `sub point` becomes `Sub point` |
| Scenarios.SamplePeriods | app.py:35-48 | `Point one` and `Sub point` gain a final period |
| Scenarios.SampleCaps | app.py:91 | `INTRO` upper-cases to itself |
| OutlineEntries.KeptOfFour | app.py:176-191 | the entries of four paragraphs are theirs, in order |
| OutlineEntries.OutlineClassified | app.py:177-188 | the H2, blank H3, H4 and H5 paragraphs classify as an entry of level 1, nothing, level 3 and level 4 |
| OutlineEntries.OutlineKept | app.py:176-191 | an H2, a blank H3, an H4 and an H5 keep three entries, in order, without the H3 |
| OutlineEntries.OutlineCounts | app.py:174-188 | entries of levels 1, 3 and 4 count H2 1, H3 0, H4 1, H5 1 |
| WorkedExample.OutlineLayout | app.py:181-188 | the three entries lay out as heading, bullet and H5 block, each followed by a spacer |
| WorkedExample.OutlineBody | app.py:86-137 | the outline's blocks read as the upper-cased H2 and the sentence-cased, terminated H4 and H5; the H5 carries the nested indent |
| WorkedExample.WorkedExample | app.py:157-193 | `INTRO`, a blank H3, `point one` and `sub point` give counts 1, 0, 1, 1 and blocks reading `INTRO`, `Point one.` and `Sub point.` |

## Left out

- The Streamlit user interface is not modelled, because it is presentation only: page set-up, uploader, checkbox, messages and download button. The zero-total warning is modelled only as the condition that triggers it (`Transformer.NothingFoundIff`).
- Reading and writing `.docx` files is not modelled. The source document is a sequence of (text, style name) paragraphs, and the output is the `Docx.Document` class.
- A missing style name (`getattr(para.style, "name", "")`) and `None` texts are not modelled: the model takes strings, and `(x or "")` of a string is that string.
- The library's default template is a parameter (`Transformer.Template`): its styles and sections come from the docx library. `Transformer.TransformDocx` requires that the template has a `Normal` style, which the default template always has.
- Docx.Document.AddStyledParagraph: the paragraph records its style by name only. The docx library looks `List Bullet`, `List Bullet 2` and `H5Subbullet` up in the style table and raises an error when the style is missing. The model does not check that these styles exist, so with a template that lacks `List Bullet 2` it renders a paragraph naming a style that does not exist. The default template has both list styles, and `H5Subbullet` is always registered first.
- The `base_style` of the new `H5Subbullet` style is not modelled, including the fallback from `List Bullet 2` to `List Bullet` on a `KeyError`. The model keeps only the style's name, font and spacing.
- Chars.Upper, Chars.Lower and Chars.IsAlpha: letters and case mapping are ASCII only. Python's Unicode `isalpha`, `lower` and `upper` are not modelled, and neither are mappings that change a text's length (such as `ß` to `SS`).
- TextNormalizer.IsClosingQuote: the closing quotes are `"`, `'`, U+201D and U+2019. The source file carries the two curly quotes as mis-decoded UTF-8 byte sequences (`‚Äù`, `‚Äô`), which as written are three-character strings that no single character can equal. The model follows the evident intent: the right double and right single quotation marks.
- Lengths and sizes (`Pt(10)`, `Inches(0.5)`, line spacing `1.0`) are constants in the model: points as natural numbers, margins in twips (720), and the spacing as the `SingleNoGap` value. No floating point is involved.
- Chars.Contains and Chars.EndsWith: their contracts state only the consequences of `in` and `endswith` that the model uses; their definitions are the full tests.
- OutputName.SplitExtRoot models POSIX `os.path.splitext`. On Windows, `\` also separates path components; that case is not modelled.
- The counts dictionary is the `Transformer.Counts` datatype, whose four fields are named after its keys.
