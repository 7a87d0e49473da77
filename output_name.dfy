/**
 * The name of the file offered for download: the upload's name without its
 * extension and trailing whitespace, with a trailing `INPUT` (in any case)
 * replaced by `OUTPUT`, or `_OUTPUT` appended otherwise, and `.docx` added.
 */
module OutputName {
  import opened Chars

  /** The index of the last occurrence of `c` in `s`, or -1 (Python's `str.rfind`). */
  function RFind(s: string, c: char): (i: int)
    ensures -1 <= i < |s|
    ensures i >= 0 ==> s[i] == c
    ensures forall j :: i < j < |s| ==> s[j] != c
  {
    if s == [] then -1
    else if s[|s| - 1] == c then |s| - 1
    else RFind(s[..|s| - 1], c)
  }

  /** Some character of `s[lo..hi]` is not a dot. */
  predicate HasNonDot(s: string, lo: nat, hi: nat)
    requires lo <= hi <= |s|
  {
    exists k :: lo <= k < hi && s[k] != '.'
  }

  /**
   * The root that POSIX `os.path.splitext` returns: the name cut at its last
   * dot, provided that dot lies in the last path component and that component
   * has a character other than a dot before it; otherwise the whole name.
   */
  function SplitExtRoot(p: string): (root: string)
    ensures |root| <= |p| && root == p[..|root|]
    ensures root != p ==>
              p[|root|] == '.' &&
              (forall j :: |root| < j < |p| ==> p[j] != '.' && p[j] != '/') &&
              (exists k :: 0 <= k < |root| && root[k] != '.' && forall j :: k <= j < |root| ==> root[j] != '/')
  {
    var sepIndex := RFind(p, '/');
    var dotIndex := RFind(p, '.');
    if dotIndex > sepIndex && HasNonDot(p, sepIndex + 1, dotIndex) then
      var k :| sepIndex + 1 <= k < dotIndex && p[k] != '.';
      assert p[..dotIndex][k] == p[k];
      p[..dotIndex]
    else p
  }

  /**
   * A dot with a non-dot character before it in the last path component
   * cuts the name: the root is a proper prefix, ending before that dot or
   * a later one.
   */
  lemma {:induction false} SplitExtCuts(p: string, k: nat, d: nat)
    requires k < d < |p| && p[d] == '.' && p[k] != '.'
    requires forall j :: k <= j < |p| ==> p[j] != '/'
    ensures |SplitExtRoot(p)| < |p| && d <= |SplitExtRoot(p)|
  {
    var sepIndex, dotIndex := RFind(p, '/'), RFind(p, '.');
    assert sepIndex < k;
    assert d <= dotIndex;
    assert HasNonDot(p, sepIndex + 1, dotIndex);
  }

  const INPUT_MARK: string := "INPUT"
  const OUTPUT_SUFFIX: string := "OUTPUT.docx"

  /** The base name the rule looks at: the root with trailing whitespace removed. */
  function BaseName(name: string): (base: string)
    ensures base == RStrip(SplitExtRoot(name))
    ensures |base| <= |name| && base == name[..|base|]
  {
    RStrip(SplitExtRoot(name))
  }

  /** The download name derived from the upload's name. */
  function OutputName(name: string): (r: string)
    ensures EndsWith(r, OUTPUT_SUFFIX)
    ensures var base := BaseName(name);
            if EndsWith(UpperStr(base), INPUT_MARK) then
              |base| >= |INPUT_MARK| && r == base[..|base| - |INPUT_MARK|] + OUTPUT_SUFFIX
            else
              r == base + "_" + OUTPUT_SUFFIX
  {
    var base := BaseName(name);
    if EndsWith(UpperStr(base), INPUT_MARK) then
      var r := base[..|base| - 5] + OUTPUT_SUFFIX;
      assert r[|r| - |OUTPUT_SUFFIX|..] == OUTPUT_SUFFIX;
      r
    else
      var r := base + "_" + OUTPUT_SUFFIX;
      assert r[|r| - |OUTPUT_SUFFIX|..] == OUTPUT_SUFFIX;
      r
  }

  /** The root of a name that is `stem` followed by `_OUTPUT.docx` is `stem_OUTPUT`. */
  lemma {:induction false} RootOfAppended(stem: string)
    ensures SplitExtRoot(stem + "_" + OUTPUT_SUFFIX) == stem + "_OUTPUT"
  {
    var p := stem + "_" + OUTPUT_SUFFIX;
    var dot := |stem| + 7;
    assert p[dot] == '.';
    assert forall j :: dot < j < |p| ==> p[j] != '.' && p[j] != '/';
    assert RFind(p, '.') == dot;
    assert RFind(p, '/') < |stem| + 1;
    assert p[dot - 1] == 'T';
    assert HasNonDot(p, RFind(p, '/') + 1, dot);
    assert p[..dot] == stem + "_OUTPUT";
  }

  /** When the base ends in `INPUT`, the download has an `O` where the upload has an `I`. */
  lemma {:induction false} MarkedOutputDiffers(name: string)
    requires EndsWith(UpperStr(BaseName(name)), INPUT_MARK)
    ensures OutputName(name) != name
  {
    var base := BaseName(name);
    var r := OutputName(name);
    var i := |base| - 5;
    assert UpperStr(base)[i] == 'I';
    assert name[i] == base[i];
    assert r[i] == 'O';
  }

  /** Otherwise the download would have to be its own base followed by `_OUTPUT`, which is longer. */
  lemma {:induction false} AppendedOutputDiffers(name: string)
    requires !EndsWith(UpperStr(BaseName(name)), INPUT_MARK)
    ensures OutputName(name) != name
  {
    var base := BaseName(name);
    if OutputName(name) == name {
      RootOfAppended(base);
    }
  }

  /** The download never carries the upload's own name. */
  lemma {:induction false} OutputNameDiffers(name: string)
    ensures OutputName(name) != name
  {
    if EndsWith(UpperStr(BaseName(name)), INPUT_MARK) {
      MarkedOutputDiffers(name);
    } else {
      AppendedOutputDiffers(name);
    }
  }

  /** The root of `root.docx`, for a root whose last character is neither a dot nor a slash, is `root`. */
  lemma {:induction false} RootOfDocx(root: string)
    requires root != [] && root[|root| - 1] != '.' && root[|root| - 1] != '/'
    ensures SplitExtRoot(root + ".docx") == root
  {
    var p := root + ".docx";
    var n := |root|;
    assert p[n] == '.' && p[n + 1] == 'd' && p[n + 2] == 'o' && p[n + 3] == 'c' && p[n + 4] == 'x';
    assert forall j :: n - 1 <= j < |p| ==> p[j] != '/';
    SplitExtCuts(p, n - 1, n);
    var r := SplitExtRoot(p);
    assert |r| == n;
    assert p[..n] == root;
  }

  /** A plain upload `stem.docx` downloads as `stem_OUTPUT.docx`. */
  lemma {:induction false} PlainUploadName(stem: string)
    requires stem != [] && !IsSpace(stem[|stem| - 1]) && stem[|stem| - 1] != '.' && stem[|stem| - 1] != '/'
    requires !EndsWith(UpperStr(stem), INPUT_MARK)
    ensures OutputName(stem + ".docx") == stem + "_" + OUTPUT_SUFFIX
  {
    RootOfDocx(stem);
    assert RStrip(stem) == stem;
  }

  /**
   * An upload `stem` + `input` + `.docx`, with `input` in any mix of cases,
   * downloads as `stem` + `OUTPUT.docx`.
   */
  lemma {:induction false} MarkedUploadName(stem: string, mark: string)
    requires UpperStr(mark) == INPUT_MARK
    ensures OutputName(stem + mark + ".docx") == stem + OUTPUT_SUFFIX
  {
    var root := stem + mark;
    var n := |root|;
    assert Upper(mark[4]) == 'T' by { assert UpperStr(mark)[4] == 'T'; }
    assert root[n - 1] == mark[4];
    RootOfDocx(root);
    assert RStrip(root) == root;
    var u := UpperStr(root);
    assert u[n - 5..] == UpperStr(mark) by {
      forall i | 0 <= i < 5 ensures u[n - 5 + i] == UpperStr(mark)[i] {
        assert root[n - 5 + i] == mark[i];
      }
    }
    assert root[..n - 5] == stem;
  }
}
