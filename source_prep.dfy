/**
 * The two source transforms applied to a compile request before it is written
 * to `main.tex`: `wrapIfPartial` and `guardGlyphToUnicode`
 * (src/controllers/compile.controller.js). Their regular expressions are
 * encoded directly over strings, with JavaScript's semantics: `\s` includes
 * the newline, the `i` flag folds ASCII letters only, and a global replace
 * scans left to right, resuming after each match.
 */
module SourcePrep {
  import opened Wrappers
  import opened Text

  const DocClass: string := "\\documentclass"
  const GuardToken: string := "\\ifdefined\\pdfgentounicode"
  const ClassRest: string := "{" + "article}\n\\usepackage[utf8]{inputenc}\n\\begin{document}\n"
  const Preamble: string := DocClass + ClassRest
  const Closing: string := "\n\\end{document}"
  const BlockHead: string := "\n% guarded glyphtounicode for pdfTeX only\n"
  const BlockTail: string := "\n\\input glyphtounicode.tex\n\\pdfgentounicode=1\n\\fi\n"
  const GuardBlock: string := BlockHead + GuardToken + BlockTail
  const InputCmd: string := "\\input"
  const GlyphName: string := "glyphtounicode"
  const PdfGenCmd: string := "\\pdfgentounicode"

  // ---------------------------------------------------------------- wrapIfPartial

  /** `/\\documentclass\b/` matches at `i`. */
  predicate DocClassWordAt(s: string, i: int) {
    OccursAt(s, DocClass, i) && (i + |DocClass| == |s| || !IsWordChar(s[i + |DocClass|]))
  }

  /** `/\\documentclass\b/.test(s)`. */
  predicate DeclaresClass(s: string) {
    exists i :: 0 <= i <= |s| && DocClassWordAt(s, i)
  }

  lemma PreambleDeclaresClass(src: string)
    ensures DeclaresClass(Preamble + src + Closing)
  {
    var s := Preamble + src + Closing;
    assert s == DocClass + (ClassRest + src + Closing);
    assert s[..|DocClass|] == DocClass;
    assert s[|DocClass|] == (ClassRest + src + Closing)[0] == ClassRest[0];
    assert ClassRest[0] == '{';
    assert DocClassWordAt(s, 0);
  }

  /** `wrapIfPartial`: a source without a document class goes inside a minimal article. */
  function WrapIfPartial(src: string): (r: string)
    ensures DeclaresClass(src) ==> r == src
    ensures !DeclaresClass(src) ==> r == Preamble + src + Closing
    ensures DeclaresClass(r)
  {
    if DeclaresClass(src) then src
    else
      PreambleDeclaresClass(src);
      Preamble + src + Closing
  }

  /** Wrapping twice is wrapping once. */
  lemma WrapIdempotent(src: string)
    ensures WrapIfPartial(WrapIfPartial(src)) == WrapIfPartial(src)
  {
  }

  // ------------------------------------------------------- hazard line recognition

  /** `\s*` from `i`: the first position at or after `i` that is not space. */
  function SkipSpaces(s: string, i: nat): (j: nat)
    requires i <= |s|
    ensures i <= j <= |s|
    ensures forall k :: i <= k < j ==> IsJsSpace(s[k])
    ensures j == |s| || !IsJsSpace(s[j])
    decreases |s| - i
  {
    if i < |s| && IsJsSpace(s[i]) then SkipSpaces(s, i + 1) else i
  }

  /** `\\input\s*\{?\s*glyphtounicode` (ASCII case folded) at `b`: the position after `glyphtounicode`. */
  function GlyphHeadEnd(s: string, b: nat): (r: Option<nat>)
    requires b <= |s|
    ensures r.Some? ==> b < r.value <= |s|
  {
    if !OccursAtFolded(s, b, InputCmd) then None
    else
      var c := SkipSpaces(s, b + 6);
      var d := if c < |s| && s[c] == '{' then c + 1 else c;
      var e := SkipSpaces(s, d);
      if OccursAtFolded(s, e, GlyphName) then Some(e + 14) else None
  }

  /** `\\pdfgentounicode\s*=\s*1` at `b`: the position after the `1`. */
  function PdfGenHeadEnd(s: string, b: nat): (r: Option<nat>)
    requires b <= |s|
    ensures r.Some? ==> b < r.value <= |s|
  {
    if !OccursAt(s, PdfGenCmd, b) then None
    else
      var c := SkipSpaces(s, b + 16);
      if c < |s| && s[c] == '=' then
        var d := SkipSpaces(s, c + 1);
        if d < |s| && s[d] == '1' then Some(d + 1) else None
      else None
  }

  /** Position `a` is where `(^|\n)` leaves the matcher: the start of the string or just after a newline. */
  predicate LineStart(s: string, a: int) {
    a == 0 || (0 < a <= |s| && s[a - 1] == '\n')
  }

  predicate GlyphInputAt(s: string, a: int) {
    0 <= a <= |s| && LineStart(s, a) && GlyphHeadEnd(s, SkipSpaces(s, a)).Some?
  }

  /** `/(^|\n)\s*\\input\s*\{?\s*glyphtounicode(\.tex)?\}?/i.test(s)`: trailing text after the name is allowed. */
  predicate HasGlyphInput(s: string) {
    exists a :: 0 <= a <= |s| && GlyphInputAt(s, a)
  }

  predicate PdfGenAt(s: string, a: int) {
    0 <= a <= |s| && LineStart(s, a)
    && var g := PdfGenHeadEnd(s, SkipSpaces(s, a));
       g.Some? && (g.value == |s| || !IsWordChar(s[g.value]))
  }

  /** `/(^|\n)\s*\\pdfgentounicode\s*=\s*1\b/.test(s)`. */
  predicate HasPdfGen(s: string) {
    exists a :: 0 <= a <= |s| && PdfGenAt(s, a)
  }

  /** `/\\ifdefined\\pdfgentounicode/.test(s)`. */
  predicate HasGuard(s: string) {
    Contains(s, GuardToken)
  }

  // ----------------------------------------------------------- stripping the lines

  datatype Hazard = GlyphInput | PdfGen

  /**
   * The end of a hazard's text at `b`, before the trailing `\s*(?=\n|$)`:
   * for the input line this takes the optional `.tex` (any case) and `}`.
   */
  function HeadEnd(h: Hazard, s: string, b: nat): (r: Option<nat>)
    requires b <= |s|
    ensures r.Some? ==> b < r.value <= |s|
  {
    match h
    case PdfGen => PdfGenHeadEnd(s, b)
    case GlyphInput =>
      match GlyphHeadEnd(s, b)
      case None => None
      case Some(f) =>
        var f2 := if OccursAtFolded(s, f, ".tex") then f + 4 else f;
        Some(if f2 < |s| && s[f2] == '}' then f2 + 1 else f2)
  }

  /** The last newline in `s[g..h]`: where a backtracking `\s*` stops so that `(?=\n)` holds. */
  function LastNewline(s: string, g: nat, h: nat): (r: Option<nat>)
    requires g <= h <= |s|
    ensures r.Some? ==> g <= r.value < h && s[r.value] == '\n'
    ensures r.Some? ==> forall k :: r.value < k < h ==> s[k] != '\n'
    ensures r.None? ==> forall k :: g <= k < h ==> s[k] != '\n'
    decreases h - g
  {
    if h == g then None
    else if s[h - 1] == '\n' then Some(h - 1)
    else LastNewline(s, g, h - 1)
  }

  /**
   * `\s*(?=\n|$)` at `g`: the greedy space run is kept whole when it reaches
   * the end, else cut back to its last newline; with no newline in it the
   * match fails (the hazard has trailing text on its line).
   */
  function LineEnd(s: string, g: nat): (r: Option<nat>)
    requires g <= |s|
    ensures r.Some? ==> g <= r.value <= |s| && (r.value == |s| || s[r.value] == '\n')
    ensures r.Some? ==> forall k :: g <= k < r.value ==> IsJsSpace(s[k])
    ensures r.None? ==> SkipSpaces(s, g) < |s| && forall k :: g <= k < SkipSpaces(s, g) ==> s[k] != '\n'
  {
    var h := SkipSpaces(s, g);
    if h == |s| then Some(h) else LastNewline(s, g, h)
  }

  /**
   * Where a match of the strip pattern for `h` that starts at `q` ends. At 0
   * the `^` alternative is used; elsewhere the match starts on a newline that
   * the replacement `$1` puts back.
   */
  function MatchEnd(h: Hazard, s: string, q: nat): (r: Option<nat>)
    requires q < |s|
    ensures r.Some? ==> (if q == 0 then 0 else q + 1) < r.value <= |s|
  {
    if q == 0 || s[q] == '\n' then
      var a := if q == 0 then 0 else q + 1;
      match HeadEnd(h, s, SkipSpaces(s, a))
      case None => None
      case Some(g) => LineEnd(s, g)
    else None
  }

  /** The global replace from position `i` on. */
  function StripFrom(h: Hazard, s: string, i: nat): string
    requires i <= |s|
    decreases |s| - i
  {
    if i == |s| then []
    else match MatchEnd(h, s, i)
      case Some(e) => (if i == 0 then "" else "\n") + StripFrom(h, s, e)
      case None => [s[i]] + StripFrom(h, s, i + 1)
  }

  /** `s.replace(stripPattern(h), '$1')` with the `g` flag. */
  function Strip(h: Hazard, s: string): string {
    StripFrom(h, s, 0)
  }

  /** Where no match starts, stripping copies the text. */
  lemma {:induction false} StripWithoutMatch(h: Hazard, s: string, i: nat)
    requires i <= |s|
    requires forall q :: i <= q < |s| ==> MatchEnd(h, s, q).None?
    ensures StripFrom(h, s, i) == s[i..]
    decreases |s| - i
  {
    if i < |s| {
      StripWithoutMatch(h, s, i + 1);
      assert s[i..] == [s[i]] + s[i + 1..];
    }
  }

  /** Stripping never lengthens the text. */
  lemma {:induction false} StripShortens(h: Hazard, s: string, i: nat)
    requires i <= |s|
    ensures |StripFrom(h, s, i)| <= |s| - i
    decreases |s| - i
  {
    if i < |s| {
      match MatchEnd(h, s, i)
      case Some(e) => StripShortens(h, s, e);
      case None => StripShortens(h, s, i + 1);
    }
  }

  /** A hazard line with other text after it on the same line is not stripped, although it is detected. */
  lemma TrailingTextIsKept(h: Hazard, s: string, q: nat, g: nat)
    requires q < |s| && (q == 0 || s[q] == '\n')
    requires HeadEnd(h, s, SkipSpaces(s, if q == 0 then 0 else q + 1)) == Some(g)
    requires SkipSpaces(s, g) < |s| && forall k :: g <= k < SkipSpaces(s, g) ==> s[k] != '\n'
    ensures MatchEnd(h, s, q).None?
  {
    var e := LastNewline(s, g, SkipSpaces(s, g));
    assert e.None?;
  }

  /** Where no match starts, the character is copied. */
  lemma StripStep(h: Hazard, s: string, i: nat)
    requires i < |s| && MatchEnd(h, s, i).None?
    ensures StripFrom(h, s, i) == [s[i]] + StripFrom(h, s, i + 1)
  {
  }

  lemma SliceCons(s: string, i: nat, q: nat, t: string)
    requires i < q <= |s|
    ensures [s[i]] + (s[i + 1..q] + t) == s[i..q] + t
  {
    assert s[i..q] == [s[i]] + s[i + 1..q];
  }

  /** No match starts in `s[i..q]`, stated one position at a time. */
  predicate NoMatchBetween(h: Hazard, s: string, i: nat, q: nat)
    requires i <= q <= |s|
    decreases q - i
  {
    i == q || (MatchEnd(h, s, i).None? && NoMatchBetween(h, s, i + 1, q))
  }

  lemma {:induction false} NoMatchBetweenOfAll(h: Hazard, s: string, i: nat, q: nat)
    requires i <= q <= |s|
    requires forall p :: i <= p < q ==> MatchEnd(h, s, p).None?
    ensures NoMatchBetween(h, s, i, q)
    decreases q - i
  {
    if i < q {
      NoMatchBetweenOfAll(h, s, i + 1, q);
    }
  }

  lemma {:induction false} NoMatchBetweenJoin(h: Hazard, s: string, i: nat, m: nat, q: nat)
    requires i <= m <= q <= |s|
    requires NoMatchBetween(h, s, i, m) && NoMatchBetween(h, s, m, q)
    ensures NoMatchBetween(h, s, i, q)
    decreases m - i
  {
    if i < m {
      NoMatchBetweenJoin(h, s, i + 1, m, q);
    }
  }

  /** Stripping copies the text up to the first match. */
  lemma {:induction false} StripCopiesPrefix(h: Hazard, s: string, i: nat, q: nat)
    requires i <= q <= |s|
    requires NoMatchBetween(h, s, i, q)
    ensures StripFrom(h, s, i) == s[i..q] + StripFrom(h, s, q)
    decreases q - i
  {
    if i < q {
      StripStep(h, s, i);
      StripCopiesPrefix(h, s, i + 1, q);
      SliceCons(s, i, q, StripFrom(h, s, q));
    } else {
      assert s[i..q] == [];
    }
  }

  /** Where a match starts, it is replaced by the newline that began it (nothing at the very start). */
  lemma StripMatchStep(h: Hazard, s: string, q: nat, e: nat)
    requires q < |s| && MatchEnd(h, s, q) == Some(e)
    ensures StripFrom(h, s, q) == (if q == 0 then "" else "\n") + StripFrom(h, s, e)
  {
  }

  /**
   * The global replace copies the text up to the next match, puts back only
   * the newline that began the match (nothing at the very start), and resumes
   * at the end of the match.
   */
  lemma NextMatchReplaced(h: Hazard, s: string, i: nat, q: nat, e: nat)
    requires i <= q < |s| && MatchEnd(h, s, q) == Some(e)
    requires NoMatchBetween(h, s, i, q)
    ensures StripFrom(h, s, i) == s[i..q] + (if q == 0 then "" else "\n") + StripFrom(h, s, e)
  {
    StripCopiesPrefix(h, s, i, q);
    StripMatchStep(h, s, q, e);
    var lead: string := if q == 0 then "" else "\n";
    assert s[i..q] + (lead + StripFrom(h, s, e)) == s[i..q] + lead + StripFrom(h, s, e);
  }

  /** How the pieces of a one-match strip fit together. */
  lemma JoinPieces(s: string, q: nat, e: nat, lead: string, a: string, c: string, d: string)
    requires q + |lead| < e <= |s| && d == []
    requires a == s[0..q] + lead + c && c == s[e..|s|] + d
    ensures a == s[..q] + lead + s[e..]
    ensures |a| < |s|
  {
    assert c == s[e..];
    assert s[0..q] == s[..q];
  }

  /**
   * A single standalone hazard line is removed: the text before it is kept,
   * the line is replaced by the newline that started it (nothing at the very
   * start), and the text from the end of its line on is kept.
   */
  lemma StandaloneLineRemoved(h: Hazard, s: string, q: nat, e: nat)
    requires q < |s| && MatchEnd(h, s, q) == Some(e)
    requires NoMatchBetween(h, s, 0, q) && NoMatchBetween(h, s, e, |s|)
    ensures Strip(h, s) == s[..q] + (if q == 0 then "" else "\n") + s[e..]
    ensures |Strip(h, s)| < |s|
  {
    NextMatchReplaced(h, s, 0, q, e);
    StripCopiesPrefix(h, s, e, |s|);
    JoinPieces(s, q, e, if q == 0 then "" else "\n", Strip(h, s), StripFrom(h, s, e), StripFrom(h, s, |s|));
  }

  // ------------------------------------------------------ one pass is not enough

  /** `lit` sits at `i` in `s`; a literal without capitals then also matches under the `i` flag. */
  lemma FoldedAt(s: string, i: nat, lit: string)
    requires i + |lit| <= |s| && forall k :: 0 <= k < |lit| ==> s[i + k] == lit[k]
    requires forall k :: 0 <= k < |lit| ==> LowerChar(lit[k]) == lit[k]
    ensures OccursAtFolded(s, i, lit)
  {
  }

  lemma ExactAt(s: string, i: nat, lit: string)
    requires i + |lit| <= |s| && forall k :: 0 <= k < |lit| ==> s[i + k] == lit[k]
    ensures OccursAt(s, lit, i)
  {
    assert s[i..i + |lit|] == lit;
  }

  lemma InputCmdIsLower()
    ensures forall k :: 0 <= k < |InputCmd| ==> LowerChar(InputCmd[k]) == InputCmd[k]
  {
  }

  lemma GlyphNameIsLower()
    ensures forall k :: 0 <= k < |GlyphName| ==> LowerChar(GlyphName[k]) == GlyphName[k]
  {
  }

  /** Away from line starts no match begins. */
  lemma {:induction false} NoMatchOffLineStarts(h: Hazard, s: string, i: nat, q: nat)
    requires 0 < i <= q <= |s|
    requires forall p :: i <= p < q ==> s[p] != '\n'
    ensures NoMatchBetween(h, s, i, q)
    decreases q - i
  {
    if i < q {
      NoMatchOffLineStarts(h, s, i + 1, q);
    }
  }

  /** A line that starts with neither a space nor a backslash holds no hazard. */
  lemma NoBackslashNoMatch(h: Hazard, s: string, q: nat)
    requires q + 1 < |s| && s[q] == '\n'
    requires !IsJsSpace(s[q + 1]) && s[q + 1] != '\\'
    ensures MatchEnd(h, s, q).None?
  {
    assert SkipSpaces(s, q + 1) == q + 1;
    assert !OccursAtFolded(s, q + 1, InputCmd) by {
      assert LowerChar(s[q + 1]) != InputCmd[0];
    }
    assert !OccursAt(s, PdfGenCmd, q + 1) by {
      assert s[q + 1] != PdfGenCmd[0];
    }
  }

  /** Text that opens with an `\input` line followed by a line that starts with a backslash is no glyphtounicode input. */
  lemma InputThenBackslash(s: string)
    requires 8 < |s| && s[0] == '\\' && s[6] == '\n' && s[7] == '\\'
    ensures MatchEnd(GlyphInput, s, 0).None?
  {
    assert SkipSpaces(s, 0) == 0;
    assert GlyphHeadEnd(s, 0).None? by {
      if OccursAtFolded(s, 0, InputCmd) {
        assert SkipSpaces(s, 6) == 7;
        assert LowerChar(s[7]) != GlyphName[0];
        assert !OccursAtFolded(s, 7, GlyphName);
      }
    }
  }

  /** A line `\input glyphtounicode` after the newline at `q` is a match up to the newline that closes it. */
  lemma InputLineMatch(s: string, q: nat)
    requires q + 23 < |s| && s[q] == '\n'
    requires OccursAtFolded(s, q + 1, InputCmd) && s[q + 7] == ' ' && OccursAtFolded(s, q + 8, GlyphName)
    requires s[q + 22] == '\n' && !IsJsSpace(s[q + 23])
    ensures MatchEnd(GlyphInput, s, q) == Some(q + 22)
  {
    assert LowerChar(s[q + 1]) == InputCmd[0];
    assert SkipSpaces(s, q + 1) == q + 1;
    assert LowerChar(s[q + 8]) == GlyphName[0];
    assert SkipSpaces(s, q + 7) == q + 8;
    assert SkipSpaces(s, q + 8) == q + 8;
    assert GlyphHeadEnd(s, q + 1) == Some(q + 22);
    assert !OccursAtFolded(s, q + 22, ".tex") by {
      assert LowerChar(s[q + 22]) != ".tex"[0];
    }
    assert HeadEnd(GlyphInput, s, q + 1) == Some(q + 22);
    assert SkipSpaces(s, q + 22) == q + 23;
    assert LineEnd(s, q + 22) == Some(q + 22);
  }

  /** A line `\pdfgentounicode=1` after the newline at `q` is a match up to the newline that closes it. */
  lemma PdfGenLineMatch(s: string, q: nat)
    requires q + 20 < |s| && s[q] == '\n'
    requires OccursAt(s, PdfGenCmd, q + 1) && s[q + 17] == '=' && s[q + 18] == '1'
    requires s[q + 19] == '\n' && !IsJsSpace(s[q + 20])
    ensures MatchEnd(PdfGen, s, q) == Some(q + 19)
  {
    assert s[q + 1] == PdfGenCmd[0];
    assert SkipSpaces(s, q + 1) == q + 1;
    assert SkipSpaces(s, q + 17) == q + 17;
    assert SkipSpaces(s, q + 18) == q + 18;
    assert PdfGenHeadEnd(s, q + 1) == Some(q + 19);
    assert SkipSpaces(s, q + 19) == q + 20;
    assert LineEnd(s, q + 19) == Some(q + 19);
  }

  /** What one strip pass makes of the two texts below. */
  const JoinedInput: string := InputCmd + "\n\n" + GlyphName

  /** After one pass, the joined text matches the pattern at its start, over the blank line. */
  lemma JoinedInputMatches()
    ensures GlyphHeadEnd(JoinedInput, 0) == Some(|JoinedInput|)
    ensures MatchEnd(GlyphInput, JoinedInput, 0) == Some(|JoinedInput|)
  {
    var t := JoinedInput;
    InputCmdIsLower();
    GlyphNameIsLower();
    assert |t| == 22;
    assert t[6] == '\n' && t[7] == '\n' && t[8] == 'g';
    FoldedAt(t, 0, InputCmd);
    FoldedAt(t, 8, GlyphName);
    assert SkipSpaces(t, 0) == 0;
    assert SkipSpaces(t, 6) == 8;
    assert SkipSpaces(t, 8) == 8;
    assert GlyphHeadEnd(t, 0) == Some(22);
    assert HeadEnd(GlyphInput, t, 0) == Some(22);
  }

  lemma InputCmdHasNoNewline()
    ensures forall k :: 0 <= k < |InputCmd| ==> InputCmd[k] != '\n'
  {
  }

  lemma GlyphNameHasNoNewline()
    ensures forall k :: 0 <= k < |GlyphName| ==> GlyphName[k] != '\n'
  {
  }

  /** No newline in an `\input` at the head of `s`. */
  lemma NewlineFreeHead(s: string, a: nat)
    requires a <= |s| && s[..a] == InputCmd
    ensures forall p :: 0 <= p < a ==> s[p] != '\n'
  {
    InputCmdHasNoNewline();
    forall p | 0 <= p < a
      ensures s[p] != '\n'
    {
      assert s[p] == s[..a][p];
    }
  }

  /** No newline after the one that starts a `\nglyphtounicode` tail of `s`. */
  lemma NewlineFreeTail(s: string, b: nat)
    requires b <= |s| && s[b..] == "\n" + GlyphName
    ensures forall p :: b < p < |s| ==> s[p] != '\n'
  {
    GlyphNameHasNoNewline();
    forall p | b < p < |s|
      ensures s[p] != '\n'
    {
      assert s[p] == s[b..][p - b];
      assert ("\n" + GlyphName)[p - b] == GlyphName[p - b - 1];
    }
  }

  lemma JoinAroundNewline(s: string, a: nat, b: nat)
    requires a <= b <= |s| && s[..a] == InputCmd && s[b..] == "\n" + GlyphName
    ensures s[..a] + "\n" + s[b..] == JoinedInput
  {
  }

  /**
   * `\input`, a newline, a standalone `\input glyphtounicode` line, and
   * `glyphtounicode`, told by the characters the matcher looks at.
   */
  predicate SplitLayout(s: string) {
    |s| == 43 && s[..6] == InputCmd && s[6] == '\n' && s[7] == '\\'
    && OccursAtFolded(s, 7, InputCmd) && s[13] == ' ' && OccursAtFolded(s, 14, GlyphName)
    && s[28..] == "\n" + GlyphName
  }

  /**
   * One pass is not enough: removing a standalone `\input glyphtounicode`
   * line joins the `\input` above it with the `glyphtounicode` below it
   * (`\s*` spans newlines), and the result matches the pattern again.
   */
  lemma StripCanJoinLines(s: string)
    requires SplitLayout(s)
    ensures Strip(GlyphInput, s) == JoinedInput
    ensures MatchEnd(GlyphInput, Strip(GlyphInput, s), 0).Some?
  {
    SplitLineMatch(s);
    SplitNoMatchBefore(s);
    SplitNoMatchAfter(s);
    StandaloneLineRemoved(GlyphInput, s, 6, 28);
    JoinAroundNewline(s, 6, 28);
    JoinedInputMatches();
  }

  lemma SplitLineMatch(s: string)
    requires SplitLayout(s)
    ensures MatchEnd(GlyphInput, s, 6) == Some(28)
  {
    assert s[28] == '\n' && s[29] == GlyphName[0];
    InputLineMatch(s, 6);
  }

  lemma SplitNoMatchBefore(s: string)
    requires SplitLayout(s)
    ensures NoMatchBetween(GlyphInput, s, 0, 6)
  {
    assert s[0] == InputCmd[0];
    InputThenBackslash(s);
    NewlineFreeHead(s, 6);
    NoMatchOffLineStarts(GlyphInput, s, 1, 6);
  }

  lemma SplitNoMatchAfter(s: string)
    requires SplitLayout(s)
    ensures NoMatchBetween(GlyphInput, s, 28, |s|)
  {
    assert s[28] == '\n' && s[29] == GlyphName[0];
    NoBackslashNoMatch(GlyphInput, s, 28);
    NewlineFreeTail(s, 28);
    NoMatchOffLineStarts(GlyphInput, s, 29, 43);
  }

  const SplitInput: string := InputCmd + "\n" + InputCmd + " " + GlyphName + "\n" + GlyphName

  lemma SplitInputPieces()
    ensures |SplitInput| == 43 && SplitInput[..6] == InputCmd && SplitInput[28..] == "\n" + GlyphName
  {
    var s := SplitInput;
    assert s[..6] == InputCmd;
    var head := InputCmd + "\n" + InputCmd + " " + GlyphName;
    assert s == head + ("\n" + GlyphName);
    assert s[|head|..] == "\n" + GlyphName;
  }

  lemma SplitInputLayout()
    ensures SplitLayout(SplitInput)
  {
    var s := SplitInput;
    SplitInputPieces();
    InputCmdIsLower();
    GlyphNameIsLower();
    assert s[6] == '\n' && s[7] == '\\' && s[13] == ' ';
    FoldedAt(s, 7, InputCmd);
    FoldedAt(s, 14, GlyphName);
  }

  /** So no lemma can promise that a stripped text holds no further match. */
  lemma OnePassCanLeaveMatch()
    ensures Strip(GlyphInput, SplitInput) == JoinedInput
    ensures MatchEnd(GlyphInput, Strip(GlyphInput, SplitInput), 0).Some?
  {
    SplitInputLayout();
    StripCanJoinLines(SplitInput);
  }

  /**
   * `\input`, a newline, a standalone `\pdfgentounicode=1` line, and
   * `glyphtounicode`, told by the characters the matcher looks at.
   */
  predicate TwoPassLayout(s: string) {
    |s| == 40 && s[..6] == InputCmd && s[6] == '\n' && OccursAt(s, PdfGenCmd, 7)
    && s[23] == '=' && s[24] == '1' && s[25..] == "\n" + GlyphName
  }

  lemma TwoPassNoGlyphBefore(s: string)
    requires TwoPassLayout(s)
    ensures NoMatchBetween(GlyphInput, s, 0, 6)
  {
    assert s[0] == InputCmd[0] && s[7] == PdfGenCmd[0];
    InputThenBackslash(s);
    NewlineFreeHead(s, 6);
    NoMatchOffLineStarts(GlyphInput, s, 1, 6);
  }

  lemma TwoPassNoGlyphOnPdfGenLine(s: string)
    requires TwoPassLayout(s)
    ensures NoMatchBetween(GlyphInput, s, 6, 25)
  {
    assert s[7] == PdfGenCmd[0] && s[8] == PdfGenCmd[1];
    assert MatchEnd(GlyphInput, s, 6).None? by {
      assert SkipSpaces(s, 7) == 7;
      assert LowerChar(s[8]) != InputCmd[1];
    }
    NewlineFreePdfGen(s, 7);
    NoMatchOffLineStarts(GlyphInput, s, 7, 25);
  }

  lemma TwoPassNoGlyphAfter(s: string)
    requires TwoPassLayout(s)
    ensures NoMatchBetween(GlyphInput, s, 25, |s|)
  {
    assert s[25] == '\n' && s[26] == GlyphName[0];
    NoBackslashNoMatch(GlyphInput, s, 25);
    NewlineFreeTail(s, 25);
    NoMatchOffLineStarts(GlyphInput, s, 26, 40);
  }

  /** No newline in a `\pdfgentounicode=1` at `a`. */
  lemma NewlineFreePdfGen(s: string, a: nat)
    requires OccursAt(s, PdfGenCmd, a) && a + 18 <= |s| && s[a + 16] == '=' && s[a + 17] == '1'
    ensures forall p :: a <= p < a + 18 ==> s[p] != '\n'
  {
    assert forall k :: 0 <= k < |PdfGenCmd| ==> PdfGenCmd[k] != '\n';
    forall p | a <= p < a + 16
      ensures s[p] != '\n'
    {
      assert s[p] == s[a..a + 16][p - a];
    }
  }

  /** The first pass finds nothing: no line holds `\input glyphtounicode`. */
  lemma TwoPassNoGlyphMatch(s: string)
    requires TwoPassLayout(s)
    ensures Strip(GlyphInput, s) == s
  {
    TwoPassNoGlyphBefore(s);
    TwoPassNoGlyphOnPdfGenLine(s);
    TwoPassNoGlyphAfter(s);
    NoMatchBetweenJoin(GlyphInput, s, 6, 25, |s|);
    NoMatchBetweenJoin(GlyphInput, s, 0, 6, |s|);
    StripCopiesPrefix(GlyphInput, s, 0, |s|);
    assert s[0..|s|] + [] == s;
  }

  lemma TwoPassPdfGenLine(s: string)
    requires TwoPassLayout(s)
    ensures MatchEnd(PdfGen, s, 6) == Some(25)
  {
    assert s[25] == '\n' && s[26] == GlyphName[0];
    PdfGenLineMatch(s, 6);
  }

  lemma TwoPassNoPdfGenBefore(s: string)
    requires TwoPassLayout(s)
    ensures NoMatchBetween(PdfGen, s, 0, 6)
  {
    assert s[1] == InputCmd[1];
    assert MatchEnd(PdfGen, s, 0).None? by {
      assert SkipSpaces(s, 0) == 0;
      assert s[1] != PdfGenCmd[1];
    }
    NewlineFreeHead(s, 6);
    NoMatchOffLineStarts(PdfGen, s, 1, 6);
  }

  lemma TwoPassNoPdfGenAfter(s: string)
    requires TwoPassLayout(s)
    ensures NoMatchBetween(PdfGen, s, 25, |s|)
  {
    assert s[25] == '\n' && s[26] == GlyphName[0];
    NoBackslashNoMatch(PdfGen, s, 25);
    NewlineFreeTail(s, 25);
    NoMatchOffLineStarts(PdfGen, s, 26, 40);
  }

  /**
   * Removing the `\pdfgentounicode=1` line in the second pass joins an
   * `\input` line with a `glyphtounicode` line, so the stripped text still
   * holds a glyphtounicode input that the first pass did not see.
   */
  lemma StripHazardsCanLeaveGlyphInput(s: string)
    requires TwoPassLayout(s)
    ensures StripHazards(s) == JoinedInput
    ensures HasGlyphInput(StripHazards(s))
  {
    TwoPassNoGlyphMatch(s);
    TwoPassPdfGenLine(s);
    TwoPassNoPdfGenBefore(s);
    TwoPassNoPdfGenAfter(s);
    StandaloneLineRemoved(PdfGen, s, 6, 25);
    JoinAroundNewline(s, 6, 25);
    JoinedInputMatches();
    assert GlyphInputAt(JoinedInput, 0);
  }

  const TwoPassInput: string := InputCmd + "\n" + PdfGenCmd + "=1\n" + GlyphName

  lemma TwoPassInputLayout()
    ensures TwoPassLayout(TwoPassInput)
  {
    var s := TwoPassInput;
    ExactAt(s, 7, PdfGenCmd);
    assert s[..6] == InputCmd;
    assert s[25..] == "\n" + GlyphName;
  }

  lemma TwoPassesCanLeaveGlyphInput()
    ensures StripHazards(TwoPassInput) == JoinedInput
    ensures HasGlyphInput(StripHazards(TwoPassInput))
  {
    TwoPassInputLayout();
    StripHazardsCanLeaveGlyphInput(TwoPassInput);
  }

  // ---------------------------------------------------------- placing the guard

  /** The position just after the newline that ends the first `\documentclass` line, when that line ends in one. */
  function ClassLineEnd(m: string): (r: Option<nat>)
    ensures r.Some? ==> 0 < r.value <= |m| && m[r.value - 1] == '\n'
    ensures r.Some? ==> exists k :: (0 <= k && k + |DocClass| < r.value && IndexOf(m, DocClass, 0) == Some(k)
      && forall j :: k + |DocClass| <= j < r.value - 1 ==> m[j] != '\n')
    ensures r.None? && IndexOf(m, DocClass, 0).Some? ==>
      forall j :: IndexOf(m, DocClass, 0).value + |DocClass| <= j < |m| ==> m[j] != '\n'
  {
    match IndexOf(m, DocClass, 0)
    case None => None
    case Some(k) =>
      match IndexOfChar(m, '\n', k + |DocClass|)
      case None => None
      case Some(n) => Some(n + 1)
  }

  /** `\documentclass\b` present: the block follows the first class line (if it ends in a newline); else it goes on top. */
  function PlaceGuardBlock(m: string): (r: string)
    ensures !DeclaresClass(m) ==> r == GuardBlock + m
    ensures DeclaresClass(m) && ClassLineEnd(m).Some? ==>
      var n := ClassLineEnd(m).value; r == m[..n] + GuardBlock + m[n..]
    ensures DeclaresClass(m) && ClassLineEnd(m).None? ==> r == m
  {
    if DeclaresClass(m) then
      match ClassLineEnd(m)
      case Some(n) => m[..n] + GuardBlock + m[n..]
      case None => m
    else GuardBlock + m
  }

  /** The source is left alone when it is already guarded or has neither hazard line. */
  predicate KeptAsIs(src: string) {
    HasGuard(src) || (!HasGlyphInput(src) && !HasPdfGen(src))
  }

  /** Both strip passes, in the order the source applies them. */
  function StripHazards(src: string): string {
    Strip(PdfGen, Strip(GlyphInput, src))
  }

  /** `guardGlyphToUnicode`. */
  function GuardGlyphToUnicode(src: string): (r: string)
    ensures KeptAsIs(src) ==> r == src
    ensures !KeptAsIs(src) ==> r == PlaceGuardBlock(StripHazards(src))
  {
    if KeptAsIs(src) then src else PlaceGuardBlock(StripHazards(src))
  }

  /** Whether the guard block actually goes into the output of a modifying call. */
  predicate ReceivesBlock(src: string) {
    !KeptAsIs(src)
    && var m := StripHazards(src); !DeclaresClass(m) || ClassLineEnd(m).Some?
  }

  lemma BlockHoldsGuardToken()
    ensures Contains(GuardBlock, GuardToken)
  {
    ContainsSelf(GuardToken);
    ContainsInfix(BlockHead, GuardToken, BlockTail, GuardToken);
  }

  /** Text around the block does not hide its guard token. */
  lemma InsertedBlockIsGuarded(a: string, c: string)
    ensures HasGuard(a + GuardBlock + c)
  {
    BlockHoldsGuardToken();
    ContainsInfix(a, GuardBlock, c, GuardToken);
  }

  /** Wherever the block is placed, the result carries the guard token. */
  lemma PlacedBlockIsGuarded(m: string)
    requires !DeclaresClass(m) || ClassLineEnd(m).Some?
    ensures HasGuard(PlaceGuardBlock(m))
  {
    if DeclaresClass(m) {
      var n := ClassLineEnd(m).value;
      InsertedBlockIsGuarded(m[..n], m[n..]);
    } else {
      InsertedBlockIsGuarded([], m);
      assert [] + GuardBlock + m == GuardBlock + m;
    }
  }

  /** An output that received the block carries the guard token, so guarding it again changes nothing. */
  lemma GuardIdempotentOnceGuarded(src: string)
    requires ReceivesBlock(src)
    ensures HasGuard(GuardGlyphToUnicode(src))
    ensures GuardGlyphToUnicode(GuardGlyphToUnicode(src)) == GuardGlyphToUnicode(src)
  {
    var r := GuardGlyphToUnicode(src);
    PlacedBlockIsGuarded(StripHazards(src));
    assert HasGuard(r);
    assert KeptAsIs(r);
  }

  /**
   * When the first `\documentclass` sits on the last line with no newline
   * after it, the hazard lines are stripped and no block is inserted.
   */
  lemma BlockDroppedOnLastClassLine(src: string)
    requires !KeptAsIs(src)
    requires DeclaresClass(StripHazards(src))
    requires forall j :: IndexOf(StripHazards(src), DocClass, 0).value + |DocClass| <= j < |StripHazards(src)| ==>
      StripHazards(src)[j] != '\n'
    ensures GuardGlyphToUnicode(src) == StripHazards(src)
  {
    var m := StripHazards(src);
    var i :| 0 <= i <= |m| && DocClassWordAt(m, i);
    assert IndexOf(m, DocClass, 0).Some?;
    var k := IndexOf(m, DocClass, 0).value;
    assert IndexOfChar(m, '\n', k + |DocClass|).None?;
  }

  /** The text written to `main.tex`: the guard first, then the wrap. It always declares a document class. */
  function PrepareSource(raw: string): (r: string)
    ensures DeclaresClass(r)
    ensures r == WrapIfPartial(GuardGlyphToUnicode(raw))
  {
    WrapIfPartial(GuardGlyphToUnicode(raw))
  }
}
