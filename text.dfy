/**
 * String primitives behind the JavaScript string operations the handlers use:
 * `trim()`, the `\s` class, `split(/\s+/)`, `split(' ')`, `includes`,
 * `indexOf`, ASCII case folding and word characters.
 */
module Text {
  import opened Wrappers

  /** JavaScript's WhiteSpace and LineTerminator characters: what `\s` and `trim()` treat as space. */
  predicate IsJsSpace(c: char) {
    ('\t' <= c <= '\r') || c == ' ' || c == '\U{00A0}' || c == '\U{1680}'
    || ('\U{2000}' <= c <= '\U{200A}') || c == '\U{2028}' || c == '\U{2029}'
    || c == '\U{202F}' || c == '\U{205F}' || c == '\U{3000}' || c == '\U{FEFF}'
  }

  /** A string that `trim()` reduces to the empty string. */
  predicate IsBlank(s: string) {
    forall i :: 0 <= i < |s| ==> IsJsSpace(s[i])
  }

  predicate NoSpace(s: string) {
    forall i :: 0 <= i < |s| ==> !IsJsSpace(s[i])
  }

  /** The regex class `\w`. */
  predicate IsWordChar(c: char) {
    ('a' <= c <= 'z') || ('A' <= c <= 'Z') || ('0' <= c <= '9') || c == '_'
  }

  /** The length of the maximal run of space at the start. */
  function LeadingSpaces(s: string): (k: nat)
    ensures k <= |s|
    ensures forall i :: 0 <= i < k ==> IsJsSpace(s[i])
    ensures k == |s| || !IsJsSpace(s[k])
    ensures s != [] && IsJsSpace(s[0]) ==> k > 0
  {
    if s != [] && IsJsSpace(s[0]) then
      var k := LeadingSpaces(s[1..]);
      assert forall i :: 0 < i <= k ==> s[i] == s[1..][i - 1];
      1 + k
    else 0
  }

  /** The length of the maximal run of space at the end. */
  function TrailingSpaces(s: string): (k: nat)
    ensures k <= |s|
    ensures forall i :: |s| - k <= i < |s| ==> IsJsSpace(s[i])
    ensures k == |s| || !IsJsSpace(s[|s| - k - 1])
  {
    if s != [] && IsJsSpace(s[|s| - 1]) then
      var k := TrailingSpaces(s[..|s| - 1]);
      assert forall i :: 0 <= i < |s| - 1 ==> s[i] == s[..|s| - 1][i];
      1 + k
    else 0
  }

  /** `trimStart()`: drops the maximal run of leading space. */
  function TrimStart(s: string): (r: string)
    ensures |r| <= |s| && r == s[|s| - |r|..]
    ensures IsBlank(s[..|s| - |r|])
    ensures r == [] || !IsJsSpace(r[0])
    ensures r == [] <==> IsBlank(s)
    ensures s != [] && IsJsSpace(s[0]) ==> |r| < |s|
  {
    var k := LeadingSpaces(s);
    assert k == |s| ==> s[..k] == s;
    s[k..]
  }

  /** `trimEnd()`: drops the maximal run of trailing space. */
  function TrimEnd(s: string): (r: string)
    ensures |r| <= |s| && r == s[..|r|]
    ensures IsBlank(s[|r|..])
    ensures r == [] || !IsJsSpace(r[|r| - 1])
    ensures r == [] <==> IsBlank(s)
  {
    var k := TrailingSpaces(s);
    assert k == |s| ==> s[|s| - k..] == s;
    s[..|s| - k]
  }

  /** `trim()`. */
  function Trim(s: string): (r: string)
    ensures r == [] <==> IsBlank(s)
    ensures r == [] || (!IsJsSpace(r[0]) && !IsJsSpace(r[|r| - 1]))
  {
    var t := TrimStart(s);
    var r := TrimEnd(t);
    assert r != [] ==> r[0] == t[0];
    r
  }

  /** The characters of `s` that are not space, in order. */
  function NonSpace(s: string): (r: string)
    ensures NoSpace(r)
  {
    if s == [] then [] else if IsJsSpace(s[0]) then NonSpace(s[1..]) else [s[0]] + NonSpace(s[1..])
  }

  lemma {:induction false} NonSpaceAppend(a: string, b: string)
    ensures NonSpace(a + b) == NonSpace(a) + NonSpace(b)
    decreases |a|
  {
    if a != [] {
      NonSpaceAppend(a[1..], b);
      assert (a + b)[1..] == a[1..] + b;
    } else {
      assert a + b == b;
    }
  }

  lemma {:induction false} NonSpaceOfBlank(s: string)
    requires IsBlank(s)
    ensures NonSpace(s) == []
    decreases |s|
  {
    if s != [] {
      NonSpaceOfBlank(s[1..]);
    }
  }

  /** `trimStart()` removes only space. */
  lemma {:induction false} TrimStartKeepsNonSpace(s: string)
    ensures NonSpace(TrimStart(s)) == NonSpace(s)
  {
    var t := TrimStart(s);
    NonSpaceOfBlankPrefix(s, |s| - |t|);
  }

  /** `trimEnd()` removes only space. */
  lemma {:induction false} TrimEndKeepsNonSpace(s: string)
    ensures NonSpace(TrimEnd(s)) == NonSpace(s)
  {
    var r := TrimEnd(s);
    var suf := s[|r|..];
    assert s == r + suf;
    NonSpaceAppend(r, suf);
    NonSpaceOfBlank(suf);
  }

  /** Trimming removes only space. */
  lemma {:induction false} TrimKeepsNonSpace(s: string)
    ensures NonSpace(Trim(s)) == NonSpace(s)
  {
    TrimStartKeepsNonSpace(s);
    TrimEndKeepsNonSpace(TrimStart(s));
  }

  function Concat(fields: seq<string>): string {
    if fields == [] then [] else fields[0] + Concat(fields[1..])
  }

  /**
   * `s.split(/\s+/)`: the pieces between maximal runs of space, with an empty
   * first (last) piece when `s` starts (ends) with space, and `[""]` for `""`.
   */
  function SplitSpaces(s: string): (r: seq<string>)
    ensures |r| >= 1
  {
    SplitSpacesFrom(s, "")
  }

  /** Splitting the rest `s` of the input while the current piece holds `cur`. */
  function SplitSpacesFrom(s: string, cur: string): (r: seq<string>)
    ensures |r| >= 1
    decreases |s|
  {
    if s == [] then [cur]
    else if IsJsSpace(s[0]) then [cur] + SplitSpacesFrom(TrimStart(s), "")
    else SplitSpacesFrom(s[1..], cur + [s[0]])
  }

  /** No piece of a whitespace split contains space. */
  lemma {:induction false} SplitPiecesHaveNoSpace(s: string, cur: string)
    requires NoSpace(cur)
    ensures forall k :: 0 <= k < |SplitSpacesFrom(s, cur)| ==> NoSpace(SplitSpacesFrom(s, cur)[k])
    decreases |s|
  {
    if s == [] {
    } else if IsJsSpace(s[0]) {
      var rest := SplitSpacesFrom(TrimStart(s), "");
      SplitPiecesHaveNoSpace(TrimStart(s), "");
      var r := [cur] + rest;
      assert SplitSpacesFrom(s, cur) == r;
      assert forall k :: 1 <= k < |r| ==> r[k] == rest[k - 1];
    } else {
      var next := cur + [s[0]];
      assert NoSpace(next) by {
        assert forall i :: 0 <= i < |cur| ==> next[i] == cur[i];
        assert next[|cur|] == s[0];
      }
      SplitPiecesHaveNoSpace(s[1..], next);
    }
  }

  lemma {:induction false} NonSpaceOfBlankPrefix(s: string, k: nat)
    requires k <= |s| && IsBlank(s[..k])
    ensures NonSpace(s) == NonSpace(s[k..])
    decreases k
  {
    if k > 0 {
      assert s[0] == s[..k][0];
      assert s[1..][..k - 1] == s[..k][1..];
      NonSpaceOfBlankPrefix(s[1..], k - 1);
      assert s[1..][k - 1..] == s[k..];
    }
  }

  /** Gluing the pieces of a whitespace split back together gives exactly the non-space characters. */
  lemma {:induction false} SplitKeepsNonSpace(s: string, cur: string)
    ensures Concat(SplitSpacesFrom(s, cur)) == cur + NonSpace(s)
    decreases |s|
  {
    if s == [] {
      assert Concat([cur]) == cur + Concat([]);
    } else if IsJsSpace(s[0]) {
      var t := TrimStart(s);
      SplitKeepsNonSpace(t, "");
      NonSpaceOfBlankPrefix(s, |s| - |t|);
      var rest := SplitSpacesFrom(t, "");
      assert ([cur] + rest)[1..] == rest;
    } else {
      SplitKeepsNonSpace(s[1..], cur + [s[0]]);
    }
  }

  predicate NoEmptyPiece(fields: seq<string>) {
    forall k :: 0 <= k < |fields| ==> fields[k] != []
  }

  /** Splitting a trimmed, non-empty string yields no empty piece. */
  lemma {:induction false} SplitTrimmedHasNoEmptyPiece(s: string, cur: string)
    requires cur != [] || (s != [] && !IsJsSpace(s[0]))
    requires s == [] || !IsJsSpace(s[|s| - 1])
    ensures NoEmptyPiece(SplitSpacesFrom(s, cur))
    decreases |s|
  {
    if s == [] {
    } else if IsJsSpace(s[0]) {
      var t := TrimStart(s);
      assert t[|t| - 1] == s[|s| - 1];
      SplitTrimmedHasNoEmptyPiece(t, "");
      var rest := SplitSpacesFrom(t, "");
      assert SplitSpacesFrom(s, cur) == [cur] + rest;
    } else {
      var s' := s[1..];
      assert s' == [] || s'[|s'| - 1] == s[|s| - 1];
      SplitTrimmedHasNoEmptyPiece(s', cur + [s[0]]);
    }
  }

  /** `s.split(c)` for a one-character separator. */
  function SplitOn(s: string, c: char): (r: seq<string>)
    ensures |r| >= 1
  {
    SplitOnFrom(s, c, "")
  }

  function SplitOnFrom(s: string, c: char, cur: string): (r: seq<string>)
    ensures |r| >= 1
    decreases |s|
  {
    if s == [] then [cur]
    else if s[0] == c then [cur] + SplitOnFrom(s[1..], c, "")
    else SplitOnFrom(s[1..], c, cur + [s[0]])
  }

  /** A run without the separator is carried into the current piece whole. */
  lemma {:induction false} SplitOnSkipsRun(a: string, s: string, c: char, cur: string)
    requires c !in a
    ensures SplitOnFrom(a + s, c, cur) == SplitOnFrom(s, c, cur + a)
    decreases |a|
  {
    if a != [] {
      assert a == [a[0]] + a[1..];
      assert (a + s)[0] == a[0] != c && (a + s)[1..] == a[1..] + s;
      SplitOnSkipsRun(a[1..], s, c, cur + [a[0]]);
      assert cur + [a[0]] + a[1..] == cur + a;
    } else {
      assert a + s == s && cur + a == cur;
    }
  }

  /** `fields.join(c)`. */
  function Join(fields: seq<string>, c: char): string
    requires |fields| >= 1
  {
    if |fields| == 1 then fields[0] else fields[0] + [c] + Join(fields[1..], c)
  }

  /** Joining the pieces of a split with the separator restores the input, and no piece holds the separator. */
  lemma {:induction false} JoinSplitOn(s: string, c: char, cur: string)
    requires c !in cur
    ensures Join(SplitOnFrom(s, c, cur), c) == cur + s
    ensures forall k :: 0 <= k < |SplitOnFrom(s, c, cur)| ==> c !in SplitOnFrom(s, c, cur)[k]
    decreases |s|
  {
    if s == [] {
    } else if s[0] == c {
      var rest := SplitOnFrom(s[1..], c, "");
      JoinSplitOn(s[1..], c, "");
      assert ([cur] + rest)[1..] == rest;
      assert s == [c] + s[1..];
    } else {
      JoinSplitOn(s[1..], c, cur + [s[0]]);
      assert cur + [s[0]] + s[1..] == cur + s;
    }
  }

  /** ASCII `toLowerCase()` for one character. */
  function LowerChar(c: char): (r: char)
    ensures 'A' <= c <= 'Z' ==> 'a' <= r <= 'z'
    ensures !('A' <= c <= 'Z') ==> r == c
  {
    if 'A' <= c <= 'Z' then (c as int + 32) as char else c
  }

  function Lower(s: string): (r: string)
    ensures |r| == |s| && forall i :: 0 <= i < |s| ==> r[i] == LowerChar(s[i])
  {
    seq(|s|, i requires 0 <= i < |s| => LowerChar(s[i]))
  }

  predicate OccursAt(s: string, t: string, i: int) {
    0 <= i && i + |t| <= |s| && s[i..i + |t|] == t
  }

  /** `s.includes(t)`. */
  predicate Contains(s: string, t: string) {
    exists i :: 0 <= i <= |s| && OccursAt(s, t, i)
  }

  lemma ContainsSelf(t: string)
    ensures Contains(t, t)
  {
    assert t[0..|t|] == t;
    assert OccursAt(t, t, 0);
  }

  /** A string occurring inside `b` occurs inside any string of which `b` is an infix. */
  lemma ContainsInfix(a: string, b: string, c: string, t: string)
    requires Contains(b, t)
    ensures Contains(a + b + c, t)
  {
    var i :| 0 <= i <= |b| && OccursAt(b, t, i);
    var s := a + b + c;
    assert s[|a| + i..|a| + i + |t|] == b[i..i + |t|];
    assert OccursAt(s, t, |a| + i);
  }

  /** `lit` (written in lower case) occurs at `i` ignoring the case of ASCII letters, as under a regex `i` flag. */
  predicate OccursAtFolded(s: string, i: int, lit: string) {
    0 <= i && i + |lit| <= |s| && forall k :: 0 <= k < |lit| ==> LowerChar(s[i + k]) == lit[k]
  }

  /** `s.indexOf(t, from)`, with `None` for -1. */
  function IndexOf(s: string, t: string, from: nat): (r: Option<nat>)
    ensures r.Some? ==> from <= r.value && OccursAt(s, t, r.value)
    ensures r.Some? ==> forall j :: from <= j < r.value ==> !OccursAt(s, t, j)
    ensures r.None? ==> forall j :: from <= j ==> !OccursAt(s, t, j)
    decreases |s| - from
  {
    if from + |t| > |s| then None
    else if OccursAt(s, t, from) then Some(from)
    else IndexOf(s, t, from + 1)
  }

  /** The position of the first `c` at or after `from`. */
  function IndexOfChar(s: string, c: char, from: nat): (r: Option<nat>)
    ensures r.Some? ==> from <= r.value < |s| && s[r.value] == c
    ensures r.Some? ==> forall j :: from <= j < r.value ==> s[j] != c
    ensures r.None? ==> forall j :: from <= j < |s| ==> s[j] != c
    decreases |s| - from
  {
    if from >= |s| then None
    else if s[from] == c then Some(from)
    else IndexOfChar(s, c, from + 1)
  }
}
