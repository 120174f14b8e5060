/**
 * The Cloudinary key `uploadResume` derives from an email in
 * src/controllers/profile.controller.js: lower-case it, turn every run of
 * characters other than `a`-`z` and `0`-`9` into one `_`, collapse runs of
 * `_`, strip leading and trailing `_`, and keep the first 120 characters.
 */
module EmailKey {
  import opened Text

  predicate IsKeyChar(c: char) {
    ('a' <= c <= 'z') || ('0' <= c <= '9')
  }

  /** Every character is a lower-case letter, a digit or `_`. */
  predicate KeyAlphabet(s: string) {
    forall i :: 0 <= i < |s| ==> IsKeyChar(s[i]) || s[i] == '_'
  }

  predicate NoDoubleUnderscore(s: string) {
    forall i :: 0 <= i < |s| - 1 ==> !(s[i] == '_' && s[i + 1] == '_')
  }

  /** `.replace(/[^a-z0-9]+/g, '_')`; `inRun` says the previous character was already replaced. */
  function SlugFrom(s: string, inRun: bool): (r: string)
    ensures KeyAlphabet(r) && NoDoubleUnderscore(r)
    ensures inRun && r != [] ==> r[0] != '_'
  {
    if s == [] then []
    else if IsKeyChar(s[0]) then
      var rest := SlugFrom(s[1..], false);
      assert forall i :: 1 <= i < |rest| + 1 ==> ([s[0]] + rest)[i] == rest[i - 1];
      [s[0]] + rest
    else if inRun then SlugFrom(s[1..], true)
    else
      var rest := SlugFrom(s[1..], true);
      assert forall i :: 1 <= i < |rest| + 1 ==> (['_'] + rest)[i] == rest[i - 1];
      ['_'] + rest
  }

  function Slug(s: string): (r: string) {
    SlugFrom(s, false)
  }

  /** `.replace(/_+/g, '_')`. */
  function CollapseFrom(s: string, inRun: bool): string {
    if s == [] then []
    else if s[0] == '_' then (if inRun then CollapseFrom(s[1..], true) else ['_'] + CollapseFrom(s[1..], true))
    else [s[0]] + CollapseFrom(s[1..], false)
  }

  function Collapse(s: string): string {
    CollapseFrom(s, false)
  }

  /** Collapsing is a no-op on a string without `__`: the second replacement never changes the first's output. */
  lemma {:induction false} CollapseKeeps(s: string, inRun: bool)
    requires NoDoubleUnderscore(s)
    requires inRun ==> s == [] || s[0] != '_'
    ensures CollapseFrom(s, inRun) == s
  {
    if s != [] {
      var rest := s[1..];
      assert NoDoubleUnderscore(rest) by {
        forall i | 0 <= i < |rest| - 1 ensures !(rest[i] == '_' && rest[i + 1] == '_') {
          assert rest[i] == s[i + 1] && rest[i + 1] == s[i + 2];
        }
      }
      if s[0] == '_' {
        assert |s| > 1 ==> s[1] != '_';
        CollapseKeeps(rest, true);
      } else {
        CollapseKeeps(rest, false);
      }
      assert s == [s[0]] + rest;
    }
  }

  function DropLeading(s: string): (r: string)
    ensures |r| <= |s| && r == s[|s| - |r|..]
    ensures r == [] || r[0] != '_'
  {
    if s != [] && s[0] == '_' then DropLeading(s[1..]) else s
  }

  function DropTrailing(s: string): (r: string)
    ensures |r| <= |s| && r == s[..|r|]
    ensures r == [] || r[|r| - 1] != '_'
  {
    if s != [] && s[|s| - 1] == '_' then DropTrailing(s[..|s| - 1]) else s
  }

  /** `.replace(/^_+|_+$/g, '')`. */
  function Strip(s: string): string {
    DropTrailing(DropLeading(s))
  }

  /** `.slice(0, 120)`. */
  function Take120(s: string): (r: string)
    ensures |r| <= 120 && |r| <= |s| && r == s[..|r|]
    ensures |s| <= 120 ==> r == s
  {
    if |s| <= 120 then s else s[..120]
  }

  function Key(email: string): string {
    Take120(Strip(Collapse(Slug(Lower(email)))))
  }

  /** `resumes/${emailKey}.pdf`. */
  function PublicId(email: string): string {
    "resumes/" + Key(email) + ".pdf"
  }

  /** Both properties survive taking an infix. */
  lemma InfixKeepsShape(s: string, a: nat, b: nat)
    requires a <= b <= |s| && KeyAlphabet(s) && NoDoubleUnderscore(s)
    ensures KeyAlphabet(s[a..b]) && NoDoubleUnderscore(s[a..b])
  {
    var t := s[a..b];
    assert forall i :: 0 <= i < |t| ==> t[i] == s[a + i];
  }

  /** Collapsing and stripping a slug: the key is the first 120 characters of the stripped slug. */
  lemma KeyOfSlug(email: string)
    ensures Key(email) == Take120(Strip(Slug(Lower(email))))
  {
    CollapseKeeps(Slug(Lower(email)), false);
  }

  /** Stripping keeps both properties and leaves no leading `_`. */
  lemma StripShape(s: string)
    requires KeyAlphabet(s) && NoDoubleUnderscore(s)
    ensures var t := Strip(s); KeyAlphabet(t) && NoDoubleUnderscore(t) && (t == [] || t[0] != '_')
  {
    var lead := DropLeading(s);
    InfixKeepsShape(s, |s| - |lead|, |s|);
    var t := DropTrailing(lead);
    InfixKeepsShape(lead, 0, |t|);
    assert t != [] ==> t[0] == lead[0];
  }

  /** Taking a prefix keeps both properties and the first character. */
  lemma Take120Shape(s: string)
    requires KeyAlphabet(s) && NoDoubleUnderscore(s) && (s == [] || s[0] != '_')
    ensures var t := Take120(s); KeyAlphabet(t) && NoDoubleUnderscore(t) && (t == [] || t[0] != '_')
  {
    var t := Take120(s);
    InfixKeepsShape(s, 0, |t|);
    assert t != [] ==> t[0] == s[0];
  }

  /**
   * The key holds only lower-case letters, digits and `_`, has no `__`, does
   * not start with `_`, and has at most 120 characters.
   */
  lemma KeyShape(email: string)
    ensures var k := Key(email);
      KeyAlphabet(k) && NoDoubleUnderscore(k) && (k == [] || k[0] != '_') && |k| <= 120
  {
    KeyOfSlug(email);
    var slug := Slug(Lower(email));
    StripShape(slug);
    Take120Shape(Strip(slug));
  }

  /** The letters and digits of a string, in order. */
  function KeyChars(s: string): (r: string)
    ensures forall i :: 0 <= i < |r| ==> IsKeyChar(r[i])
  {
    if s == [] then [] else (if IsKeyChar(s[0]) then [s[0]] else []) + KeyChars(s[1..])
  }

  lemma {:induction false} KeyCharsAppend(a: string, b: string)
    ensures KeyChars(a + b) == KeyChars(a) + KeyChars(b)
  {
    if a != [] {
      assert (a + b)[1..] == a[1..] + b;
      KeyCharsAppend(a[1..], b);
    } else {
      assert a + b == b;
    }
  }

  lemma {:induction false} SlugKeepsKeyChars(s: string, inRun: bool)
    ensures KeyChars(SlugFrom(s, inRun)) == KeyChars(s)
  {
    if s != [] {
      SlugKeepsKeyChars(s[1..], !IsKeyChar(s[0]));
      var rest := SlugFrom(s[1..], !IsKeyChar(s[0]));
      if IsKeyChar(s[0]) {
        KeyCharsAppend([s[0]], rest);
      } else if !inRun {
        KeyCharsAppend(['_'], rest);
      }
    }
  }

  lemma {:induction false} DropLeadingKeepsKeyChars(s: string)
    ensures KeyChars(DropLeading(s)) == KeyChars(s)
  {
    if s != [] && s[0] == '_' {
      DropLeadingKeepsKeyChars(s[1..]);
    }
  }

  lemma {:induction false} DropTrailingKeepsKeyChars(s: string)
    ensures KeyChars(DropTrailing(s)) == KeyChars(s)
  {
    if s != [] && s[|s| - 1] == '_' {
      var init := s[..|s| - 1];
      DropTrailingKeepsKeyChars(init);
      assert s == init + ['_'];
      KeyCharsAppend(init, ['_']);
    }
  }

  lemma StripKeepsKeyChars(s: string)
    ensures KeyChars(Strip(s)) == KeyChars(s)
  {
    DropLeadingKeepsKeyChars(s);
    DropTrailingKeepsKeyChars(DropLeading(s));
  }

  /** The letters and digits of a prefix are a prefix of the letters and digits. */
  lemma KeyCharsOfPrefix(s: string, n: nat)
    requires n <= |s|
    ensures |KeyChars(s[..n])| <= |KeyChars(s)| && KeyChars(s[..n]) == KeyChars(s)[..|KeyChars(s[..n])|]
  {
    assert s == s[..n] + s[n..];
    KeyCharsAppend(s[..n], s[n..]);
  }

  /**
   * The key keeps the email's letters and digits (lower-cased) in order: a
   * prefix of them, and all of them when the stripped key fits in 120 characters.
   */
  lemma KeyKeepsLettersAndDigits(email: string)
    ensures var all := KeyChars(Lower(email));
      var kept := KeyChars(Key(email));
      |kept| <= |all| && kept == all[..|kept|]
    ensures |Strip(Slug(Lower(email)))| <= 120 ==> KeyChars(Key(email)) == KeyChars(Lower(email))
  {
    var lower := Lower(email);
    var slug := Slug(lower);
    KeyOfSlug(email);
    SlugKeepsKeyChars(lower, false);
    var stripped := Strip(slug);
    StripKeepsKeyChars(slug);
    var k := Take120(stripped);
    KeyCharsOfPrefix(stripped, |k|);
  }

  lemma LowerIdempotent(s: string)
    ensures Lower(Lower(s)) == Lower(s)
  {
  }

  /** Emails that differ only in the case of ASCII letters get the same key. */
  lemma KeyIgnoresCase(email: string)
    ensures Key(Lower(email)) == Key(email)
  {
    LowerIdempotent(email);
  }

  /** A run of letters and digits passes through the slug unchanged. */
  lemma {:induction false} SlugOfKeyRun(s: string, t: string)
    requires forall i :: 0 <= i < |s| ==> IsKeyChar(s[i])
    ensures SlugFrom(s + t, false) == s + SlugFrom(t, false)
  {
    if s != [] {
      assert (s + t)[0] == s[0] && (s + t)[1..] == s[1..] + t;
      SlugOfKeyRun(s[1..], t);
      assert s == [s[0]] + s[1..];
    } else {
      assert s + t == t;
    }
  }

  lemma LowerOfLowerCase(s: string)
    requires forall i :: 0 <= i < |s| ==> !('A' <= s[i] <= 'Z')
    ensures Lower(s) == s
  {
  }

  lemma StripOfUnderscoreFree(s: string)
    requires s != [] && s[0] != '_' && s[|s| - 1] != '_'
    ensures Strip(s) == s
  {
  }

  lemma SlugOfDotB()
    ensures SlugFrom(".b", false) == "_b"
  {
    assert ".b"[1..] == "b";
    assert "b"[1..] == [];
    assert SlugFrom("b", true) == "b";
  }

  /**
   * The cut to 120 characters happens after stripping, so a key can end in
   * `_`: 119 letters followed by `.b` give the 119 letters and `_`.
   */
  lemma TruncatedKeyCanEndInUnderscore(s: string)
    requires |s| == 119 && forall i :: 0 <= i < |s| ==> IsKeyChar(s[i])
    ensures Key(s + ".b") == s + "_"
  {
    var e := s + ".b";
    LowerOfLowerCase(e);
    SlugOfKeyRun(s, ".b");
    SlugOfDotB();
    var slug := s + "_b";
    assert Slug(Lower(e)) == slug;
    assert NoDoubleUnderscore(slug) by {
      forall i | 0 <= i < |slug| - 1 ensures !(slug[i] == '_' && slug[i + 1] == '_') {
        if i < |s| { assert slug[i] == s[i]; }
      }
    }
    CollapseKeeps(slug, false);
    StripOfUnderscoreFree(slug);
    assert Strip(Collapse(slug)) == slug;
    assert slug[..120] == s + "_";
  }
}
