/** The JavaScript string operations the wizard relies on: `String.prototype.trim`
    (used as a truthiness test, `s.trim()`), `Array.prototype.some` with that test,
    and the filtering of blank list entries that the document layout performs. */
module Text {

  /** JavaScript's WhiteSpace and LineTerminator code points: exactly what `trim` strips. */
  predicate IsWhitespace(c: char) {
    || c == '\t' || c == '\n' || c == '\U{000B}' || c == '\U{000C}' || c == '\r'
    || c == ' ' || c == '\U{00A0}' || c == '\U{1680}'
    || ('\U{2000}' <= c <= '\U{200A}')
    || c == '\U{2028}' || c == '\U{2029}' || c == '\U{202F}' || c == '\U{205F}'
    || c == '\U{3000}' || c == '\U{FEFF}'
  }

  /** Every character of `s` is whitespace (the empty string included). */
  ghost predicate AllWhitespace(s: string) {
    forall k :: 0 <= k < |s| ==> IsWhitespace(s[k])
  }

  function TrimStart(s: string): (r: string)
    ensures |r| <= |s| && r == s[|s| - |r|..]
    ensures r != [] ==> !IsWhitespace(r[0])
    ensures AllWhitespace(s[..|s| - |r|])
  {
    if s == [] then []
    else if IsWhitespace(s[0]) then
      var r := TrimStart(s[1..]);
      var n := |s| - |r|;
      assert s[1..][n - 1..] == s[n..];
      assert forall k :: 1 <= k < n ==> s[k] == s[1..][..n - 1][k - 1];
      r
    else s
  }

  function TrimEnd(s: string): (r: string)
    ensures |r| <= |s| && r == s[..|r|]
    ensures r != [] ==> !IsWhitespace(r[|r| - 1])
    ensures AllWhitespace(s[|r|..])
  {
    if s == [] then []
    else if IsWhitespace(s[|s| - 1]) then
      var r := TrimEnd(s[..|s| - 1]);
      assert s[..|s| - 1][|r|..] == s[|r|..|s| - 1];
      assert s[|r|..] == s[|r|..|s| - 1] + [s[|s| - 1]];
      r
    else s
  }

  /** `s.trim()`: strip leading and trailing whitespace. */
  function Trim(s: string): (r: string)
    ensures |r| <= |s|
    ensures r != [] ==> !IsWhitespace(r[0]) && !IsWhitespace(r[|r| - 1])
  {
    TrimEnd(TrimStart(s))
  }

  /** The truthiness of `s.trim()`: the trimmed string is non-empty. */
  predicate HasText(s: string) {
    Trim(s) != ""
  }

  /** `s.trim()` is truthy exactly when `s` holds a character that is not whitespace. */
  lemma HasTextIff(s: string)
    ensures HasText(s) <==> exists k :: 0 <= k < |s| && !IsWhitespace(s[k])
  {
    var t := TrimStart(s);
    var n := |s| - |t|;
    if HasText(s) {
      var r := TrimEnd(t);
      assert r[0] == s[n];
      assert !IsWhitespace(s[n]);
    } else {
      assert AllWhitespace(t[|TrimEnd(t)|..]);
      assert t == [];
      assert AllWhitespace(s[..n]);
      forall k | 0 <= k < |s| ensures IsWhitespace(s[k]) {
        assert s[k] == s[..n][k];
      }
    }
  }

  /** `xs.some(x => x.trim())`, evaluated left to right as JavaScript does. */
  predicate AnyHasText(xs: seq<string>) {
    xs != [] && (HasText(xs[0]) || AnyHasText(xs[1..]))
  }

  lemma {:induction false} AnyHasTextIff(xs: seq<string>)
    ensures AnyHasText(xs) <==> exists k :: 0 <= k < |xs| && HasText(xs[k])
  {
    if xs != [] {
      AnyHasTextIff(xs[1..]);
      if !HasText(xs[0]) && exists k :: 0 <= k < |xs| && HasText(xs[k]) {
        var k :| 0 <= k < |xs| && HasText(xs[k]);
        assert xs[1..][k - 1] == xs[k];
      }
    }
  }

  /** The entries that survive the layout's `if (x.trim())` filter, in list order. */
  function NonBlank(xs: seq<string>): seq<string> {
    if xs == [] then []
    else NonBlank(xs[..|xs| - 1]) + (if HasText(xs[|xs| - 1]) then [xs[|xs| - 1]] else [])
  }

  /** Extending a list by one entry extends its non-blank entries by that entry, if it has text. */
  lemma NonBlankSnoc(xs: seq<string>, x: string)
    ensures NonBlank(xs + [x]) == NonBlank(xs) + (if HasText(x) then [x] else [])
  {
    assert (xs + [x])[..|xs + [x]| - 1] == xs;
  }

  /** The filter keeps list order: the surviving entries of a list come before those of any
      list appended to it. */
  lemma {:induction false} NonBlankAppend(a: seq<string>, b: seq<string>)
    ensures NonBlank(a + b) == NonBlank(a) + NonBlank(b)
  {
    if b == [] {
      assert a + b == a;
    } else {
      var init, last := b[..|b| - 1], b[|b| - 1];
      var t := if HasText(last) then [last] else [];
      assert b == init + [last];
      assert a + b == (a + init) + [last];
      NonBlankSnoc(a + init, last);
      NonBlankSnoc(init, last);
      NonBlankAppend(a, init);
      calc {
        NonBlank(a + b);
        NonBlank((a + init) + [last]);
        NonBlank(a + init) + t;
        (NonBlank(a) + NonBlank(init)) + t;
        { assert (NonBlank(a) + NonBlank(init)) + t == NonBlank(a) + (NonBlank(init) + t); }
        NonBlank(a) + (NonBlank(init) + t);
        NonBlank(a) + NonBlank(init + [last]);
      }
    }
  }

  /** The filter keeps every entry with text and nothing else, and never lengthens the list. */
  lemma {:induction false} NonBlankMeaning(xs: seq<string>)
    ensures forall s :: s in NonBlank(xs) ==> s in xs && HasText(s)
    ensures forall k :: 0 <= k < |xs| && HasText(xs[k]) ==> xs[k] in NonBlank(xs)
    ensures |NonBlank(xs)| <= |xs|
  {
    if xs != [] {
      var init := xs[..|xs| - 1];
      NonBlankMeaning(init);
      forall k | 0 <= k < |xs| - 1 ensures xs[k] == init[k] { }
    }
  }

  /** A list that fails `some(x => x.trim())` contributes no entry at all. */
  lemma {:induction false} NonBlankEmptyIff(xs: seq<string>)
    ensures NonBlank(xs) == [] <==> !AnyHasText(xs)
  {
    NonBlankMeaning(xs);
    AnyHasTextIff(xs);
    if NonBlank(xs) != [] {
      var s := NonBlank(xs)[0];
      assert s in NonBlank(xs);
      var k :| 0 <= k < |xs| && xs[k] == s;
    }
  }

  /** A list of one empty or one space-only entry has no entry with text. */
  lemma BlankEntriesHaveNoText()
    ensures !AnyHasText([""]) && !AnyHasText([" "])
  {
    assert Trim("") == "";
    assert " "[1..] == "" && TrimStart(" ") == "";
    assert !HasText(" ");
    assert [""][1..] == [] && [" "][1..] == [];
  }
}
