/** The few JavaScript string operations the dashboard relies on, stated on
    `seq<char>`: `trim`, `toUpperCase` (ASCII letters only), `indexOf` and
    `replace` with a string pattern, which replaces the first occurrence only
    and expands `$` patterns in the replacement text. */
module JsStrings {
  import opened Wrappers


  /** The characters `String.prototype.trim` removes: the ECMAScript
      WhiteSpace and LineTerminator code points. */
  predicate IsWhitespace(c: char)
  {
    c == '\t' || c == '\n' || c == '\U{000B}' || c == '\U{000C}' || c == '\r' || c == ' '
    || c == '\U{00A0}' || c == '\U{1680}' || ('\U{2000}' <= c <= '\U{200A}')
    || c == '\U{2028}' || c == '\U{2029}' || c == '\U{202F}' || c == '\U{205F}'
    || c == '\U{3000}' || c == '\U{FEFF}'
  }

  predicate AllWhitespace(s: string)
  {
    forall i :: 0 <= i < |s| ==> IsWhitespace(s[i])
  }

  /** The index of the first non-whitespace character of `s` at or after
      `i`, or `|s|` when there is none. */
  function SkipLeading(s: string, i: nat): (k: nat)
    requires i <= |s|
    ensures i <= k <= |s|
    ensures forall j :: i <= j < k ==> IsWhitespace(s[j])
    ensures k == |s| || !IsWhitespace(s[k])
    decreases |s| - i
  {
    if i < |s| && IsWhitespace(s[i]) then SkipLeading(s, i + 1) else i
  }

  /** The index just after the last non-whitespace character of `s[lo..hi]`,
      or `lo` when there is none. */
  function SkipTrailing(s: string, lo: nat, hi: nat): (k: nat)
    requires lo <= hi <= |s|
    ensures lo <= k <= hi
    ensures forall j :: k <= j < hi ==> IsWhitespace(s[j])
    ensures k == lo || !IsWhitespace(s[k - 1])
    decreases hi
  {
    if lo < hi && IsWhitespace(s[hi - 1]) then SkipTrailing(s, lo, hi - 1) else hi
  }

  /** `s.trim()`. */
  function Trim(s: string): (t: string)
    ensures |t| <= |s|
  {
    var start := SkipLeading(s, 0);
    s[start..SkipTrailing(s, start, |s|)]
  }

  /** `!s.trim()`: the trimmed string is empty, hence falsy. */
  predicate IsBlank(s: string)
  {
    Trim(s) == ""
  }

  /** A string trims to nothing exactly when every character is whitespace. */
  lemma BlankIffAllWhitespace(s: string)
    ensures IsBlank(s) <==> AllWhitespace(s)
  {
    var start := SkipLeading(s, 0);
    if start < |s| {
      assert !IsWhitespace(s[start]);
      assert SkipTrailing(s, start, |s|) > start;
    }
  }

  /** The trimmed string is a slice of `s` with only whitespace before and
      after it, and it neither starts nor ends with whitespace. */
  lemma TrimSplits(s: string)
    ensures exists k, m :: (0 <= k <= m <= |s| && Trim(s) == s[k..m]
      && (forall i :: 0 <= i < k ==> IsWhitespace(s[i]))
      && (forall i :: m <= i < |s| ==> IsWhitespace(s[i])))
    ensures Trim(s) == [] || (!IsWhitespace(Trim(s)[0]) && !IsWhitespace(Trim(s)[|Trim(s)| - 1]))
  {
    var k := SkipLeading(s, 0);
    var m := SkipTrailing(s, k, |s|);
    assert Trim(s) == s[k..m];
    if k < m {
      assert Trim(s)[0] == s[k];
      assert Trim(s)[|Trim(s)| - 1] == s[m - 1];
    }
  }

  /** ASCII upper-casing of one character; everything else is kept. */
  function UpperChar(c: char): char
  {
    if 'a' <= c <= 'z' then (c as int - 32) as char else c
  }

  /** `s.toUpperCase()` restricted to ASCII letters. */
  function ToUpper(s: string): (r: string)
    ensures |r| == |s|
  {
    seq(|s|, i requires 0 <= i < |s| => UpperChar(s[i]))
  }

  /** Upper-casing leaves no lower-case ASCII letter, keeps every other
      character, and doing it twice is doing it once. */
  lemma UpperProperties(s: string)
    ensures forall i :: 0 <= i < |s| ==> !('a' <= ToUpper(s)[i] <= 'z')
    ensures forall i :: 0 <= i < |s| && !('a' <= s[i] <= 'z') ==> ToUpper(s)[i] == s[i]
    ensures ToUpper(ToUpper(s)) == ToUpper(s)
  {
  }

  /** Upper-casing neither creates nor removes whitespace, so a value is blank
      after upper-casing exactly when it was blank before. */
  lemma UpperKeepsBlank(s: string)
    ensures IsBlank(ToUpper(s)) <==> IsBlank(s)
  {
    BlankIffAllWhitespace(s);
    BlankIffAllWhitespace(ToUpper(s));
    forall i | 0 <= i < |s| ensures IsWhitespace(ToUpper(s)[i]) <==> IsWhitespace(s[i]) {
      UpperCharKeepsWhitespace(s[i]);
    }
  }

  lemma UpperCharKeepsWhitespace(c: char)
    ensures IsWhitespace(UpperChar(c)) <==> IsWhitespace(c)
  {
  }

  /** `pat` occurs in `s` starting at index `i`. */
  predicate OccursAt(s: string, pat: string, i: nat)
  {
    i + |pat| <= |s| && s[i..i + |pat|] == pat
  }

  /** The first occurrence of `pat` in `s` at or after `from`. */
  function FindFrom(s: string, pat: string, from: nat): (r: Option<nat>)
    ensures r.Some? ==> from <= r.value && OccursAt(s, pat, r.value)
    ensures r.Some? ==> forall j :: from <= j < r.value ==> !OccursAt(s, pat, j)
    ensures r.None? ==> forall j :: from <= j ==> !OccursAt(s, pat, j)
    decreases |s| - from
  {
    if from + |pat| > |s| then None
    else if s[from..from + |pat|] == pat then Some(from)
    else FindFrom(s, pat, from + 1)
  }

  /** `s.indexOf(pat)`, with "not found" as `None`. */
  function IndexOf(s: string, pat: string): (r: Option<nat>)
    ensures r.Some? ==> OccursAt(s, pat, r.value) && forall j :: 0 <= j < r.value ==> !OccursAt(s, pat, j)
    ensures r.None? ==> forall j: nat :: !OccursAt(s, pat, j)
  {
    FindFrom(s, pat, 0)
  }

  /** The replacement text `String.prototype.replace` inserts for `rep` when
      the pattern is a string (section 22.1.3.19.1, GetSubstitution, of
      ECMA-262 with no captures): `$$` is a dollar sign, `$&` the matched text,
      `` $` `` the text before the match, `$'` the text after it; every other
      character, including a `$` starting any other pair, is copied. */
  function Expand(rep: string, matched: string, before: string, after: string): string
    decreases |rep|
  {
    if |rep| >= 2 && rep[0] == '$' && rep[1] == '$' then "$" + Expand(rep[2..], matched, before, after)
    else if |rep| >= 2 && rep[0] == '$' && rep[1] == '&' then matched + Expand(rep[2..], matched, before, after)
    else if |rep| >= 2 && rep[0] == '$' && rep[1] == '`' then before + Expand(rep[2..], matched, before, after)
    else if |rep| >= 2 && rep[0] == '$' && rep[1] == '\'' then after + Expand(rep[2..], matched, before, after)
    else if |rep| >= 1 then [rep[0]] + Expand(rep[1..], matched, before, after)
    else ""
  }

  /** A replacement text without a dollar sign is inserted verbatim. */
  lemma {:induction false} ExpandVerbatim(rep: string, matched: string, before: string, after: string)
    requires '$' !in rep
    ensures Expand(rep, matched, before, after) == rep
    decreases |rep|
  {
    if |rep| >= 1 {
      assert rep[0] != '$';
      assert '$' !in rep[1..] by {
        forall k | 0 <= k < |rep[1..]| ensures rep[1..][k] != '$' { assert rep[1..][k] == rep[k + 1]; }
      }
      ExpandVerbatim(rep[1..], matched, before, after);
      assert rep == [rep[0]] + rep[1..];
    }
  }

  /** `s.replace(pat, rep)` with a string pattern. */
  function ReplaceFirst(s: string, pat: string, rep: string): string
  {
    match IndexOf(s, pat)
    case None => s
    case Some(p) => s[..p] + Expand(rep, pat, s[..p], s[p + |pat|..]) + s[p + |pat|..]
  }

  /** Without an occurrence nothing changes; otherwise the text before the
      first occurrence (which holds no occurrence) is kept, the occurrence
      gives way to the expanded replacement text, and the text after it is
      kept. */
  lemma ReplaceFirstSpec(s: string, pat: string, rep: string)
    ensures IndexOf(s, pat).None? ==> ReplaceFirst(s, pat, rep) == s
    ensures IndexOf(s, pat).Some? ==>
      var p, r := IndexOf(s, pat).value, ReplaceFirst(s, pat, rep);
      var e := Expand(rep, pat, s[..p], s[p + |pat|..]);
      && (forall j :: 0 <= j < p ==> !OccursAt(s, pat, j))
      && |r| == |s| - |pat| + |e|
      && r[..p] == s[..p] && r[p..p + |e|] == e && r[p + |e|..] == s[p + |pat|..]
  {
    match IndexOf(s, pat)
    case None =>
    case Some(p) =>
      var e := Expand(rep, pat, s[..p], s[p + |pat|..]);
      var r := s[..p] + e + s[p + |pat|..];
      assert r[..p] == s[..p];
      assert r[p..p + |e|] == e;
      assert r[p + |e|..] == s[p + |pat|..];
  }

  /** A replacement text without a dollar sign replaces the first occurrence
      verbatim. */
  lemma ReplaceVerbatim(s: string, pat: string, rep: string)
    requires '$' !in rep
    ensures IndexOf(s, pat).None? ==> ReplaceFirst(s, pat, rep) == s
    ensures IndexOf(s, pat).Some? ==>
      var p := IndexOf(s, pat).value;
      ReplaceFirst(s, pat, rep) == s[..p] + rep + s[p + |pat|..]
  {
    match IndexOf(s, pat)
    case None =>
    case Some(p) =>
      ExpandVerbatim(rep, pat, s[..p], s[p + |pat|..]);
  }

  /** Only the first occurrence is replaced: an occurrence that starts after
      the first one ends is still present, shifted by the change in length. */
  lemma ReplaceKeepsLaterOccurrence(s: string, pat: string, rep: string, q: nat)
    requires OccursAt(s, pat, q)
    requires IndexOf(s, pat).Some? && IndexOf(s, pat).value + |pat| <= q
    ensures var p := IndexOf(s, pat).value;
      OccursAt(ReplaceFirst(s, pat, rep), pat, q - |pat| + |Expand(rep, pat, s[..p], s[p + |pat|..])|)
  {
    var p := IndexOf(s, pat).value;
    var e := Expand(rep, pat, s[..p], s[p + |pat|..]);
    var r := ReplaceFirst(s, pat, rep);
    assert r == s[..p] + e + s[p + |pat|..];
    var q' := q - |pat| + |e|;
    assert r[q'..q' + |pat|] == s[q..q + |pat|] by {
      forall k | q' <= k < q' + |pat| ensures r[k] == s[k - q' + q] {
        assert r[k] == s[p + |pat|..][k - p - |e|];
      }
    }
  }

  /** With a replacement text without a dollar sign the shift is the change
      from the pattern's length to the replacement's. */
  lemma VerbatimKeepsLaterOccurrence(s: string, pat: string, rep: string, q: nat)
    requires '$' !in rep
    requires OccursAt(s, pat, q)
    requires IndexOf(s, pat).Some? && IndexOf(s, pat).value + |pat| <= q
    ensures OccursAt(ReplaceFirst(s, pat, rep), pat, q - |pat| + |rep|)
  {
    var p := IndexOf(s, pat).value;
    ExpandVerbatim(rep, pat, s[..p], s[p + |pat|..]);
    assert |Expand(rep, pat, s[..p], s[p + |pat|..])| == |rep|;
    ReplaceKeepsLaterOccurrence(s, pat, rep, q);
  }
}
