/**
 * The part of Python's `re` that the link inserter relies on, for its one
 * family of patterns: `\b(stem)\b`, `\b(stem)s?\b` and `\b(stem)(y|ies)\b`,
 * searched with IGNORECASE, and `re.sub(..., count=1)` with a replacement
 * `[\1](url)` (or `[\1\2](url)` for the `(y|ies)` family).
 */
module PhraseMatch {
  import opened Wrappers
  import opened Strings

  /** What follows the stem inside the pattern. */
  datatype Suffix = Plain | OptionalS | YOrIes

  datatype Pattern = Pattern(stem: string, suffix: Suffix)

  /** A match `[start, end)`, with the text the replacement puts between the brackets. */
  datatype Match = Match(start: nat, end: nat, group: string)

  /** `\w` on ASCII: letters, digits and underscore. */
  predicate IsWordChar(c: char) {
    'a' <= c <= 'z' || 'A' <= c <= 'Z' || '0' <= c <= '9' || c == '_'
  }

  predicate IsWordAt(text: string, p: int) {
    0 <= p < |text| && IsWordChar(text[p])
  }

  /** `\b` at position `p`: a word character on exactly one side. */
  predicate Boundary(text: string, p: int) {
    IsWordAt(text, p - 1) != IsWordAt(text, p)
  }

  predicate EqualsIgnoreCase(a: string, b: string) {
    |a| == |b| && forall i :: 0 <= i < |a| ==> LowerChar(a[i]) == LowerChar(b[i])
  }

  predicate StemAt(text: string, stem: string, i: nat) {
    i + |stem| <= |text| && EqualsIgnoreCase(text[i..i + |stem|], stem)
  }

  /**
   * The characters `text[e..end]` spell one alternative of the suffix: nothing
   * for `\b(stem)\b`; nothing or an `s` for `s?`; a `y` or `ies` for `(y|ies)`.
   */
  predicate SuffixEndsAt(text: string, e: nat, suffix: Suffix, end: int) {
    match suffix
    case Plain => end == e
    case OptionalS => end == e || (end == e + 1 && e < |text| && LowerChar(text[e]) == 's')
    case YOrIes =>
      (end == e + 1 && e < |text| && LowerChar(text[e]) == 'y')
      || (end == e + 3 && e + 3 <= |text| && EqualsIgnoreCase(text[e..e + 3], "ies"))
  }

  /**
   * The match of `p` that starts at `i`, if any: a boundary, the stem in any
   * letter case, the longest suffix alternative that a boundary follows.
   */
  function MatchAt(text: string, p: Pattern, i: nat): (r: Option<Match>)
    requires i <= |text|
    ensures r.Some? ==> r.value.start == i && i + |p.stem| <= r.value.end <= |text|
    ensures r.Some? ==> r.value.group == text[i..if p.suffix == YOrIes then r.value.end else i + |p.stem|]
    ensures r.Some? ==> Boundary(text, i) && StemAt(text, p.stem, i)
    ensures r.Some? ==> SuffixEndsAt(text, i + |p.stem|, p.suffix, r.value.end) && Boundary(text, r.value.end)
    ensures Boundary(text, i) && StemAt(text, p.stem, i) ==>
      forall end :: SuffixEndsAt(text, i + |p.stem|, p.suffix, end) && Boundary(text, end) ==>
        r.Some? && end <= r.value.end
  {
    if !(Boundary(text, i) && StemAt(text, p.stem, i)) then None
    else MatchSuffix(text, i, i + |p.stem|, p.suffix)
  }

  /**
   * The match that starts at `i` once the stem has been read up to `e`: the
   * suffix and the closing `\b`. The engine tries `s` before the empty
   * alternative and `y` before `ies`; a `y` and an `ies` never both start at
   * `e`, so the alternative taken is the longest one a boundary follows, and
   * there is a match whenever some alternative is followed by a boundary.
   */
  function MatchSuffix(text: string, i: nat, e: nat, suffix: Suffix): (r: Option<Match>)
    requires i <= e <= |text|
    ensures r.Some? ==> r.value.start == i && e <= r.value.end <= |text|
    ensures r.Some? ==> SuffixEndsAt(text, e, suffix, r.value.end) && Boundary(text, r.value.end)
    ensures forall end :: SuffixEndsAt(text, e, suffix, end) && Boundary(text, end) ==> r.Some? && end <= r.value.end
    ensures r.Some? ==> r.value.group == text[i..if suffix == YOrIes then r.value.end else e]
  {
    match suffix
    case Plain =>
      if Boundary(text, e) then Some(Match(i, e, text[i..e])) else None
    case OptionalS =>
      if e < |text| && LowerChar(text[e]) == 's' && Boundary(text, e + 1) then Some(Match(i, e + 1, text[i..e]))
      else if Boundary(text, e) then Some(Match(i, e, text[i..e]))
      else None
    case YOrIes =>
      if e < |text| && LowerChar(text[e]) == 'y' && Boundary(text, e + 1) then Some(Match(i, e + 1, text[i..e + 1]))
      else if e + 3 <= |text| && EqualsIgnoreCase(text[e..e + 3], "ies") && Boundary(text, e + 3)
      then Some(Match(i, e + 3, text[i..e + 3]))
      else None
  }

  /** The leftmost match at or after `i`. */
  function SearchFrom(text: string, p: Pattern, i: nat): (r: Option<Match>)
    requires i <= |text|
    ensures r.Some? ==> i <= r.value.start <= |text| && MatchAt(text, p, r.value.start) == r
    ensures r.Some? ==> forall k :: i <= k < r.value.start ==> MatchAt(text, p, k).None?
    ensures r.None? ==> forall k :: i <= k <= |text| ==> MatchAt(text, p, k).None?
    decreases |text| - i
  {
    if MatchAt(text, p, i).Some? then MatchAt(text, p, i)
    else if i == |text| then None
    else SearchFrom(text, p, i + 1)
  }

  /** `re.search`: the leftmost match in the whole text. */
  function Search(text: string, p: Pattern): (r: Option<Match>)
    ensures r.Some? ==> r.value.start <= |text| && MatchAt(text, p, r.value.start) == r
    ensures r.Some? ==> forall k :: 0 <= k < r.value.start ==> MatchAt(text, p, k).None?
    ensures r.None? ==> forall k :: 0 <= k <= |text| ==> MatchAt(text, p, k).None?
  {
    SearchFrom(text, p, 0)
  }

  /**
   * Every occurrence is found: a boundary, the stem and a suffix alternative
   * followed by a boundary at `k` give a match starting at `k` or earlier.
   */
  lemma OccurrenceIsFound(text: string, p: Pattern, k: nat, end: nat)
    requires k <= |text| && Boundary(text, k) && StemAt(text, p.stem, k)
    requires SuffixEndsAt(text, k + |p.stem|, p.suffix, end) && Boundary(text, end)
    ensures Search(text, p).Some? && Search(text, p).value.start <= k
  {
    assert MatchAt(text, p, k).Some?;
  }

  /**
   * The Markdown link the replacement template builds: the matched text
   * between the brackets and the URL between the parentheses.
   */
  function Anchor(group: string, url: string): (r: string)
    ensures |r| == |group| + |url| + 4
    ensures r[0] == '[' && r[1..|group| + 1] == group && r[|group| + 1..|group| + 3] == "]("
    ensures r[|group| + 3..|r| - 1] == url && r[|r| - 1] == ')'
  {
    "[" + group + "](" + url + ")"
  }

  /** `re.sub(pattern, "[\1](url)", text, count=1)`: the leftmost match becomes a link. */
  function SubFirst(text: string, p: Pattern, url: string): (r: string)
    ensures Search(text, p).None? ==> r == text
    ensures Search(text, p).Some? ==>
      var m := Search(text, p).value;
      r == text[..m.start] + Anchor(m.group, url) + text[m.end..]
  {
    match Search(text, p)
    case None => text
    case Some(m) => text[..m.start] + Anchor(m.group, url) + text[m.end..]
  }

  /** A text with no occurrence of the stem, in any letter case, has no match. */
  lemma NoStemNoMatch(text: string, p: Pattern)
    requires forall i :: 0 <= i <= |text| ==> !StemAt(text, p.stem, i)
    ensures Search(text, p).None?
  {
  }

  /**
   * The optional plural `s` is consumed by the match but is not part of
   * group 1, so the replacement drops it: "CFOs" becomes a link labelled "CFO".
   */
  lemma PluralIsDropped(stem: string)
    requires |stem| > 0 && IsWordChar(stem[|stem| - 1]) && IsWordChar(stem[0])
    ensures var m := MatchAt(stem + "s", Pattern(stem, OptionalS), 0);
      m.Some? && m.value.end == |stem| + 1 && m.value.group == stem
  {
  }

  /** A stem found at `i` is found there in any letter case. */
  lemma StemAtIgnoresCase(text: string, a: string, b: string, i: nat)
    requires EqualsIgnoreCase(a, b) && StemAt(text, a, i)
    ensures StemAt(text, b, i)
  {
    var w := text[i..i + |a|];
    forall j | 0 <= j < |w| ensures LowerChar(w[j]) == LowerChar(b[j]) {
      assert LowerChar(w[j]) == LowerChar(a[j]);
    }
  }

  /** Stems that differ only in letter case match at the same places. */
  lemma CaseVariantsMatchAt(text: string, a: string, b: string, suffix: Suffix, i: nat)
    requires EqualsIgnoreCase(a, b) && i <= |text|
    ensures MatchAt(text, Pattern(a, suffix), i) == MatchAt(text, Pattern(b, suffix), i)
  {
    if StemAt(text, a, i) {
      StemAtIgnoresCase(text, a, b, i);
    }
    if StemAt(text, b, i) {
      StemAtIgnoresCase(text, b, a, i);
    }
  }

  /**
   * Matching ignores case, so a pattern whose stem differs from an earlier one
   * only in letter case finds exactly what the earlier one finds.
   */
  lemma {:induction false} CaseVariantsSearchAlike(text: string, a: string, b: string, suffix: Suffix, i: nat)
    requires EqualsIgnoreCase(a, b) && i <= |text|
    ensures SearchFrom(text, Pattern(a, suffix), i) == SearchFrom(text, Pattern(b, suffix), i)
    decreases |text| - i
  {
    var pa, pb := Pattern(a, suffix), Pattern(b, suffix);
    CaseVariantsMatchAt(text, a, b, suffix, i);
    if MatchAt(text, pa, i).None? && i < |text| {
      CaseVariantsSearchAlike(text, a, b, suffix, i + 1);
      assert SearchFrom(text, pa, i) == SearchFrom(text, pa, i + 1);
      assert SearchFrom(text, pb, i) == SearchFrom(text, pb, i + 1);
    }
  }
}
