// The two title clean-ups that the title resolver applies before searching
// again, modelled on the JavaScript regular-expression semantics they rely on:
//
//   - `title.replace(/\s*\(.*?\)\s*/g, "").trim()` removes every parenthesised
//     group together with the white space around it (a year such as "(2021)");
//   - `title.replace(/season\s+\d+/gi, "").trim()` removes every "season"
//     (in any ASCII case) followed by white space and a number.
//
// A global replacement scans from the left; at each position it either finds
// a match there, drops it and continues after it, or keeps one character and
// moves on. Each pattern is described twice: by a scanner that returns where
// the match starting at a position ends, and by a declarative predicate saying
// what a match is; the scanner's contract ties the two together.
module TitleCleaning {
  import opened Common

  /** The end of the run of white space that starts at `i` (greedy `\s*`). */
  function SkipSpaces(s: string, i: nat): (j: nat)
    requires i <= |s|
    ensures i <= j <= |s|
    ensures forall k :: i <= k < j ==> IsSpace(s[k])
    ensures j == |s| || !IsSpace(s[j])
    decreases |s| - i
  {
    if i < |s| && IsSpace(s[i]) then SkipSpaces(s, i + 1) else i
  }

  /** The end of the run of decimal digits that starts at `i` (greedy `\d+` once one digit is there). */
  function SkipDigits(s: string, i: nat): (j: nat)
    requires i <= |s|
    ensures i <= j <= |s|
    ensures forall k :: i <= k < j ==> IsDigit(s[k])
    ensures j == |s| || !IsDigit(s[j])
    decreases |s| - i
  {
    if i < |s| && IsDigit(s[i]) then SkipDigits(s, i + 1) else i
  }

  // ---------------------------------------------------------------------------
  // /\s*\(.*?\)\s*/g

  /** No `)` and no line terminator strictly between `j` and `k`: what `.*?` may cross. */
  predicate OpenStretch(s: string, j: int, k: int)
    requires 0 <= j <= k <= |s|
  {
    forall m :: j <= m < k ==> s[m] != ')' && !IsLineTerminator(s[m])
  }

  /**
    The regular expression matches at `i` with its `(` at `j` and the `)` that
    the lazy `.*?` stops at in `k`.
  */
  predicate ParenGroupAt(s: string, i: int, j: int, k: int) {
    && 0 <= i <= j < k < |s|
    && (forall m :: i <= m < j ==> IsSpace(s[m]))
    && s[j] == '(' && s[k] == ')'
    && OpenStretch(s, j + 1, k)
  }

  /** The first `)` at or after `i` reached without crossing a line terminator. */
  function CloseParen(s: string, i: nat): (r: Option<nat>)
    requires i <= |s|
    ensures r.Some? ==> i <= r.value < |s| && s[r.value] == ')' && OpenStretch(s, i, r.value)
    ensures r.None? ==> forall k :: i <= k < |s| && s[k] == ')' ==> !OpenStretch(s, i, k)
    decreases |s| - i
  {
    if i == |s| || IsLineTerminator(s[i]) then None
    else if s[i] == ')' then Some(i)
    else CloseParen(s, i + 1)
  }

  /** Where the match of `\s*\(.*?\)\s*` that starts at `i` ends, if the pattern matches there. */
  function ParenMatchAt(s: string, i: nat): (r: Option<nat>)
    requires i <= |s|
    ensures r.Some? ==> i < r.value <= |s|
    ensures r.Some? ==> exists j, k :: ParenGroupAt(s, i, j, k) && r.value == SkipSpaces(s, k + 1)
    ensures r.None? ==> forall j, k :: !ParenGroupAt(s, i, j, k)
  {
    var j := SkipSpaces(s, i);
    assert forall j', k :: ParenGroupAt(s, i, j', k) ==> j' == j;
    if j < |s| && s[j] == '(' then
      match CloseParen(s, j + 1)
      case Some(k) =>
        assert ParenGroupAt(s, i, j, k);
        Some(SkipSpaces(s, k + 1))
      case None => None
    else None
  }

  /** `s[i..]` after every match of `\s*\(.*?\)\s*` has been replaced by nothing. */
  function RemoveParenGroups(s: string, i: nat): (r: string)
    requires i <= |s|
    ensures |r| <= |s| - i
    decreases |s| - i
  {
    if i == |s| then ""
    else match ParenMatchAt(s, i)
      case Some(e) => RemoveParenGroups(s, e)
      case None => [s[i]] + RemoveParenGroups(s, i + 1)
  }

  /** The title with parenthesised groups stripped, as the resolver's second attempt searches it. */
  function StripParenGroups(title: string): string {
    Trim(RemoveParenGroups(title, 0))
  }

  /** Without a `(` the pattern never matches, so the replacement changes nothing. */
  lemma {:induction false} RemoveParenGroupsWithoutOpen(s: string, i: nat)
    requires i <= |s|
    requires forall k :: i <= k < |s| ==> s[k] != '('
    ensures RemoveParenGroups(s, i) == s[i..]
    decreases |s| - i
  {
    if i < |s| {
      assert ParenMatchAt(s, i).None?;
      RemoveParenGroupsWithoutOpen(s, i + 1);
      assert s[i..] == [s[i]] + s[i + 1..];
    }
  }

  /** A title without `(` is only trimmed by the second clean-up. */
  lemma StripParenGroupsWithoutParens(title: string)
    requires forall k :: 0 <= k < |title| ==> title[k] != '('
    ensures StripParenGroups(title) == Trim(title)
  {
    RemoveParenGroupsWithoutOpen(title, 0);
    assert title[0..] == title;
  }

  /** Text free of `(` that does not end in white space holds no match of the pattern. */
  lemma NoParenGroupInPlainText(s: string, i: nat, m: nat)
    requires i < m <= |s|
    requires forall k :: i <= k < m ==> s[k] != '('
    requires !IsSpace(s[m - 1])
    ensures ParenMatchAt(s, i).None?
  {
    assert forall j, k :: ParenGroupAt(s, i, j, k) ==> m <= j;
  }

  /** Plain text keeps its first character through the replacement. */
  lemma RemoveParenGroupsKeepsFirst(s: string, i: nat, m: nat)
    requires i < m <= |s|
    requires forall k :: i <= k < m ==> s[k] != '('
    requires !IsSpace(s[m - 1])
    ensures RemoveParenGroups(s, i) == [s[i]] + RemoveParenGroups(s, i + 1)
  {
    NoParenGroupInPlainText(s, i, m);
  }

  lemma SliceCons(s: string, i: nat, m: nat, rest: string)
    requires i < m <= |s|
    ensures [s[i]] + (s[i + 1..m] + rest) == s[i..m] + rest
  {
    assert s[i..m] == [s[i]] + s[i + 1..m];
  }

  /** Such text passes through the replacement unchanged, whatever follows it. */
  lemma {:induction false} RemoveParenGroupsKeepsPlainText(s: string, i: nat, m: nat)
    requires i <= m <= |s|
    requires forall k :: i <= k < m ==> s[k] != '('
    requires i < m ==> !IsSpace(s[m - 1])
    ensures RemoveParenGroups(s, i) == s[i..m] + RemoveParenGroups(s, m)
    decreases m - i
  {
    if i < m {
      RemoveParenGroupsKeepsFirst(s, i, m);
      RemoveParenGroupsKeepsPlainText(s, i + 1, m);
      SliceCons(s, i, m, RemoveParenGroups(s, m));
    } else {
      assert s[i..m] == [];
    }
  }

  // A catalog title with a year annotation: the clean-up drops the year and the
  // space before it, and keeps the rest.

  const ExampleTitle: string := "Example Show (2021)"

  lemma ExampleTitleChars()
    ensures |ExampleTitle| == 19 && ExampleTitle[12] == ' ' && ExampleTitle[13] == '(' && ExampleTitle[18] == ')'
    ensures ExampleTitle[..12] == "Example Show"
    ensures forall k :: 0 <= k < 12 ==> ExampleTitle[k] != '('
    ensures forall k :: 14 <= k < 18 ==> ExampleTitle[k] != ')' && !IsLineTerminator(ExampleTitle[k])
  {}

  lemma ExampleTitleYearGroup()
    ensures RemoveParenGroups(ExampleTitle, 12) == ""
  {
    ExampleTitleChars();
    assert !IsSpace('(');
    assert SkipSpaces(ExampleTitle, 13) == 13;
    assert SkipSpaces(ExampleTitle, 12) == 13;
    assert CloseParen(ExampleTitle, 18) == Some(18);
    assert CloseParen(ExampleTitle, 17) == Some(18);
    assert CloseParen(ExampleTitle, 16) == Some(18);
    assert CloseParen(ExampleTitle, 15) == Some(18);
    assert CloseParen(ExampleTitle, 14) == Some(18);
    assert ParenMatchAt(ExampleTitle, 12) == Some(19);
  }

  lemma StripParenGroupsExample()
    ensures StripParenGroups(ExampleTitle) == "Example Show"
  {
    ExampleTitleChars();
    RemoveParenGroupsKeepsPlainText(ExampleTitle, 0, 12);
    ExampleTitleYearGroup();
    assert ExampleTitle[0..12] == ExampleTitle[..12] == "Example Show";
    assert RemoveParenGroups(ExampleTitle, 0) == "Example Show";
    assert !IsSpace('E') && !IsSpace('w');
    TrimOfTrimmed("Example Show");
  }

  // ---------------------------------------------------------------------------
  // /season\s+\d+/gi

  /** The six characters at `i` spell "season" in some mix of ASCII cases. */
  predicate SeasonWordAt(s: string, i: int) {
    0 <= i && i + 6 <= |s| && LowerAsciiString(s[i..i + 6]) == "season"
  }

  /**
    `season\s+\d+` matches `s[i..d]` with the white space ending at `j`:
    the word, at least one white-space character, at least one digit.
  */
  predicate SeasonTagAt(s: string, i: int, j: int, d: int) {
    && SeasonWordAt(s, i)
    && i + 6 < j < d <= |s|
    && (forall m :: i + 6 <= m < j ==> IsSpace(s[m]))
    && (forall m :: j <= m < d ==> IsDigit(s[m]))
  }

  /** Where the match of `season\s+\d+` that starts at `i` ends (greedy: all the digits), if any. */
  function SeasonMatchAt(s: string, i: nat): (r: Option<nat>)
    requires i <= |s|
    ensures r.Some? ==> i < r.value <= |s| && (r.value == |s| || !IsDigit(s[r.value]))
    ensures r.Some? ==> exists j :: SeasonTagAt(s, i, j, r.value)
    ensures r.None? ==> forall j, d :: !SeasonTagAt(s, i, j, d)
  {
    if !SeasonWordAt(s, i) then None
    else
      var j := SkipSpaces(s, i + 6);
      assert forall j', d :: SeasonTagAt(s, i, j', d) ==> j' == j by {
        forall j', d | SeasonTagAt(s, i, j', d) ensures j' == j {
          assert IsDigit(s[j']) && !IsSpace(s[j']);
        }
      }
      var d := SkipDigits(s, j);
      if j == i + 6 || d == j then None
      else
        assert SeasonTagAt(s, i, j, d);
        Some(d)
  }

  /** `s[i..]` after every match of `season\s+\d+` (any case) has been replaced by nothing. */
  function RemoveSeasonTags(s: string, i: nat): (r: string)
    requires i <= |s|
    ensures |r| <= |s| - i
    decreases |s| - i
  {
    if i == |s| then ""
    else match SeasonMatchAt(s, i)
      case Some(e) => RemoveSeasonTags(s, e)
      case None => [s[i]] + RemoveSeasonTags(s, i + 1)
  }

  /** The title with "season N" stripped, as the resolver's third attempt searches it. */
  function StripSeasonTag(title: string): string {
    Trim(RemoveSeasonTags(title, 0))
  }

  /** Without a digit the pattern never matches, so the replacement changes nothing. */
  lemma {:induction false} RemoveSeasonTagsWithoutDigits(s: string, i: nat)
    requires i <= |s|
    requires forall k :: i <= k < |s| ==> !IsDigit(s[k])
    ensures RemoveSeasonTags(s, i) == s[i..]
    decreases |s| - i
  {
    if i < |s| {
      assert SeasonMatchAt(s, i).None?;
      RemoveSeasonTagsWithoutDigits(s, i + 1);
      assert s[i..] == [s[i]] + s[i + 1..];
    }
  }

  // A title with a season number: the clean-up drops "Season 2" and the
  // trailing space the replacement leaves behind.

  const SeasonTitle: string := "Naruto Season 2"

  /** No match of `season\s+\d+` starts at a character that does not lower-case to `s`. */
  lemma NoSeasonMatchAt(s: string, i: nat)
    requires i < |s| && LowerAscii(s[i]) != 's'
    ensures SeasonMatchAt(s, i).None?
  {
    if i + 6 <= |s| {
      assert LowerAsciiString(s[i..i + 6])[0] == LowerAscii(s[i]);
    }
  }

  /** Text without an `s` in either case passes through the replacement unchanged, whatever follows it. */
  lemma {:induction false} RemoveSeasonTagsKeepsPlainText(s: string, i: nat, m: nat)
    requires i <= m <= |s|
    requires forall k :: i <= k < m ==> LowerAscii(s[k]) != 's'
    ensures RemoveSeasonTags(s, i) == s[i..m] + RemoveSeasonTags(s, m)
    decreases m - i
  {
    if i < m {
      NoSeasonMatchAt(s, i);
      RemoveSeasonTagsKeepsPlainText(s, i + 1, m);
      SliceCons(s, i, m, RemoveSeasonTags(s, m));
    } else {
      assert s[i..m] == [];
    }
  }

  lemma SeasonTitleChars()
    ensures |SeasonTitle| == 15 && SeasonTitle[..7] == "Naruto "
    ensures forall k :: 0 <= k < 7 ==> LowerAscii(SeasonTitle[k]) != 's'
    ensures SeasonTitle[13] == ' ' && SeasonTitle[14] == '2'
  {}

  lemma SeasonTitleTag()
    ensures SeasonMatchAt(SeasonTitle, 7) == Some(15)
  {
    var s := SeasonTitle;
    SeasonTitleChars();
    var w := LowerAsciiString(s[7..13]);
    assert w[0] == 's' && w[1] == 'e' && w[2] == 'a' && w[3] == 's' && w[4] == 'o' && w[5] == 'n';
    assert w == "season";
    assert SkipSpaces(s, 14) == 14;
    assert SkipSpaces(s, 13) == 14;
    assert SkipDigits(s, 15) == 15;
    assert SkipDigits(s, 14) == 15;
  }

  lemma StripSeasonTagExample()
    ensures StripSeasonTag(SeasonTitle) == "Naruto"
  {
    var s := SeasonTitle;
    SeasonTitleChars();
    RemoveSeasonTagsKeepsPlainText(s, 0, 7);
    SeasonTitleTag();
    assert RemoveSeasonTags(s, 7) == "";
    assert s[0..7] == s[..7];
    assert RemoveSeasonTags(s, 0) == "Naruto ";
    TrimNarutoSpace();
  }

  lemma TrimNarutoSpace()
    ensures Trim("Naruto ") == "Naruto"
  {
    var t := "Naruto ";
    assert !IsSpace(t[0]);
    assert TrimStart(t) == t;
    assert IsSpace(t[6]);
    assert t[..6] == "Naruto";
    assert TrimEnd(t) == TrimEnd("Naruto");
    assert !IsSpace("Naruto"[5]);
    assert TrimEnd("Naruto") == "Naruto";
  }

  /** A title without digits is only trimmed by the third clean-up. */
  lemma StripSeasonTagWithoutDigits(title: string)
    requires forall k :: 0 <= k < |title| ==> !IsDigit(title[k])
    ensures StripSeasonTag(title) == Trim(title)
  {
    RemoveSeasonTagsWithoutDigits(title, 0);
    assert title[0..] == title;
  }
}
