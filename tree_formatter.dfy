/**
 * TreeFormatter.cleanAndFormatTree: blank input gives the empty string; otherwise the text is
 * split on '\n' as String.split does, every \p{Z} character of each line becomes a plain
 * space, and the lines are joined with the platform line separator.
 */
module TreeFormatter {
  import opened Wrappers
  import opened JavaText

  /** All pieces between occurrences of `d`, empty ones included (split with a negative limit). */
  function SplitAll(s: string, d: char): (pieces: seq<string>)
    ensures |pieces| >= 1
    ensures forall i :: 0 <= i < |pieces| ==> d !in pieces[i]
    decreases |s|
  {
    match IndexOf(s, d, 0)
    case None =>
      assert s[0..] == s;
      [s]
    case Some(k) =>
      assert s[0..k] == s[..k];
      [s[..k]] + SplitAll(s[k + 1..], d)
  }

  /** The pieces without their run of trailing empty strings. */
  function DropTrailingEmpty(pieces: seq<string>): (r: seq<string>)
    ensures r <= pieces
    ensures |r| > 0 ==> r[|r| - 1] != []
    ensures forall i :: |r| <= i < |pieces| ==> pieces[i] == []
    decreases |pieces|
  {
    if |pieces| > 0 && pieces[|pieces| - 1] == [] then DropTrailingEmpty(pieces[..|pieces| - 1])
    else pieces
  }

  /**
   * String.split(d) with limit 0: leading and interior empty pieces are kept and only trailing
   * ones dropped. The pieces hold no delimiter, joining them restores a prefix of the text and
   * all that follows that prefix is delimiters; without a delimiter the text is the one piece.
   */
  function JavaSplit(s: string, d: char): (pieces: seq<string>)
    ensures forall i :: 0 <= i < |pieces| ==> d !in pieces[i]
    ensures Join(pieces, [d]) <= s
    ensures forall i :: |Join(pieces, [d])| <= i < |s| ==> s[i] == d
    ensures d !in s ==> pieces == [s]
    ensures d in s && |pieces| > 0 ==> pieces[|pieces| - 1] != []
  {
    if d !in s then [s]
    else
      DroppedPieces(s, d);
      DropTrailingEmpty(SplitAll(s, d))
  }

  /** line.replaceAll("\\p{Z}", " "). */
  function ReplaceSeparators(line: string): (r: string)
    ensures |r| == |line|
    ensures forall i :: 0 <= i < |line| ==> r[i] == if IsSeparator(line[i]) then ' ' else line[i]
  {
    if line == [] then []
    else [if IsSeparator(line[0]) then ' ' else line[0]] + ReplaceSeparators(line[1..])
  }

  /** The .map step: every line keeps its length, its \p{Z} characters become plain spaces. */
  function CleanLines(lines: seq<string>): (r: seq<string>)
    ensures |r| == |lines|
    ensures forall i :: 0 <= i < |lines| ==> |r[i]| == |lines[i]|
    ensures forall i, k :: 0 <= i < |lines| && 0 <= k < |lines[i]| ==>
      r[i][k] == if IsSeparator(lines[i][k]) then ' ' else lines[i][k]
  {
    seq(|lines|, i requires 0 <= i < |lines| => ReplaceSeparators(lines[i]))
  }

  /** cleanAndFormatTree, with None for a null tree and the line separator as a parameter. */
  function CleanAndFormatTree(rawTree: Option<string>, lineSeparator: string): (r: string)
    ensures rawTree.None? || IsBlank(rawTree.value) ==> r == ""
  {
    if rawTree.None? || IsBlank(rawTree.value) then ""
    else Join(CleanLines(JavaSplit(rawTree.value, '\n')), lineSeparator)
  }

  /** Joining the full split with the delimiter restores the text. */
  lemma {:induction false} SplitAllJoin(s: string, d: char)
    ensures Join(SplitAll(s, d), [d]) == s
    decreases |s|
  {
    match IndexOf(s, d, 0)
    case None =>
    case Some(k) =>
      var rest := SplitAll(s[k + 1..], d);
      SplitAllJoin(s[k + 1..], d);
      assert SplitAll(s, d) == [s[..k]] + rest;
      assert ([s[..k]] + rest)[1..] == rest;
      assert s == s[..k] + [d] + s[k + 1..];
  }

  /** Splitting delimiter-free pieces joined by the delimiter gives the pieces back. */
  lemma {:induction false} JoinSplitAll(pieces: seq<string>, d: char)
    requires |pieces| >= 1
    requires forall i :: 0 <= i < |pieces| ==> d !in pieces[i]
    ensures SplitAll(Join(pieces, [d]), d) == pieces
    decreases |pieces|
  {
    var s := Join(pieces, [d]);
    if |pieces| > 1 {
      var k := |pieces[0]|;
      var rest := Join(pieces[1..], [d]);
      assert s == pieces[0] + [d] + rest;
      assert s[0..k] == pieces[0];
      IndexOfFirst(s, d, 0, k);
      assert s[..k] == pieces[0];
      assert s[k + 1..] == rest;
      JoinSplitAll(pieces[1..], d);
      assert pieces == [pieces[0]] + pieces[1..];
    }
  }

  lemma {:induction false} JoinAppend(a: seq<string>, b: seq<string>, sep: string)
    requires |a| >= 1 && |b| >= 1
    ensures Join(a + b, sep) == Join(a, sep) + sep + Join(b, sep)
    decreases |a|
  {
    if |a| == 1 {
      assert (a + b)[1..] == b;
    } else {
      assert (a + b)[1..] == a[1..] + b;
      JoinAppend(a[1..], b, sep);
    }
  }

  /** Dropping the trailing empty pieces of the full split leaves a prefix followed by delimiters. */
  lemma DroppedPieces(s: string, d: char)
    ensures var pieces := DropTrailingEmpty(SplitAll(s, d));
      && Join(pieces, [d]) <= s
      && (forall i :: |Join(pieces, [d])| <= i < |s| ==> s[i] == d)
  {
    SplitAllJoin(s, d);
    DropJoin(SplitAll(s, d), d);
  }

  /** Dropping trailing empty pieces shortens a join to a prefix followed only by delimiters. */
  lemma DropJoin(all: seq<string>, d: char)
    ensures var pieces := DropTrailingEmpty(all);
      && Join(pieces, [d]) <= Join(all, [d])
      && (forall i :: |Join(pieces, [d])| <= i < |Join(all, [d])| ==> Join(all, [d])[i] == d)
  {
    var pieces := DropTrailingEmpty(all);
    var empties := all[|pieces|..];
    assert all == pieces + empties;
    assert forall i :: 0 <= i < |empties| ==> empties[i] == all[|pieces| + i];
    PrefixThenDelimiters(pieces, empties, d);
  }

  /** Appending empty pieces to a join keeps it as a prefix and appends only delimiters. */
  lemma PrefixThenDelimiters(pieces: seq<string>, empties: seq<string>, d: char)
    requires forall i :: 0 <= i < |empties| ==> empties[i] == []
    ensures var s := Join(pieces + empties, [d]);
      && Join(pieces, [d]) <= s
      && (forall i :: |Join(pieces, [d])| <= i < |s| ==> s[i] == d)
  {
    if |empties| == 0 {
      assert pieces + empties == pieces;
    } else if |pieces| == 0 {
      assert pieces + empties == empties;
      OnlyDelimiters(empties, d);
    } else {
      TrailingDelimiters(pieces, empties, d);
    }
  }

  /** Joining empty pieces gives nothing but delimiters. */
  lemma OnlyDelimiters(empties: seq<string>, d: char)
    requires forall i :: 0 <= i < |empties| ==> empties[i] == []
    ensures forall i :: 0 <= i < |Join(empties, [d])| ==> Join(empties, [d])[i] == d
  {
  }

  /** Appending empty pieces to a join only appends delimiters. */
  lemma TrailingDelimiters(pieces: seq<string>, empties: seq<string>, d: char)
    requires |pieces| >= 1 && |empties| >= 1
    requires forall i :: 0 <= i < |empties| ==> empties[i] == []
    ensures var s := Join(pieces + empties, [d]);
      && Join(pieces, [d]) <= s
      && forall i :: |Join(pieces, [d])| <= i < |s| ==> s[i] == d
  {
    JoinAppend(pieces, empties, [d]);
    OnlyDelimiters(empties, d);
    var prefix := Join(pieces, [d]);
    var tail := Join(empties, [d]);
    var s := prefix + [d] + tail;
    forall i | |prefix| < i < |s| ensures s[i] == d {
      assert s[i] == tail[i - |prefix| - 1];
    }
  }

  /** A text that is not blank splits into at least one line, and its last line is not empty. */
  lemma NonBlankHasLines(s: string)
    requires !IsBlank(s)
    ensures |JavaSplit(s, '\n')| >= 1
    ensures JavaSplit(s, '\n')[|JavaSplit(s, '\n')| - 1] != []
  {
  }

  /**
   * With "\n" as the line separator, the lines of the output are exactly the cleaned lines of
   * the input: one output line per retained piece and no trailing separator.
   */
  lemma OutputLines(rawTree: string)
    requires !IsBlank(rawTree)
    ensures SplitAll(CleanAndFormatTree(Some(rawTree), "\n"), '\n') == CleanLines(JavaSplit(rawTree, '\n'))
  {
    var pieces := JavaSplit(rawTree, '\n');
    NonBlankHasLines(rawTree);
    var lines := CleanLines(pieces);
    JoinSplitAll(lines, '\n');
  }

  /** For any line separator, the output holds the lines and one separator between neighbours. */
  lemma OutputLength(rawTree: string, lineSeparator: string)
    requires !IsBlank(rawTree)
    ensures var lines := JavaSplit(rawTree, '\n');
      |CleanAndFormatTree(Some(rawTree), lineSeparator)| == TotalLength(lines) + (|lines| - 1) * |lineSeparator|
  {
    var lines := JavaSplit(rawTree, '\n');
    NonBlankHasLines(rawTree);
    CleanJoinLength(lines, lineSeparator);
    assert CleanAndFormatTree(Some(rawTree), lineSeparator) == Join(CleanLines(lines), lineSeparator);
  }

  /** Joining the cleaned lines gives their original lengths plus one separator between neighbours. */
  lemma CleanJoinLength(lines: seq<string>, lineSeparator: string)
    requires |lines| >= 1
    ensures |Join(CleanLines(lines), lineSeparator)| == TotalLength(lines) + (|lines| - 1) * |lineSeparator|
  {
    JoinLength(CleanLines(lines), lineSeparator);
    CleanLinesLength(lines);
  }

  lemma {:induction false} CleanLinesLength(lines: seq<string>)
    ensures TotalLength(CleanLines(lines)) == TotalLength(lines)
    decreases |lines|
  {
    if lines != [] {
      assert CleanLines(lines)[1..] == CleanLines(lines[1..]);
      CleanLinesLength(lines[1..]);
    }
  }

  /** No \p{Z} character other than U+0020 survives, unless the line separator brings one. */
  lemma OnlyPlainSpaces(rawTree: Option<string>, lineSeparator: string)
    requires forall j :: 0 <= j < |lineSeparator| ==> IsSeparator(lineSeparator[j]) ==> lineSeparator[j] == ' '
    ensures var r := CleanAndFormatTree(rawTree, lineSeparator);
      forall i :: 0 <= i < |r| ==> IsSeparator(r[i]) ==> r[i] == ' '
  {
    var r := CleanAndFormatTree(rawTree, lineSeparator);
    if r != "" {
      var lines := CleanLines(JavaSplit(rawTree.value, '\n'));
      forall i | 0 <= i < |r| && IsSeparator(r[i]) ensures r[i] == ' ' {
        assert r[i] in Join(lines, lineSeparator);
        JoinChars(lines, lineSeparator, r[i]);
        if r[i] !in lineSeparator {
          var j :| 0 <= j < |lines| && r[i] in lines[j];
          var k :| 0 <= k < |lines[j]| && lines[j][k] == r[i];
        }
      }
    }
  }

  /** A lone no-break space is not blank, so it comes out as one plain space. */
  lemma NoBreakSpaceIsKept(lineSeparator: string)
    ensures CleanAndFormatTree(Some("\U{00A0}"), lineSeparator) == " "
  {
    var nbsp := "\U{00A0}";
    assert nbsp[0] == '\U{00A0}' && !IsWhitespace(nbsp[0]);
    assert '\n' !in nbsp;
    assert ReplaceSeparators(nbsp)[0] == ' ';
  }
}
