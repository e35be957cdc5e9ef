/**
 * The pieces of java.lang.String, java.lang.Character and java.util.regex that the
 * services rely on, over strings of Unicode scalar values.
 */
module JavaText {
  import opened Wrappers

  /** The nineteen code points of \p{Z} (seventeen in Zs, one each in Zl and Zp), listed one by one. */
  const SeparatorCodePoints: set<char> :=
    {' ', '\U{00A0}', '\U{1680}',
     '\U{2000}', '\U{2001}', '\U{2002}', '\U{2003}', '\U{2004}', '\U{2005}',
     '\U{2006}', '\U{2007}', '\U{2008}', '\U{2009}', '\U{200A}',
     '\U{2028}', '\U{2029}', '\U{202F}', '\U{205F}', '\U{3000}'}

  /** The code points for which Character.isWhitespace holds, listed one by one. */
  const WhitespaceCodePoints: set<char> :=
    {'\t', '\n', '\U{000B}', '\U{000C}', '\r', '\U{001C}', '\U{001D}', '\U{001E}', '\U{001F}',
     ' ', '\U{1680}',
     '\U{2000}', '\U{2001}', '\U{2002}', '\U{2003}', '\U{2004}', '\U{2005}', '\U{2006}',
     '\U{2008}', '\U{2009}', '\U{200A}',
     '\U{2028}', '\U{2029}', '\U{205F}', '\U{3000}'}

  /** Membership in the regular-expression class \p{Z}: general categories Zs, Zl and Zp. */
  predicate IsSeparator(c: char) {
    || c == ' '
    || c == '\U{00A0}'
    || c == '\U{1680}'
    || ('\U{2000}' <= c <= '\U{200A}')
    || c == '\U{2028}'
    || c == '\U{2029}'
    || c == '\U{202F}'
    || c == '\U{205F}'
    || c == '\U{3000}'
  }

  /**
   * Character.isWhitespace: a \p{Z} character other than the three non-breaking spaces
   * U+00A0, U+2007 and U+202F, or one of the nine control characters the JDK lists.
   */
  predicate IsWhitespace(c: char) {
    || (IsSeparator(c) && c != '\U{00A0}' && c != '\U{2007}' && c != '\U{202F}')
    || c == '\t' || c == '\n' || c == '\U{000B}' || c == '\U{000C}' || c == '\r'
    || c == '\U{001C}' || c == '\U{001D}' || c == '\U{001E}' || c == '\U{001F}'
  }

  /** The \p{Z} class is exactly the listed separator code points. */
  lemma SeparatorsListed(c: char)
    ensures IsSeparator(c) <==> c in SeparatorCodePoints
  {
  }

  /** Character.isWhitespace holds exactly for the listed whitespace code points. */
  lemma WhitespaceListed(c: char)
    ensures IsWhitespace(c) <==> c in WhitespaceCodePoints
  {
  }

  /** The position of the first non-whitespace code point at or after `from`, or |s|. */
  function IndexOfNonWhitespace(s: string, from: nat): (r: nat)
    requires from <= |s|
    ensures from <= r <= |s|
    ensures forall i :: from <= i < r ==> IsWhitespace(s[i])
    ensures r < |s| ==> !IsWhitespace(s[r])
    decreases |s| - from
  {
    if from == |s| || !IsWhitespace(s[from]) then from else IndexOfNonWhitespace(s, from + 1)
  }

  /** String.isBlank: empty, or only whitespace code points. */
  predicate IsBlank(s: string) {
    forall i :: 0 <= i < |s| ==> IsWhitespace(s[i])
  }

  /** The JDK computes isBlank as indexOfNonWhitespace() == length(); the two agree. */
  lemma BlankByScan(s: string)
    ensures IsBlank(s) <==> IndexOfNonWhitespace(s, 0) == |s|
  {
  }

  /** String.indexOf(c, from): the first position at or after `from` holding `c`. */
  function IndexOf(s: string, c: char, from: nat): (r: Option<nat>)
    requires from <= |s|
    ensures r.Some? ==> from <= r.value < |s| && s[r.value] == c && c !in s[from..r.value]
    ensures r.None? ==> c !in s[from..]
    decreases |s| - from
  {
    if from == |s| then None
    else if s[from] == c then Some(from)
    else IndexOf(s, c, from + 1)
  }

  /** The first occurrence is unique: any position with no earlier `c` is the one found. */
  lemma IndexOfFirst(s: string, c: char, from: nat, k: nat)
    requires from <= k < |s| && s[k] == c && c !in s[from..k]
    ensures IndexOf(s, c, from) == Some(k)
  {
  }

  /** Collectors.joining(sep): the pieces with `sep` between neighbours and nowhere else. */
  function Join(pieces: seq<string>, sep: string): string
  {
    if |pieces| == 0 then ""
    else if |pieces| == 1 then pieces[0]
    else pieces[0] + sep + Join(pieces[1..], sep)
  }

  /** Every character of a joined string comes from a piece or from the separator. */
  lemma {:induction false} JoinChars(pieces: seq<string>, sep: string, c: char)
    requires c in Join(pieces, sep)
    ensures c in sep || exists j :: 0 <= j < |pieces| && c in pieces[j]
    decreases |pieces|
  {
    if |pieces| > 1 {
      var rest := Join(pieces[1..], sep);
      if c !in pieces[0] && c !in sep {
        assert c in rest;
        JoinChars(pieces[1..], sep, c);
        var j :| 0 <= j < |pieces[1..]| && c in pieces[1..][j];
        assert c in pieces[j + 1];
      }
    }
  }

  /** Sum of the piece lengths. */
  function TotalLength(pieces: seq<string>): nat
  {
    if pieces == [] then 0 else |pieces[0]| + TotalLength(pieces[1..])
  }

  /** A join of n pieces holds exactly n - 1 separators besides the pieces. */
  lemma {:induction false} JoinLength(pieces: seq<string>, sep: string)
    requires |pieces| >= 1
    ensures |Join(pieces, sep)| == TotalLength(pieces) + (|pieces| - 1) * |sep|
    decreases |pieces|
  {
    if |pieces| > 1 {
      JoinLength(pieces[1..], sep);
    } else {
      assert TotalLength(pieces[1..]) == 0;
    }
  }
}
