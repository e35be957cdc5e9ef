/**
 * Rendering of a prompt template against a one-entry variable map, as PromptTemplate does
 * with its `{name}` delimiters: every placeholder must name the bound variable and is replaced
 * by its value; any other placeholder, an unclosed `{`, or an empty or nested name is an error.
 */
module TemplateRender {
  import opened Wrappers
  import opened JavaText
  import opened Exceptions

  /** A parsed template: literal characters and named placeholders. */
  datatype Segment = Literal(c: char) | Placeholder(name: string)

  /** The single entry of a Map.of(name, value) variable map. */
  datatype Binding = Binding(name: string, value: string)

  predicate ValidName(name: string) {
    |name| > 0 && '{' !in name && '}' !in name
  }

  /** Segments that `Parse` can produce. */
  predicate WellFormed(segs: seq<Segment>) {
    forall i :: 0 <= i < |segs| ==>
      match segs[i]
      case Literal(c) => c != '{'
      case Placeholder(name) => ValidName(name)
  }

  /** Splits a template into literals and placeholders; None for a malformed template. */
  function Parse(t: string): Option<seq<Segment>>
    decreases |t|
  {
    if t == [] then Some([])
    else if t[0] == '{' then
      match IndexOf(t, '}', 1)
      case None => None
      case Some(k) =>
        if !ValidName(t[1..k]) then None
        else
          match Parse(t[k + 1..])
          case None => None
          case Some(rest) => Some([Placeholder(t[1..k])] + rest)
    else
      match Parse(t[1..])
      case None => None
      case Some(rest) => Some([Literal(t[0])] + rest)
  }

  /** The template text that a sequence of segments stands for. */
  function Unparse(segs: seq<Segment>): string
  {
    if segs == [] then ""
    else
      (match segs[0]
       case Literal(c) => [c]
       case Placeholder(name) => "{" + name + "}")
      + Unparse(segs[1..])
  }

  /** The segments with every placeholder replaced by `value`. */
  function Fill(segs: seq<Segment>, value: string): string
  {
    if segs == [] then ""
    else
      (match segs[0]
       case Literal(c) => [c]
       case Placeholder(_) => value)
      + Fill(segs[1..], value)
  }

  /** Every placeholder names the bound variable. */
  predicate OnlyNames(segs: seq<Segment>, name: string) {
    forall i :: 0 <= i < |segs| ==> segs[i].Placeholder? ==> segs[i].name == name
  }

  /** The exception the template engine raises; its wording is the engine's and not modelled. */
  const RenderFailure := Throwable(TemplateRenderError, None, None)

  /** PromptTemplate.createMessage(map).getText() for a one-entry map. */
  function Render(template: string, b: Binding): (r: Result<string, Throwable>)
    ensures r.Failure? ==> r.error == RenderFailure
    ensures r.Success? <==> Parse(template).Some? && OnlyNames(Parse(template).value, b.name)
  {
    match Parse(template)
    case None => Failure(RenderFailure)
    case Some(segs) =>
      if OnlyNames(segs, b.name) then Success(Fill(segs, b.value)) else Failure(RenderFailure)
  }

  lemma {:induction false} UnparseAppend(a: seq<Segment>, b: seq<Segment>)
    ensures Unparse(a + b) == Unparse(a) + Unparse(b)
    decreases |a|
  {
    if a != [] {
      assert (a + b)[1..] == a[1..] + b;
      UnparseAppend(a[1..], b);
    } else {
      assert a + b == b;
    }
  }

  lemma {:induction false} FillAppend(a: seq<Segment>, b: seq<Segment>, value: string)
    ensures Fill(a + b, value) == Fill(a, value) + Fill(b, value)
    decreases |a|
  {
    if a != [] {
      assert (a + b)[1..] == a[1..] + b;
      FillAppend(a[1..], b, value);
    } else {
      assert a + b == b;
    }
  }

  /** Parsing the text of well-formed segments gives the segments back. */
  lemma {:induction false} ParseUnparse(segs: seq<Segment>)
    requires WellFormed(segs)
    ensures Parse(Unparse(segs)) == Some(segs)
    decreases |segs|
  {
    if segs != [] {
      var t := Unparse(segs);
      var rest := Unparse(segs[1..]);
      assert WellFormed(segs[1..]) by {
        forall i | 0 <= i < |segs[1..]| ensures segs[1..][i] == segs[i + 1] { }
      }
      ParseUnparse(segs[1..]);
      match segs[0]
      case Literal(c) =>
        assert t == [c] + rest;
        assert t[1..] == rest;
        assert segs == [Literal(c)] + segs[1..];
      case Placeholder(name) =>
        assert ValidName(name) by { assert segs[0] == Placeholder(name); }
        var k := |name| + 1;
        assert t == "{" + name + "}" + rest;
        assert t[1..k] == name;
        assert t[k] == '}';
        IndexOfFirst(t, '}', 1, k);
        assert t[k + 1..] == rest;
        assert segs == [Placeholder(name)] + segs[1..];
    }
  }

  /** A well-formed segment in front of well-formed segments. */
  lemma WellFormedCons(seg: Segment, rest: seq<Segment>)
    requires WellFormed(rest)
    requires match seg
      case Literal(c) => c != '{'
      case Placeholder(name) => ValidName(name)
    ensures WellFormed([seg] + rest)
  {
    forall i | 1 <= i < |[seg] + rest| ensures ([seg] + rest)[i] == rest[i - 1] { }
  }

  /** How a template opening with a placeholder parses. */
  lemma ParsePlaceholderStep(t: string)
    requires t != [] && t[0] == '{' && Parse(t).Some?
    ensures IndexOf(t, '}', 1).Some?
    ensures var k := IndexOf(t, '}', 1).value;
      && ValidName(t[1..k]) && Parse(t[k + 1..]).Some?
      && Parse(t).value == [Placeholder(t[1..k])] + Parse(t[k + 1..]).value
  {
  }

  /** How a template opening with a literal character parses. */
  lemma ParseLiteralStep(t: string)
    requires t != [] && t[0] != '{' && Parse(t).Some?
    ensures Parse(t[1..]).Some? && Parse(t).value == [Literal(t[0])] + Parse(t[1..]).value
  {
  }

  /** Whatever parses is well formed and is the text of its segments. */
  lemma {:induction false} UnparseParse(t: string)
    requires Parse(t).Some?
    ensures WellFormed(Parse(t).value) && Unparse(Parse(t).value) == t
    decreases |t|
  {
    if t != [] {
      var segs := Parse(t).value;
      if t[0] == '{' {
        ParsePlaceholderStep(t);
        var k := IndexOf(t, '}', 1).value;
        var name := t[1..k];
        var rest := Parse(t[k + 1..]).value;
        UnparseParse(t[k + 1..]);
        assert segs[1..] == rest;
        assert Unparse(segs) == "{" + name + "}" + Unparse(rest);
        assert t == "{" + name + "}" + t[k + 1..];
        WellFormedCons(Placeholder(name), rest);
      } else {
        ParseLiteralStep(t);
        var rest := Parse(t[1..]).value;
        UnparseParse(t[1..]);
        assert segs[1..] == rest;
        assert Unparse(segs) == [t[0]] + Unparse(rest);
        assert t == [t[0]] + t[1..];
        WellFormedCons(Literal(t[0]), rest);
      }
    }
  }

  /** The literal segments of a brace-free text. */
  function Literals(s: string): (segs: seq<Segment>)
    ensures |segs| == |s|
    ensures forall i :: 0 <= i < |s| ==> segs[i] == Literal(s[i])
  {
    if s == [] then [] else [Literal(s[0])] + Literals(s[1..])
  }

  lemma {:induction false} LiteralsText(s: string, value: string)
    ensures Unparse(Literals(s)) == s && Fill(Literals(s), value) == s
    decreases |s|
  {
    if s != [] {
      assert Literals(s)[1..] == Literals(s[1..]);
      LiteralsText(s[1..], value);
      assert s == [s[0]] + s[1..];
    }
  }

  /** The template Join(pieces, "{name}") as segments. */
  function Holes(pieces: seq<string>, name: string): seq<Segment>
    requires |pieces| >= 1
    decreases |pieces|
  {
    if |pieces| == 1 then Literals(pieces[0])
    else Literals(pieces[0]) + [Placeholder(name)] + Holes(pieces[1..], name)
  }

  lemma {:induction false} HolesWellFormed(pieces: seq<string>, name: string)
    requires |pieces| >= 1 && ValidName(name)
    requires forall i :: 0 <= i < |pieces| ==> '{' !in pieces[i]
    ensures WellFormed(Holes(pieces, name)) && OnlyNames(Holes(pieces, name), name)
    decreases |pieces|
  {
    var lit := Literals(pieces[0]);
    assert WellFormed(lit) && OnlyNames(lit, name) by {
      forall i | 0 <= i < |lit| ensures lit[i] == Literal(pieces[0][i]) { }
    }
    if |pieces| > 1 {
      HolesWellFormed(pieces[1..], name);
      var segs := Holes(pieces, name);
      var tail := Holes(pieces[1..], name);
      assert segs == lit + [Placeholder(name)] + tail;
      forall i | 0 <= i < |segs|
        ensures segs[i] == if i < |lit| then lit[i] else if i == |lit| then Placeholder(name) else tail[i - |lit| - 1]
      { }
    }
  }

  lemma {:induction false} HolesText(pieces: seq<string>, name: string)
    requires |pieces| >= 1
    ensures Unparse(Holes(pieces, name)) == Join(pieces, "{" + name + "}")
    decreases |pieces|
  {
    LiteralsText(pieces[0], "");
    if |pieces| > 1 {
      var lit := Literals(pieces[0]);
      HolesText(pieces[1..], name);
      UnparseAppend(lit + [Placeholder(name)], Holes(pieces[1..], name));
      UnparseAppend(lit, [Placeholder(name)]);
      assert Unparse([Placeholder(name)]) == "{" + name + "}";
    }
  }

  lemma {:induction false} HolesFill(pieces: seq<string>, name: string, value: string)
    requires |pieces| >= 1
    ensures Fill(Holes(pieces, name), value) == Join(pieces, value)
    decreases |pieces|
  {
    LiteralsText(pieces[0], value);
    if |pieces| > 1 {
      var lit := Literals(pieces[0]);
      HolesFill(pieces[1..], name, value);
      FillAppend(lit + [Placeholder(name)], Holes(pieces[1..], name), value);
      FillAppend(lit, [Placeholder(name)], value);
      assert Fill([Placeholder(name)], value) == value;
    }
  }

  /**
   * Rendering is textual replacement: a template made of brace-free pieces separated by
   * `{name}` renders to the same pieces separated by the bound value.
   */
  lemma RenderIsReplacement(pieces: seq<string>, b: Binding)
    requires |pieces| >= 1 && ValidName(b.name)
    requires forall i :: 0 <= i < |pieces| ==> '{' !in pieces[i]
    ensures Render(Join(pieces, "{" + b.name + "}"), b) == Success(Join(pieces, b.value))
  {
    HolesWellFormed(pieces, b.name);
    HolesText(pieces, b.name);
    HolesFill(pieces, b.name, b.value);
    ParseUnparse(Holes(pieces, b.name));
  }

  /** A template without placeholders renders to itself, whatever is bound. */
  lemma RenderPlainText(t: string, b: Binding)
    requires '{' !in t
    ensures Render(t, b) == Success(t)
  {
    LiteralsText(t, b.value);
    ParseUnparse(Literals(t));
  }

  /** A placeholder for any other variable makes rendering fail. */
  lemma RenderRejectsForeignPlaceholder(t: string, b: Binding, i: nat)
    requires Parse(t).Some? && i < |Parse(t).value|
    requires Parse(t).value[i].Placeholder? && Parse(t).value[i].name != b.name
    ensures Render(t, b) == Failure(RenderFailure)
  {
  }
}
