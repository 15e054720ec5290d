/**
  From annotated syntax to a document: each node's comments and blank lines around
  the layout of its kind. A list is laid out as a generic call; the handlers that
  special forms dispatch to by head symbol are not part of this model.
*/
module Format {
  import opened Render
  import opened Trivia

  // ----- document builders ----------------------------------------------------------------------------

  function ToDocs(parts: seq<Doc>): Docs {
    if parts == [] then DNil else DCons(parts[0], ToDocs(parts[1..]))
  }

  function ConcatOf(parts: seq<Doc>): Doc {
    if parts == [] then Empty else if |parts| == 1 then parts[0] else Concat(ToDocs(parts))
  }

  function NestOf(levels: nat, d: Doc): Doc {
    if d.Empty? then d else Nest(levels, d)
  }

  function GroupOf(d: Doc): Doc {
    if d.Empty? then d else Group(d)
  }

  function Interleaved(sep: Doc, docs: seq<Doc>): seq<Doc> {
    if |docs| <= 1 then docs else Interleaved(sep, docs[..|docs| - 1]) + [sep, docs[|docs| - 1]]
  }

  function Intersperse(docs: seq<Doc>): Doc {
    if docs == [] then Empty else if |docs| == 1 then docs[0] else Concat(ToDocs(Interleaved(Break, docs)))
  }

  function FillParts(docs: seq<Doc>): seq<Doc>
    requires docs != []
  {
    [docs[0]] + Wrapped(docs[1..])
  }

  /** Each document behind a break of its own, so that it alone decides whether to wrap. */
  function Wrapped(docs: seq<Doc>): seq<Doc> {
    if docs == [] then [] else Wrapped(docs[..|docs| - 1]) + [Group(ConcatOf([Break, docs[|docs| - 1]]))]
  }

  function Fill(docs: seq<Doc>): Doc {
    if docs == [] then Empty else Concat(ToDocs(FillParts(docs)))
  }

  method IntersperseDocs(docs: seq<Doc>) returns (d: Doc)
    ensures d == Intersperse(docs)
  {
    if docs == [] { return Empty; }
    if |docs| == 1 { return docs[0]; }
    var parts := [];
    var i := 0;
    while i < |docs|
      invariant 0 <= i <= |docs| && parts == Interleaved(Break, docs[..i])
    {
      assert docs[..i + 1][..i] == docs[..i];
      if i > 0 { parts := parts + [Break]; }
      parts := parts + [docs[i]];
      i := i + 1;
    }
    assert docs[..i] == docs;
    d := Concat(ToDocs(parts));
  }

  method FillDocs(docs: seq<Doc>) returns (d: Doc)
    ensures d == Fill(docs)
  {
    if docs == [] { return Empty; }
    var parts := [];
    var i := 0;
    while i < |docs|
      invariant 0 <= i <= |docs| && parts == if i == 0 then [] else [docs[0]] + Wrapped(docs[1..i])
    {
      if i == 0 {
        parts := parts + [docs[i]];
      } else {
        assert docs[1..i + 1][..i - 1] == docs[1..i];
        parts := parts + [Group(ConcatOf([Break, docs[i]]))];
      }
      i := i + 1;
    }
    assert docs[1..i] == docs[1..];
    d := Concat(ToDocs(parts));
  }

  // ----- trivia ------------------------------------------------------------------------------------------

  predicate HasComment(ts: seq<Trivia>) {
    exists i :: 0 <= i < |ts| && ts[i].Comment?
  }

  function Blanks(count: nat): seq<Doc> {
    seq(if count <= 2 then count else 2, _ => BlankLine)
  }

  function LeadingItems(ts: seq<Trivia>): seq<Doc> {
    if ts == [] then []
    else
      var last := ts[|ts| - 1];
      LeadingItems(ts[..|ts| - 1]) + match last
        case Comment(text, _, _) => [Text(text), HardBreak]
        case BlankLines(count, _, _) => Blanks(count)
  }

  function Leading(ts: seq<Trivia>): seq<Doc> {
    (if HasComment(ts) then [FreshLine] else []) + LeadingItems(ts)
  }

  function TrailingItems(ts: seq<Trivia>): seq<Doc> {
    if ts == [] then []
    else
      var last := ts[|ts| - 1];
      TrailingItems(ts[..|ts| - 1]) + match last
        case Comment(text, _, _) => [Text("  "), Text(text)]
        case BlankLines(_, _, _) => []
  }

  /** Whether the line still holds text once `ts` is out: the last item decides. */
  predicate HoldsText(ts: seq<Trivia>) {
    ts == [] || ts[|ts| - 1].Comment?
  }

  function ClosingItems(ts: seq<Trivia>): seq<Doc> {
    if ts == [] then []
    else
      var init, last := ts[..|ts| - 1], ts[|ts| - 1];
      ClosingItems(init) + (if HoldsText(init) then [HardBreak] else []) + match last
        case Comment(text, _, _) => [Text(text)]
        case BlankLines(count, _, _) => Blanks(count)
  }

  function Trailing(n: Annotated): seq<Doc> {
    TrailingItems(n.trailing) + ClosingItems(n.closing)
    + if HasComment(n.trailing) || HasComment(n.closing) then [CommentBreak] else []
  }

  method EmitLeading(ts: seq<Trivia>, parts: seq<Doc>) returns (out: seq<Doc>)
    ensures out == parts + Leading(ts)
  {
    out := parts;
    if HasComment(ts) { out := out + [FreshLine]; }
    ghost var start := out;
    var i := 0;
    while i < |ts|
      invariant 0 <= i <= |ts| && out == start + LeadingItems(ts[..i])
    {
      assert ts[..i + 1][..i] == ts[..i];
      match ts[i] {
        case Comment(text, _, _) =>
          out := out + [Text(text), HardBreak];
        case BlankLines(count, _, _) => out := out + Blanks(count);
      }
      i := i + 1;
    }
    assert ts[..|ts|] == ts;
  }

  method TrailingTrivia(n: Annotated) returns (parts: seq<Doc>)
    ensures parts == Trailing(n)
  {
    parts := [];
    var i := 0;
    while i < |n.trailing|
      invariant 0 <= i <= |n.trailing| && parts == TrailingItems(n.trailing[..i])
    {
      assert n.trailing[..i + 1][..i] == n.trailing[..i];
      if n.trailing[i].Comment? {
        parts := parts + [Text("  ")];
        parts := parts + [Text(n.trailing[i].text)];
      }
      i := i + 1;
    }
    assert n.trailing[..i] == n.trailing;
    ghost var start := parts;
    var lineHoldsText := true;
    i := 0;
    while i < |n.closing|
      invariant 0 <= i <= |n.closing| && parts == start + ClosingItems(n.closing[..i])
      invariant lineHoldsText == HoldsText(n.closing[..i])
    {
      assert n.closing[..i + 1][..i] == n.closing[..i];
      match n.closing[i] {
        case Comment(text, _, _) =>
          if lineHoldsText { parts := parts + [HardBreak]; }
          parts := parts + [Text(text)];
          lineHoldsText := true;
        case BlankLines(count, _, _) =>
          if lineHoldsText {
            parts := parts + [HardBreak];
            lineHoldsText := false;
          }
          parts := parts + Blanks(count);
      }
      i := i + 1;
    }
    assert n.closing[..i] == n.closing;
    if HasComment(n.trailing) || HasComment(n.closing) { parts := parts + [CommentBreak]; }
  }

  // ----- nodes ---------------------------------------------------------------------------------------------

  predicate CommentBetween(key: Annotated, value: Annotated) {
    HasComment(key.trailing) || HasComment(value.leading)
  }

  function Parens(inner: Doc): Doc {
    Align(ConcatOf([Text("("), NestOf(1, inner), Text(")")]))
  }

  function FormatAnnotated(n: Annotated): Doc
    decreases n, 2
  {
    ConcatOf([FormatWithoutTrailing(n), ConcatOf(Trailing(n))])
  }

  function FormatWithoutTrailing(n: Annotated): Doc
    decreases n, 1
  {
    ConcatOf(Leading(n.leading) + [FormatSyntax(n)])
  }

  /** The first two of `ns`, a key and its value. */
  function FormatPair(ns: seq<Annotated>): Doc
    requires |ns| >= 2
    decreases ns, 1
  {
    if CommentBetween(ns[0], ns[1]) then FormatPairBelow(ns)
    else ConcatOf([FormatAnnotated(ns[0]), Space, FormatAnnotated(ns[1])])
  }

  /** The key's trailing comment sits inside the nest, the value's outside. */
  function FormatPairBelow(ns: seq<Annotated>): Doc
    requires |ns| >= 2
    decreases ns, 0
  {
    ConcatOf([
      FormatWithoutTrailing(ns[0]),
      NestOf(1, ConcatOf([ConcatOf(Trailing(ns[0])), HardBreak, FormatWithoutTrailing(ns[1])])),
      ConcatOf(Trailing(ns[1]))])
  }

  function FormatSyntax(n: Annotated): Doc
    decreases n, 0
  {
    match n.kind
    case Atom(text, _) => Text(text)
    case List =>
      if n.children == [] then Text("()")
      else
        var head := FormatAnnotated(n.children[0]);
        var units := ArgUnits(n.children[1..]);
        if units == [] then Parens(head)
        else Parens(ConcatOf([head, Hang(units[0], ConcatOf(Wrapped(units[1..])))]))
    case Collection(open, close) =>
      if n.children == [] then Text(open + close)
      else ConcatOf([Text(open), Align(Fill(FormatEach(n.children))), Text(close)])
    case Pairs(open, close) =>
      if n.children == [] then Text(open + close)
      else ConcatOf([Text(open), Align(GroupOf(Intersperse(PairDocs(n.children)))), Text(close)])
    case Prefix(text) =>
      if n.children == [] then Text(text) else ConcatOf([Text(text), FormatAnnotated(n.children[0])])
  }

  function FormatEach(ns: seq<Annotated>): seq<Doc>
    decreases ns, 2
  {
    if ns == [] then [] else [FormatAnnotated(ns[0])] + FormatEach(ns[1..])
  }

  function PairDocs(ns: seq<Annotated>): seq<Doc>
    decreases ns, 2
  {
    if ns == [] then []
    else if |ns| == 1 then [FormatAnnotated(ns[0])]
    else [FormatPair(ns)] + PairDocs(ns[2..])
  }

  /** A keyword and the argument after it make one unit. */
  function ArgUnits(args: seq<Annotated>): seq<Doc>
    decreases args, 2
  {
    if args == [] then []
    else if |args| > 1 && IsKeyword(args[0]) && !IsKeyword(args[1]) then [FormatPair(args)] + ArgUnits(args[2..])
    else [FormatAnnotated(args[0])] + ArgUnits(args[1..])
  }

  predicate IsKeyword(n: Annotated) {
    n.kind.Atom? && n.kind.keyword
  }

  function FormatForms(forms: seq<Annotated>, dangling: seq<Trivia>): Doc {
    ConcatOf(Interleaved(HardBreak, FormatEach(forms))
             + (if dangling == [] then [] else (if forms == [] then [] else [HardBreak]) + Leading(dangling)))
  }
}
