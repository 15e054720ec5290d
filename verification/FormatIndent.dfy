/**
  How a call and a collection stand on the page. A call's arguments hang from its open
  parenthesis, one indent in, or from the first argument's column; a collection's
  elements align after its open bracket; and a keyword stands on the line of the value
  it names.
*/
module FormatIndent {
  import opened Render
  import opened RenderBreaks
  import opened Trivia
  import opened Format
  import opened FormatLines

  lemma TwoDocs(a: Doc, b: Doc)
    ensures ConcatOf([a, b]) == Concat(DCons(a, DCons(b, DNil)))
  {
    assert [a, b][1..] == [b] && [b][1..] == [] && ToDocs([]) == DNil && ToDocs([b]) == DCons(b, DNil);
  }

  lemma ThreeDocs(a: Doc, b: Doc, c: Doc)
    ensures ConcatOf([a, b, c]) == Concat(DCons(a, DCons(b, DCons(c, DNil))))
  {
    assert [a, b, c][1..] == [b, c] && [b, c][1..] == [c] && [c][1..] == [];
    assert ToDocs([]) == DNil && ToDocs([c]) == DCons(c, DNil) && ToDocs([b, c]) == DCons(b, DCons(c, DNil));
  }

  /** The second part of a concatenation, reached with the indent and the mode of the whole. */
  lemma SecondPart(cfg: Config, v: Visit, a: Doc, b: Doc, rest: Docs)
    requires v.doc == Concat(DCons(a, DCons(b, rest)))
    ensures Parts(v.doc) > 1
    ensures Into(cfg, v, 1) == Visit(b, v.indent, v.mode, Layout(cfg, a, v.indent, v.mode, v.at))
  {
    var ds := DCons(a, DCons(b, rest));
    assert Count(ds) == 2 + Count(rest) && Part(DCons(b, rest), 0) == b && Part(ds, 1) == b;
    assert RenderBreaks.Before(DCons(b, rest), 0) == DNil && RenderBreaks.Before(ds, 1) == DCons(a, DNil);
    var s := Layout(cfg, a, v.indent, v.mode, v.at);
    assert LayoutAll(cfg, DNil, v.indent, v.mode, s) == s;
  }

  /** In a call with arguments, what comes after the head hangs from one indent inside the parenthesis. */
  lemma CallHangs(cfg: Config, n: Annotated, indent: nat, mode: Mode, s: Cursor) returns (w: Visit)
    requires n.kind.List? && n.children != [] && ArgUnits(n.children[1..]) != []
    ensures Leads(cfg, Visit(FormatSyntax(n), indent, mode, s), [0, 1, 0, 1], w)
    ensures var units := ArgUnits(n.children[1..]); w.doc == Hang(units[0], ConcatOf(Wrapped(units[1..])))
    ensures w.indent == s.col + cfg.indentWidth && w.mode == mode
  {
    hide Layout, ArgUnits, FormatAnnotated, Wrapped, ConcatOf, ToDocs;
    var units := ArgUnits(n.children[1..]);
    var head, hang := FormatAnnotated(n.children[0]), Hang(units[0], ConcatOf(Wrapped(units[1..])));
    var inner := ConcatOf([head, hang]);
    TwoDocs(head, hang);
    ThreeDocs(Text("("), NestOf(1, inner), Text(")"));
    var v := Visit(FormatSyntax(n), indent, mode, s);
    assert v.doc == Align(ConcatOf([Text("("), Nest(1, inner), Text(")")]));
    var v1 := Into(cfg, v, 0);
    SecondPart(cfg, v1, Text("("), Nest(1, inner), DCons(Text(")"), DNil));
    var v2 := Into(cfg, v1, 1);
    var v3 := Into(cfg, v2, 0);
    SecondPart(cfg, v3, head, hang, DNil);
    w := Into(cfg, v3, 1);
    LeadsFour(cfg, v, 0, 1, 0, 1);
  }

  lemma LeadsFour(cfg: Config, v: Visit, a: nat, b: nat, c: nat, d: nat)
    requires a < Parts(v.doc) && b < Parts(Into(cfg, v, a).doc)
    requires c < Parts(Into(cfg, Into(cfg, v, a), b).doc)
    requires d < Parts(Into(cfg, Into(cfg, Into(cfg, v, a), b), c).doc)
    ensures Leads(cfg, v, [a, b, c, d], Into(cfg, Into(cfg, Into(cfg, Into(cfg, v, a), b), c), d))
  {
    hide Into;
    var v1 := Into(cfg, v, a);
    var v2 := Into(cfg, v1, b);
    var v3 := Into(cfg, v2, c);
    var w := Into(cfg, v3, d);
    assert [a, b, c, d][1..] == [b, c, d] && [b, c, d][1..] == [c, d] && [c, d][1..] == [d] && [d][1..] == [];
    assert Leads(cfg, w, [], w);
    assert Leads(cfg, v3, [d], w);
    assert Leads(cfg, v2, [c, d], w);
    assert Leads(cfg, v1, [b, c, d], w);
  }

  /** The elements of a collection align after its open bracket, and wrap one by one. */
  lemma CollectionAligns(cfg: Config, n: Annotated, indent: nat, mode: Mode, s: Cursor) returns (w: Visit)
    requires n.kind.Collection? && n.children != []
    ensures Leads(cfg, Visit(FormatSyntax(n), indent, mode, s), [1, 0], w)
    ensures w.doc == Fill(FormatEach(n.children)) && w.indent == s.col + |n.kind.open| && w.mode == mode
  {
    hide FormatEach, Fill, ConcatOf;
    var v := Visit(FormatSyntax(n), indent, mode, s);
    var open, inner := Text(n.kind.open), Align(Fill(FormatEach(n.children)));
    ThreeDocs(open, inner, Text(n.kind.close));
    SecondPart(cfg, v, open, inner, DCons(Text(n.kind.close), DNil));
    w := Into(cfg, Into(cfg, v, 1), 0);
    assert [1, 0][1..] == [0] && [0][1..] == [];
    assert Leads(cfg, w, [], w) && Leads(cfg, Into(cfg, v, 1), [0], w);
  }

  /** A keyword argument and its value: one unit, joined by a space in every mode, unless a comment parts them. */
  lemma KeywordKeepsItsValue(cfg: Config, args: seq<Annotated>, indent: nat, mode: Mode, s: Cursor)
    requires |args| > 1 && IsKeyword(args[0]) && !IsKeyword(args[1]) && !CommentBetween(args[0], args[1])
    ensures ArgUnits(args) != []
    ensures var s1 := Layout(cfg, FormatAnnotated(args[0]), indent, mode, s);
            !s1.afterComment ==> s1.out + [Gap] <= Layout(cfg, ArgUnits(args)[0], indent, mode, s).out
  {
    hide Layout, FormatAnnotated, ConcatOf, Run;
    var key, value := FormatAnnotated(args[0]), FormatAnnotated(args[1]);
    var parts := [key, Space, value];
    assert ArgUnits(args)[0] == ConcatOf(parts);
    ConcatRuns(cfg, parts, indent, mode, s);
    assert parts == [key] + [Space] + [value];
    RunJoins(cfg, [key] + [Space], [value], indent, mode, s);
    RunJoins(cfg, [key], [Space], indent, mode, s);
    OneRuns(cfg, key, indent, mode, s);
    var s1 := Layout(cfg, key, indent, mode, s);
    OneRuns(cfg, Space, indent, mode, s1);
    RunGrows(cfg, [value], indent, mode, Layout(cfg, Space, indent, mode, s1));
    SpaceIs(cfg, indent, mode, s1);
  }

  lemma SpaceIs(cfg: Config, indent: nat, mode: Mode, s: Cursor)
    ensures !s.afterComment ==> Layout(cfg, Space, indent, mode, s).out == s.out + [Gap]
  {}
}
