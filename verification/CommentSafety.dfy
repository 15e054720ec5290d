/**
  A comment runs to the end of its line, so no text may follow it there. `Trace`
  reads off a document whether a line can be left holding an open comment;
  `LayoutIsGuarded` says the reading is right for every width and mode, and
  `FormatsShut` that every document the formatter builds leaves its line shut.
  `FormattedFileIsGuarded` and `FormattedFileKeepsWords` run the whole pipeline:
  attach, build, render.
*/
module CommentSafety {
  import opened Options
  import opened Render
  import opened RenderFacts
  import opened Trivia
  import opened TriviaFacts
  import opened Format
  import opened FormatFacts

  predicate IsComment(t: string) {
    t != "" && t[0] == '#'
  }

  // ----- the output -----------------------------------------------------------------------------------

  predicate LineAfter(ps: seq<Piece>, i: nat, j: nat)
    requires i <= j <= |ps|
  {
    exists k :: i <= k < j && ps[k].Line?
  }

  /** The current line holds a comment. */
  ghost predicate OpenLine(ps: seq<Piece>) {
    exists i :: 0 <= i < |ps| && ps[i].Ink? && IsComment(ps[i].text) && !LineAfter(ps, i, |ps|)
  }

  /** Between a comment and any later text there is a newline. */
  ghost predicate Guarded(ps: seq<Piece>) {
    forall i, j :: 0 <= i < j < |ps| && ps[i].Ink? && IsComment(ps[i].text) && ps[j].Ink? && ps[j].text != ""
                   ==> LineAfter(ps, i, j)
  }

  /** At a line start the line holds no comment, and a comment break leaves the cursor at a line start. */
  ghost predicate Clean(s: Cursor) {
    Guarded(s.out) && (s.atStart ==> !OpenLine(s.out)) && (s.afterComment ==> s.atStart)
  }

  lemma PushLine(ps: seq<Piece>, indent: nat)
    requires Guarded(ps)
    ensures Guarded(ps + [Line(indent)]) && !OpenLine(ps + [Line(indent)])
  {
    var qs := ps + [Line(indent)];
    forall i | 0 <= i < |qs| && qs[i].Ink? ensures LineAfter(qs, i, |qs|) {
      assert qs[|ps|].Line?;
    }
    PushKeepsGuard(ps, Line(indent));
  }

  lemma PushKeepsGuard(ps: seq<Piece>, p: Piece)
    requires Guarded(ps) && (p.Ink? && p.text != "" ==> !OpenLine(ps))
    ensures Guarded(ps + [p])
  {
    var qs := ps + [p];
    forall i, j | 0 <= i < j < |qs| && qs[i].Ink? && IsComment(qs[i].text) && qs[j].Ink? && qs[j].text != ""
      ensures LineAfter(qs, i, j)
    {
      assert LineAfter(ps, i, j);
      var k :| i <= k < j && ps[k].Line?;
      assert qs[k].Line?;
    }
  }

  lemma PushOpens(ps: seq<Piece>, p: Piece)
    requires !p.Line?
    ensures OpenLine(ps + [p]) <==> OpenLine(ps) || (p.Ink? && IsComment(p.text))
  {
    var qs := ps + [p];
    forall i | 0 <= i < |ps| ensures LineAfter(qs, i, |qs|) <==> LineAfter(ps, i, |ps|) {
      if LineAfter(ps, i, |ps|) {
        var k :| i <= k < |ps| && ps[k].Line?;
        assert qs[k].Line?;
      }
    }
    assert !LineAfter(qs, |ps|, |qs|);
    if OpenLine(qs) {
      var i :| 0 <= i < |qs| && qs[i].Ink? && IsComment(qs[i].text) && !LineAfter(qs, i, |qs|);
      assert i < |ps| ==> ps[i].Ink?;
    }
    if OpenLine(ps) {
      var i :| 0 <= i < |ps| && ps[i].Ink? && IsComment(ps[i].text) && !LineAfter(ps, i, |ps|);
      assert qs[i].Ink?;
    }
    if p.Ink? && IsComment(p.text) { assert qs[|ps|].Ink?; }
  }

  // ----- the reading -------------------------------------------------------------------------------------

  /**
    Whether the line holds an open comment after `d`, if it may hold one before;
    nothing when some layout of `d` may put text behind a comment.
  */
  function Trace(d: Doc, open: bool): Option<bool>
    decreases d
  {
    match d
    case Text(t) => if t == "" then Some(open) else if open then None else Some(IsComment(t))
    case HardBreak => Some(false)
    case CommentBreak => Some(false)
    case FreshLine => Some(false)
    case Concat(ds) => TraceAll(ds, open)
    case Nest(_, inner) => Trace(inner, open)
    case Group(inner) => Trace(inner, open)
    case Align(inner) => Trace(inner, open)
    case Hang(first, rest) =>
      var a := Trace(first, open);
      if a.None? then None else Trace(rest, a.value)
    case _ => Some(open)
  }

  function TraceAll(ds: Docs, open: bool): Option<bool>
    decreases ds
  {
    match ds
    case DNil => Some(open)
    case DCons(d, rest) =>
      var a := Trace(d, open);
      if a.None? then None else TraceAll(rest, a.value)
  }

  lemma StepsClean(indent: nat, s: Cursor)
    requires Clean(s)
    ensures Clean(Newline(indent, s)) && !OpenLine(Newline(indent, s).out)
    ensures Clean(Newline(indent, s).(afterComment := true))
    ensures Clean(NewlineUnlessAbsorbed(indent, s)) && !OpenLine(NewlineUnlessAbsorbed(indent, s).out)
    ensures Clean(OneSpace(s)) && (OpenLine(OneSpace(s).out) ==> OpenLine(s.out))
  {
    PushLine(s.out, indent);
    PushKeepsGuard(s.out, Gap);
    PushOpens(s.out, Gap);
  }

  lemma TextClean(t: string, s: Cursor, open: bool)
    requires Clean(s) && (OpenLine(s.out) ==> open) && Trace(Text(t), open).Some?
    ensures var r := Cursor(s.out + [Ink(t)], s.col + |t|, s.afterComment && t == "", s.atStart && t == "");
            Clean(r) && (OpenLine(r.out) ==> Trace(Text(t), open).value)
  {
    PushKeepsGuard(s.out, Ink(t));
    PushOpens(s.out, Ink(t));
  }

  /** A document whose trace is defined is laid out guarded, whatever the configuration, indent and mode. */
  lemma {:induction false} LayoutIsGuarded(cfg: Config, d: Doc, indent: nat, mode: Mode, s: Cursor, open: bool)
    requires Clean(s) && (OpenLine(s.out) ==> open) && Trace(d, open).Some?
    ensures var t := Layout(cfg, d, indent, mode, s);
            Clean(t) && (OpenLine(t.out) ==> Trace(d, open).value)
    decreases d
  {
    hide OpenLine, Newline, OneSpace, NewlineUnlessAbsorbed, Guarded, IsComment;
    StepsClean(indent, s);
    match d
    case Text(t) => TextClean(t, s, open);
    case Concat(ds) => LayoutAllGuarded(cfg, ds, indent, mode, s, open);
    case Nest(n, inner) => LayoutIsGuarded(cfg, inner, indent + n * cfg.indentWidth, mode, s, open);
    case Group(inner) =>
      LayoutIsGuarded(cfg, inner, indent, if StaysFlat(cfg, s.col, inner) then Flat else Broken, s, open);
    case Align(inner) => LayoutIsGuarded(cfg, inner, s.col, mode, s, open);
    case Hang(first, rest) =>
      var aligned := Aligned(cfg, s);
      var s1 := if aligned || StaysFlat(cfg, s.col + 1, first) then OneSpace(s) else Newline(indent, s);
      var in1 := if aligned then s1.col else indent;
      LayoutIsGuarded(cfg, first, in1, mode, s1, open);
      LayoutIsGuarded(cfg, rest, in1, mode, Layout(cfg, first, in1, mode, s1), Trace(first, open).value);
    case _ =>
  }

  lemma {:induction false} LayoutAllGuarded(cfg: Config, ds: Docs, indent: nat, mode: Mode, s: Cursor, open: bool)
    requires Clean(s) && (OpenLine(s.out) ==> open) && TraceAll(ds, open).Some?
    ensures var t := LayoutAll(cfg, ds, indent, mode, s);
            Clean(t) && (OpenLine(t.out) ==> TraceAll(ds, open).value)
    decreases ds
  {
    hide Clean, OpenLine;
    if ds.DCons? {
      LayoutIsGuarded(cfg, ds.head, indent, mode, s, open);
      LayoutAllGuarded(cfg, ds.tail, indent, mode, Layout(cfg, ds.head, indent, mode, s), Trace(ds.head, open).value);
    }
  }

  // ----- every built document is shut ------------------------------------------------------------------------

  /** From a line with no open comment, back to one. */
  predicate Shut(d: Doc) {
    Trace(d, false) == Some(false)
  }

  predicate ShutAll(parts: seq<Doc>) {
    forall i :: 0 <= i < |parts| ==> Shut(parts[i])
  }

  function TraceOf(parts: seq<Doc>, open: bool): Option<bool> {
    if parts == [] then Some(open)
    else
      var a := TraceOf(parts[..|parts| - 1], open);
      if a.None? then None else Trace(parts[|parts| - 1], a.value)
  }

  lemma {:induction false} TraceJoin(a: seq<Doc>, b: seq<Doc>, open: bool)
    requires TraceOf(a, open).Some?
    ensures TraceOf(a + b, open) == TraceOf(b, TraceOf(a, open).value)
    decreases b
  {
    if b == [] {
      assert a + b == a;
    } else {
      TraceJoin(a, b[..|b| - 1], open);
      assert (a + b)[..|a + b| - 1] == a + b[..|b| - 1];
    }
  }

  lemma TraceSnoc(a: seq<Doc>, d: Doc, open: bool)
    requires TraceOf(a, open).Some?
    ensures TraceOf(a + [d], open) == Trace(d, TraceOf(a, open).value)
  {
    assert (a + [d])[..|a|] == a;
  }

  lemma {:induction false} TraceOfDocs(parts: seq<Doc>, open: bool)
    requires TraceOf(parts, open).Some?
    ensures TraceAll(ToDocs(parts), open) == TraceOf(parts, open)
    ensures Trace(ConcatOf(parts), open) == TraceOf(parts, open)
    decreases parts
  {
    if parts != [] {
      var d := parts[0];
      TraceHead(parts, open);
      TraceOfDocs(parts[1..], Trace(d, open).value);
      assert |parts| == 1 ==> parts[1..] == [];
    }
  }

  lemma {:induction false} TraceHead(parts: seq<Doc>, open: bool)
    requires parts != [] && TraceOf(parts, open).Some?
    ensures Trace(parts[0], open).Some? && TraceOf(parts[1..], Trace(parts[0], open).value) == TraceOf(parts, open)
    decreases parts
  {
    var init := parts[..|parts| - 1];
    if init == [] {
      assert parts[1..] == [] && TraceOf(init, open) == Some(open);
    } else {
      TraceHead(init, open);
      assert parts[1..][..|parts| - 2] == init[1..];
    }
  }

  lemma {:induction false} ShutAllTraces(parts: seq<Doc>)
    requires ShutAll(parts)
    ensures TraceOf(parts, false) == Some(false) && Shut(ConcatOf(parts))
    ensures TraceAll(ToDocs(parts), false) == Some(false)
    decreases parts
  {
    if parts != [] { ShutAllTraces(parts[..|parts| - 1]); }
    TraceOfDocs(parts, false);
  }

  lemma {:induction false} ShutInterleaved(sep: Doc, docs: seq<Doc>)
    requires Shut(sep) && ShutAll(docs)
    ensures ShutAll(Interleaved(sep, docs))
  {
    if |docs| > 1 { ShutInterleaved(sep, docs[..|docs| - 1]); }
  }

  lemma {:induction false} ShutWrapped(docs: seq<Doc>)
    requires ShutAll(docs)
    ensures ShutAll(Wrapped(docs))
  {
    if docs != [] {
      ShutWrapped(docs[..|docs| - 1]);
      ShutAllTraces([Break, docs[|docs| - 1]]);
    }
  }

  lemma {:induction false} LeadingShut(ts: seq<Trivia>)
    ensures TraceOf(LeadingItems(ts), false) == Some(false)
  {
    hide Trace;
    if ts != [] {
      var init, last := ts[..|ts| - 1], ts[|ts| - 1];
      LeadingShut(init);
      match last
      case Comment(text, _, _) =>
        CommentThenBreak(LeadingItems(init), text);
      case BlankLines(count, _, _) =>
        BlanksShut(count);
        TraceJoin(LeadingItems(init), Blanks(count), false);
    }
  }

  lemma BlanksShut(count: nat)
    ensures TraceOf(Blanks(count), false) == Some(false)
  {
    ShutAllTraces(Blanks(count));
  }

  lemma CommentThenBreak(parts: seq<Doc>, text: string)
    requires TraceOf(parts, false) == Some(false)
    ensures TraceOf(parts + [Text(text), HardBreak], false) == Some(false)
  {
    TraceSnoc(parts, Text(text), false);
    TraceSnoc(parts + [Text(text)], HardBreak, false);
    assert parts + [Text(text), HardBreak] == parts + [Text(text)] + [HardBreak];
  }

  lemma LeadingIsShut(ts: seq<Trivia>)
    ensures TraceOf(Leading(ts), false) == Some(false)
  {
    LeadingShut(ts);
    var lead := if HasComment(ts) then [FreshLine] else [];
    ShutAllTraces(lead);
    TraceJoin(lead, LeadingItems(ts), false);
  }

  /** The line is open after closing trivia only if a comment was its last item. */
  lemma {:induction false} ClosingTraces(ts: seq<Trivia>, open: bool)
    ensures TraceOf(ClosingItems(ts), open).Some?
    ensures TraceOf(ClosingItems(ts), open).value ==> if ts == [] then open else HasComment(ts)
    ensures !HoldsText(ts) ==> !TraceOf(ClosingItems(ts), open).value
  {
    if ts != [] {
      var init, last := ts[..|ts| - 1], ts[|ts| - 1];
      var sep := if HoldsText(init) then [HardBreak] else [];
      var head := ClosingItems(init) + sep;
      ClosingTraces(init, open);
      if HoldsText(init) { TraceSnoc(ClosingItems(init), HardBreak, open); } else { assert head == ClosingItems(init); }
      assert TraceOf(head, open) == Some(false);
      match last
      case Comment(text, _, _) => TraceSnoc(head, Text(text), open);
      case BlankLines(count, _, _) =>
        ShutAllTraces(Blanks(count));
        TraceJoin(head, Blanks(count), open);
    }
  }

  lemma TrailingItemTraces(ts: seq<Trivia>)
    requires ts == [] || (|ts| == 1 && ts[0].Comment?)
    ensures TraceOf(TrailingItems(ts), false).Some? && (TraceOf(TrailingItems(ts), false).value ==> HasComment(ts))
  {
    if ts != [] {
      var text := ts[0].text;
      assert TrailingItems(ts[..0]) == [];
      assert TrailingItems(ts) == [Text("  "), Text(text)];
      assert [Text("  "), Text(text)] == [] + [Text("  ")] + [Text(text)];
      TraceSnoc([], Text("  "), false);
      TraceSnoc([] + [Text("  ")], Text(text), false);
    }
  }

  lemma TrailingIsShut(n: Annotated)
    requires NodeShaped(n)
    ensures Shut(ConcatOf(Trailing(n)))
  {
    var a, b := TrailingItems(n.trailing), ClosingItems(n.closing);
    TrailingItemTraces(n.trailing);
    var open := TraceOf(a, false).value;
    ClosingTraces(n.closing, open);
    TraceJoin(a, b, false);
    if HasComment(n.trailing) || HasComment(n.closing) {
      TraceSnoc(a + b, CommentBreak, false);
      assert Trailing(n) == a + b + [CommentBreak];
    } else {
      assert Trailing(n) == a + b;
    }
    TraceOfDocs(Trailing(n), false);
  }

  /** No token starts a comment. */
  predicate Printable(kind: Kind) {
    match kind
    case Atom(text, _) => !IsComment(text)
    case List => true
    case Collection(open, close) => !IsComment(open) && !IsComment(close) && !IsComment(open + close)
    case Pairs(open, close) => !IsComment(open) && !IsComment(close) && !IsComment(open + close)
    case Prefix(text) => !IsComment(text)
  }

  predicate PrintableAll(ns: seq<Annotated>) {
    ns == [] || (Printable(ns[0].kind) && PrintableAll(ns[0].children) && PrintableAll(ns[1..]))
  }

  predicate Ready(ns: seq<Annotated>) {
    PrintableAll(ns) && WellAttached(ns)
  }

  /** Every document built for a node leaves its line shut. */
  lemma {:induction false} FormatsShut(n: Annotated)
    requires NodeShaped(n) && Printable(n.kind) && Ready(n.children)
    ensures Shut(FormatAnnotated(n)) && Shut(FormatWithoutTrailing(n))
    decreases n, 1
  {
    hide Shut, Trace, TraceAll, ConcatOf, NodeShaped, Printable;
    SyntaxShuts(n);
    LeadingThenShut(n.leading, FormatSyntax(n));
    TrailingIsShut(n);
    ShutAllTraces([FormatWithoutTrailing(n), ConcatOf(Trailing(n))]);
  }

  lemma LeadingThenShut(ts: seq<Trivia>, d: Doc)
    requires Shut(d)
    ensures Shut(ConcatOf(Leading(ts) + [d]))
  {
    LeadingIsShut(ts);
    TraceSnoc(Leading(ts), d, false);
    TraceOfDocs(Leading(ts) + [d], false);
  }

  lemma {:induction false} EachShut(ns: seq<Annotated>)
    requires Ready(ns)
    ensures ShutAll(FormatEach(ns))
    decreases ns, 1
  {
    hide Shut;
    if ns != [] {
      FormatsShut(ns[0]);
      EachShut(ns[1..]);
    }
  }

  lemma {:induction false} PairShut(ns: seq<Annotated>)
    requires |ns| >= 2 && Ready(ns)
    ensures Shut(FormatPair(ns)) && Ready(ns[2..])
    decreases ns, 0
  {
    hide Trace, TraceAll, ConcatOf, NestOf;
    var k, v := ns[0], ns[1];
    assert ns[1..][0] == v && ns[1..][1..] == ns[2..] && Ready(ns[1..]);
    FormatsShut(k);
    FormatsShut(v);
    TrailingIsShut(k);
    TrailingIsShut(v);
    SeparatorsShut();
    var below := ConcatOf([ConcatOf(Trailing(k)), HardBreak, FormatWithoutTrailing(v)]);
    ShutAllTraces([ConcatOf(Trailing(k)), HardBreak, FormatWithoutTrailing(v)]);
    WrapsShut(below);
    ShutAllTraces([FormatWithoutTrailing(k), NestOf(1, below), ConcatOf(Trailing(v))]);
    ShutAllTraces([FormatAnnotated(k), Space, FormatAnnotated(v)]);
  }

  lemma SeparatorsShut()
    ensures Shut(HardBreak) && Shut(Space) && Shut(Break)
  {}

  lemma WrapsShut(d: Doc)
    requires Shut(d)
    ensures Shut(NestOf(1, d)) && Shut(GroupOf(d)) && Shut(Align(d)) && Shut(Group(d))
  {}

  lemma {:induction false} PairDocsShut(ns: seq<Annotated>)
    requires Ready(ns)
    ensures ShutAll(PairDocs(ns))
    decreases ns, 1
  {
    hide Shut;
    if |ns| == 1 {
      FormatsShut(ns[0]);
    } else if |ns| >= 2 {
      PairShut(ns);
      PairDocsShut(ns[2..]);
    }
  }

  lemma {:induction false} ArgUnitsShut(ns: seq<Annotated>)
    requires Ready(ns)
    ensures ShutAll(ArgUnits(ns))
    decreases ns, 1
  {
    hide Shut;
    if ns != [] {
      if |ns| > 1 && IsKeyword(ns[0]) && !IsKeyword(ns[1]) {
        PairShut(ns);
        ArgUnitsShut(ns[2..]);
      } else {
        FormatsShut(ns[0]);
        ArgUnitsShut(ns[1..]);
      }
    }
  }

  lemma TextShut(t: string)
    requires !IsComment(t)
    ensures Shut(Text(t))
  {}

  lemma ParensShut(d: Doc)
    requires Shut(d)
    ensures Shut(Parens(d))
  {
    WrapsShut(d);
    TextShut("(");
    TextShut(")");
    ShutAllTraces([Text("("), NestOf(1, d), Text(")")]);
  }

  lemma DelimitedShut(open: string, inner: Doc, close: string)
    requires !IsComment(open) && !IsComment(close) && Shut(inner)
    ensures Shut(ConcatOf([Text(open), Align(inner), Text(close)]))
  {
    TextShut(open);
    TextShut(close);
    WrapsShut(inner);
    ShutAllTraces([Text(open), Align(inner), Text(close)]);
  }

  lemma {:induction false} SyntaxShuts(n: Annotated)
    requires Printable(n.kind) && Ready(n.children)
    ensures Shut(FormatSyntax(n))
    decreases n, 0
  {
    hide Shut, Trace, TraceAll, ConcatOf, NodeShaped, IsComment, NestOf, GroupOf;
    match n.kind
    case Atom(text, _) => TextShut(text);
    case List => if n.children == [] { ParensAreNoComment(); TextShut("()"); } else { CallShut(n); }
    case Collection(open, close) =>
      if n.children == [] { TextShut(open + close); } else {
        EachShut(n.children);
        FillShut(FormatEach(n.children));
        DelimitedShut(open, Fill(FormatEach(n.children)), close);
      }
    case Pairs(open, close) =>
      if n.children == [] { TextShut(open + close); } else {
        PairDocsShut(n.children);
        IntersperseShut(PairDocs(n.children));
        WrapsShut(Intersperse(PairDocs(n.children)));
        DelimitedShut(open, GroupOf(Intersperse(PairDocs(n.children))), close);
      }
    case Prefix(text) =>
      TextShut(text);
      if n.children != [] {
        FormatsShut(n.children[0]);
        ShutAllTraces([Text(text), FormatAnnotated(n.children[0])]);
      }
  }

  lemma ParensAreNoComment()
    ensures !IsComment("()")
  {}

  lemma FillShut(docs: seq<Doc>)
    requires ShutAll(docs)
    ensures Shut(Fill(docs))
  {
    if docs != [] {
      ShutWrapped(docs[1..]);
      ShutAllTraces(FillParts(docs));
    }
  }

  lemma IntersperseShut(docs: seq<Doc>)
    requires ShutAll(docs)
    ensures Shut(Intersperse(docs))
  {
    ShutInterleaved(Break, docs);
    ShutAllTraces(Interleaved(Break, docs));
  }

  lemma {:induction false} CallShut(n: Annotated)
    requires n.kind.List? && n.children != [] && Ready(n.children)
    ensures Shut(FormatSyntax(n))
    decreases n.children, 2
  {
    hide ConcatOf, Parens;
    var head := FormatAnnotated(n.children[0]);
    var units := ArgUnits(n.children[1..]);
    FormatsShut(n.children[0]);
    ArgUnitsShut(n.children[1..]);
    if units == [] {
      ParensShut(head);
    } else {
      var rest := ConcatOf(Wrapped(units[1..]));
      ShutWrapped(units[1..]);
      ShutAllTraces(Wrapped(units[1..]));
      assert Shut(Hang(units[0], rest));
      ShutAllTraces([head, Hang(units[0], rest)]);
      ParensShut(ConcatOf([head, Hang(units[0], rest)]));
    }
  }

  lemma FormsShut(forms: seq<Annotated>, dangling: seq<Trivia>)
    requires Ready(forms)
    ensures Shut(FormatForms(forms, dangling))
  {
    EachShut(forms);
    ShutInterleaved(HardBreak, FormatEach(forms));
    var docs := Interleaved(HardBreak, FormatEach(forms));
    var sep := if forms == [] then [] else [HardBreak];
    ShutAllTraces(docs);
    ShutAllTraces(sep);
    LeadingIsShut(dangling);
    TraceJoin(sep, Leading(dangling), false);
    TraceJoin(docs, sep + Leading(dangling), false);
    assert docs + [] == docs;
    TraceOfDocs(docs, false);
    TraceOfDocs(docs + (sep + Leading(dangling)), false);
  }

  // ----- whole files -----------------------------------------------------------------------------------------

  predicate PrintableSyntax(cs: seq<Syntax>) {
    cs == [] || (Printable(cs[0].kind) && PrintableSyntax(cs[0].children) && PrintableSyntax(cs[1..]))
  }

  /** The annotated forest is the syntax forest with trivia hung on it. */
  predicate Same(cs: seq<Syntax>, ns: seq<Annotated>) {
    |cs| == |ns| && (cs == []
        || (cs[0].kind == ns[0].kind && Same(cs[0].children, ns[0].children) && Same(cs[1..], ns[1..])))
  }

  lemma SameCons(cs: seq<Syntax>, one: seq<Annotated>, rest: seq<Annotated>)
    requires cs != [] && |one| == 1 && cs[0].kind == one[0].kind && Same(cs[0].children, one[0].children)
    requires Same(cs[1..], rest)
    ensures Same(cs, one + rest)
  {
    assert (one + rest)[1..] == rest && (one + rest)[0] == one[0];
  }

  lemma {:induction false} ChildrenSame(cs: seq<Syntax>, parentEnd: nat, ts: seq<Trivia>, idx: nat, source: string)
    requires idx <= |ts|
    ensures Same(cs, AttachChildren(cs, parentEnd, ts, idx, source).nodes)
    decreases cs
  {
    if cs != [] {
      var c, next := cs[0], Next(cs, parentEnd);
      var one := AttachChild(c, |cs| == 1, next, ts, idx, source);
      ChildrenSame(c.children, c.end, ts, Past(ts, idx, c.start), source);
      ChildrenSame(cs[1..], parentEnd, ts, one.idx, source);
      SameCons(cs, one.nodes, AttachChildren(cs[1..], parentEnd, ts, one.idx, source).nodes);
    }
  }

  lemma {:induction false} FormsSame(fs: seq<Syntax>, ts: seq<Trivia>, idx: nat, source: string)
    requires idx <= |ts|
    ensures Same(fs, AttachEach(fs, ts, idx, source).nodes)
    decreases fs
  {
    if fs != [] {
      var f, next := fs[0], if |fs| > 1 then fs[1].start else MAX_OFFSET;
      var one := AttachForm(f, next, ts, idx, source);
      ChildrenSame(f.children, f.end, ts, Past(ts, idx, f.start), source);
      FormsSame(fs[1..], ts, one.idx, source);
      SameCons(fs, one.nodes, AttachEach(fs[1..], ts, one.idx, source).nodes);
    }
  }

  lemma {:induction false} SamePrintable(cs: seq<Syntax>, ns: seq<Annotated>)
    requires Same(cs, ns) && PrintableSyntax(cs)
    ensures PrintableAll(ns)
    decreases cs
  {
    if cs != [] {
      SamePrintable(cs[0].children, ns[0].children);
      SamePrintable(cs[1..], ns[1..]);
    }
  }

  /** The formatted file: attach, build, render. */
  ghost function Formatted(cfg: Config, fs: seq<Syntax>, ts: seq<Trivia>, source: string): seq<Piece> {
    var t := AttachForms(fs, ts, source);
    Layout(cfg, FormatForms(t.forms, t.dangling), 0, Flat, START).out
  }

  /**
    In a formatted file no comment swallows code: a newline stands between a comment
    and any text after it, whatever the configuration. Every list is laid out as a
    call here; lists headed by `def`, `let`, `if` and the other special heads go to
    handlers that are not part of this model.
  */
  lemma FormattedFileIsGuarded(cfg: Config, fs: seq<Syntax>, ts: seq<Trivia>, source: string)
    requires PrintableSyntax(fs)
    ensures Guarded(Formatted(cfg, fs, ts, source)) && !OpenLine(Formatted(cfg, fs, ts, source))
  {
    var t := AttachForms(fs, ts, source);
    FormsWellAttached(fs, ts, source);
    AllSame(fs, ts, source);
    SamePrintable(fs, t.forms);
    FormsShut(t.forms, t.dangling);
    assert Clean(START);
    LayoutIsGuarded(cfg, FormatForms(t.forms, t.dangling), 0, Flat, START, false);
  }

  // ----- comments and tokens of a file ---------------------------------------------------------------------

  function CommentsIn(ws: seq<string>): seq<string> {
    if ws == [] then [] else (if IsComment(ws[0]) then [ws[0]] else []) + CommentsIn(ws[1..])
  }

  predicate IsToken(w: string) {
    !IsComment(w) && w != "  "
  }

  /** All but the comments and the two spaces before a trailing one. */
  function TokensIn(ws: seq<string>): seq<string> {
    if ws == [] then [] else (if IsToken(ws[0]) then [ws[0]] else []) + TokensIn(ws[1..])
  }

  lemma Assoc(x: seq<string>, y: seq<string>, z: seq<string>)
    ensures x + (y + z) == (x + y) + z
  {}

  lemma {:induction false} CommentsJoin(a: seq<string>, b: seq<string>)
    ensures CommentsIn(a + b) == CommentsIn(a) + CommentsIn(b)
  {
    hide IsComment;
    if a == [] {
      assert a + b == b;
    } else {
      CommentsJoin(a[1..], b);
      assert (a + b)[0] == a[0] && (a + b)[1..] == a[1..] + b;
      Assoc(if IsComment(a[0]) then [a[0]] else [], CommentsIn(a[1..]), CommentsIn(b));
    }
  }

  lemma {:induction false} TokensJoin(a: seq<string>, b: seq<string>)
    ensures TokensIn(a + b) == TokensIn(a) + TokensIn(b)
  {
    hide IsToken;
    if a == [] {
      assert a + b == b;
    } else {
      TokensJoin(a[1..], b);
      assert (a + b)[0] == a[0] && (a + b)[1..] == a[1..] + b;
      Assoc(if IsToken(a[0]) then [a[0]] else [], TokensIn(a[1..]), TokensIn(b));
    }
  }

  lemma InJoin(a: seq<string>, b: seq<string>)
    ensures CommentsIn(a + b) == CommentsIn(a) + CommentsIn(b) && TokensIn(a + b) == TokensIn(a) + TokensIn(b)
  {
    CommentsJoin(a, b);
    TokensJoin(a, b);
  }

  predicate Hashed(ts: seq<Trivia>) {
    forall i :: 0 <= i < |ts| && ts[i].Comment? ==> IsComment(ts[i].text)
  }

  lemma {:induction false} InTrivia(ts: seq<Trivia>)
    requires Hashed(ts)
    ensures CommentsIn(CommentTexts(ts)) == CommentTexts(ts) && TokensIn(CommentTexts(ts)) == []
    ensures CommentsIn(TrailingTexts(ts)) == CommentTexts(ts) && TokensIn(TrailingTexts(ts)) == []
  {
    if ts != [] {
      hide CommentsIn, TokensIn, IsComment, IsToken;
      var init, last := ts[..|ts| - 1], ts[|ts| - 1];
      InTrivia(init);
      if last.Comment? {
        CommentWord(last.text);
        InJoin(CommentTexts(init), [last.text]);
        InJoin(TrailingTexts(init), ["  ", last.text]);
      } else {
        assert CommentTexts(ts) == CommentTexts(init) && TrailingTexts(ts) == TrailingTexts(init);
      }
    }
  }

  lemma CommentWord(w: string)
    requires IsComment(w)
    ensures CommentsIn([w]) == [w] == CommentsIn(["  ", w]) && TokensIn([w]) == [] == TokensIn(["  ", w])
  {
    OneWord(w);
    OneWord("  ");
    assert ["  ", w] == ["  "] + [w];
    InJoin(["  "], [w]);
  }

  lemma OneWord(w: string)
    ensures CommentsIn([w]) == (if IsComment(w) then [w] else []) && TokensIn([w]) == if IsToken(w) then [w] else []
  {
    assert [w][1..] == [];
  }

  lemma {:induction false} CommentTextsJoin(a: seq<Trivia>, b: seq<Trivia>)
    ensures CommentTexts(a + b) == CommentTexts(a) + CommentTexts(b)
    decreases b
  {
    if b == [] {
      assert a + b == a;
    } else {
      CommentTextsJoin(a, b[..|b| - 1]);
      assert (a + b)[..|a + b| - 1] == a + b[..|b| - 1];
    }
  }

  /** As the reader builds nodes: an atom has no children, a prefix form has one, and tokens are words. */
  predicate Built(kind: Kind, children: nat) {
    match kind
    case Atom(text, _) => children == 0 && IsToken(text)
    case List => true
    case Collection(open, close) => IsToken(open) && IsToken(close) && IsToken(open + close)
    case Pairs(open, close) => IsToken(open) && IsToken(close) && IsToken(open + close)
    case Prefix(text) => children == 1 && IsToken(text)
  }

  predicate BuiltAll(cs: seq<Syntax>) {
    cs == [] || (Built(cs[0].kind, |cs[0].children|) && BuiltAll(cs[0].children) && BuiltAll(cs[1..]))
  }

  lemma {:induction false} BuiltPrints(cs: seq<Syntax>)
    requires BuiltAll(cs)
    ensures PrintableSyntax(cs)
  {
    if cs != [] {
      BuiltPrints(cs[0].children);
      BuiltPrints(cs[1..]);
    }
  }

  /** The tokens of the source, in order; an empty bracket pair is one token. */
  function SourceTokens(cs: seq<Syntax>): seq<string> {
    if cs == [] then []
        else Bracketed(cs[0].kind, cs[0].children == [], SourceTokens(cs[0].children)) + SourceTokens(cs[1..])
  }

  function Bracketed(kind: Kind, childless: bool, inner: seq<string>): seq<string> {
    match kind
    case Atom(text, _) => [text]
    case List => if childless then ["()"] else ["("] + inner + [")"]
    case Collection(open, close) => if childless then [open + close] else [open] + inner + [close]
    case Pairs(open, close) => if childless then [open + close] else [open] + inner + [close]
    case Prefix(text) => [text] + inner
  }

  lemma BracketedIn(kind: Kind, childless: bool, inner: seq<string>, children: nat)
    requires Built(kind, children) && childless == (children == 0) && (childless ==> inner == [])
    ensures CommentsIn(Bracketed(kind, childless, inner)) == CommentsIn(inner)
    ensures TokensIn(Bracketed(kind, childless, inner)) == Bracketed(kind, childless, TokensIn(inner))
  {
    hide IsComment;
    ParensAreTokens();
    match kind
    case Atom(text, _) => OneWord(text);
    case List => if childless { OneWord("()"); } else { AroundIn("(", inner, ")"); }
    case Collection(open, close) => if childless { OneWord(open + close); } else { AroundIn(open, inner, close); }
    case Pairs(open, close) => if childless { OneWord(open + close); } else { AroundIn(open, inner, close); }
    case Prefix(text) => OneWord(text); InJoin([text], inner);
  }

  lemma ParensAreTokens()
    ensures IsToken("()") && IsToken("(") && IsToken(")")
  {}

  lemma AroundIn(open: string, inner: seq<string>, close: string)
    requires IsToken(open) && IsToken(close)
    ensures CommentsIn([open] + inner + [close]) == CommentsIn(inner)
    ensures TokensIn([open] + inner + [close]) == [open] + TokensIn(inner) + [close]
  {
    OneWord(open);
    OneWord(close);
    InJoin([open], inner);
    InJoin([open] + inner, [close]);
  }

  lemma TokensAreBracketed(n: Annotated)
    requires Built(n.kind, |n.children|)
    ensures Tokens(n) == Bracketed(n.kind, n.children == [], WordsOf(n.children))
  {
    if n.kind.Prefix? {
      assert n.children[1..] == [];
      assert WordsOf(n.children) == Words(n.children[0]) + WordsOf([]);
    }
  }

  lemma HashedParts(ns: seq<Annotated>)
    requires ns != [] && Hashed(Reading(ns))
    ensures var n := ns[0];
            && Hashed(n.leading) && Hashed(Reading(n.children)) && Hashed(n.trailing) && Hashed(n.closing)
            && Hashed(Reading(ns[1..]))
  {
    var n := ns[0];
    var a, b, c, d, e := n.leading, Reading(n.children), n.trailing, n.closing, Reading(ns[1..]);
    assert Reading(ns) == a + b + c + d + e;
    HashedSplits(a + b + c + d, e);
    HashedSplits(a + b + c, d);
    HashedSplits(a + b, c);
    HashedSplits(a, b);
  }

  lemma HashedSplits(a: seq<Trivia>, b: seq<Trivia>)
    requires Hashed(a + b)
    ensures Hashed(a) && Hashed(b)
  {
    forall i | 0 <= i < |a| && a[i].Comment? ensures IsComment(a[i].text) { assert (a + b)[i] == a[i]; }
    forall i | 0 <= i < |b| && b[i].Comment? ensures IsComment(b[i].text) { assert (a + b)[|a| + i] == b[i]; }
  }

  /** The words of the annotated forest are the comments it carries and the tokens of the source. */
  lemma {:induction false} WordsSeparate(cs: seq<Syntax>, ns: seq<Annotated>)
    requires Same(cs, ns) && BuiltAll(cs) && Hashed(Reading(ns))
    ensures CommentsIn(WordsOf(ns)) == CommentTexts(Reading(ns)) && TokensIn(WordsOf(ns)) == SourceTokens(cs)
    decreases cs
  {
    hide CommentsIn, TokensIn, IsToken, Hashed, Built, Tokens, CommentTexts, TrailingTexts;
    if cs != [] {
      var n := ns[0];
      HashedParts(ns);
      WordsSeparate(cs[0].children, n.children);
      WordsSeparate(cs[1..], ns[1..]);
      TokensAreBracketed(n);
      BracketedIn(n.kind, n.children == [], WordsOf(n.children), |n.children|);
      NodeSeparates(n, Tokens(n));
      InJoin(Words(n), WordsOf(ns[1..]));
      ReadingTexts(ns);
    } else {
      NothingIn();
    }
  }

  lemma NothingIn()
    ensures CommentsIn([]) == [] && TokensIn([]) == [] && CommentTexts([]) == []
  {}

  lemma NodeSeparates(n: Annotated, tokens: seq<string>)
    requires Hashed(n.leading) && Hashed(n.trailing) && Hashed(n.closing)
    ensures var ws := CommentTexts(n.leading) + tokens + TrailingTexts(n.trailing) + CommentTexts(n.closing);
            && CommentsIn(ws) == CommentTexts(n.leading) + CommentsIn(tokens) + CommentTexts(n.trailing) +
               CommentTexts(n.closing)
            && TokensIn(ws) == TokensIn(tokens)
  {
    hide CommentsIn, TokensIn, Hashed, CommentTexts, TrailingTexts;
    var a, c, d := CommentTexts(n.leading), TrailingTexts(n.trailing), CommentTexts(n.closing);
    InTrivia(n.leading);
    InTrivia(n.trailing);
    InTrivia(n.closing);
    InJoin(a, tokens);
    InJoin(a + tokens, c);
    InJoin(a + tokens + c, d);
  }

  lemma ReadingTexts(ns: seq<Annotated>)
    requires ns != []
    ensures var n := ns[0];
            CommentTexts(Reading(ns)) == CommentTexts(n.leading) + CommentTexts(Reading(n.children)) +
                CommentTexts(n.trailing)
                                         + CommentTexts(n.closing) + CommentTexts(Reading(ns[1..]))
  {
    hide CommentTexts;
    var n := ns[0];
    var a, b, c, d, e := n.leading, Reading(n.children), n.trailing, n.closing, Reading(ns[1..]);
    CommentTextsJoin(a + b + c + d, e);
    CommentTextsJoin(a + b + c, d);
    CommentTextsJoin(a + b, c);
    CommentTextsJoin(a, b);
  }

  lemma {:induction false} KeptHashed(ts: seq<Trivia>, hi: nat, lost: nat -> bool)
    requires Hashed(ts) && hi <= |ts|
    ensures Hashed(Kept(ts, 0, hi, lost))
    decreases hi
  {
    if hi > 0 { KeptHashed(ts, hi - 1, lost); }
  }

  /**
    A formatted file has the tokens of its source, in order, and its comments, in
    order, less those lost inside childless nested nodes; it has no other text. As
    above, this is of lists laid out as calls.
  */
  lemma FormattedFileKeepsWords(cfg: Config, fs: seq<Syntax>, ts: seq<Trivia>, source: string, hi: nat)
    requires BuiltAll(fs) && Nested(fs, 0, hi) && Sorted(ts) && Hashed(ts)
    ensures TokensIn(Inks(Formatted(cfg, fs, ts, source))) == SourceTokens(fs)
    ensures CommentsIn(Inks(Formatted(cfg, fs, ts, source))) == CommentTexts(Kept(ts, 0, |ts|, Top(ts, fs)))
  {
    hide CommentsIn, TokensIn, Hashed, CommentTexts, Kept, Top, Reading, WordsOf, BuiltAll, Same, AttachForms,
         Formatted;
    var t := AttachForms(fs, ts, source);
    FormattedInks(cfg, fs, ts, source);
    FormsConserve(fs, ts, source, hi);
    KeptHashed(ts, |ts|, Top(ts, fs));
    HashedSplits(Reading(t.forms), t.dangling);
    AllSame(fs, ts, source);
    WordsSeparate(fs, t.forms);
    InTrivia(t.dangling);
    InJoin(WordsOf(t.forms), CommentTexts(t.dangling));
    CommentTextsJoin(Reading(t.forms), t.dangling);
  }

  lemma FormattedInks(cfg: Config, fs: seq<Syntax>, ts: seq<Trivia>, source: string)
    ensures var t := AttachForms(fs, ts, source);
            Inks(Formatted(cfg, fs, ts, source)) == WordsOf(t.forms) + CommentTexts(t.dangling)
  {
    hide FormatForms, Leaves, Layout, WordsOf, CommentTexts, AttachForms;
    var t := AttachForms(fs, ts, source);
    var doc := FormatForms(t.forms, t.dangling);
    FormsHaveWords(t.forms, t.dangling);
    LayoutKeepsLeaves(cfg, doc, 0, Flat, START);
    assert Inks([]) == [];
    assert [] + Leaves(doc) == Leaves(doc);
  }

  lemma AllSame(fs: seq<Syntax>, ts: seq<Trivia>, source: string)
    ensures Same(fs, AttachForms(fs, ts, source).forms)
  {
    FormsSame(fs, ts, 0, source);
  }
}
