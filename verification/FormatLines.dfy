/**
  The lines of the trivia in the rendered text. At a line start a node's leading
  comments come out each on a line of its own, and each run of blank lines as that
  many, up to two. Elsewhere a comment among them starts the line they need, and
  without one they leave no line at all (`LeadingIsWritten`). Closing trivia starts
  on the line after the node's last text (`ClosingIsWritten`). Every form of a file
  starts a line, so the blank lines between forms are kept (`FormKeepsItsBlankLines`).
*/
module FormatLines {
  import opened Render
  import opened RenderFacts
  import opened RenderBreaks
  import opened Trivia
  import opened Format

  // ----- laying out one part after another -----------------------------------------------------------------

  function Run(cfg: Config, parts: seq<Doc>, indent: nat, mode: Mode, s: Cursor): Cursor
    decreases |parts|
  {
    if parts == [] then s else Run(cfg, parts[1..], indent, mode, Layout(cfg, parts[0], indent, mode, s))
  }

  lemma {:induction false} RunJoins(cfg: Config, a: seq<Doc>, b: seq<Doc>, indent: nat, mode: Mode, s: Cursor)
    ensures Run(cfg, a + b, indent, mode, s) == Run(cfg, b, indent, mode, Run(cfg, a, indent, mode, s))
    decreases |a|
  {
    hide Layout;
    if a == [] {
      assert a + b == b;
    } else {
      RunJoins(cfg, a[1..], b, indent, mode, Layout(cfg, a[0], indent, mode, s));
      assert (a + b)[1..] == a[1..] + b;
    }
  }

  lemma {:induction false} DocsRun(cfg: Config, parts: seq<Doc>, indent: nat, mode: Mode, s: Cursor)
    ensures LayoutAll(cfg, ToDocs(parts), indent, mode, s) == Run(cfg, parts, indent, mode, s)
    decreases |parts|
  {
    hide Layout;
    if parts != [] { DocsRun(cfg, parts[1..], indent, mode, Layout(cfg, parts[0], indent, mode, s)); }
  }

  lemma ConcatRuns(cfg: Config, parts: seq<Doc>, indent: nat, mode: Mode, s: Cursor)
    ensures Layout(cfg, ConcatOf(parts), indent, mode, s) == Run(cfg, parts, indent, mode, s)
  {
    DocsRun(cfg, parts, indent, mode, s);
    if |parts| == 1 { assert parts[1..] == []; }
  }

  lemma {:induction false} RunGrows(cfg: Config, parts: seq<Doc>, indent: nat, mode: Mode, s: Cursor)
    ensures s.out <= Run(cfg, parts, indent, mode, s).out
    decreases |parts|
  {
    hide Layout;
    if parts != [] {
      LayoutGrows(cfg, parts[0], indent, mode, s);
      RunGrows(cfg, parts[1..], indent, mode, Layout(cfg, parts[0], indent, mode, s));
    }
  }

  // ----- leading trivia ------------------------------------------------------------------------------------

  /** `n` newlines in a row, each with its indent. */
  function Lines(n: nat, indent: nat): seq<Piece> {
    if n == 0 then [] else Lines(n - 1, indent) + [Line(indent)]
  }

  function UpToTwo(count: nat): nat {
    if count == 0 then 0 else if count == 1 then 1 else 2
  }

  /** What leading trivia is on the page, from a line start. */
  function LeadingLines(ts: seq<Trivia>, indent: nat): seq<Piece> {
    if ts == [] then []
    else
      LeadingLines(ts[..|ts| - 1], indent) + match ts[|ts| - 1]
        case Comment(text, _, _) => [Ink(text), Line(indent)]
        case BlankLines(count, _, _) => Lines(UpToTwo(count), indent)
  }

  predicate Texted(ts: seq<Trivia>) {
    forall i :: 0 <= i < |ts| && ts[i].Comment? ==> ts[i].text != ""
  }

  lemma {:induction false} BlanksRun(cfg: Config, n: nat, indent: nat, mode: Mode, s: Cursor)
    requires s.atStart
    ensures var r := Run(cfg, seq(n, _ => BlankLine), indent, mode, s);
            r.out == s.out + Lines(n, indent) && r.atStart && r.afterComment == s.afterComment
    decreases n
  {
    if n > 0 {
      var parts := seq(n, _ => BlankLine);
      assert parts == seq(n - 1, _ => BlankLine) + [BlankLine];
      RunJoins(cfg, seq(n - 1, _ => BlankLine), [BlankLine], indent, mode, s);
      BlanksRun(cfg, n - 1, indent, mode, s);
      var s1 := Run(cfg, seq(n - 1, _ => BlankLine), indent, mode, s);
      assert [BlankLine][1..] == [] && Run(cfg, [BlankLine], indent, mode, s1) == Newline(indent, s1);
      assert s.out + Lines(n - 1, indent) + [Line(indent)] == s.out + Lines(n, indent);
    }
  }

  lemma CommentRuns(cfg: Config, text: string, indent: nat, mode: Mode, s: Cursor)
    requires text != ""
    ensures var r := Run(cfg, [Text(text), HardBreak], indent, mode, s);
            r.out == s.out + [Ink(text), Line(indent)] && r.atStart && !r.afterComment
  {
    var s1 := Layout(cfg, Text(text), indent, mode, s);
    assert [Text(text), HardBreak][1..] == [HardBreak] && [HardBreak][1..] == [];
    assert Run(cfg, [HardBreak], indent, mode, s1) == Layout(cfg, HardBreak, indent, mode, s1);
    assert s.out + [Ink(text)] + [Line(indent)] == s.out + [Ink(text), Line(indent)];
  }

  /** The documents of one leading item, and its lines. */
  function LeadingDocs(t: Trivia): seq<Doc> {
    match t
    case Comment(text, _, _) => [Text(text), HardBreak]
    case BlankLines(count, _, _) => Blanks(count)
  }

  function ItemLines(t: Trivia, indent: nat): seq<Piece> {
    match t
    case Comment(text, _, _) => [Ink(text), Line(indent)]
    case BlankLines(count, _, _) => Lines(UpToTwo(count), indent)
  }

  lemma ItemRuns(cfg: Config, t: Trivia, indent: nat, mode: Mode, s: Cursor)
    requires s.atStart && (t.Comment? ==> t.text != "")
    ensures var r := Run(cfg, LeadingDocs(t), indent, mode, s); r.out == s.out + ItemLines(t, indent) && r.atStart
  {
    hide Run, Layout;
    match t
    case Comment(text, _, _) => CommentRuns(cfg, text, indent, mode, s);
    case BlankLines(count, _, _) =>
      BlanksRun(cfg, UpToTwo(count), indent, mode, s);
      assert Blanks(count) == seq(UpToTwo(count), _ => BlankLine);
  }

  lemma Onward(a: seq<Piece>, b: seq<Piece>, c: seq<Piece>)
    ensures a + b + c == a + (b + c)
  {}

  lemma {:induction false} ItemsRun(cfg: Config, ts: seq<Trivia>, indent: nat, mode: Mode, s: Cursor)
    requires s.atStart && Texted(ts)
    ensures var r := Run(cfg, LeadingItems(ts), indent, mode, s); r.out == s.out + LeadingLines(ts, indent) && r.atStart
    decreases |ts|
  {
    hide Run, Layout, Lines;
    if ts == [] {
      NothingRuns(cfg, indent, mode, s);
    } else {
      var init, last := ts[..|ts| - 1], ts[|ts| - 1];
      ItemsRun(cfg, init, indent, mode, s);
      var s1 := Run(cfg, LeadingItems(init), indent, mode, s);
      assert LeadingItems(ts) == LeadingItems(init) + LeadingDocs(last);
      assert LeadingLines(ts, indent) == LeadingLines(init, indent) + ItemLines(last, indent);
      hide LeadingItems, LeadingLines, LeadingDocs, ItemLines;
      RunJoins(cfg, LeadingItems(init), LeadingDocs(last), indent, mode, s);
      ItemRuns(cfg, last, indent, mode, s1);
      Onward(s.out, LeadingLines(init, indent), ItemLines(last, indent));
    }
  }

  lemma NothingRuns(cfg: Config, indent: nat, mode: Mode, s: Cursor)
    ensures Run(cfg, [], indent, mode, s) == s
  {}

  /** Off a line start, blank lines alone leave nothing. */
  lemma {:induction false} BlanksOffStart(cfg: Config, ts: seq<Trivia>, indent: nat, mode: Mode, s: Cursor)
    requires !s.atStart && !HasComment(ts)
    ensures Run(cfg, LeadingItems(ts), indent, mode, s) == s
    decreases |ts|
  {
    if ts != [] {
      var init, last := ts[..|ts| - 1], ts[|ts| - 1];
      assert !HasComment(init) by { assert forall i :: 0 <= i < |init| ==> init[i] == ts[i]; }
      assert last.BlankLines?;
      BlanksOffStart(cfg, init, indent, mode, s);
      RunJoins(cfg, LeadingItems(init), Blanks(last.count), indent, mode, s);
      NoBlanks(cfg, |Blanks(last.count)|, indent, mode, s);
      assert Blanks(last.count) == seq(|Blanks(last.count)|, _ => BlankLine);
    }
  }

  lemma {:induction false} NoBlanks(cfg: Config, n: nat, indent: nat, mode: Mode, s: Cursor)
    requires !s.atStart
    ensures Run(cfg, seq(n, _ => BlankLine), indent, mode, s) == s
    decreases n
  {
    if n > 0 {
      NoBlanks(cfg, n - 1, indent, mode, s);
      assert seq(n, _ => BlankLine)[1..] == seq(n - 1, _ => BlankLine);
    }
  }

  /** A node's leading trivia on the page. */
  lemma LeadingIsWritten(cfg: Config, ts: seq<Trivia>, indent: nat, mode: Mode, s: Cursor)
    requires Texted(ts)
    ensures var r := Run(cfg, Leading(ts), indent, mode, s);
            r.out == s.out + if s.atStart then LeadingLines(ts, indent)
                             else if HasComment(ts) then [Line(indent)] + LeadingLines(ts, indent)
                             else []
  {
    hide LeadingItems, LeadingLines;
    if HasComment(ts) {
      var s1 := Layout(cfg, FreshLine, indent, mode, s);
      RunJoins(cfg, [FreshLine], LeadingItems(ts), indent, mode, s);
      assert [FreshLine][1..] == [] && Run(cfg, [FreshLine], indent, mode, s) == s1;
      ItemsRun(cfg, ts, indent, mode, s1);
      assert !s.atStart ==>
             s.out + [Line(indent)] + LeadingLines(ts, indent) == s.out + ([Line(indent)] + LeadingLines(ts, indent));
    } else {
      assert [] + LeadingItems(ts) == LeadingItems(ts);
      if s.atStart { ItemsRun(cfg, ts, indent, mode, s); } else { BlanksOffStart(cfg, ts, indent, mode, s); }
    }
  }

  // ----- closing trivia ------------------------------------------------------------------------------------

  /** What closing trivia is on the page, below a line that holds text. */
  function ClosingLines(ts: seq<Trivia>, indent: nat): seq<Piece> {
    if ts == [] then []
    else
      var init := ts[..|ts| - 1];
      ClosingLines(init, indent)
      + (if init == [] || init[|init| - 1].Comment? then [Line(indent)] else [])
      + match ts[|ts| - 1]
        case Comment(text, _, _) => [Ink(text)]
        case BlankLines(count, _, _) => Lines(UpToTwo(count), indent)
  }

  function ClosingDocs(t: Trivia): seq<Doc> {
    match t
    case Comment(text, _, _) => [Text(text)]
    case BlankLines(count, _, _) => Blanks(count)
  }

  function OwnLines(t: Trivia, indent: nat): seq<Piece> {
    match t
    case Comment(text, _, _) => [Ink(text)]
    case BlankLines(count, _, _) => Lines(UpToTwo(count), indent)
  }

  function SeparatorDocs(hard: bool): seq<Doc> {
    if hard then [HardBreak] else []
  }

  function SeparatorLines(hard: bool, indent: nat): seq<Piece> {
    if hard then [Line(indent)] else []
  }

  lemma OneClosing(cfg: Config, t: Trivia, indent: nat, mode: Mode, s: Cursor)
    requires (t.Comment? ==> t.text != "") && s.atStart && !s.afterComment
    ensures var r := Run(cfg, ClosingDocs(t), indent, mode, s);
            r.out == s.out + OwnLines(t, indent) && !r.afterComment && (r.atStart <==> t.BlankLines?)
  {
    hide Run, Layout;
    match t
    case Comment(text, _, _) => TextRuns(cfg, text, indent, mode, s);
    case BlankLines(count, _, _) =>
      BlanksRun(cfg, UpToTwo(count), indent, mode, s);
      assert Blanks(count) == seq(UpToTwo(count), _ => BlankLine);
  }

  lemma {:induction false} ClosingIsWritten(cfg: Config, ts: seq<Trivia>, indent: nat, mode: Mode, s: Cursor)
    requires Texted(ts) && !s.atStart && !s.afterComment
    ensures var r := Run(cfg, ClosingItems(ts), indent, mode, s);
            && r.out == s.out + ClosingLines(ts, indent) && !r.afterComment
            && (r.atStart <==> ts != [] && ts[|ts| - 1].BlankLines?)
    decreases |ts|
  {
    hide Run, Layout, Lines;
    if ts == [] {
      NothingRuns(cfg, indent, mode, s);
    } else {
      var init, last := ts[..|ts| - 1], ts[|ts| - 1];
      ClosingIsWritten(cfg, init, indent, mode, s);
      var s1 := Run(cfg, ClosingItems(init), indent, mode, s);
      var hard := HoldsText(init);
      ClosingSnoc(ts, indent);
      hide ClosingItems, ClosingLines, ClosingDocs, OwnLines, SeparatorDocs, SeparatorLines;
      RunJoins(cfg, ClosingItems(init) + SeparatorDocs(hard), ClosingDocs(last), indent, mode, s);
      RunJoins(cfg, ClosingItems(init), SeparatorDocs(hard), indent, mode, s);
      Separated(cfg, hard, indent, mode, s1);
      OneClosing(cfg, last, indent, mode, Run(cfg, SeparatorDocs(hard), indent, mode, s1));
      Onward(s.out, ClosingLines(init, indent), SeparatorLines(hard, indent));
      Onward(s.out, ClosingLines(init, indent) + SeparatorLines(hard, indent), OwnLines(last, indent));
    }
  }

  lemma ClosingSnoc(ts: seq<Trivia>, indent: nat)
    requires ts != []
    ensures var init, last := ts[..|ts| - 1], ts[|ts| - 1];
            && ClosingItems(ts) == ClosingItems(init) + SeparatorDocs(HoldsText(init)) + ClosingDocs(last)
            && ClosingLines(ts, indent)
               == ClosingLines(init, indent) + SeparatorLines(HoldsText(init), indent) + OwnLines(last, indent)
  {}

  lemma Separated(cfg: Config, hard: bool, indent: nat, mode: Mode, s: Cursor)
    requires !s.afterComment && (!hard ==> s.atStart)
    ensures var r := Run(cfg, SeparatorDocs(hard), indent, mode, s);
            r.out == s.out + SeparatorLines(hard, indent) && r.atStart && !r.afterComment
  {
    assert [HardBreak][1..] == [];
  }

  lemma TextRuns(cfg: Config, text: string, indent: nat, mode: Mode, s: Cursor)
    requires text != ""
    ensures var r := Run(cfg, [Text(text)], indent, mode, s);
            r.out == s.out + [Ink(text)] && !r.atStart && !r.afterComment
  {
    assert [Text(text)][1..] == [];
  }

  // ----- a file --------------------------------------------------------------------------------------------

  lemma {:induction false} FormsSplit(docs: seq<Doc>, j: nat) returns (before: seq<Doc>, later: seq<Doc>)
    requires j < |docs|
    ensures Interleaved(HardBreak, docs) == before + [docs[j]] + later
    ensures if j == 0 then before == [] else before != [] && before[|before| - 1] == HardBreak
    decreases |docs|
  {
    if |docs| == 1 {
      before, later := [], [];
      assert [] + [docs[0]] + [] == docs;
    } else if j == |docs| - 1 {
      before, later := Interleaved(HardBreak, docs[..j]) + [HardBreak], [];
      assert before + [docs[j]] + later == Interleaved(HardBreak, docs[..j]) + [HardBreak, docs[j]];
    } else {
      var init := docs[..|docs| - 1];
      before, later := FormsSplit(init, j);
      later := later + [HardBreak, docs[|docs| - 1]];
    }
  }

  lemma {:induction false} EachIs(ns: seq<Annotated>, j: nat)
    requires j < |ns|
    ensures |FormatEach(ns)| == |ns| && FormatEach(ns)[j] == FormatAnnotated(ns[j])
    decreases |ns|
  {
    hide FormatAnnotated;
    if |ns| > 1 { EachIs(ns[1..], if j > 0 then j - 1 else 0); }
  }

  lemma HardBreakStarts(cfg: Config, parts: seq<Doc>, s: Cursor)
    requires Truthful(s) && (parts == [] ==> s.atStart) && (parts != [] ==> parts[|parts| - 1] == HardBreak)
    ensures Run(cfg, parts, 0, Flat, s).atStart
  {
    hide Truthful, Layout;
    if parts != [] {
      var init := parts[..|parts| - 1];
      assert parts == init + [HardBreak];
      RunJoins(cfg, init, [HardBreak], 0, Flat, s);
      var s1 := Run(cfg, init, 0, Flat, s);
      RunKeepsTruth(cfg, init, 0, Flat, s);
      assert [HardBreak][1..] == [];
      HardBreakLands(cfg, s1);
    }
  }

  lemma HardBreakLands(cfg: Config, s: Cursor)
    requires Truthful(s)
    ensures Layout(cfg, HardBreak, 0, Flat, s).atStart
  {}

  lemma {:induction false} RunKeepsTruth(cfg: Config, parts: seq<Doc>, indent: nat, mode: Mode, s: Cursor)
    requires Truthful(s)
    ensures Truthful(Run(cfg, parts, indent, mode, s))
    decreases |parts|
  {
    hide Truthful, Layout;
    if parts != [] {
      LayoutKeepsTruth(cfg, parts[0], indent, mode, s);
      RunKeepsTruth(cfg, parts[1..], indent, mode, Layout(cfg, parts[0], indent, mode, s));
    }
  }

  /** Each form of a file starts a line, and below it come its leading comments and blank lines, up to two in a run. */
  lemma FormKeepsItsBlankLines(cfg: Config, forms: seq<Annotated>, dangling: seq<Trivia>, j: nat) returns (s: Cursor)
    requires j < |forms| && Texted(forms[j].leading)
    ensures Truthful(s) && s.atStart
    ensures s.out + LeadingLines(forms[j].leading, 0) <= Layout(cfg, FormatForms(forms, dangling), 0, Flat, START).out
  {
    hide Truthful, Layout, FormatAnnotated, LeadingLines;
    var docs := FormatEach(forms);
    EachIs(forms, j);
    var before, later := FormsSplit(docs, j);
    var rest := if dangling == [] then [] else (if forms == [] then [] else [HardBreak]) + Leading(dangling);
    var parts := Interleaved(HardBreak, docs) + rest;
    assert parts == before + ([docs[j]] + (later + rest));
    ConcatRuns(cfg, parts, 0, Flat, START);
    RunJoins(cfg, before, [docs[j]] + (later + rest), 0, Flat, START);
    s := Run(cfg, before, 0, Flat, START);
    StartTruthful();
    RunKeepsTruth(cfg, before, 0, Flat, START);
    HardBreakStarts(cfg, before, START);
    RunJoins(cfg, [docs[j]], later + rest, 0, Flat, s);
    assert [docs[j]][1..] == [];
    var s1 := Run(cfg, [docs[j]], 0, Flat, s);
    assert s1 == Layout(cfg, docs[j], 0, Flat, s);
    RunGrows(cfg, later + rest, 0, Flat, s1);
    NodeLeads(cfg, forms[j], s);
  }

  lemma StartTruthful()
    ensures Truthful(START)
  {}

  lemma NodeLeads(cfg: Config, n: Annotated, s: Cursor)
    requires s.atStart && Texted(n.leading)
    ensures s.out + LeadingLines(n.leading, 0) <= Layout(cfg, FormatAnnotated(n), 0, Flat, s).out
  {
    hide Layout, LeadingLines, FormatSyntax, Leading, Trailing;
    var own := Leading(n.leading) + [FormatSyntax(n)];
    var first, last := FormatWithoutTrailing(n), ConcatOf(Trailing(n));
    ConcatRuns(cfg, [first, last], 0, Flat, s);
    assert [first, last] == [first] + [last] && [first][1..] == [];
    RunJoins(cfg, [first], [last], 0, Flat, s);
    var s1 := Layout(cfg, first, 0, Flat, s);
    assert Run(cfg, [first], 0, Flat, s) == s1;
    RunGrows(cfg, [last], 0, Flat, s1);
    ConcatRuns(cfg, own, 0, Flat, s);
    RunJoins(cfg, Leading(n.leading), [FormatSyntax(n)], 0, Flat, s);
    LeadingIsWritten(cfg, n.leading, 0, Flat, s);
    RunGrows(cfg, [FormatSyntax(n)], 0, Flat, Run(cfg, Leading(n.leading), 0, Flat, s));
  }

  // ----- what wraps alone, and what wraps together --------------------------------------------------------------

  /** What a break is on the page, where no comment's newline absorbs it. */
  function BreakPiece(flat: bool, indent: nat): Piece {
    if flat then Gap else Line(indent)
  }

  lemma {:induction false} WrappedSplits(docs: seq<Doc>, i: nat) returns (later: seq<Doc>)
    requires i < |docs|
    ensures Wrapped(docs) == Wrapped(docs[..i]) + [Group(ConcatOf([Break, docs[i]]))] + later
    decreases |docs|
  {
    var init := docs[..|docs| - 1];
    if i == |docs| - 1 {
      later := [];
      assert Wrapped(docs) + [] == Wrapped(docs);
    } else {
      later := WrappedSplits(init, i);
      assert init[..i] == docs[..i];
      later := later + [Group(ConcatOf([Break, docs[|docs| - 1]]))];
    }
  }

  /** An argument after the first goes on the line it fits on, whatever the others do. */
  lemma ArgumentWrapsAlone(cfg: Config, docs: seq<Doc>, i: nat, indent: nat, mode: Mode, start: Cursor)
    requires cfg.lineWidth < USIZE_MAX && i < |docs|
    requires !Run(cfg, Wrapped(docs[..i]), indent, mode, start).afterComment
    ensures var s := Run(cfg, Wrapped(docs[..i]), indent, mode, start);
            var fits := !HoldsHard(docs[i]) && s.col + 1 + |FlatText(docs[i])| <= cfg.lineWidth;
            s.out + [BreakPiece(fits, indent)] <= Run(cfg, Wrapped(docs), indent, mode, start).out
  {
    hide Layout, Wrapped, Run;
    var later := WrappedSplits(docs, i);
    var one := Group(ConcatOf([Break, docs[i]]));
    var s := Run(cfg, Wrapped(docs[..i]), indent, mode, start);
    RunJoins(cfg, Wrapped(docs[..i]) + [one], later, indent, mode, start);
    RunJoins(cfg, Wrapped(docs[..i]), [one], indent, mode, start);
    RunGrows(cfg, later, indent, mode, Run(cfg, [one], indent, mode, s));
    OneRuns(cfg, one, indent, mode, s);
    BreakThen(cfg, docs[i], indent, mode, s);
  }

  lemma OneRuns(cfg: Config, d: Doc, indent: nat, mode: Mode, s: Cursor)
    ensures Run(cfg, [d], indent, mode, s) == Layout(cfg, d, indent, mode, s)
  {
    assert [d][1..] == [];
  }

  lemma BreakThen(cfg: Config, d: Doc, indent: nat, mode: Mode, s: Cursor)
    requires cfg.lineWidth < USIZE_MAX && !s.afterComment
    ensures var fits := !HoldsHard(d) && s.col + 1 + |FlatText(d)| <= cfg.lineWidth;
            s.out + [BreakPiece(fits, indent)] <= Layout(cfg, Group(ConcatOf([Break, d])), indent, mode, s).out
  {
    var inner := ConcatOf([Break, d]);
    BreakWidth(d);
    RoomIsMeasured(cfg, s.col, inner);
    var own := if StaysFlat(cfg, s.col, inner) then Flat else Broken;
    hide Layout;
    ConcatRuns(cfg, [Break, d], indent, own, s);
    assert [Break] + [d] == [Break, d];
    RunJoins(cfg, [Break], [d], indent, own, s);
    OneRuns(cfg, Break, indent, own, s);
    GroupIs(cfg, inner, indent, mode, s);
    BreakIs(cfg, indent, own, s);
    RunGrows(cfg, [d], indent, own, Layout(cfg, Break, indent, own, s));
  }

  lemma BreakWidth(d: Doc)
    ensures |FlatText(ConcatOf([Break, d]))| == 1 + |FlatText(d)| && HoldsHard(ConcatOf([Break, d])) == HoldsHard(d)
  {
    var one := DCons(d, DNil);
    var both := DCons(Break, one);
    assert [Break, d][1..] == [d] && [d][1..] == [];
    assert ToDocs([]) == DNil && ToDocs([d]) == one && ToDocs([Break, d]) == both;
    assert FlatTexts(one) == FlatText(d) + "" && FlatTexts(both) == " " + FlatTexts(one);
    assert FlatText(Concat(both)) == FlatTexts(both);
    assert AnyHoldsHard(one) == HoldsHard(d) && AnyHoldsHard(both) == AnyHoldsHard(one);
  }

  lemma GroupIs(cfg: Config, d: Doc, indent: nat, mode: Mode, s: Cursor)
    ensures Layout(cfg, Group(d), indent, mode, s)
            == Layout(cfg, d, indent, if StaysFlat(cfg, s.col, d) then Flat else Broken, s)
  {}

  lemma BreakIs(cfg: Config, indent: nat, mode: Mode, s: Cursor)
    requires !s.afterComment
    ensures Layout(cfg, Break, indent, mode, s).out == s.out + [BreakPiece(mode.Flat?, indent)]
  {}

  lemma {:induction false} InterleavedSplits(docs: seq<Doc>, i: nat) returns (later: seq<Doc>)
    requires 0 < i < |docs|
    ensures Interleaved(Break, docs) == Interleaved(Break, docs[..i]) + [Break] + later
    decreases |docs|
  {
    var last := docs[|docs| - 1];
    if i == |docs| - 1 {
      later := [last];
    } else {
      var init := docs[..|docs| - 1];
      later := InterleavedSplits(init, i);
      assert init[..i] == docs[..i];
      later := later + [Break, last];
    }
  }

  /** The pairs of a table stand on one line if all of it fits there, and each on its own line if not. */
  lemma PairsWrapTogether(cfg: Config, docs: seq<Doc>, i: nat, indent: nat, mode: Mode, start: Cursor)
    requires cfg.lineWidth < USIZE_MAX && 0 < i < |docs|
    ensures var all := Intersperse(docs);
            var fits := !HoldsHard(all) && start.col + |FlatText(all)| <= cfg.lineWidth;
            var s := Run(cfg, Interleaved(Break, docs[..i]), indent, if fits then Flat else Broken, start);
            !s.afterComment ==> s.out + [BreakPiece(fits, indent)] <= Layout(cfg, GroupOf(all), indent, mode, start).out
  {
    hide Layout, Run, Interleaved, StaysFlat, HoldsHard, FlatText;
    var all := Intersperse(docs);
    RoomIsMeasured(cfg, start.col, all);
    var own := if HasRoom(cfg, start.col, all) then Flat else Broken;
    GroupIs(cfg, all, indent, mode, start);
    var later := InterleavedSplits(docs, i);
    var before := Interleaved(Break, docs[..i]);
    var s := Run(cfg, before, indent, own, start);
    ConcatRuns(cfg, Interleaved(Break, docs), indent, own, start);
    assert |Interleaved(Break, docs)| > 1 by { ManyInterleaved(docs); }
    RunJoins(cfg, before + [Break], later, indent, own, start);
    RunJoins(cfg, before, [Break], indent, own, start);
    OneRuns(cfg, Break, indent, own, s);
    if !s.afterComment {
      BreakIs(cfg, indent, own, s);
      RunGrows(cfg, later, indent, own, Layout(cfg, Break, indent, own, s));
    }
  }

  lemma ManyInterleaved(docs: seq<Doc>)
    requires |docs| > 1
    ensures |Interleaved(Break, docs)| > 1
  {}
}
