/**
  Where lines break, and how far they are indented.

  A `Visit` is a document about to be laid out: at which cursor, in which mode, with
  which indent. `Into` gives the visit of each part, from widths and columns alone: a
  group is flat exactly when its flat text, which holds no hard break, ends within the
  line width; a nest adds its levels, an align takes the column; a hang joins near the
  left edge or where its first part fits. `PartIsWritten` says the renderer goes the
  same way, so that what stands at the end of a path is written as its visit says
  (`BreakIsWritten`), under the mode of the group it belongs to (`ModeIsOfItsGroup`)
  and the indent its nests add up to (`IndentIsNested`).
*/
module RenderBreaks {
  import opened Render
  import opened RenderFacts

  datatype Visit = Visit(doc: Doc, indent: nat, mode: Mode, at: Cursor)

  function End(cfg: Config, v: Visit): Cursor {
    Layout(cfg, v.doc, v.indent, v.mode, v.at)
  }

  // ----- the way to each part ------------------------------------------------------------------------------

  function Count(ds: Docs): nat {
    match ds
    case DNil => 0
    case DCons(_, rest) => 1 + Count(rest)
  }

  function Part(ds: Docs, k: nat): Doc
    requires k < Count(ds)
  {
    if k == 0 then ds.head else Part(ds.tail, k - 1)
  }

  function Before(ds: Docs, k: nat): Docs
    requires k <= Count(ds)
  {
    if k == 0 then DNil else DCons(ds.head, Before(ds.tail, k - 1))
  }

  function Parts(d: Doc): nat {
    match d
    case Concat(ds) => Count(ds)
    case Nest(_, _) => 1
    case Group(_) => 1
    case Align(_) => 1
    case Hang(_, _) => 2
    case _ => 0
  }

  /** `d` can be one line, and from column `col` that line ends within the width. */
  predicate HasRoom(cfg: Config, col: nat, d: Doc) {
    !HoldsHard(d) && col + |FlatText(d)| <= cfg.lineWidth
  }

  /** The arguments align after the head: near the left edge, or on a line a comment ended. */
  predicate Near(cfg: Config, s: Cursor) {
    s.afterComment || s.col + 1 <= cfg.lineWidth / 2
  }

  /** Where a hang's first part starts: after a space, absorbed by a comment's newline, or on a new line. */
  function HangStart(cfg: Config, first: Doc, indent: nat, s: Cursor): Cursor {
    if s.afterComment then Cursor(s.out, s.col, false, s.atStart)
    else if Near(cfg, s) || HasRoom(cfg, s.col + 1, first) then Cursor(s.out + [Gap], s.col + 1, false, false)
    else Cursor(s.out + [Line(indent)], indent, false, true)
  }

  function HangIndent(cfg: Config, first: Doc, indent: nat, s: Cursor): nat {
    if Near(cfg, s) then HangStart(cfg, first, indent, s).col else indent
  }

  /** The visit of the `k`th part. */
  function Into(cfg: Config, v: Visit, k: nat): Visit
    requires k < Parts(v.doc)
  {
    match v.doc
    case Concat(ds) => v.(doc := Part(ds, k), at := LayoutAll(cfg, Before(ds, k), v.indent, v.mode, v.at))
    case Nest(n, inner) => v.(doc := inner, indent := v.indent + n * cfg.indentWidth)
    case Group(inner) => v.(doc := inner, mode := if HasRoom(cfg, v.at.col, inner) then Flat else Broken)
    case Align(inner) => v.(doc := inner, indent := v.at.col)
    case Hang(first, rest) =>
      var start := HangStart(cfg, first, v.indent, v.at);
      var in1 := HangIndent(cfg, first, v.indent, v.at);
      if k == 0 then Visit(first, in1, v.mode, start)
      else Visit(rest, in1, v.mode, Layout(cfg, first, in1, v.mode, start))
  }

  /** `w` is the visit `path` leads to. */
  predicate Leads(cfg: Config, v: Visit, path: seq<nat>, w: Visit)
    decreases |path|
  {
    if path == [] then w == v else path[0] < Parts(v.doc) && Leads(cfg, Into(cfg, v, path[0]), path[1..], w)
  }

  // ----- the renderer goes that way ------------------------------------------------------------------------

  lemma RoomIsMeasured(cfg: Config, col: nat, d: Doc)
    requires cfg.lineWidth < USIZE_MAX
    ensures StaysFlat(cfg, col, d) <==> HasRoom(cfg, col, d)
  {
    MeasureIsFlatWidth(d);
  }

  /** Nothing written is taken back. */
  lemma {:induction false} LayoutGrows(cfg: Config, d: Doc, indent: nat, mode: Mode, s: Cursor)
    ensures s.out <= Layout(cfg, d, indent, mode, s).out
    decreases d
  {
    match d
    case Concat(ds) => LayoutAllGrows(cfg, ds, indent, mode, s);
    case Nest(n, inner) => LayoutGrows(cfg, inner, indent + n * cfg.indentWidth, mode, s);
    case Group(inner) => LayoutGrows(cfg, inner, indent, if StaysFlat(cfg, s.col, inner) then Flat else Broken, s);
    case Align(inner) => LayoutGrows(cfg, inner, s.col, mode, s);
    case Hang(first, rest) =>
      var s1 := if Aligned(cfg, s) || StaysFlat(cfg, s.col + 1, first) then OneSpace(s) else Newline(indent, s);
      var in1 := if Aligned(cfg, s) then s1.col else indent;
      LayoutGrows(cfg, first, in1, mode, s1);
      LayoutGrows(cfg, rest, in1, mode, Layout(cfg, first, in1, mode, s1));
    case _ =>
  }

  lemma {:induction false} LayoutAllGrows(cfg: Config, ds: Docs, indent: nat, mode: Mode, s: Cursor)
    ensures s.out <= LayoutAll(cfg, ds, indent, mode, s).out
    decreases ds
  {
    hide Layout;
    if ds.DCons? {
      LayoutGrows(cfg, ds.head, indent, mode, s);
      LayoutAllGrows(cfg, ds.tail, indent, mode, Layout(cfg, ds.head, indent, mode, s));
    }
  }

  /** A concatenation lays out the parts before the `k`th, the `k`th, and goes on from there. */
  lemma {:induction false} ConcatSplits(cfg: Config, ds: Docs, k: nat, indent: nat, mode: Mode, s: Cursor)
    requires k < Count(ds)
    ensures var s1 := LayoutAll(cfg, Before(ds, k), indent, mode, s);
            Layout(cfg, Part(ds, k), indent, mode, s1).out <= LayoutAll(cfg, ds, indent, mode, s).out
    decreases ds
  {
    hide Layout;
    var s1 := Layout(cfg, ds.head, indent, mode, s);
    if k == 0 {
      LayoutAllGrows(cfg, ds.tail, indent, mode, s1);
    } else {
      ConcatSplits(cfg, ds.tail, k - 1, indent, mode, s1);
    }
  }

  lemma HangGoesThere(cfg: Config, v: Visit, k: nat)
    requires cfg.lineWidth < USIZE_MAX && v.doc.Hang? && k < 2
    ensures End(cfg, Into(cfg, v, k)).out <= End(cfg, v).out
  {
    hide Layout, Measure, FlatText, HoldsHard;
    var first, rest := v.doc.first, v.doc.rest;
    RoomIsMeasured(cfg, v.at.col + 1, first);
    HangStep(cfg, first, rest, v.indent, v.mode, v.at);
    var s1 := HangStart(cfg, first, v.indent, v.at);
    var in1 := HangIndent(cfg, first, v.indent, v.at);
    var joined := Aligned(cfg, v.at) || StaysFlat(cfg, v.at.col + 1, first);
    assert s1 == if joined then OneSpace(v.at) else Newline(v.indent, v.at);
    LayoutGrows(cfg, rest, in1, v.mode, Layout(cfg, first, in1, v.mode, s1));
  }

  /** What a part writes, from its own visit, is a prefix of what the whole writes. */
  lemma StepIsWritten(cfg: Config, v: Visit, k: nat)
    requires cfg.lineWidth < USIZE_MAX && k < Parts(v.doc)
    ensures End(cfg, Into(cfg, v, k)).out <= End(cfg, v).out
  {
    hide FlatText, HoldsHard, Measure, LayoutAll, StaysFlat, HasRoom, HangStart, HangIndent;
    match v.doc
    case Concat(ds) => ConcatSplits(cfg, ds, k, v.indent, v.mode, v.at);
    case Group(inner) => RoomIsMeasured(cfg, v.at.col, inner);
    case Hang(_, _) => HangGoesThere(cfg, v, k);
    case _ =>
  }

  lemma {:induction false} PartIsWritten(cfg: Config, v: Visit, path: seq<nat>, w: Visit)
    requires cfg.lineWidth < USIZE_MAX && Leads(cfg, v, path, w)
    ensures w.at.out <= End(cfg, w).out <= End(cfg, v).out
    decreases |path|
  {
    hide Into, Layout;
    if path == [] {
      LayoutGrows(cfg, w.doc, w.indent, w.mode, w.at);
    } else {
      PartIsWritten(cfg, Into(cfg, v, path[0]), path[1..], w);
      StepIsWritten(cfg, v, path[0]);
    }
  }

  // ----- what is written at each break ---------------------------------------------------------------------

  /** A break in broken mode is a newline and its indent, in flat mode a space; after a comment's newline, neither. */
  lemma BreakIsWritten(cfg: Config, v: Visit, path: seq<nat>, w: Visit)
    requires cfg.lineWidth < USIZE_MAX && Leads(cfg, v, path, w) && w.doc.Break?
    ensures w.at.afterComment ==> End(cfg, w) == w.at.(afterComment := false)
    ensures !w.at.afterComment ==>
              w.at.out + [if w.mode.Broken? then Line(w.indent) else Gap] == End(cfg, w).out <= End(cfg, v).out
  {
    hide Leads;
    PartIsWritten(cfg, v, path, w);
  }

  /** A hard break is a newline in either mode, unless a comment's newline absorbs it. */
  lemma HardBreakIsWritten(cfg: Config, v: Visit, path: seq<nat>, w: Visit)
    requires cfg.lineWidth < USIZE_MAX && Leads(cfg, v, path, w) && w.doc.HardBreak?
    ensures w.at.afterComment ==> End(cfg, w) == w.at.(afterComment := false)
    ensures !w.at.afterComment ==> w.at.out + [Line(w.indent)] == End(cfg, w).out <= End(cfg, v).out
  {
    hide Leads;
    PartIsWritten(cfg, v, path, w);
  }

  /** A hang joins its first part by a space near the left edge or where it has room, and by a newline otherwise. */
  lemma HangIsWritten(cfg: Config, v: Visit, path: seq<nat>, w: Visit)
    requires cfg.lineWidth < USIZE_MAX && Leads(cfg, v, path, w) && w.doc.Hang? && !w.at.afterComment
    ensures var joined := w.at.col + 1 <= cfg.lineWidth / 2 || HasRoom(cfg, w.at.col + 1, w.doc.first);
            w.at.out + [if joined then Gap else Line(w.indent)] <= End(cfg, v).out
  {
    hide Leads, Layout, HasRoom;
    PartIsWritten(cfg, v, path, w);
    StepIsWritten(cfg, w, 0);
    var u := Into(cfg, w, 0);
    LayoutGrows(cfg, u.doc, u.indent, u.mode, u.at);
  }

  /** No group stands on the path before its end. */
  predicate GroupFree(cfg: Config, v: Visit, path: seq<nat>)
    decreases |path|
  {
    path != [] ==>
      !v.doc.Group? && (path[0] < Parts(v.doc) ==> GroupFree(cfg, Into(cfg, v, path[0]), path[1..]))
  }

  lemma {:induction false} ModeStays(cfg: Config, v: Visit, path: seq<nat>, w: Visit)
    requires Leads(cfg, v, path, w) && GroupFree(cfg, v, path)
    ensures w.mode == v.mode
    decreases |path|
  {
    if path != [] { ModeStays(cfg, Into(cfg, v, path[0]), path[1..], w); }
  }

  /** What belongs to a group is flat exactly when the group has room where it starts. */
  lemma ModeIsOfItsGroup(cfg: Config, g: Visit, path: seq<nat>, w: Visit)
    requires g.doc.Group? && Leads(cfg, Into(cfg, g, 0), path, w) && GroupFree(cfg, Into(cfg, g, 0), path)
    ensures w.mode.Flat? <==> !HoldsHard(g.doc.inner) && g.at.col + |FlatText(g.doc.inner)| <= cfg.lineWidth
  {
    ModeStays(cfg, Into(cfg, g, 0), path, w);
  }

  /** The levels of the nests on a path that meets no align and no hang. */
  function Levels(cfg: Config, v: Visit, path: seq<nat>): nat
    decreases |path|
  {
    if path == [] || path[0] >= Parts(v.doc) then 0
    else (if v.doc.Nest? then v.doc.levels else 0) + Levels(cfg, Into(cfg, v, path[0]), path[1..])
  }

  predicate Straight(cfg: Config, v: Visit, path: seq<nat>)
    decreases |path|
  {
    path != [] ==>
      !v.doc.Align? && !v.doc.Hang? && (path[0] < Parts(v.doc) ==> Straight(cfg, Into(cfg, v, path[0]), path[1..]))
  }

  /** The indent is the enclosing one and `indentWidth` for each level of nesting. */
  lemma {:induction false} IndentIsNested(cfg: Config, v: Visit, path: seq<nat>, w: Visit)
    requires Leads(cfg, v, path, w) && Straight(cfg, v, path)
    ensures w.indent == v.indent + Levels(cfg, v, path) * cfg.indentWidth
    decreases |path|
  {
    hide Into;
    if path != [] {
      var u := Into(cfg, v, path[0]);
      IndentIsNested(cfg, u, path[1..], w);
      var n := if v.doc.Nest? then v.doc.levels else 0;
      StepIndents(cfg, v, path[0]);
      WidthsAdd(n, Levels(cfg, u, path[1..]), cfg.indentWidth);
    }
  }

  lemma StepIndents(cfg: Config, v: Visit, k: nat)
    requires k < Parts(v.doc) && !v.doc.Align? && !v.doc.Hang?
    ensures Into(cfg, v, k).indent == v.indent + (if v.doc.Nest? then v.doc.levels else 0) * cfg.indentWidth
  {}

  lemma WidthsAdd(n: nat, m: nat, width: nat)
    ensures (n + m) * width == n * width + m * width
  {}

  /** Inside an align, the indent is the column the align starts at. */
  lemma IndentIsAligned(cfg: Config, v: Visit, path: seq<nat>, w: Visit)
    requires v.doc.Align? && Leads(cfg, Into(cfg, v, 0), path, w) && Straight(cfg, Into(cfg, v, 0), path)
    ensures w.indent == v.at.col + Levels(cfg, Into(cfg, v, 0), path) * cfg.indentWidth
  {
    IndentIsNested(cfg, Into(cfg, v, 0), path, w);
  }
}
