/**
  What the renderer guarantees for every document, configuration and mode: the
  measured width is the width written, the line state stays true to the output,
  every text leaf comes out once and in order, and separators separate.
*/
module RenderFacts {
  import opened Render

  // ----- the measure is the flat width --------------------------------------------------------

  /** A break that is never flat. */
  predicate HoldsHard(d: Doc) {
    match d
    case HardBreak => true
    case CommentBreak => true
    case FreshLine => true
    case Concat(ds) => AnyHoldsHard(ds)
    case Nest(_, inner) => HoldsHard(inner)
    case Group(inner) => HoldsHard(inner)
    case Align(inner) => HoldsHard(inner)
    case Hang(first, rest) => HoldsHard(first) || HoldsHard(rest)
    case _ => false
  }

  predicate AnyHoldsHard(ds: Docs) {
    ds.DCons? && (HoldsHard(ds.head) || AnyHoldsHard(ds.tail))
  }

  /** What a document reads as on one line. */
  function FlatText(d: Doc): string {
    match d
    case Text(t) => t
    case Break => " "
    case Space => " "
    case Concat(ds) => FlatTexts(ds)
    case Nest(_, inner) => FlatText(inner)
    case Group(inner) => FlatText(inner)
    case Align(inner) => FlatText(inner)
    case Hang(first, rest) => " " + FlatText(first) + FlatText(rest)
    case _ => ""
  }

  function FlatTexts(ds: Docs): string {
    match ds
    case DNil => ""
    case DCons(d, rest) => FlatText(d) + FlatTexts(rest)
  }

  /**
    The checked, early-exit sum is the length of the flat text. It gives up only on
    a part that is never flat, or on a width past what a `usize` holds.
  */
  lemma {:induction false} MeasureIsFlatWidth(d: Doc)
    ensures Measure(d).Some? ==> !HoldsHard(d) && Measure(d).value == |FlatText(d)|
    ensures Measure(d).None? ==> HoldsHard(d) || |FlatText(d)| > USIZE_MAX
    decreases d
  {
    match d
    case Concat(ds) => MeasureAllIsFlatWidth(0, ds);
    case Nest(_, inner) => MeasureIsFlatWidth(inner);
    case Group(inner) => MeasureIsFlatWidth(inner);
    case Align(inner) => MeasureIsFlatWidth(inner);
    case Hang(first, rest) => MeasureIsFlatWidth(first); MeasureIsFlatWidth(rest);
    case _ =>
  }

  lemma {:induction false} MeasureAllIsFlatWidth(total: nat, ds: Docs)
    ensures MeasureAll(total, ds).Some? ==> !AnyHoldsHard(ds) && MeasureAll(total, ds).value == total + |FlatTexts(ds)|
    ensures MeasureAll(total, ds).None? ==> AnyHoldsHard(ds) || total + |FlatTexts(ds)| > USIZE_MAX
    decreases ds
  {
    if ds.DCons? {
      MeasureIsFlatWidth(ds.head);
      if Measure(ds.head).Some? && CheckedPlus(total, Measure(ds.head).value).Some? {
        MeasureAllIsFlatWidth(total + Measure(ds.head).value, ds.tail);
      }
    }
  }

  // ----- flat layout writes the flat text, and nothing else --------------------------------------

  /** What a document meets first: bytes, a blank line, or neither. */
  datatype Lead = Neither | Inked | Blank

  function LeadOf(d: Doc): Lead {
    match d
    case Text(t) => if t == "" then Neither else Inked
    case Break => Inked
    case Space => Inked
    case BlankLine => Blank
    case Concat(ds) => LeadOfAll(ds)
    case Nest(_, inner) => LeadOf(inner)
    case Group(inner) => LeadOf(inner)
    case Align(inner) => LeadOf(inner)
    case Hang(_, _) => Inked
    case _ => Neither
  }

  function LeadOfAll(ds: Docs): Lead {
    match ds
    case DNil => Neither
    case DCons(d, rest) => if LeadOf(d).Neither? then LeadOfAll(rest) else LeadOf(d)
  }

  /** From `s` to `t`, the renderer wrote `text` on the line it was on. */
  ghost predicate WroteOnLine(s: Cursor, t: Cursor, text: string) {
    && Bytes(t.out) == Bytes(s.out) + text
    && t.col == s.col + |text|
    && !t.afterComment
    && s.out <= t.out && (forall i :: |s.out| <= i < |t.out| ==> !t.out[i].Line?)
  }

  lemma WroteThen(s: Cursor, t: Cursor, u: Cursor, a: string, b: string)
    requires WroteOnLine(s, t, a) && WroteOnLine(t, u, b)
    ensures WroteOnLine(s, u, a + b)
  {
    assert Bytes(s.out) + a + b == Bytes(s.out) + (a + b);
  }

  lemma WroteMoves(s: Cursor, t: Cursor, text: string)
    requires WroteOnLine(s, t, text)
    ensures t.col == s.col + |text| && !t.afterComment
  {}

  lemma WroteNothing(s: Cursor)
    requires !s.afterComment
    ensures WroteOnLine(s, s, "")
  {}

  lemma WroteText(s: Cursor, t: string)
    requires !s.afterComment
    ensures WroteOnLine(s, Cursor(s.out + [Ink(t)], s.col + |t|, false, s.atStart && t == ""), t)
  {
    BytesPush(s.out, Ink(t));
  }

  lemma WroteSpace(s: Cursor)
    requires !s.afterComment
    ensures WroteOnLine(s, OneSpace(s), " ")
  {
    BytesPush(s.out, Gap);
  }

  /** No pending comment break, and no blank line about to print at a line start. */
  predicate FlatReady(cfg: Config, s: Cursor, lead: Lead, width: nat) {
    !s.afterComment && !(s.atStart && lead.Blank?) && Fits(cfg, Plus(s.col, width))
  }

  /**
    If the measured width fits, flat layout writes exactly the flat text: that many
    bytes, no newline of its own, every nested group and hang on the same line.
  */
  lemma {:induction false} FlatWritesFlatText(cfg: Config, d: Doc, indent: nat, s: Cursor)
    requires Measure(d).Some? && FlatReady(cfg, s, LeadOf(d), Measure(d).value)
    ensures WroteOnLine(s, Layout(cfg, d, indent, Flat, s), FlatText(d))
    ensures Layout(cfg, d, indent, Flat, s).atStart == (s.atStart && LeadOf(d).Neither?)
    decreases d, 1
  {
    hide WroteOnLine;
    MeasureIsFlatWidth(d);
    match d
    case Empty => WroteNothing(s);
    case BlankLine => WroteNothing(s);
    case Text(t) => WroteText(s, t);
    case Break => WroteSpace(s);
    case Space => WroteSpace(s);
    case Concat(ds) => FlatWritesFlatTexts(cfg, ds, indent, s, 0);
    case Nest(n, inner) => FlatWritesFlatText(cfg, inner, indent + n * cfg.indentWidth, s);
    case Group(inner) => FlatWritesFlatText(cfg, inner, indent, s);
    case Align(inner) => FlatWritesFlatText(cfg, inner, s.col, s);
    case Hang(first, rest) => FlatHang(cfg, first, rest, indent, s);
  }

  lemma {:induction false} FlatHang(cfg: Config, first: Doc, rest: Doc, indent: nat, s: Cursor)
    requires Measure(Hang(first, rest)).Some? && FlatReady(cfg, s, Inked, Measure(Hang(first, rest)).value)
    ensures WroteOnLine(s, Layout(cfg, Hang(first, rest), indent, Flat, s), FlatText(Hang(first, rest)))
    ensures !Layout(cfg, Hang(first, rest), indent, Flat, s).atStart
    decreases Hang(first, rest), 0
  {
    hide WroteOnLine;
    MeasureIsFlatWidth(first);
    MeasureIsFlatWidth(rest);
    WroteSpace(s);
    var s1 := OneSpace(s);
    var in1 := if Aligned(cfg, s) then s1.col else indent;
    FlatWritesFlatText(cfg, first, in1, s1);
    var s2 := Layout(cfg, first, in1, Flat, s1);
    WroteMoves(s1, s2, FlatText(first));
    WroteMoves(s, s1, " ");
    FlatWritesFlatText(cfg, rest, in1, s2);
    WroteThen(s, s1, s2, " ", FlatText(first));
    WroteThen(s, s2, Layout(cfg, rest, in1, Flat, s2), " " + FlatText(first), FlatText(rest));
  }

  lemma {:induction false} FlatWritesFlatTexts(cfg: Config, ds: Docs, indent: nat, s: Cursor, total: nat)
    requires MeasureAll(total, ds).Some? && FlatReady(cfg, s, LeadOfAll(ds), |FlatTexts(ds)|)
    ensures WroteOnLine(s, LayoutAll(cfg, ds, indent, Flat, s), FlatTexts(ds))
    ensures LayoutAll(cfg, ds, indent, Flat, s).atStart == (s.atStart && LeadOfAll(ds).Neither?)
    decreases ds, 0
  {
    if ds.DCons? {
      MeasureIsFlatWidth(ds.head);
      FlatWritesFlatText(cfg, ds.head, indent, s);
      var s1 := Layout(cfg, ds.head, indent, Flat, s);
      FlatWritesFlatTexts(cfg, ds.tail, indent, s1, total + Measure(ds.head).value);
      WroteThen(s, s1, LayoutAll(cfg, ds.tail, indent, Flat, s1), FlatText(ds.head), FlatTexts(ds.tail));
    }
  }

  /** Whatever the mode and the width, a document that can be flat writes at least its measured width. */
  ghost predicate WroteAtLeast(s: Cursor, t: Cursor, lead: Lead, width: nat) {
    && !t.afterComment
    && (lead.Neither? ==> t.atStart == s.atStart)
    && |Bytes(t.out)| >= |Bytes(s.out)| + width + if s.atStart && lead.Blank? then 1 else 0
  }

  lemma {:induction false} LayoutWritesAtLeast(cfg: Config, d: Doc, indent: nat, mode: Mode, s: Cursor)
    requires Measure(d).Some? && !s.afterComment
    ensures WroteAtLeast(s, Layout(cfg, d, indent, mode, s), LeadOf(d), Measure(d).value)
    decreases d, 1
  {
    match d
    case Empty =>
    case BlankLine => BytesPush(s.out, Line(indent));
    case Text(t) => BytesPush(s.out, Ink(t));
    case Break => BytesPush(s.out, Line(indent)); BytesPush(s.out, Gap);
    case Space => BytesPush(s.out, Gap);
    case Concat(ds) => MeasureAllIsFlatWidth(0, ds); LayoutAllWritesAtLeast(cfg, ds, indent, mode, s, 0);
    case Nest(n, inner) => LayoutWritesAtLeast(cfg, inner, indent + n * cfg.indentWidth, mode, s);
    case Group(inner) =>
      LayoutWritesAtLeast(cfg, inner, indent, if StaysFlat(cfg, s.col, inner) then Flat else Broken, s);
    case Align(inner) => LayoutWritesAtLeast(cfg, inner, s.col, mode, s);
    case Hang(first, rest) => HangWritesAtLeast(cfg, first, rest, indent, mode, s);
  }

  lemma {:induction false} HangWritesAtLeast(cfg: Config, first: Doc, rest: Doc, indent: nat, mode: Mode, s: Cursor)
    requires Measure(Hang(first, rest)).Some? && !s.afterComment
    ensures WroteAtLeast(s, Layout(cfg, Hang(first, rest), indent, mode, s), Inked, Measure(Hang(first, rest)).value)
    decreases Hang(first, rest), 0
  {
    hide Bytes, LeadOf, WroteAtLeast;
    StepWrites(s, indent);
    var aligned := Aligned(cfg, s);
    var s1 := if aligned || StaysFlat(cfg, s.col + 1, first) then OneSpace(s) else Newline(indent, s);
    var in1 := if aligned then s1.col else indent;
    var s2 := Layout(cfg, first, in1, mode, s1);
    LayoutWritesAtLeast(cfg, first, in1, mode, s1);
    WroteMeans(s1, s2, LeadOf(first), Measure(first).value);
    LayoutWritesAtLeast(cfg, rest, in1, mode, s2);
    HangWrote(s, s1, s2, Layout(cfg, rest, in1, mode, s2), Measure(first).value, Measure(rest).value, LeadOf(first),
        LeadOf(rest));
  }

  lemma WroteMeans(s: Cursor, t: Cursor, lead: Lead, width: nat)
    requires WroteAtLeast(s, t, lead, width)
    ensures !t.afterComment
  {}

  lemma StepWrites(s: Cursor, indent: nat)
    requires !s.afterComment
    ensures WroteAtLeast(s, OneSpace(s), Inked, 1) && WroteAtLeast(s, Newline(indent, s), Inked, 1)
    ensures !OneSpace(s).afterComment && !Newline(indent, s).afterComment
  {
    BytesPush(s.out, Line(indent));
    BytesPush(s.out, Gap);
  }

  lemma HangWrote(s: Cursor, s1: Cursor, s2: Cursor, t: Cursor, a: nat, b: nat, la: Lead, lb: Lead)
    requires WroteAtLeast(s, s1, Inked, 1) && WroteAtLeast(s1, s2, la, a) && WroteAtLeast(s2, t, lb, b)
    ensures WroteAtLeast(s, t, Inked, 1 + a + b)
  {}

  lemma {:induction false} LayoutAllWritesAtLeast(cfg: Config, ds: Docs, indent: nat, mode: Mode, s: Cursor, total: nat)
    requires MeasureAll(total, ds).Some? && !s.afterComment
    ensures WroteAtLeast(s, LayoutAll(cfg, ds, indent, mode, s), LeadOfAll(ds), |FlatTexts(ds)|)
    decreases ds, 0
  {
    if ds.DCons? {
      MeasureIsFlatWidth(ds.head);
      LayoutWritesAtLeast(cfg, ds.head, indent, mode, s);
      LayoutAllWritesAtLeast(cfg, ds.tail, indent, mode, Layout(cfg, ds.head, indent, mode, s),
          total + Measure(ds.head).value);
    }
  }

  /**
    Exactly when the measure is real: of a document that fits, flat layout writes
    the measured number of bytes if and only if it does not meet a blank line
    before anything else at a line start.
  */
  lemma MeasuredWidthIsRealWidth(cfg: Config, d: Doc, indent: nat, s: Cursor)
    requires Measure(d).Some? && !s.afterComment && Fits(cfg, Plus(s.col, Measure(d).value))
    ensures |Bytes(Layout(cfg, d, indent, Flat, s).out)| == |Bytes(s.out)| + Measure(d).value
            <==> !(s.atStart && LeadOf(d).Blank?)
  {
    MeasureIsFlatWidth(d);
    if s.atStart && LeadOf(d).Blank? {
      LayoutWritesAtLeast(cfg, d, indent, Flat, s);
    } else {
      FlatWritesFlatText(cfg, d, indent, s);
    }
  }

  // ----- the line state -----------------------------------------------------------------------------

  /** The bytes written since the last newline piece. */
  function CurrentLine(ps: seq<Piece>): string {
    if ps == [] then ""
    else
      var last := ps[|ps| - 1];
      if last.Line? then Spaces(last.indent) else CurrentLine(ps[..|ps| - 1]) + PieceBytes(last)
  }

  predicate OnlySpaces(s: string) {
    forall i :: 0 <= i < |s| ==> s[i] == ' '
  }

  predicate EndsBlank(s: string) {
    s != "" && (s[|s| - 1] == ' ' || s[|s| - 1] == '\n')
  }

  /** The cursor tells the truth about the line it is on. */
  ghost predicate Truthful(s: Cursor) {
    && s.col == |CurrentLine(s.out)|
    && (s.atStart ==> OnlySpaces(CurrentLine(s.out)))
    && (s.afterComment ==> s.atStart && EndsBlank(Bytes(s.out)))
  }

  lemma PushedPiece(ps: seq<Piece>, p: Piece)
    ensures CurrentLine(ps + [p]) == if p.Line? then Spaces(p.indent) else CurrentLine(ps) + PieceBytes(p)
    ensures Bytes(ps + [p]) == Bytes(ps) + PieceBytes(p)
  {
    assert (ps + [p])[..|ps|] == ps;
  }

  lemma StepsTruthful(indent: nat, s: Cursor)
    requires Truthful(s)
    ensures Truthful(Newline(indent, s)) && EndsBlank(Bytes(Newline(indent, s).out))
    ensures Truthful(NewlineUnlessAbsorbed(indent, s)) && EndsBlank(Bytes(NewlineUnlessAbsorbed(indent, s).out))
    ensures Truthful(OneSpace(s)) && EndsBlank(Bytes(OneSpace(s).out))
  {
    PushedPiece(s.out, Line(indent));
    PushedPiece(s.out, Gap);
  }

  lemma TextTruthful(t: string, s: Cursor)
    requires Truthful(s)
    ensures Truthful(Cursor(s.out + [Ink(t)], s.col + |t|, s.afterComment && t == "", s.atStart && t == ""))
  {
    PushedPiece(s.out, Ink(t));
    assert t == "" ==> CurrentLine(s.out) + t == CurrentLine(s.out) && Bytes(s.out) + t == Bytes(s.out);
  }

  lemma CommentBreakTruthful(indent: nat, s: Cursor)
    requires Truthful(s)
    ensures Truthful(Newline(indent, s).(afterComment := true))
  {
    PushedPiece(s.out, Line(indent));
  }

  /** Every document, laid out in any mode at any width, keeps the cursor truthful. */
  lemma {:induction false} LayoutKeepsTruth(cfg: Config, d: Doc, indent: nat, mode: Mode, s: Cursor)
    requires Truthful(s)
    ensures Truthful(Layout(cfg, d, indent, mode, s))
    decreases d
  {
    hide Truthful, Newline, OneSpace, NewlineUnlessAbsorbed;
    StepsTruthful(indent, s);
    match d
    case Text(t) => TextTruthful(t, s);
    case CommentBreak => CommentBreakTruthful(indent, s);
    case Concat(ds) => LayoutAllKeepsTruth(cfg, ds, indent, mode, s);
    case Nest(n, inner) => LayoutKeepsTruth(cfg, inner, indent + n * cfg.indentWidth, mode, s);
    case Group(inner) => LayoutKeepsTruth(cfg, inner, indent, if StaysFlat(cfg, s.col, inner) then Flat else Broken, s);
    case Align(inner) => LayoutKeepsTruth(cfg, inner, s.col, mode, s);
    case Hang(first, rest) =>
      var aligned := Aligned(cfg, s);
      var s1 := if aligned || StaysFlat(cfg, s.col + 1, first) then OneSpace(s) else Newline(indent, s);
      var in1 := if aligned then s1.col else indent;
      LayoutKeepsTruth(cfg, first, in1, mode, s1);
      LayoutKeepsTruth(cfg, rest, in1, mode, Layout(cfg, first, in1, mode, s1));
    case _ =>
  }

  lemma {:induction false} LayoutAllKeepsTruth(cfg: Config, ds: Docs, indent: nat, mode: Mode, s: Cursor)
    requires Truthful(s)
    ensures Truthful(LayoutAll(cfg, ds, indent, mode, s))
    decreases ds
  {
    if ds.DCons? {
      LayoutKeepsTruth(cfg, ds.head, indent, mode, s);
      LayoutAllKeepsTruth(cfg, ds.tail, indent, mode, Layout(cfg, ds.head, indent, mode, s));
    }
  }

  /** What follows the last newline byte of `b`. */
  function SinceNewline(b: string): string {
    if b == "" || b[|b| - 1] == '\n' then "" else SinceNewline(b[..|b| - 1]) + [b[|b| - 1]]
  }

  predicate NewlineFree(t: string) {
    forall i :: 0 <= i < |t| ==> t[i] != '\n'
  }

  predicate NewlineFreeInk(ps: seq<Piece>) {
    forall i :: 0 <= i < |ps| && ps[i].Ink? ==> NewlineFree(ps[i].text)
  }

  lemma {:induction false} SinceNewlineAppends(b: string, t: string)
    requires NewlineFree(t)
    ensures SinceNewline(b + t) == SinceNewline(b) + t
  {
    if t == "" {
      assert b + t == b;
    } else {
      var init := t[..|t| - 1];
      assert (b + t)[..|b + t| - 1] == b + init;
      SinceNewlineAppends(b, init);
      assert t == init + [t[|t| - 1]];
      assert SinceNewline(b) + init + [t[|t| - 1]] == SinceNewline(b) + t;
    }
  }

  /** With newline-free texts, the current line is what follows the last newline byte. */
  lemma {:induction false} CurrentLineIsSinceNewline(ps: seq<Piece>)
    requires NewlineFreeInk(ps)
    ensures CurrentLine(ps) == SinceNewline(Bytes(ps))
  {
    if ps != [] {
      var init, last := ps[..|ps| - 1], ps[|ps| - 1];
      CurrentLineIsSinceNewline(init);
      if last.Line? {
        assert Bytes(ps) == (Bytes(init) + "\n") + Spaces(last.indent);
        SinceNewlineAppends(Bytes(init) + "\n", Spaces(last.indent));
        assert SinceNewline(Bytes(init) + "\n") == "";
      } else {
        SinceNewlineAppends(Bytes(init), PieceBytes(last));
      }
    }
  }

  // ----- leaves and separators --------------------------------------------------------------------

  function Leaves(d: Doc): seq<string> {
    match d
    case Text(t) => [t]
    case Concat(ds) => LeavesAll(ds)
    case Nest(_, inner) => Leaves(inner)
    case Group(inner) => Leaves(inner)
    case Align(inner) => Leaves(inner)
    case Hang(first, rest) => Leaves(first) + Leaves(rest)
    case _ => []
  }

  function LeavesAll(ds: Docs): seq<string> {
    match ds
    case DNil => []
    case DCons(d, rest) => Leaves(d) + LeavesAll(rest)
  }

  function Inks(ps: seq<Piece>): seq<string> {
    if ps == [] then []
    else Inks(ps[..|ps| - 1]) + if ps[|ps| - 1].Ink? then [ps[|ps| - 1].text] else []
  }

  lemma InksPush(ps: seq<Piece>, p: Piece)
    ensures Inks(ps + [p]) == Inks(ps) + if p.Ink? then [p.text] else []
  {
    assert (ps + [p])[..|ps|] == ps;
  }

  lemma StepsAddNoInk(indent: nat, s: Cursor)
    ensures Inks(Newline(indent, s).out) == Inks(s.out)
    ensures Inks(NewlineUnlessAbsorbed(indent, s).out) == Inks(s.out)
    ensures Inks(OneSpace(s).out) == Inks(s.out)
  {
    InksPush(s.out, Gap);
    InksPush(s.out, Line(indent));
  }

  /**
    The leaves come out once each and in order, whatever the configuration, and
    everything else written is white space.
  */
  lemma {:induction false} LayoutKeepsLeaves(cfg: Config, d: Doc, indent: nat, mode: Mode, s: Cursor)
    ensures Inks(Layout(cfg, d, indent, mode, s).out) == Inks(s.out) + Leaves(d)
    decreases d
  {
    hide Inks;
    StepsAddNoInk(indent, s);
    match d
    case Text(t) => InksPush(s.out, Ink(t));
    case Concat(ds) => LayoutAllKeepsLeaves(cfg, ds, indent, mode, s);
    case Nest(n, inner) => LayoutKeepsLeaves(cfg, inner, indent + n * cfg.indentWidth, mode, s);
    case Group(inner) =>
      LayoutKeepsLeaves(cfg, inner, indent, if StaysFlat(cfg, s.col, inner) then Flat else Broken, s);
    case Align(inner) => LayoutKeepsLeaves(cfg, inner, s.col, mode, s);
    case Hang(first, rest) =>
      var aligned := Aligned(cfg, s);
      var s1 := if aligned || StaysFlat(cfg, s.col + 1, first) then OneSpace(s) else Newline(indent, s);
      var in1 := if aligned then s1.col else indent;
      LayoutKeepsLeaves(cfg, first, in1, mode, s1);
      LayoutKeepsLeaves(cfg, rest, in1, mode, Layout(cfg, first, in1, mode, s1));
      assert Inks(s.out) + Leaves(first) + Leaves(rest) == Inks(s.out) + (Leaves(first) + Leaves(rest));
    case _ => assert Inks(s.out) + [] == Inks(s.out);
  }

  lemma {:induction false} LayoutAllKeepsLeaves(cfg: Config, ds: Docs, indent: nat, mode: Mode, s: Cursor)
    ensures Inks(LayoutAll(cfg, ds, indent, mode, s).out) == Inks(s.out) + LeavesAll(ds)
    decreases ds
  {
    hide Inks;
    if ds.DCons? {
      LayoutKeepsLeaves(cfg, ds.head, indent, mode, s);
      LayoutAllKeepsLeaves(cfg, ds.tail, indent, mode, Layout(cfg, ds.head, indent, mode, s));
      assert Inks(s.out) + Leaves(ds.head) + LeavesAll(ds.tail) == Inks(s.out) + (Leaves(ds.head) + LeavesAll(ds.tail));
    }
  }

  /** `b` without its spaces and newlines. */
  function Dense(b: string): string {
    if b == "" then "" else Dense(b[..|b| - 1]) + if b[|b| - 1] == ' ' || b[|b| - 1] == '\n' then "" else [b[|b| - 1]]
  }

  function DenseAll(texts: seq<string>): string {
    if texts == [] then "" else DenseAll(texts[..|texts| - 1]) + Dense(texts[|texts| - 1])
  }

  lemma {:induction false} DenseJoin(a: string, b: string)
    ensures Dense(a + b) == Dense(a) + Dense(b)
    decreases b
  {
    if b == "" {
      assert a + b == a;
    } else {
      DenseJoin(a, b[..|b| - 1]);
      assert (a + b)[..|a + b| - 1] == a + b[..|b| - 1];
    }
  }

  lemma {:induction false} DenseSpaces(n: nat)
    ensures Dense(Spaces(n)) == ""
  {
    if n > 0 {
      assert Spaces(n)[..n - 1] == Spaces(n - 1);
      DenseSpaces(n - 1);
    }
  }

  lemma {:induction false} DenseBytes(ps: seq<Piece>)
    ensures Dense(Bytes(ps)) == DenseAll(Inks(ps))
  {
    if ps != [] {
      var init, last := ps[..|ps| - 1], ps[|ps| - 1];
      DenseBytes(init);
      DenseJoin(Bytes(init), PieceBytes(last));
      if last.Line? {
        DenseJoin("\n", Spaces(last.indent));
        DenseSpaces(last.indent);
        assert "\n"[..0] == "" && Dense("\n") == "";
      }
      assert last.Gap? ==> " "[..0] == "" && Dense(" ") == "";
      assert last.Ink? ==> Inks(ps)[..|Inks(ps)| - 1] == Inks(init);
      assert !last.Ink? ==> Inks(ps) == Inks(init);
    }
  }

  /** Whatever the two configurations, the rendered texts differ in spaces and newlines only. */
  lemma WidthChangesOnlyWhiteSpace(a: Config, b: Config, d: Doc)
    ensures Dense(RenderDoc(a, d)) == Dense(RenderDoc(b, d)) == DenseAll(Leaves(d))
  {
    hide Layout, Dense, DenseAll, Leaves;
    LayoutKeepsLeaves(a, d, 0, Flat, START);
    LayoutKeepsLeaves(b, d, 0, Flat, START);
    DenseBytes(Layout(a, d, 0, Flat, START).out);
    DenseBytes(Layout(b, d, 0, Flat, START).out);
    assert Inks([]) == [];
    assert [] + Leaves(d) == Leaves(d);
  }

  /**
    After a break, a space or a hard break the output ends in white space, also
    when a comment break absorbed it, so the text before and the text after never
    fuse, wherever the separator stands.
  */
  lemma SeparatorsSeparate(cfg: Config, sep: Doc, indent: nat, mode: Mode, s: Cursor)
    requires Truthful(s) && (sep.Break? || sep.Space? || sep.HardBreak?)
    ensures EndsBlank(Bytes(Layout(cfg, sep, indent, mode, s).out))
  {
    hide Truthful, Bytes, EndsBlank, Newline, OneSpace, NewlineUnlessAbsorbed;
    StepsTruthful(indent, s);
  }
}
