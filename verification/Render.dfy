/**
  The document algebra and its renderer.

  A text is its UTF-8 bytes, one `char` per byte. `Layout` is the renderer as a
  function on a cursor; it records what it writes as pieces, so that a text leaf
  and the white space around it stay apart. `Renderer.LayoutFrom` is the same walk
  in the source's form, pushing bytes and flipping the two line flags in place.
*/
module Render {
  import opened Options

  datatype Doc =
    | Empty
    | Text(text: string)
    | Concat(docs: Docs)
    | Nest(levels: nat, inner: Doc)
    | Break
    | Space
    | Group(inner: Doc)
    | HardBreak
    | CommentBreak
    | FreshLine
    | BlankLine
    | Align(inner: Doc)
    | Hang(first: Doc, rest: Doc)

  datatype Docs = DNil | DCons(head: Doc, tail: Docs)

  datatype Mode = Flat | Broken

  datatype Config = Config(indentWidth: nat, lineWidth: nat)

  /** One leaf, one space, or one newline with the indent after it. */
  datatype Piece = Ink(text: string) | Gap | Line(indent: nat)

  datatype Cursor = Cursor(out: seq<Piece>, col: nat, afterComment: bool, atStart: bool)

  const USIZE_MAX: nat := 0xFFFF_FFFF_FFFF_FFFF

  // ----- columns -------------------------------------------------------------------------------

  /** `Column::plus` saturates. */
  function Plus(a: nat, b: nat): nat {
    if a + b > USIZE_MAX then USIZE_MAX else a + b
  }

  /** `Column::checked_plus` gives up on overflow. */
  function CheckedPlus(a: nat, b: nat): Option<nat> {
    if a + b > USIZE_MAX then None else Some(a + b)
  }

  predicate Fits(cfg: Config, col: nat) {
    col <= cfg.lineWidth
  }

  // ----- measuring -----------------------------------------------------------------------------

  function Measure(d: Doc): Option<nat> {
    match d
    case Empty => Some(0)
    case BlankLine => Some(0)
    case Text(s) => Some(|s|)
    case Concat(ds) => MeasureAll(0, ds)
    case Nest(_, inner) => Measure(inner)
    case Break => Some(1)
    case Space => Some(1)
    case Group(inner) => Measure(inner)
    case HardBreak => None
    case CommentBreak => None
    case FreshLine => None
    case Align(inner) => Measure(inner)
    case Hang(first, rest) =>
      var a := Measure(first);
      if a.None? then None
      else
        var b := CheckedPlus(1, a.value);
        var c := Measure(rest);
        if b.None? || c.None? then None else CheckedPlus(b.value, c.value)
  }

  /** The running total of a concatenation, which stops at the first part that cannot be flat. */
  function MeasureAll(total: nat, ds: Docs): Option<nat>
    decreases ds
  {
    match ds
    case DNil => Some(total)
    case DCons(d, rest) =>
      var w := Measure(d);
      if w.None? then None
      else
        var t := CheckedPlus(total, w.value);
        if t.None? then None else MeasureAll(t.value, rest)
  }

  // ----- layout ----------------------------------------------------------------------------------

  function Newline(indent: nat, s: Cursor): Cursor {
    Cursor(s.out + [Line(indent)], indent, s.afterComment, true)
  }

  /** A newline, unless a comment break just wrote one. */
  function NewlineUnlessAbsorbed(indent: nat, s: Cursor): Cursor {
    if s.afterComment then s.(afterComment := false) else Newline(indent, s)
  }

  function OneSpace(s: Cursor): Cursor {
    if s.afterComment then s.(afterComment := false)
    else Cursor(s.out + [Gap], s.col + 1, false, false)
  }

  predicate StaysFlat(cfg: Config, col: nat, d: Doc) {
    Measure(d).Some? && Fits(cfg, Plus(col, Measure(d).value))
  }

  predicate Aligned(cfg: Config, s: Cursor) {
    s.afterComment || s.col + 1 <= cfg.lineWidth / 2
  }

  function Layout(cfg: Config, d: Doc, indent: nat, mode: Mode, s: Cursor): Cursor
    decreases d
  {
    match d
    case Empty => s
    case Text(t) =>
      var flags := t != "";
      Cursor(s.out + [Ink(t)], s.col + |t|, s.afterComment && !flags, s.atStart && !flags)
    case Concat(ds) => LayoutAll(cfg, ds, indent, mode, s)
    case Nest(n, inner) => Layout(cfg, inner, indent + n * cfg.indentWidth, mode, s)
    case Break => if mode.Broken? then NewlineUnlessAbsorbed(indent, s) else OneSpace(s)
    case Space => OneSpace(s)
    case Group(inner) => Layout(cfg, inner, indent, if StaysFlat(cfg, s.col, inner) then Flat else Broken, s)
    case HardBreak => NewlineUnlessAbsorbed(indent, s)
    case CommentBreak => if s.afterComment then s else Newline(indent, s).(afterComment := true)
    case FreshLine => if s.atStart then s else Newline(indent, s)
    case BlankLine => if s.atStart then Newline(indent, s) else s
    case Align(inner) => Layout(cfg, inner, s.col, mode, s)
    case Hang(first, rest) =>
      var aligned := Aligned(cfg, s);
      var joined := aligned || StaysFlat(cfg, s.col + 1, first);
      var s1 := if joined then OneSpace(s) else Newline(indent, s);
      var in1 := if aligned then s1.col else indent;
      Layout(cfg, rest, in1, mode, Layout(cfg, first, in1, mode, s1))
  }

  function LayoutAll(cfg: Config, ds: Docs, indent: nat, mode: Mode, s: Cursor): Cursor
    decreases ds
  {
    match ds
    case DNil => s
    case DCons(d, rest) => LayoutAll(cfg, rest, indent, mode, Layout(cfg, d, indent, mode, s))
  }

  lemma HangStep(cfg: Config, first: Doc, rest: Doc, indent: nat, mode: Mode, s: Cursor)
    ensures var s1 := if Aligned(cfg, s) || StaysFlat(cfg, s.col + 1, first) then OneSpace(s) else Newline(indent, s);
            var in1 := if Aligned(cfg, s) then s1.col else indent;
            Layout(cfg, Hang(first, rest), indent, mode, s) ==
                Layout(cfg, rest, in1, mode, Layout(cfg, first, in1, mode, s1))
  {
    hide Measure, OneSpace, Newline, LayoutAll;
  }

  const START: Cursor := Cursor([], 0, false, true)

  function RenderDoc(cfg: Config, d: Doc): string {
    Bytes(Layout(cfg, d, 0, Flat, START).out)
  }

  // ----- bytes -----------------------------------------------------------------------------------

  function Spaces(n: nat): (s: string)
    ensures |s| == n && forall i :: 0 <= i < n ==> s[i] == ' '
  {
    seq(n, _ => ' ')
  }

  function PieceBytes(p: Piece): string {
    match p
    case Ink(t) => t
    case Gap => " "
    case Line(n) => "\n" + Spaces(n)
  }

  function Bytes(ps: seq<Piece>): string {
    if ps == [] then "" else Bytes(ps[..|ps| - 1]) + PieceBytes(ps[|ps| - 1])
  }

  lemma BytesPush(ps: seq<Piece>, p: Piece)
    ensures Bytes(ps + [p]) == Bytes(ps) + PieceBytes(p)
  {
    assert (ps + [p])[..|ps|] == ps;
  }

  // ----- the renderer in place ---------------------------------------------------------------------

  class Renderer {
    const cfg: Config
    var out: string
    var afterComment: bool
    var atStart: bool
    ghost var pieces: seq<Piece>

    constructor (cfg: Config)
      ensures this.cfg == cfg && Valid() && At(0) == START
    {
      this.cfg := cfg;
      out, afterComment, atStart, pieces := "", false, true, [];
    }

    ghost predicate Valid()
      reads this
    {
      out == Bytes(pieces)
    }

    ghost function At(col: nat): Cursor
      reads this
    {
      Cursor(pieces, col, afterComment, atStart)
    }

    method EmitNewline(indent: nat) returns (col: nat)
      requires Valid()
      modifies this
      ensures Valid() && At(col) == Newline(indent, old(At(0)))
      ensures col == indent
    {
      BytesPush(pieces, Line(indent));
      atStart := true;
      out := out + "\n";
      out := out + Spaces(indent);
      pieces := pieces + [Line(indent)];
      col := indent;
    }

    method EmitSpace(from: nat) returns (col: nat)
      requires Valid()
      modifies this
      ensures Valid() && At(col) == OneSpace(old(At(from)))
    {
      if afterComment {
        afterComment := false;
        col := from;
      } else {
        BytesPush(pieces, Gap);
        atStart := false;
        out := out + " ";
        pieces := pieces + [Gap];
        col := from + 1;
      }
    }

    method EmitUnlessAbsorbed(indent: nat, from: nat) returns (col: nat)
      requires Valid()
      modifies this
      ensures Valid() && At(col) == NewlineUnlessAbsorbed(indent, old(At(from)))
    {
      if afterComment {
        afterComment := false;
        col := from;
      } else {
        col := EmitNewline(indent);
      }
    }

    method EmitText(t: string, from: nat) returns (col: nat)
      requires Valid()
      modifies this
      ensures Valid()
      ensures At(col) ==
              Cursor(old(pieces) + [Ink(t)], from + |t|, old(afterComment) && t == "", old(atStart) && t == "")
    {
      BytesPush(pieces, Ink(t));
      if t != "" {
        afterComment := false;
        atStart := false;
      }
      out := out + t;
      pieces := pieces + [Ink(t)];
      col := from + |t|;
    }

    /** Lay `d` out from column `from`, pushing bytes and updating the line flags. */
    method LayoutFrom(d: Doc, from: nat, indent: nat, mode: Mode) returns (col: nat)
      requires Valid()
      modifies this
      ensures Valid() && At(col) == Layout(cfg, d, indent, mode, old(At(from)))
      decreases d, 1
    {
      hide Bytes, Measure, MeasureAll, LayoutAll;
      match d
      case Empty => col := from;
      case Text(t) => col := EmitText(t, from);
      case Concat(ds) => col := LayoutEach(ds, from, indent, mode);
      case Nest(n, inner) => col := LayoutFrom(inner, from, indent + n * cfg.indentWidth, mode);
      case Break =>
        if mode == Broken {
          col := EmitUnlessAbsorbed(indent, from);
        } else {
          col := EmitSpace(from);
        }
      case Space => col := EmitSpace(from);
      case Group(inner) =>
        var w := MeasureFlat(inner);
        if w.Some? && Fits(cfg, Plus(from, w.value)) {
          col := LayoutFrom(inner, from, indent, Flat);
        } else {
          col := LayoutFrom(inner, from, indent, Broken);
        }
      case HardBreak => col := EmitUnlessAbsorbed(indent, from);
      case CommentBreak =>
        if afterComment {
          col := from;
        } else {
          afterComment := true;
          col := EmitNewline(indent);
        }
      case FreshLine =>
        if atStart { col := from; } else { col := EmitNewline(indent); }
      case BlankLine =>
        if atStart { col := EmitNewline(indent); } else { col := from; }
      case Align(inner) => col := LayoutFrom(inner, from, from, mode);
      case Hang(first, rest) => col := LayoutHang(first, rest, from, indent, mode);
    }

    method LayoutHang(first: Doc, rest: Doc, from: nat, indent: nat, mode: Mode) returns (col: nat)
      requires Valid()
      modifies this
      ensures Valid() && At(col) == Layout(cfg, Hang(first, rest), indent, mode, old(At(from)))
      decreases Hang(first, rest), 0
    {
      hide Bytes, Measure, MeasureAll, Valid, OneSpace, Layout;
      HangStep(cfg, first, rest, indent, mode, At(from));
      var start := from + 1;
      var aligned := afterComment || start <= cfg.lineWidth / 2;
      var w := MeasureFlat(first);
      var joined := aligned || (w.Some? && Fits(cfg, Plus(start, w.value)));
      if joined { col := EmitSpace(from); } else { col := EmitNewline(indent); }
      ghost var s1 := At(col);
      var in1 := if aligned then col else indent;
      col := LayoutFrom(first, col, in1, mode);
      ghost var s2 := At(col);
      assert s2 == Layout(cfg, first, in1, mode, s1);
      col := LayoutFrom(rest, col, in1, mode);
      assert At(col) == Layout(cfg, rest, in1, mode, s2);
    }

    method LayoutEach(ds: Docs, from: nat, indent: nat, mode: Mode) returns (col: nat)
      requires Valid()
      modifies this
      ensures Valid() && At(col) == LayoutAll(cfg, ds, indent, mode, old(At(from)))
      decreases ds, 0
    {
      col := from;
      var rest := ds;
      while rest.DCons?
        invariant Valid()
        invariant LayoutAll(cfg, rest, indent, mode, At(col)) == LayoutAll(cfg, ds, indent, mode, old(At(from)))
        invariant rest == ds || rest < ds
        decreases rest
      {
        col := LayoutFrom(rest.head, col, indent, mode);
        rest := rest.tail;
      }
    }

    method RenderAll(d: Doc) returns (text: string)
      requires Valid() && At(0) == START
      modifies this
      ensures text == RenderDoc(cfg, d)
    {
      var _ := LayoutFrom(d, 0, 0, Flat);
      text := out;
    }
  }

  /** The width of a document laid out flat, as a summing loop over each concatenation. */
  method MeasureFlat(d: Doc) returns (w: Option<nat>)
    ensures w == Measure(d)
    decreases d
  {
    match d
    case Empty => return Some(0);
    case BlankLine => return Some(0);
    case Text(s) => return Some(|s|);
    case Concat(ds) =>
      var total := 0;
      var rest := ds;
      while rest.DCons?
        invariant MeasureAll(total, rest) == Measure(d)
        invariant rest == ds || rest < ds
        decreases rest
      {
        var part := MeasureFlat(rest.head);
        if part.None? { return None; }
        var sum := CheckedPlus(total, part.value);
        if sum.None? { return None; }
        total := sum.value;
        rest := rest.tail;
      }
      return Some(total);
    case Nest(_, inner) => w := MeasureFlat(inner);
    case Break => return Some(1);
    case Space => return Some(1);
    case Group(inner) => w := MeasureFlat(inner);
    case HardBreak => return None;
    case CommentBreak => return None;
    case FreshLine => return None;
    case Align(inner) => w := MeasureFlat(inner);
    case Hang(first, rest) =>
      var a := MeasureFlat(first);
      if a.None? { return None; }
      var b := CheckedPlus(1, a.value);
      var c := MeasureFlat(rest);
      if b.None? || c.None? { return None; }
      return CheckedPlus(b.value, c.value);
  }
}
