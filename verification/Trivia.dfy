/**
  Trivia attachment: one pass over the comments and blank lines of a file, in
  source order, hangs each on the syntax node it belongs to.

  `AttachChildren` and `AttachForms` are the pass as functions of the cursor; the
  methods below them are the pass as the source writes it, loops that advance a
  shared index and push. `ChildrenConserve` and `FormsConserve` say what the pass
  keeps: everything, in order, but for the items `LostIn` names by position.
*/
module Trivia {

  datatype Trivia =
    | Comment(text: string, offset: nat, line: nat)
    | BlankLines(count: nat, offset: nat, line: nat)

  /** What the formatter prints for a node, beside its children and trivia. */
  datatype Kind =
    | Atom(text: string, keyword: bool)
    | List
    | Collection(open: string, close: string)
    | Pairs(open: string, close: string)
    | Prefix(text: string)

  datatype Syntax = Syntax(kind: Kind, start: nat, end: nat, children: seq<Syntax>)

  datatype Annotated =
    Annotated(kind: Kind, leading: seq<Trivia>, trailing: seq<Trivia>, closing: seq<Trivia>, children: seq<Annotated>)

  // ----- positions -------------------------------------------------------------------------------

  function Newlines(s: string): nat {
    if s == "" then 0 else Newlines(s[..|s| - 1]) + if s[|s| - 1] == '\n' then 1 else 0
  }

  /** The 1-based line of a byte offset. */
  function LineAt(source: string, offset: nat): nat {
    1 + Newlines(if offset <= |source| then source[..offset] else source)
  }

  method LineAtOffset(source: string, offset: nat) returns (line: nat)
    ensures line == LineAt(source, offset)
  {
    line := 1;
    var i := 0;
    while i < |source|
      invariant i <= |source| && i <= offset
      invariant line == 1 + Newlines(source[..i])
    {
      if i >= offset { break; }
      assert source[..i + 1][..i] == source[..i];
      if source[i] == '\n' { line := line + 1; }
      i := i + 1;
    }
    assert source[..|source|] == source;
  }

  /** The first index from `i` on whose item is at or past `bound`. */
  function Past(ts: seq<Trivia>, i: nat, bound: nat): (j: nat)
    requires i <= |ts|
    ensures i <= j <= |ts| && (forall k :: i <= k < j ==> ts[k].offset < bound) && (j < |ts| ==> ts[j].offset >= bound)
    decreases |ts| - i
  {
    if i == |ts| || ts[i].offset >= bound then i else Past(ts, i + 1, bound)
  }

  /** Past the comment at `i`, if it starts before `bound` on line `line`. */
  function PastSameLine(ts: seq<Trivia>, i: nat, bound: nat, line: nat): (j: nat)
    requires i <= |ts|
    ensures i <= j <= |ts| && (j == i || (j == i + 1 && ts[i].Comment? && ts[i].offset < bound))
  {
    if i < |ts| && ts[i].Comment? && ts[i].offset < bound && ts[i].line == line then i + 1 else i
  }

  function DropFinalBlanks(ts: seq<Trivia>): (r: seq<Trivia>)
    ensures r <= ts && (r == [] || r[|r| - 1].Comment?)
    ensures forall k :: |r| <= k < |ts| ==> ts[k].BlankLines?
  {
    if ts != [] && ts[|ts| - 1].BlankLines? then DropFinalBlanks(ts[..|ts| - 1]) else ts
  }

  // ----- the pass -----------------------------------------------------------------------------------

  datatype Attached = Attached(nodes: seq<Annotated>, idx: nat)

  function AttachChildren(cs: seq<Syntax>, parentEnd: nat, ts: seq<Trivia>, idx: nat, source: string): (r: Attached)
    requires idx <= |ts|
    ensures idx <= r.idx <= |ts|
    decreases cs, 1
  {
    if cs == [] then Attached([], idx)
    else
      var one := AttachChild(cs[0], |cs| == 1, if |cs| > 1 then cs[1].start else parentEnd, ts, idx, source);
      var rest := AttachChildren(cs[1..], parentEnd, ts, one.idx, source);
      Attached(one.nodes + rest.nodes, rest.idx)
  }

  /** One child: its leading trivia, its children, what its span still covers, then what trails it. */
  function AttachChild(c: Syntax, last: bool, next: nat, ts: seq<Trivia>, idx: nat, source: string): (r: Attached)
    requires idx <= |ts|
    ensures idx <= r.idx <= |ts|
    decreases c, 0
  {
    var i1 := Past(ts, idx, c.start);
    var kids := AttachChildren(c.children, c.end, ts, i1, source);
    var i3 := Past(ts, kids.idx, c.end);
    var i4 := PastSameLine(ts, i3, next, LineAt(source, c.end));
    var i5 := if last then Past(ts, i4, next) else i4;
    Attached([Annotated(c.kind, ts[idx..i1], ts[i3..i4], DropFinalBlanks(ts[i4..i5]), kids.nodes)], i5)
  }

  function AttachEach(fs: seq<Syntax>, ts: seq<Trivia>, idx: nat, source: string): (r: Attached)
    requires idx <= |ts|
    ensures idx <= r.idx <= |ts|
  {
    if fs == [] then Attached([], idx)
    else
      var one := AttachForm(fs[0], if |fs| > 1 then fs[1].start else MAX_OFFSET, ts, idx, source);
      var rest := AttachEach(fs[1..], ts, one.idx, source);
      Attached(one.nodes + rest.nodes, rest.idx)
  }

  /** A top-level form has no closing trivia, and nothing is stepped over inside its span. */
  function AttachForm(f: Syntax, next: nat, ts: seq<Trivia>, idx: nat, source: string): (r: Attached)
    requires idx <= |ts|
    ensures idx <= r.idx <= |ts|
  {
    var i1 := Past(ts, idx, f.start);
    var kids := AttachChildren(f.children, f.end, ts, i1, source);
    var i4 := PastSameLine(ts, kids.idx, next, LineAt(source, f.end));
    Attached([Annotated(f.kind, ts[idx..i1], ts[kids.idx..i4], [], kids.nodes)], i4)
  }

  const MAX_OFFSET: nat := 0xFFFF_FFFF_FFFF_FFFF

  datatype Toplevel = Toplevel(forms: seq<Annotated>, dangling: seq<Trivia>)

  function AttachForms(fs: seq<Syntax>, ts: seq<Trivia>, source: string): Toplevel {
    if fs == [] then Toplevel([], ts)
    else
      var r := AttachEach(fs, ts, 0, source);
      Toplevel(r.nodes, DropFinalBlanks(ts[r.idx..]))
  }

  // ----- the pass as loops ---------------------------------------------------------------------------

  method TakeUntil(ts: seq<Trivia>, idx: nat, bound: nat) returns (taken: seq<Trivia>, next: nat)
    requires idx <= |ts|
    ensures next == Past(ts, idx, bound) && taken == ts[idx..next]
  {
    taken, next := [], idx;
    while next < |ts|
      invariant idx <= next <= |ts| && taken == ts[idx..next]
      invariant Past(ts, next, bound) == Past(ts, idx, bound)
    {
      var t := ts[next];
      if t.offset >= bound { break; }
      taken := taken + [t];
      next := next + 1;
    }
  }

  method TakeSameLineComment(ts: seq<Trivia>, idx: nat, bound: nat, line: nat) returns (taken: seq<Trivia>, next: nat)
    requires idx <= |ts|
    ensures next == PastSameLine(ts, idx, bound, line) && taken == ts[idx..next]
  {
    if idx < |ts| && ts[idx].Comment? && ts[idx].offset < bound && ts[idx].line == line {
      taken, next := [ts[idx]], idx + 1;
    } else {
      taken, next := [], idx;
    }
  }

  method DropFinalBlankLines(trivia: seq<Trivia>) returns (kept: seq<Trivia>)
    ensures kept == DropFinalBlanks(trivia)
  {
    kept := trivia;
    while kept != [] && kept[|kept| - 1].BlankLines?
      invariant DropFinalBlanks(kept) == DropFinalBlanks(trivia)
    {
      kept := kept[..|kept| - 1];
    }
  }

  method AttachToChild(c: Syntax, last: bool, nextStart: nat, ts: seq<Trivia>, idx: nat, source: string)
    returns (node: Annotated, next: nat)
    requires idx <= |ts|
    ensures Attached([node], next) == AttachChild(c, last, nextStart, ts, idx, source)
    decreases c, 0
  {
    var leading, i1 := TakeUntil(ts, idx, c.start);
    var grandchildren, i2 := AttachToChildren(c, ts, i1, source);
    var _, i3 := TakeUntil(ts, i2, c.end);
    var endLine := LineAtOffset(source, c.end);
    var trailing, i4 := TakeSameLineComment(ts, i3, nextStart, endLine);
    var closing, i5 := [], i4;
    if last {
      closing, i5 := TakeUntil(ts, i4, nextStart);
      closing := DropFinalBlankLines(closing);
    }
    node, next := Annotated(c.kind, leading, trailing, closing, grandchildren), i5;
  }

  method AttachToChildren(parent: Syntax, ts: seq<Trivia>, idx: nat, source: string)
    returns (annotated: seq<Annotated>, next: nat)
    requires idx <= |ts|
    ensures Attached(annotated, next) == AttachChildren(parent.children, parent.end, ts, idx, source)
    decreases parent.children, 1
  {
    hide AttachChild;
    annotated, next := [], idx;
    var cs := parent.children;
    var i := 0;
    ghost var whole := AttachChildren(cs, parent.end, ts, idx, source);
    assert cs[0..] == cs;
    while i < |cs|
      invariant 0 <= i <= |cs| && 0 <= next <= |ts|
      invariant whole.nodes == annotated + AttachChildren(cs[i..], parent.end, ts, next, source).nodes
      invariant whole.idx == AttachChildren(cs[i..], parent.end, ts, next, source).idx
    {
      ghost var rest := cs[i..];
      assert rest[0] == cs[i] && rest[1..] == cs[i + 1..] && (|rest| > 1 ==> rest[1] == cs[i + 1]);
      var nextStart := if i + 1 < |cs| then cs[i + 1].start else parent.end;
      var node;
      node, next := AttachToChild(cs[i], i + 1 == |cs|, nextStart, ts, next, source);
      annotated := annotated + [node];
      i := i + 1;
    }
  }

  method AttachToForm(f: Syntax, bound: nat, ts: seq<Trivia>, idx: nat, source: string)
    returns (node: Annotated, next: nat)
    requires idx <= |ts|
    ensures Attached([node], next) == AttachForm(f, bound, ts, idx, source)
  {
    var leading, i1 := TakeUntil(ts, idx, f.start);
    var children, i2 := AttachToChildren(f, ts, i1, source);
    var endLine := LineAtOffset(source, f.end);
    var trailing, i4 := TakeSameLineComment(ts, i2, bound, endLine);
    node, next := Annotated(f.kind, leading, trailing, [], children), i4;
  }

  method AttachTriviaToForms(fs: seq<Syntax>, ts: seq<Trivia>, source: string)
    returns (forms: seq<Annotated>, dangling: seq<Trivia>)
    ensures Toplevel(forms, dangling) == AttachForms(fs, ts, source)
  {
    hide AttachForm;
    if fs == [] { return [], ts; }
    forms := [];
    var next: nat := 0;
    var i := 0;
    ghost var whole := AttachEach(fs, ts, 0, source);
    assert fs[0..] == fs;
    while i < |fs|
      invariant 0 <= i <= |fs| && 0 <= next <= |ts|
      invariant whole.nodes == forms + AttachEach(fs[i..], ts, next, source).nodes
      invariant whole.idx == AttachEach(fs[i..], ts, next, source).idx
    {
      ghost var rest := fs[i..];
      assert rest[0] == fs[i] && rest[1..] == fs[i + 1..] && (|rest| > 1 ==> rest[1] == fs[i + 1]);
      var bound := if i + 1 < |fs| then fs[i + 1].start else MAX_OFFSET;
      var node;
      node, next := AttachToForm(fs[i], bound, ts, next, source);
      forms := forms + [node];
      i := i + 1;
    }
    dangling := DropFinalBlankLines(ts[next..]);
  }

  // ----- what the pass is given -------------------------------------------------------------------------

  predicate Sorted(ts: seq<Trivia>) {
    forall i, j :: 0 <= i <= j < |ts| ==> ts[i].offset <= ts[j].offset
  }

  /** The spans of `cs` lie in order between `lo` and `hi`, each around its children's. */
  predicate Nested(cs: seq<Syntax>, lo: nat, hi: nat) {
    if cs == [] then lo <= hi
    else
      var c := cs[0];
      lo <= c.start <= c.end && Nested(c.children, c.start, c.end) && Nested(cs[1..], c.end, hi)
  }

  // ----- what it keeps --------------------------------------------------------------------------------------

  function Reading(nodes: seq<Annotated>): seq<Trivia> {
    if nodes == [] then []
    else
      var n := nodes[0];
      n.leading + Reading(n.children) + n.trailing + n.closing + Reading(nodes[1..])
  }

  /** A blank run after which no comment starts before `bound`. */
  predicate FinalBlank(ts: seq<Trivia>, k: nat, bound: nat)
    requires k < |ts|
  {
    ts[k].BlankLines? && forall j :: k < j < |ts| && ts[j].offset < bound ==> ts[j].BlankLines?
  }

  /**
    Item `k` is lost under a parent that ends at `parentEnd`: it starts inside a
    childless child, or it is a final blank run between the last child and the
    parent's end.
  */
  predicate LostIn(ts: seq<Trivia>, k: nat, cs: seq<Syntax>, parentEnd: nat)
    requires k < |ts|
  {
    cs != [] &&
    var c, at := cs[0], ts[k].offset;
    || (c.start <= at < c.end && (c.children == [] || LostIn(ts, k, c.children, c.end)))
    || (|cs| == 1 && c.end <= at < parentEnd && FinalBlank(ts, k, parentEnd))
    || LostIn(ts, k, cs[1..], parentEnd)
  }
}
