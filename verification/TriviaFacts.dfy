/**
  Conservation: the in-order reading of what the attachment pass built is the
  trivia it was given, less exactly the items `LostIn` and `LostTop` name.
*/
module TriviaFacts {
  import opened Trivia

  /** The items from `lo` to `hi` that `lost` does not name, in order. */
  ghost function Kept(ts: seq<Trivia>, lo: nat, hi: nat, lost: nat -> bool): (r: seq<Trivia>)
    requires lo <= hi <= |ts|
  {
    if lo == hi then [] else Kept(ts, lo, hi - 1, lost) + if lost(hi - 1) then [] else [ts[hi - 1]]
  }

  lemma {:induction false} KeptSplits(ts: seq<Trivia>, lo: nat, mid: nat, hi: nat, lost: nat -> bool)
    requires lo <= mid <= hi <= |ts|
    ensures Kept(ts, lo, hi, lost) == Kept(ts, lo, mid, lost) + Kept(ts, mid, hi, lost)
    decreases hi
  {
    if mid < hi { KeptSplits(ts, lo, mid, hi - 1, lost); }
  }

  lemma {:induction false} KeptWhole(ts: seq<Trivia>, lo: nat, hi: nat, lost: nat -> bool)
    requires lo <= hi <= |ts| && forall k: nat :: lo <= k < hi ==> !lost(k)
    ensures Kept(ts, lo, hi, lost) == ts[lo..hi]
    decreases hi
  {
    if lo < hi { KeptWhole(ts, lo, hi - 1, lost); }
  }

  lemma {:induction false} KeptNothing(ts: seq<Trivia>, lo: nat, hi: nat, lost: nat -> bool)
    requires lo <= hi <= |ts| && forall k: nat :: lo <= k < hi ==> lost(k)
    ensures Kept(ts, lo, hi, lost) == []
    decreases hi
  {
    if lo < hi { KeptNothing(ts, lo, hi - 1, lost); }
  }

  lemma {:induction false} KeptAlike(ts: seq<Trivia>, lo: nat, hi: nat, p: nat -> bool, q: nat -> bool)
    requires lo <= hi <= |ts| && forall k: nat :: lo <= k < hi ==> p(k) == q(k)
    ensures Kept(ts, lo, hi, p) == Kept(ts, lo, hi, q)
    decreases hi
  {
    if lo < hi { KeptAlike(ts, lo, hi - 1, p, q); }
  }

  ghost function Under(ts: seq<Trivia>, cs: seq<Syntax>, parentEnd: nat): nat -> bool {
    (k: nat) => k < |ts| && LostIn(ts, k, cs, parentEnd)
  }

  /** Every item from `i` on starts at or past `lo`. */
  ghost predicate From(ts: seq<Trivia>, i: nat, lo: nat) {
    forall k :: i <= k < |ts| ==> ts[k].offset >= lo
  }

  // ----- one child -----------------------------------------------------------------------------------

  lemma {:induction false} NothingLostBefore(ts: seq<Trivia>, k: nat, cs: seq<Syntax>, lo: nat, parentEnd: nat)
    requires k < |ts| && Nested(cs, lo, parentEnd) && ts[k].offset < lo
    ensures !LostIn(ts, k, cs, parentEnd)
    decreases cs
  {
    if cs != [] { NothingLostBefore(ts, k, cs[1..], cs[0].end, parentEnd); }
  }

  /** Where item `k` stands relative to the first child decides whether it is lost. */
  lemma LostAtHead(ts: seq<Trivia>, k: nat, cs: seq<Syntax>, lo: nat, parentEnd: nat)
    requires k < |ts| && cs != [] && Nested(cs, lo, parentEnd)
    ensures var c, at := cs[0], ts[k].offset;
            && (at < c.start ==> !LostIn(ts, k, cs, parentEnd))
            && (c.start <= at < c.end ==>
                  (LostIn(ts, k, cs, parentEnd) <==> c.children == [] || LostIn(ts, k, c.children, c.end)))
            && (c.end <= at && |cs| > 1 ==> (LostIn(ts, k, cs, parentEnd) <==> LostIn(ts, k, cs[1..], parentEnd)))
            && (c.end <= at < parentEnd && |cs| == 1 ==>
               (LostIn(ts, k, cs, parentEnd) <==> FinalBlank(ts, k, parentEnd)))
  {
    if ts[k].offset < cs[0].end { NothingLostBefore(ts, k, cs[1..], cs[0].end, parentEnd); }
  }

  lemma NotFinal(ts: seq<Trivia>, lo: nat, hi: nat, bound: nat, k: nat)
    requires lo <= hi <= |ts| && forall i :: lo <= i < hi ==> ts[i].offset < bound
    requires lo <= k < lo + |DropFinalBlanks(ts[lo..hi])|
    ensures !FinalBlank(ts, k, bound)
  {
    var slice := ts[lo..hi];
    var kept := DropFinalBlanks(slice);
    assert kept[|kept| - 1] == slice[|kept| - 1] == ts[lo + |kept| - 1];
  }

  lemma IsFinal(ts: seq<Trivia>, lo: nat, hi: nat, bound: nat, k: nat)
    requires lo <= hi <= |ts| && From(ts, hi, bound) && lo + |DropFinalBlanks(ts[lo..hi])| <= k < hi
    ensures FinalBlank(ts, k, bound)
  {
    var slice := ts[lo..hi];
    forall j | k <= j < |ts| && ts[j].offset < bound ensures ts[j].BlankLines? {
      assert j < hi;
      assert slice[j - lo] == ts[j];
    }
    assert slice[k - lo] == ts[k];
  }

  /** The final blanks dropped from a slice that runs up to `bound` are its final blanks by position. */
  lemma DroppedBlanks(ts: seq<Trivia>, lo: nat, hi: nat, bound: nat, lost: nat -> bool)
    requires lo <= hi <= |ts|
    requires forall k :: lo <= k < hi ==> ts[k].offset < bound
    requires From(ts, hi, bound)
    requires forall k: nat :: lo <= k < hi ==> (lost(k) <==> FinalBlank(ts, k, bound))
    ensures Kept(ts, lo, hi, lost) == DropFinalBlanks(ts[lo..hi])
  {
    hide FinalBlank, DropFinalBlanks, Kept, From;
    var kept := DropFinalBlanks(ts[lo..hi]);
    var mid := lo + |kept|;
    forall k: nat | lo <= k < mid ensures !lost(k) { NotFinal(ts, lo, hi, bound, k); }
    forall k: nat | mid <= k < hi ensures lost(k) { IsFinal(ts, lo, hi, bound, k); }
    KeptSplits(ts, lo, mid, hi, lost);
    KeptWhole(ts, lo, mid, lost);
    KeptNothing(ts, mid, hi, lost);
  }

  /** Leading items are kept. */
  lemma LeadingKept(cs: seq<Syntax>, parentEnd: nat, ts: seq<Trivia>, lo: nat, i: nat, j: nat)
    requires cs != [] && Nested(cs, lo, parentEnd) && i <= j <= |ts|
    requires forall k :: i <= k < j ==> ts[k].offset < cs[0].start
    ensures Kept(ts, i, j, Under(ts, cs, parentEnd)) == ts[i..j]
  {
    forall k: nat | i <= k < j ensures !Under(ts, cs, parentEnd)(k) { LostAtHead(ts, k, cs, lo, parentEnd); }
    KeptWhole(ts, i, j, Under(ts, cs, parentEnd));
  }

  /** A trailing comment is kept. */
  lemma TrailingKept(cs: seq<Syntax>, parentEnd: nat, ts: seq<Trivia>, lo: nat, i: nat, j: nat)
    requires cs != [] && Nested(cs, lo, parentEnd) && i <= j <= |ts| && From(ts, i, cs[0].end)
    requires j == i || (j == i + 1 && ts[i].Comment? && ts[i].offset < if |cs| > 1 then cs[1].start else parentEnd)
    ensures Kept(ts, i, j, Under(ts, cs, parentEnd)) == ts[i..j]
  {
    if i < j {
      LostAtHead(ts, i, cs, lo, parentEnd);
      if |cs| > 1 { NothingLostBefore(ts, i, cs[1..], cs[1].start, parentEnd); }
    }
    KeptWhole(ts, i, j, Under(ts, cs, parentEnd));
  }

  /** After the last child, all but the final blank runs are kept. */
  lemma ClosingKept(cs: seq<Syntax>, parentEnd: nat, ts: seq<Trivia>, lo: nat, i: nat, j: nat)
    requires |cs| == 1 && Nested(cs, lo, parentEnd) && i <= j <= |ts| && From(ts, i, cs[0].end)
    requires (forall k :: i <= k < j ==> ts[k].offset < parentEnd) && From(ts, j, parentEnd)
    ensures Kept(ts, i, j, Under(ts, cs, parentEnd)) == DropFinalBlanks(ts[i..j])
  {
    forall k: nat | i <= k < j ensures Under(ts, cs, parentEnd)(k) <==> FinalBlank(ts, k, parentEnd) {
      LostAtHead(ts, k, cs, lo, parentEnd);
    }
    DroppedBlanks(ts, i, j, parentEnd, Under(ts, cs, parentEnd));
  }

  lemma PastFrom(ts: seq<Trivia>, i: nat, bound: nat)
    requires Sorted(ts) && i <= |ts|
    ensures From(ts, Past(ts, i, bound), bound)
  {}

  ghost function Next(cs: seq<Syntax>, parentEnd: nat): nat
    requires cs != []
  {
    if |cs| > 1 then cs[1].start else parentEnd
  }

  lemma {:induction false} ChildReads(cs: seq<Syntax>, parentEnd: nat, ts: seq<Trivia>, idx: nat, source: string,
          lo: nat)
    requires cs != [] && Sorted(ts) && Nested(cs, lo, parentEnd) && idx <= |ts| && From(ts, idx, lo)
    ensures var r := AttachChild(cs[0], |cs| == 1, Next(cs, parentEnd), ts, idx, source);
            Reading(r.nodes) == Kept(ts, idx, r.idx, Under(ts, cs, parentEnd))
    decreases cs, 0
  {
    hide Kept, LostIn, Reading, AttachChildren, LineAt, DropFinalBlanks;
    var c, lost, next := cs[0], Under(ts, cs, parentEnd), Next(cs, parentEnd);
    var i1 := Past(ts, idx, c.start);
    PastFrom(ts, idx, c.start);
    LeadingKept(cs, parentEnd, ts, lo, idx, i1);
    ChildrenConserve(c.children, c.end, ts, i1, source, c.start);
    var kids := AttachChildren(c.children, c.end, ts, i1, source);
    var i3 := Past(ts, kids.idx, c.end);
    PastFrom(ts, kids.idx, c.end);
    SpanConserves(cs, parentEnd, ts, i1, source, lo);
    var i4 := PastSameLine(ts, i3, next, LineAt(source, c.end));
    TrailingKept(cs, parentEnd, ts, lo, i3, i4);
    var i5 := if |cs| == 1 then Past(ts, i4, next) else i4;
    ClosingPart(cs, parentEnd, ts, lo, i4);
    FourParts(ts, idx, i1, i3, i4, i5, lost);
    ReadingOne(AttachChild(c, |cs| == 1, next, ts, idx, source).nodes[0]);
  }

  lemma ClosingPart(cs: seq<Syntax>, parentEnd: nat, ts: seq<Trivia>, lo: nat, i4: nat)
    requires cs != [] && Sorted(ts) && Nested(cs, lo, parentEnd) && i4 <= |ts| && From(ts, i4, cs[0].end)
    ensures var i5 := if |cs| == 1 then Past(ts, i4, parentEnd) else i4;
            Kept(ts, i4, i5, Under(ts, cs, parentEnd)) == DropFinalBlanks(ts[i4..i5])
  {
    PastFrom(ts, i4, parentEnd);
    if |cs| == 1 {
      ClosingKept(cs, parentEnd, ts, lo, i4, Past(ts, i4, parentEnd));
    } else {
      EmptySlice(ts, i4, Under(ts, cs, parentEnd));
    }
  }

  lemma {:induction false} ChildStops(cs: seq<Syntax>, parentEnd: nat, ts: seq<Trivia>, idx: nat, source: string,
          lo: nat)
    requires cs != [] && Sorted(ts) && Nested(cs, lo, parentEnd) && idx <= |ts| && From(ts, idx, lo)
    ensures var r := AttachChild(cs[0], |cs| == 1, Next(cs, parentEnd), ts, idx, source);
            && From(ts, r.idx, cs[0].end) && (|cs| == 1 ==> From(ts, r.idx, parentEnd))
            && (forall k :: idx <= k < r.idx ==> ts[k].offset < parentEnd)
    decreases cs, 0
  {
    hide Kept, LostIn, Reading, AttachChildren, LineAt, DropFinalBlanks;
    var c, next := cs[0], Next(cs, parentEnd);
    NestedEnds(cs, lo, parentEnd);
    var i1 := Past(ts, idx, c.start);
    PastFrom(ts, idx, c.start);
    ChildrenConserve(c.children, c.end, ts, i1, source, c.start);
    var kids := AttachChildren(c.children, c.end, ts, i1, source);
    PastFrom(ts, kids.idx, c.end);
    var i4 := PastSameLine(ts, Past(ts, kids.idx, c.end), next, LineAt(source, c.end));
    PastFrom(ts, i4, next);
  }

  lemma EmptySlice(ts: seq<Trivia>, i: nat, lost: nat -> bool)
    requires i <= |ts|
    ensures Kept(ts, i, i, lost) == DropFinalBlanks(ts[i..i]) == []
  {}

  lemma FourParts(ts: seq<Trivia>, a: nat, b: nat, c: nat, d: nat, e: nat, lost: nat -> bool)
    requires a <= b <= c <= d <= e <= |ts|
    ensures Kept(ts, a, e, lost) == Kept(ts, a, b, lost) + Kept(ts, b, c, lost) + Kept(ts, c, d, lost) +
            Kept(ts, d, e, lost)
  {
    KeptSplits(ts, a, d, e, lost);
    KeptSplits(ts, a, c, d, lost);
    KeptSplits(ts, a, b, c, lost);
  }

  lemma ReadingOne(n: Annotated)
    ensures Reading([n]) == n.leading + Reading(n.children) + n.trailing + n.closing
  {
    assert [n][1..] == [];
    assert Reading([]) == [];
  }

  /** What a child's span covers: its children's reading, or nothing when it has none. */
  lemma SpanConserves(cs: seq<Syntax>, parentEnd: nat, ts: seq<Trivia>, i1: nat, source: string, lo: nat)
    requires cs != [] && i1 <= |ts| && Sorted(ts) && From(ts, i1, cs[0].start) && Nested(cs, lo, parentEnd)
    requires var c := cs[0]; var kids := AttachChildren(c.children, c.end, ts, i1, source);
             && Reading(kids.nodes) == Kept(ts, i1, kids.idx, Under(ts, c.children, c.end))
             && (c.children != [] ==> kids.idx == Past(ts, i1, c.end)) && (c.children == [] ==> kids.idx == i1)
    ensures var c := cs[0]; var kids := AttachChildren(c.children, c.end, ts, i1, source);
            Reading(kids.nodes) == Kept(ts, i1, Past(ts, kids.idx, c.end), Under(ts, cs, parentEnd))
  {
    var c := cs[0];
    var kids := AttachChildren(c.children, c.end, ts, i1, source);
    var i3 := Past(ts, kids.idx, c.end);
    forall k: nat | i1 <= k < i3
      ensures Under(ts, cs, parentEnd)(k) <==> c.children == [] || Under(ts, c.children, c.end)(k)
    {
      LostAtHead(ts, k, cs, lo, parentEnd);
    }
    if c.children == [] {
      KeptNothing(ts, i1, i3, Under(ts, cs, parentEnd));
    } else {
      KeptAlike(ts, i1, i3, Under(ts, c.children, c.end), Under(ts, cs, parentEnd));
    }
  }

  lemma PastIsUnique(ts: seq<Trivia>, i: nat, bound: nat, j: nat)
    requires i <= j <= |ts| && (forall k :: i <= k < j ==> ts[k].offset < bound) && From(ts, j, bound)
    ensures Past(ts, i, bound) == j
  {
    var p := Past(ts, i, bound);
    assert j == |ts| || ts[j].offset >= bound;
    if p < j { assert false; }
  }

  lemma ReadingSplits(a: seq<Annotated>, b: seq<Annotated>)
    requires |a| == 1
    ensures Reading(a + b) == Reading(a) + Reading(b)
  {
    assert (a + b)[1..] == b && (a + b)[0] == a[0];
    assert a == [a[0]];
    ReadingOne(a[0]);
  }

  /**
    Under every parent the pass visits, the reading of its children is the trivia
    it consumed less the lost items, and it consumed all of the parent's.
  */
  lemma {:induction false} ChildrenConserve(cs: seq<Syntax>, parentEnd: nat, ts: seq<Trivia>, idx: nat, source: string,
          lo: nat)
    requires Sorted(ts) && Nested(cs, lo, parentEnd) && idx <= |ts| && From(ts, idx, lo)
    ensures var r := AttachChildren(cs, parentEnd, ts, idx, source);
            && Reading(r.nodes) == Kept(ts, idx, r.idx, Under(ts, cs, parentEnd))
            && r.idx == if cs == [] then idx else Past(ts, idx, parentEnd)
    decreases cs, 1
  {
    hide AttachChild;
    if cs != [] {
      var c := cs[0];
      var one := AttachChild(c, |cs| == 1, Next(cs, parentEnd), ts, idx, source);
      var rest := AttachChildren(cs[1..], parentEnd, ts, one.idx, source);
      ChildReads(cs, parentEnd, ts, idx, source, lo);
      ChildStops(cs, parentEnd, ts, idx, source, lo);
      ChildrenConserve(cs[1..], parentEnd, ts, one.idx, source, c.end);
      RestAlike(cs, parentEnd, ts, one.idx, rest.idx, lo);
      KeptSplits(ts, idx, one.idx, rest.idx, Under(ts, cs, parentEnd));
      OneNode(c, |cs| == 1, Next(cs, parentEnd), ts, idx, source);
      ReadingSplits(one.nodes, rest.nodes);
      if |cs| > 1 { PastFrom(ts, one.idx, parentEnd); }
      PastIsUnique(ts, idx, parentEnd, rest.idx);
    }
  }

  lemma OneNode(c: Syntax, last: bool, next: nat, ts: seq<Trivia>, idx: nat, source: string)
    requires idx <= |ts|
    ensures |AttachChild(c, last, next, ts, idx, source).nodes| == 1
  {}

  /** Past the first child, its later siblings decide what is lost. */
  lemma RestAlike(cs: seq<Syntax>, parentEnd: nat, ts: seq<Trivia>, i: nat, j: nat, lo: nat)
    requires cs != [] && Nested(cs, lo, parentEnd) && i <= j <= |ts| && From(ts, i, cs[0].end) && (|cs| == 1 ==> i == j)
    ensures Kept(ts, i, j, Under(ts, cs, parentEnd)) == Kept(ts, i, j, Under(ts, cs[1..], parentEnd))
  {
    forall k: nat | i <= k < j ensures Under(ts, cs, parentEnd)(k) == Under(ts, cs[1..], parentEnd)(k) {
      LostAtHead(ts, k, cs, lo, parentEnd);
    }
    KeptAlike(ts, i, j, Under(ts, cs, parentEnd), Under(ts, cs[1..], parentEnd));
  }

  lemma {:induction false} NestedEnds(cs: seq<Syntax>, lo: nat, hi: nat)
    requires Nested(cs, lo, hi)
    ensures lo <= hi && forall i :: 0 <= i < |cs| ==> lo <= cs[i].start <= cs[i].end <= hi
    decreases cs
  {
    if cs != [] { NestedEnds(cs[1..], cs[0].end, hi); }
  }

  // ----- top-level forms --------------------------------------------------------------------------------

  predicate FinalInFile(ts: seq<Trivia>, k: nat) {
    forall j :: k <= j < |ts| ==> ts[j].BlankLines?
  }

  /** Where the trivia after a form begins: a childless form's own span is not stepped over. */
  function Edge(f: Syntax): nat {
    if f.children == [] then f.start else f.end
  }

  /** Item `k` is lost from the file: under a form with children, or as a blank run that ends the file. */
  predicate LostTop(ts: seq<Trivia>, k: nat, fs: seq<Syntax>)
    requires k < |ts|
  {
    fs != [] &&
    var f, at := fs[0], ts[k].offset;
    || (f.start <= at < f.end && LostIn(ts, k, f.children, f.end))
    || (|fs| == 1 && Edge(f) <= at && FinalInFile(ts, k))
    || LostTop(ts, k, fs[1..])
  }

  ghost function Top(ts: seq<Trivia>, fs: seq<Syntax>): nat -> bool {
    (k: nat) => k < |ts| && LostTop(ts, k, fs)
  }

  lemma {:induction false} TopLostBefore(ts: seq<Trivia>, k: nat, fs: seq<Syntax>, lo: nat, hi: nat)
    requires k < |ts| && Nested(fs, lo, hi) && ts[k].offset < lo
    ensures !LostTop(ts, k, fs)
    decreases fs
  {
    if fs != [] { TopLostBefore(ts, k, fs[1..], fs[0].end, hi); }
  }

  lemma LostAtForm(ts: seq<Trivia>, k: nat, fs: seq<Syntax>, lo: nat, hi: nat)
    requires k < |ts| && fs != [] && Nested(fs, lo, hi)
    ensures var f, at := fs[0], ts[k].offset;
            && (at < f.start ==> !LostTop(ts, k, fs))
            && (f.children != [] && f.start <= at < f.end ==>
               (LostTop(ts, k, fs) <==> LostIn(ts, k, f.children, f.end)))
            && (|fs| > 1 && Edge(f) <= at ==> (LostTop(ts, k, fs) <==> LostTop(ts, k, fs[1..])))
            && (|fs| == 1 && Edge(f) <= at ==> (LostTop(ts, k, fs) <==> FinalInFile(ts, k)))
  {
    var f := fs[0];
    if ts[k].offset < f.end { TopLostBefore(ts, k, fs[1..], f.end, hi); }
    if f.children == [] { assert !LostIn(ts, k, f.children, f.end); }
    assert |fs| == 1 ==> fs[1..] == [];
  }

  lemma FormReads(fs: seq<Syntax>, ts: seq<Trivia>, idx: nat, source: string, lo: nat, hi: nat)
    requires fs != [] && Sorted(ts) && Nested(fs, lo, hi) && idx <= |ts|
    ensures var r := AttachForm(fs[0], if |fs| > 1 then fs[1].start else MAX_OFFSET, ts, idx, source);
            Reading(r.nodes) == Kept(ts, idx, r.idx, Top(ts, fs)) && From(ts, r.idx, Edge(fs[0]))
  {
    hide Kept, LostIn, LostTop, Reading, AttachChildren, LineAt, Top, Under;
    var f, lost := fs[0], Top(ts, fs);
    var i1 := Past(ts, idx, f.start);
    FormLeadingKept(fs, ts, idx, i1, lo, hi);
    FormSpanKept(fs, ts, i1, source, lo, hi);
    var kids := AttachChildren(f.children, f.end, ts, i1, source);
    var next := if |fs| > 1 then fs[1].start else MAX_OFFSET;
    var i4 := PastSameLine(ts, kids.idx, next, LineAt(source, f.end));
    FormTrailingKept(fs, ts, kids.idx, i4, lo, hi);
    KeptSplits(ts, idx, i1, i4, lost);
    KeptSplits(ts, i1, kids.idx, i4, lost);
    ReadingOne(AttachForm(f, next, ts, idx, source).nodes[0]);
  }

  lemma FormLeadingKept(fs: seq<Syntax>, ts: seq<Trivia>, i: nat, j: nat, lo: nat, hi: nat)
    requires fs != [] && Nested(fs, lo, hi) && i <= j <= |ts| && forall k :: i <= k < j ==> ts[k].offset < fs[0].start
    ensures Kept(ts, i, j, Top(ts, fs)) == ts[i..j]
  {
    forall k: nat | i <= k < j ensures !Top(ts, fs)(k) { LostAtForm(ts, k, fs, lo, hi); }
    KeptWhole(ts, i, j, Top(ts, fs));
  }

  lemma FormSpanKept(fs: seq<Syntax>, ts: seq<Trivia>, idx: nat, source: string, lo: nat, hi: nat)
    requires fs != [] && Sorted(ts) && Nested(fs, lo, hi) && idx <= |ts|
    requires idx < |ts| ==> ts[idx].offset >= fs[0].start
    ensures var kids := AttachChildren(fs[0].children, fs[0].end, ts, idx, source);
            Reading(kids.nodes) == Kept(ts, idx, kids.idx, Top(ts, fs)) && From(ts, kids.idx, Edge(fs[0]))
  {
    hide Kept, LostIn, LostTop, Reading, AttachChildren;
    var f := fs[0];
    ChildrenConserve(f.children, f.end, ts, idx, source, f.start);
    var kids := AttachChildren(f.children, f.end, ts, idx, source);
    PastFrom(ts, idx, f.end);
    forall k: nat | idx <= k < kids.idx ensures Top(ts, fs)(k) == Under(ts, f.children, f.end)(k) {
      LostAtForm(ts, k, fs, lo, hi);
    }
    KeptAlike(ts, idx, kids.idx, Top(ts, fs), Under(ts, f.children, f.end));
  }

  lemma FormTrailingKept(fs: seq<Syntax>, ts: seq<Trivia>, i: nat, j: nat, lo: nat, hi: nat)
    requires fs != [] && Nested(fs, lo, hi) && i <= j <= |ts| && From(ts, i, Edge(fs[0]))
    requires j == i || (j == i + 1 && ts[i].Comment? && (|fs| > 1 ==> ts[i].offset < fs[1].start))
    ensures Kept(ts, i, j, Top(ts, fs)) == ts[i..j]
  {
    if i < j {
      LostAtForm(ts, i, fs, lo, hi);
      if |fs| > 1 { TopLostBefore(ts, i, fs[1..], fs[1].start, hi); }
    }
    KeptWhole(ts, i, j, Top(ts, fs));
  }

  lemma {:induction false} EachReads(fs: seq<Syntax>, ts: seq<Trivia>, idx: nat, source: string, lo: nat, hi: nat)
    requires fs != [] && Sorted(ts) && Nested(fs, lo, hi) && idx <= |ts|
    ensures var r := AttachEach(fs, ts, idx, source);
            && Reading(r.nodes) == Kept(ts, idx, r.idx, Top(ts, fs))
            && forall k: nat :: r.idx <= k < |ts| ==> (Top(ts, fs)(k) <==> FinalInFile(ts, k))
    decreases fs
  {
    hide AttachForm, Kept, LostTop, LostIn;
    var f, lost := fs[0], Top(ts, fs);
    var one := AttachForm(f, if |fs| > 1 then fs[1].start else MAX_OFFSET, ts, idx, source);
    FormReads(fs, ts, idx, source, lo, hi);
    var rest := AttachEach(fs[1..], ts, one.idx, source);
    OneForm(f, if |fs| > 1 then fs[1].start else MAX_OFFSET, ts, idx, source);
    ReadingSplits(one.nodes, rest.nodes);
    KeptSplits(ts, idx, one.idx, rest.idx, lost);
    forall k: nat | one.idx <= k < |ts|
      ensures if |fs| > 1 then lost(k) == Top(ts, fs[1..])(k) else lost(k) == FinalInFile(ts, k)
    {
      LostAtForm(ts, k, fs, lo, hi);
    }
    if |fs| > 1 {
      EachReads(fs[1..], ts, one.idx, source, f.end, hi);
      KeptAlike(ts, one.idx, rest.idx, lost, Top(ts, fs[1..]));
    } else {
      KeptNil(ts, one.idx, lost);
    }
  }

  lemma OneForm(f: Syntax, next: nat, ts: seq<Trivia>, idx: nat, source: string)
    requires idx <= |ts|
    ensures |AttachForm(f, next, ts, idx, source).nodes| == 1
  {}

  lemma KeptNil(ts: seq<Trivia>, i: nat, lost: nat -> bool)
    requires i <= |ts|
    ensures Kept(ts, i, i, lost) == []
  {}

  /**
    Conservation over a whole file: reading the attached forms in order, then the
    dangling trivia, gives the trivia of the file less the lost items, with nothing
    duplicated or moved.
  */
  lemma FormsConserve(fs: seq<Syntax>, ts: seq<Trivia>, source: string, hi: nat)
    requires Sorted(ts) && Nested(fs, 0, hi)
    ensures var t := AttachForms(fs, ts, source);
            Reading(t.forms) + t.dangling == Kept(ts, 0, |ts|, Top(ts, fs))
  {
    if fs == [] {
      KeptWhole(ts, 0, |ts|, Top(ts, fs));
    } else {
      EachReads(fs, ts, 0, source, 0, hi);
      var idx := AttachEach(fs, ts, 0, source).idx;
      DanglingKept(ts, idx, Top(ts, fs));
      KeptSplits(ts, 0, idx, |ts|, Top(ts, fs));
    }
  }

  lemma FinalAlike(ts: seq<Trivia>, k: nat, end: nat)
    requires k < |ts| && forall j :: 0 <= j < |ts| ==> ts[j].offset < end
    ensures FinalBlank(ts, k, end) <==> FinalInFile(ts, k)
  {}

  lemma DanglingKept(ts: seq<Trivia>, idx: nat, lost: nat -> bool)
    requires Sorted(ts) && idx <= |ts| && forall k: nat :: idx <= k < |ts| ==> (lost(k) <==> FinalInFile(ts, k))
    ensures Kept(ts, idx, |ts|, lost) == DropFinalBlanks(ts[idx..])
  {
    hide FinalBlank, FinalInFile, Kept;
    if idx == |ts| {
      EmptySlice(ts, idx, lost);
      assert ts[idx..] == ts[idx..idx];
    } else {
      var end := ts[|ts| - 1].offset + 1;
      assert forall j :: 0 <= j < |ts| ==> ts[j].offset < end;
      forall k: nat | idx <= k < |ts| ensures lost(k) <==> FinalBlank(ts, k, end) {
        FinalAlike(ts, k, end);
      }
      DroppedBlanks(ts, idx, |ts|, end, lost);
      assert ts[idx..|ts|] == ts[idx..];
    }
  }

  // ----- which comments are lost -----------------------------------------------------------------------------

  function Descendants(cs: seq<Syntax>): seq<Syntax> {
    if cs == [] then [] else [cs[0]] + Descendants(cs[0].children) + Descendants(cs[1..])
  }

  /** Offset `at` lies in the span of a childless node of the forest. */
  ghost predicate InChildless(at: nat, cs: seq<Syntax>) {
    exists n :: n in Descendants(cs) && n.children == [] && n.start <= at < n.end
  }

  lemma {:induction false} DescendantsNest(cs: seq<Syntax>, lo: nat, hi: nat, n: Syntax)
    requires Nested(cs, lo, hi) && n in Descendants(cs)
    ensures lo <= n.start && n.end <= hi
    decreases cs
  {
    NestedEnds(cs, lo, hi);
    var c := cs[0];
    if n in Descendants(c.children) {
      DescendantsNest(c.children, c.start, c.end, n);
    } else if n != c {
      DescendantsNest(cs[1..], c.end, hi, n);
    }
  }

  /** A comment is lost under a parent exactly when it starts inside a childless node below it. */
  lemma {:induction false} LostComment(ts: seq<Trivia>, k: nat, cs: seq<Syntax>, lo: nat, parentEnd: nat)
    requires k < |ts| && ts[k].Comment? && Nested(cs, lo, parentEnd)
    ensures LostIn(ts, k, cs, parentEnd) <==> InChildless(ts[k].offset, cs)
    decreases cs
  {
    if cs != [] {
      var c, at := cs[0], ts[k].offset;
      LostComment(ts, k, c.children, c.start, c.end);
      LostComment(ts, k, cs[1..], c.end, parentEnd);
      var all := Descendants(cs);
      assert forall n :: n in all <==> n == c || n in Descendants(c.children) || n in Descendants(cs[1..]);
      if LostIn(ts, k, c.children, c.end) {
        var n :| n in Descendants(c.children) && n.children == [] && n.start <= at < n.end;
        assert n in all;
      }
      if InChildless(at, c.children) {
        var n :| n in Descendants(c.children) && n.children == [] && n.start <= at < n.end;
        DescendantsNest(c.children, c.start, c.end, n);
      }
      if InChildless(at, cs) {
        var n :| n in all && n.children == [] && n.start <= at < n.end;
        assert n == c || InChildless(at, c.children) || InChildless(at, cs[1..]);
      }
    }
  }

  /** The nodes below the top level. */
  function NestedNodes(fs: seq<Syntax>): seq<Syntax> {
    if fs == [] then [] else Descendants(fs[0].children) + NestedNodes(fs[1..])
  }

  /** In a file, a comment is lost exactly when it starts inside a childless nested node. */
  lemma {:induction false} LostFileComment(ts: seq<Trivia>, k: nat, fs: seq<Syntax>, lo: nat, hi: nat)
    requires k < |ts| && ts[k].Comment? && Nested(fs, lo, hi)
    ensures LostTop(ts, k, fs) <==>
            exists n :: n in NestedNodes(fs) && n.children == [] && n.start <= ts[k].offset < n.end
    decreases fs
  {
    if fs != [] {
      var f, at := fs[0], ts[k].offset;
      LostComment(ts, k, f.children, f.start, f.end);
      LostFileComment(ts, k, fs[1..], f.end, hi);
      assert forall n :: n in NestedNodes(fs) <==> n in Descendants(f.children) || n in NestedNodes(fs[1..]);
      if InChildless(at, f.children) {
        var n :| n in Descendants(f.children) && n.children == [] && n.start <= at < n.end;
        DescendantsNest(f.children, f.start, f.end, n);
        assert n in NestedNodes(fs);
      }
      assert !FinalInFile(ts, k);
    }
  }

  // ----- the shape the formatter relies on -----------------------------------------------------------------

  predicate EndsInComment(ts: seq<Trivia>) {
    ts == [] || ts[|ts| - 1].Comment?
  }

  /** At most one trailing comment, and closing trivia that ends in a comment. */
  predicate NodeShaped(n: Annotated) {
    (n.trailing == [] || (|n.trailing| == 1 && n.trailing[0].Comment?)) && EndsInComment(n.closing)
  }

  predicate WellAttached(nodes: seq<Annotated>) {
    nodes == [] || (NodeShaped(nodes[0]) && WellAttached(nodes[0].children) && WellAttached(nodes[1..]))
  }

  lemma ChildShaped(c: Syntax, last: bool, next: nat, ts: seq<Trivia>, idx: nat, source: string)
    requires idx <= |ts|
    ensures var r := AttachChild(c, last, next, ts, idx, source);
            && |r.nodes| == 1 && NodeShaped(r.nodes[0])
            && r.nodes[0].children == AttachChildren(c.children, c.end, ts, Past(ts, idx, c.start), source).nodes
  {}

  lemma FormShaped(f: Syntax, next: nat, ts: seq<Trivia>, idx: nat, source: string)
    requires idx <= |ts|
    ensures var r := AttachForm(f, next, ts, idx, source);
            && |r.nodes| == 1 && NodeShaped(r.nodes[0])
            && r.nodes[0].children == AttachChildren(f.children, f.end, ts, Past(ts, idx, f.start), source).nodes
  {}

  lemma WellAttachedCons(one: seq<Annotated>, rest: seq<Annotated>)
    requires |one| == 1 && NodeShaped(one[0]) && WellAttached(one[0].children) && WellAttached(rest)
    ensures WellAttached(one + rest)
  {
    assert (one + rest)[1..] == rest && (one + rest)[0] == one[0];
  }

  lemma {:induction false} ChildrenWellAttached(cs: seq<Syntax>, parentEnd: nat, ts: seq<Trivia>, idx: nat,
          source: string)
    requires idx <= |ts|
    ensures WellAttached(AttachChildren(cs, parentEnd, ts, idx, source).nodes)
    decreases cs
  {
    hide AttachChild, NodeShaped;
    if cs != [] {
      var c, next := cs[0], Next(cs, parentEnd);
      var one := AttachChild(c, |cs| == 1, next, ts, idx, source);
      ChildShaped(c, |cs| == 1, next, ts, idx, source);
      ChildrenWellAttached(c.children, c.end, ts, Past(ts, idx, c.start), source);
      ChildrenWellAttached(cs[1..], parentEnd, ts, one.idx, source);
      WellAttachedCons(one.nodes, AttachChildren(cs[1..], parentEnd, ts, one.idx, source).nodes);
    }
  }

  lemma {:induction false} EachWellAttached(fs: seq<Syntax>, ts: seq<Trivia>, idx: nat, source: string)
    requires idx <= |ts|
    ensures WellAttached(AttachEach(fs, ts, idx, source).nodes)
    decreases fs
  {
    hide AttachForm, NodeShaped;
    if fs != [] {
      var f, next := fs[0], if |fs| > 1 then fs[1].start else MAX_OFFSET;
      var one := AttachForm(f, next, ts, idx, source);
      FormShaped(f, next, ts, idx, source);
      ChildrenWellAttached(f.children, f.end, ts, Past(ts, idx, f.start), source);
      EachWellAttached(fs[1..], ts, one.idx, source);
      WellAttachedCons(one.nodes, AttachEach(fs[1..], ts, one.idx, source).nodes);
    }
  }

  lemma FormsWellAttached(fs: seq<Syntax>, ts: seq<Trivia>, source: string)
    ensures WellAttached(AttachForms(fs, ts, source).forms)
  {
    EachWellAttached(fs, ts, 0, source);
  }

  /**
    The formatter takes dangling trivia to end in a comment. It does, unless the
    file has no forms and ends in blank lines.
  */
  lemma DanglingEndsInComment(fs: seq<Syntax>, ts: seq<Trivia>, source: string)
    ensures EndsInComment(AttachForms(fs, ts, source).dangling) <==> !(fs == [] && ts != [] && ts[|ts| - 1].BlankLines?)
  {}

  // ----- inside a top-level form ---------------------------------------------------------------------------

  /** Where the form after `fs[j]` starts, or past every offset. */
  function NextStart(fs: seq<Syntax>, j: nat): nat
    requires j < |fs|
  {
    if j + 1 < |fs| then fs[j + 1].start else MAX_OFFSET
  }

  /** The cursor when form `j` is reached. */
  function Cursor(fs: seq<Syntax>, ts: seq<Trivia>, idx: nat, source: string, j: nat): (c: nat)
    requires idx <= |ts| && j <= |fs|
    ensures idx <= c <= |ts|
    decreases fs
  {
    if j == 0 then idx else Cursor(fs[1..], ts, AttachForm(fs[0], NextStart(fs, 0), ts, idx, source).idx, source, j - 1)
  }

  /** Each form is attached from its cursor, and leaves the next form's. */
  lemma {:induction false} EachAt(fs: seq<Syntax>, ts: seq<Trivia>, idx: nat, source: string, j: nat)
    requires idx <= |ts| && j < |fs|
    ensures var r := AttachEach(fs, ts, idx, source);
            var one := AttachForm(fs[j], NextStart(fs, j), ts, Cursor(fs, ts, idx, source, j), source);
            && |r.nodes| == |fs| && |one.nodes| == 1 && r.nodes[j] == one.nodes[0]
            && Cursor(fs, ts, idx, source, j + 1) == one.idx
            && (j + 1 == |fs| ==> r.idx == one.idx)
    decreases fs
  {
    hide AttachForm;
    var first := AttachForm(fs[0], NextStart(fs, 0), ts, idx, source);
    OneForm(fs[0], NextStart(fs, 0), ts, idx, source);
    if |fs| > 1 { EachAt(fs[1..], ts, first.idx, source, if j == 0 then 0 else j - 1); }
  }

  /** No form consumes an item that starts at or past the form after it. */
  lemma {:induction false} CursorBefore(fs: seq<Syntax>, ts: seq<Trivia>, idx: nat, source: string, j: nat, lo: nat,
          hi: nat, k: nat)
    requires Sorted(ts) && Nested(fs, lo, hi) && idx <= k < |ts| && j < |fs| && ts[k].offset >= fs[j].start
    ensures Cursor(fs, ts, idx, source, j) <= k
    decreases fs
  {
    hide LineAt, AttachChildren;
    if j > 0 {
      StartsInOrder(fs, lo, hi, j);
      FormStops(fs[0], NextStart(fs, 0), ts, idx, source, k);
      CursorBefore(fs[1..], ts, AttachForm(fs[0], NextStart(fs, 0), ts, idx, source).idx, source, j - 1, fs[0].end, hi,
          k);
    }
  }

  lemma {:induction false} StartsInOrder(fs: seq<Syntax>, lo: nat, hi: nat, j: nat)
    requires Nested(fs, lo, hi) && 0 < j < |fs|
    ensures fs[0].start <= fs[0].end <= fs[1].start <= fs[j].start
    decreases fs
  {
    if j > 1 { StartsInOrder(fs[1..], fs[0].end, hi, j - 1); }
  }

  /** A form stops before an item that starts past its end and at or past the next form. */
  lemma FormStops(f: Syntax, next: nat, ts: seq<Trivia>, idx: nat, source: string, k: nat)
    requires Sorted(ts) && Nested(f.children, f.start, f.end) && idx <= k < |ts|
    requires f.start <= f.end <= next <= ts[k].offset
    ensures AttachForm(f, next, ts, idx, source).idx <= k
  {
    hide LineAt, AttachChildren;
    var i1 := Past(ts, idx, f.start);
    PastFrom(ts, idx, f.start);
    PastStops(ts, idx, f.start, k);
    ChildrenConserve(f.children, f.end, ts, i1, source, f.start);
    PastStops(ts, i1, f.end, k);
  }

  lemma PastStops(ts: seq<Trivia>, i: nat, bound: nat, k: nat)
    requires i <= k < |ts| && ts[k].offset >= bound
    ensures Past(ts, i, bound) <= k
  {}

  /** Is item `k` the comment that trails a childless form: the first at or past its start, on its last line? */
  predicate Trails(fs: seq<Syntax>, ts: seq<Trivia>, source: string, j: nat, k: nat)
    requires j < |fs| && k < |ts|
  {
    && (forall i :: 0 <= i < k ==> ts[i].offset < fs[j].start) && fs[j].start <= ts[k].offset < NextStart(fs, j)
    && ts[k].Comment? && ts[k].line == LineAt(source, fs[j].end)
  }

  /** No form before `j` takes an item at or past its start, so the first such item is where its span begins. */
  lemma FirstInSpan(fs: seq<Syntax>, ts: seq<Trivia>, source: string, hi: nat, j: nat, k: nat)
    requires Sorted(ts) && Nested(fs, 0, hi) && j < |fs| && k < |ts| && ts[k].offset >= fs[j].start
    ensures k == Past(ts, Cursor(fs, ts, 0, source, j), fs[j].start) <==> forall i :: 0 <= i < k ==>
            ts[i].offset < fs[j].start
  {
    hide Cursor;
    var c := Cursor(fs, ts, 0, source, j);
    CursorBefore(fs, ts, 0, source, j, 0, hi, k);
    PastStops(ts, c, fs[j].start, k);
    if k == Past(ts, c, fs[j].start) {
      forall q | 0 <= q < k ensures ts[q].offset < fs[j].start {
        if ts[q].offset >= fs[j].start { CursorBefore(fs, ts, 0, source, j, 0, hi, q); }
      }
    }
  }

  /**
    An item that starts inside a top-level form leaves the form if and only if the form
    has no children, unless it is taken as the comment that trails it. Then it leads the
    next form, or is left dangling after the last.
  */
  lemma InsideAFormWithoutChildren(fs: seq<Syntax>, ts: seq<Trivia>, source: string, hi: nat, j: nat, k: nat)
    requires Sorted(ts) && Nested(fs, 0, hi) && j < |fs| && k < |ts| && fs[j].start <= ts[k].offset < fs[j].end
    ensures Cursor(fs, ts, 0, source, j) <= k
    ensures Cursor(fs, ts, 0, source, j + 1) <= k <==> fs[j].children == [] && !Trails(fs, ts, source, j, k)
    ensures Cursor(fs, ts, 0, source, j + 1) <= k ==>
              var t, c := AttachForms(fs, ts, source), Cursor(fs, ts, 0, source, j + 1);
              && |t.forms| == |fs|
              && if j + 1 < |fs| then k < Past(ts, c, fs[j + 1].start)
              && t.forms[j + 1].leading == ts[c..Past(ts, c, fs[j + 1].start)]
                 else t.dangling == DropFinalBlanks(ts[c..])
  {
    hide AttachForm, AttachEach, Cursor, Past, LineAt;
    FormAt(fs, 0, hi, j);
    CursorBefore(fs, ts, 0, source, j, 0, hi, k);
    EachAt(fs, ts, 0, source, j);
    FirstInSpan(fs, ts, source, hi, j, k);
    FormLeaves(fs[j], NextStart(fs, j), ts, Cursor(fs, ts, 0, source, j), source, k);
    if Cursor(fs, ts, 0, source, j + 1) <= k { LeftBehind(fs, ts, source, hi, j, k); }
  }

  /** A form without children takes at most the first item of its span, and one with children takes them all. */
  lemma FormLeaves(f: Syntax, next: nat, ts: seq<Trivia>, idx: nat, source: string, k: nat)
    requires Sorted(ts) && Nested(f.children, f.start, f.end) && idx <= k < |ts| && f.start <= ts[k].offset < f.end
    ensures AttachForm(f, next, ts, idx, source).idx <= k <==>
              && f.children == []
              && !(k == Past(ts, idx, f.start) && ts[k].Comment? && ts[k].offset < next
                 && ts[k].line == LineAt(source, f.end))
  {
    hide LineAt, AttachChildren;
    var i1 := Past(ts, idx, f.start);
    PastFrom(ts, idx, f.start);
    PastStops(ts, idx, f.start, k);
    ChildrenConserve(f.children, f.end, ts, i1, source, f.start);
    PastFrom(ts, i1, f.end);
  }

  /** What a form leaves behind inside its span leads the next form, or dangles. */
  lemma LeftBehind(fs: seq<Syntax>, ts: seq<Trivia>, source: string, hi: nat, j: nat, k: nat)
    requires Sorted(ts) && Nested(fs, 0, hi) && j < |fs| && Cursor(fs, ts, 0, source, j + 1) <= k < |ts|
    requires ts[k].offset < fs[j].end
    ensures var t, c := AttachForms(fs, ts, source), Cursor(fs, ts, 0, source, j + 1);
            && |t.forms| == |fs|
            && if j + 1 < |fs| then k < Past(ts, c, fs[j + 1].start)
            && t.forms[j + 1].leading == ts[c..Past(ts, c, fs[j + 1].start)]
               else t.dangling == DropFinalBlanks(ts[c..])
  {
    hide AttachEach, AttachChildren, Cursor, LineAt, DropFinalBlanks;
    FormAt(fs, 0, hi, j);
    EachAt(fs, ts, 0, source, j);
    if j + 1 < |fs| {
      EachAt(fs, ts, 0, source, j + 1);
      var c := Cursor(fs, ts, 0, source, j + 1);
      PastFrom(ts, c, fs[j + 1].start);
    }
  }

  lemma {:induction false} FormAt(fs: seq<Syntax>, lo: nat, hi: nat, j: nat)
    requires Nested(fs, lo, hi) && j < |fs|
    ensures fs[j].start <= fs[j].end && Nested(fs[j].children, fs[j].start, fs[j].end)
    ensures j + 1 < |fs| ==> fs[j].end <= fs[j + 1].start
    decreases fs
  {
    if j > 0 { FormAt(fs[1..], fs[0].end, hi, j - 1); }
  }

  /**
    A string literal at the top level is such a form. In a file holding a string of
    three lines, the second one blank, and then a symbol, the blank line leads the symbol.
  */
  lemma TopLevelStringIsNotSteppedOver()
    ensures var source := "\"a\n\nb\"\nx";
            var fs := [Syntax(Atom("\"a\n\nb\"", false), 0, 6, []), Syntax(Atom("x", false), 7, 8, [])];
            var blank := BlankLines(1, 3, 2);
            && Nested(fs, 0, |source|) && Sorted([blank])
            && |AttachForms(fs, [blank], source).forms| == 2
            && AttachForms(fs, [blank], source).forms[1].leading == [blank]
  {
    hide AttachForms, Cursor;
    var source := "\"a\n\nb\"\nx";
    var fs := [Syntax(Atom("\"a\n\nb\"", false), 0, 6, []), Syntax(Atom("x", false), 7, 8, [])];
    var ts := [BlankLines(1, 3, 2)];
    assert fs[1..] == [fs[1]] && [fs[1]][1..] == [];
    assert Nested([], 8, 8) && Nested([fs[1]], 6, 8);
    InsideAFormWithoutChildren(fs, ts, source, 8, 0, 0);
    var c := Cursor(fs, ts, 0, source, 1);
    assert c == 0 && Past(ts, c, 7) == 1 && ts[0..1] == ts;
  }
}
