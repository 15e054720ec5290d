/**
  Where each comment and blank line goes, by position alone, at every depth.

  A node's leading trivia is what lies between it and whatever took trivia before it;
  what trails it is the first item past its end, if that is a comment on the line its
  text ends on and before what comes next; and the last child closes with the rest up
  to the parent's end, less final blank lines. Items are placed by offset, with no
  cursor, and lines are counted in the source.
*/
module TriviaPlaces {
  import opened Trivia

  /** The index of the first item at or past offset `x`. */
  function IndexOf(ts: seq<Trivia>, x: nat): (i: nat)
    ensures i <= |ts| && (forall k :: 0 <= k < i ==> ts[k].offset < x) && (i < |ts| ==> ts[i].offset >= x)
  {
    Past(ts, 0, x)
  }

  /** One more than the newlines before the offset. */
  function LineNumber(source: string, offset: nat): nat {
    1 + |set i | 0 <= i < |source| && i < offset && source[i] == '\n'|
  }

  lemma {:induction false} NewlinesAreCounted(s: string)
    ensures Newlines(s) == |set i | 0 <= i < |s| && s[i] == '\n'|
    decreases |s|
  {
    var all := set i | 0 <= i < |s| && s[i] == '\n';
    if s != "" {
      var init := s[..|s| - 1];
      var before := set i | 0 <= i < |init| && init[i] == '\n';
      NewlinesAreCounted(init);
      assert all == before + if s[|s| - 1] == '\n' then {|s| - 1} else {};
    }
  }

  lemma LineIsCounted(source: string, offset: nat)
    ensures LineAt(source, offset) == LineNumber(source, offset)
  {
    var s := if offset <= |source| then source[..offset] else source;
    NewlinesAreCounted(s);
    assert (set i | 0 <= i < |s| && s[i] == '\n') == set i | 0 <= i < |source| && i < offset && source[i] == '\n';
  }

  // ----- the places ----------------------------------------------------------------------------------------

  /** Item `t` is a comment on the line on which the text up to `end` ends, before `next`. */
  predicate OnLastLine(ts: seq<Trivia>, t: nat, end: nat, next: nat, source: string) {
    t < |ts| && ts[t].Comment? && ts[t].offset < next && ts[t].line == LineNumber(source, end)
  }

  /** Where the trivia of a node ends that starts at item `t`. */
  function AfterTrailing(ts: seq<Trivia>, t: nat, end: nat, next: nat, source: string): nat {
    if OnLastLine(ts, t, end, next, source) then t + 1 else t
  }

  /** The trivia of one node, from item `begin` on; `t` is where what trails it would be. */
  predicate NodePlaced(c: Syntax, n: Annotated, begin: nat, t: nat, next: nat, ts: seq<Trivia>, source: string) {
    var s, u := IndexOf(ts, c.start), AfterTrailing(ts, t, c.end, next, source);
    && begin <= s <= t && u <= |ts|
    && n.kind == c.kind && n.leading == ts[begin..s] && n.trailing == ts[t..u]
  }

  function NextStart(cs: seq<Syntax>, parentEnd: nat): nat {
    if |cs| > 1 then cs[1].start else parentEnd
  }

  /** The children of one parent, the first of which may lead from item `begin` on. */
  predicate Placed(cs: seq<Syntax>, ns: seq<Annotated>, begin: nat, parentEnd: nat, ts: seq<Trivia>, source: string)
    decreases cs
  {
    |ns| == |cs| &&
    (cs != [] ==>
       var c, n, next := cs[0], ns[0], NextStart(cs, parentEnd);
       var t := IndexOf(ts, c.end);
       var u := AfterTrailing(ts, t, c.end, next, source);
       && NodePlaced(c, n, begin, t, next, ts, source) && u <= IndexOf(ts, next)
       && n.closing == (if |cs| == 1 then DropFinalBlanks(ts[u..IndexOf(ts, parentEnd)]) else [])
       && Placed(c.children, n.children, IndexOf(ts, c.start), c.end, ts, source)
       && Placed(cs[1..], ns[1..], u, parentEnd, ts, source))
  }

  /** The forms of a file. A form without children leaves what lies inside it to what follows. */
  predicate PlacedForms(fs: seq<Syntax>, ns: seq<Annotated>, begin: nat, ts: seq<Trivia>, source: string, rest: nat)
    decreases fs
  {
    |ns| == |fs| &&
    if fs == [] then rest == begin
    else
      var f, n, next := fs[0], ns[0], NextStart(fs, MAX_OFFSET);
      var t := IndexOf(ts, if f.children == [] then f.start else f.end);
      && NodePlaced(f, n, begin, t, next, ts, source) && n.closing == []
      && Placed(f.children, n.children, IndexOf(ts, f.start), f.end, ts, source)
      && PlacedForms(fs[1..], ns[1..], AfterTrailing(ts, t, f.end, next, source), ts, source, rest)
  }

  // ----- the pass puts them there --------------------------------------------------------------------------

  lemma PastIsIndex(ts: seq<Trivia>, i: nat, x: nat)
    requires i <= IndexOf(ts, x)
    ensures Past(ts, i, x) == IndexOf(ts, x)
  {}

  lemma IndexGrows(ts: seq<Trivia>, x: nat, y: nat)
    requires x <= y
    ensures IndexOf(ts, x) <= IndexOf(ts, y)
  {}

  lemma SameLineIsLast(ts: seq<Trivia>, t: nat, end: nat, next: nat, source: string)
    requires t <= |ts| && t <= IndexOf(ts, next)
    ensures var u := PastSameLine(ts, t, next, LineAt(source, end));
            u == AfterTrailing(ts, t, end, next, source) && u <= IndexOf(ts, next)
  {
    LineIsCounted(source, end);
  }

  lemma StartsAhead(cs: seq<Syntax>, lo: nat, hi: nat)
    requires Nested(cs, lo, hi) && cs != []
    ensures lo <= cs[0].start <= cs[0].end <= NextStart(cs, hi) <= hi
    ensures Nested(cs[0].children, cs[0].start, cs[0].end) && Nested(cs[1..], cs[0].end, hi)
  {
    NestedOrder(cs, lo, hi);
  }

  lemma {:induction false} NestedOrder(cs: seq<Syntax>, lo: nat, hi: nat)
    requires Nested(cs, lo, hi)
    ensures lo <= hi
    decreases cs
  {
    if cs != [] { NestedOrder(cs[1..], cs[0].end, hi); }
  }

  /** A child is attached as its position says, once its own children are. */
  lemma ChildIsPlaced(c: Syntax, last: bool, next: nat, ts: seq<Trivia>, idx: nat, source: string)
    requires idx <= IndexOf(ts, c.start) && c.start <= c.end <= next
    requires AttachChildren(c.children, c.end, ts, IndexOf(ts, c.start), source).idx <= IndexOf(ts, c.end)
    ensures var one := AttachChild(c, last, next, ts, idx, source);
            var t := IndexOf(ts, c.end);
            var u := AfterTrailing(ts, t, c.end, next, source);
            && |one.nodes| == 1 && NodePlaced(c, one.nodes[0], idx, t, next, ts, source) && u <= IndexOf(ts, next)
            && one.nodes[0].closing == (if last then DropFinalBlanks(ts[u..IndexOf(ts, next)]) else [])
            && one.nodes[0].children == AttachChildren(c.children, c.end, ts, IndexOf(ts, c.start), source).nodes
            && one.idx == if last then IndexOf(ts, next) else u
  {
    hide LineAt, OnLastLine, IndexOf, PastSameLine, Past, AttachChildren, AfterTrailing;
    var s, t := IndexOf(ts, c.start), IndexOf(ts, c.end);
    IndexGrows(ts, c.start, c.end);
    IndexGrows(ts, c.end, next);
    PastIsIndex(ts, idx, c.start);
    PastIsIndex(ts, AttachChildren(c.children, c.end, ts, s, source).idx, c.end);
    SameLineIsLast(ts, t, c.end, next, source);
    var u := AfterTrailing(ts, t, c.end, next, source);
    PastIsIndex(ts, u, next);
    assert ts[u..u] == [] && DropFinalBlanks([]) == [];
  }

  lemma {:induction false} ChildrenArePlaced(cs: seq<Syntax>, parentEnd: nat, ts: seq<Trivia>, idx: nat, source: string,
          lo: nat)
    requires Nested(cs, lo, parentEnd) && idx <= IndexOf(ts, if cs == [] then parentEnd else cs[0].start)
    ensures var r := AttachChildren(cs, parentEnd, ts, idx, source);
            && Placed(cs, r.nodes, idx, parentEnd, ts, source)
            && r.idx == if cs == [] then idx else IndexOf(ts, parentEnd)
    decreases cs
  {
    hide IndexOf, AttachChild, NodePlaced, AfterTrailing, DropFinalBlanks;
    if cs != [] {
      var c, next := cs[0], NextStart(cs, parentEnd);
      StartsAhead(cs, lo, parentEnd);
      InnerStarts(c, ts);
      ChildrenArePlaced(c.children, c.end, ts, IndexOf(ts, c.start), source, c.start);
      ChildIsPlaced(c, |cs| == 1, next, ts, idx, source);
      var one := AttachChild(c, |cs| == 1, next, ts, idx, source);
      if |cs| > 1 { ChildrenArePlaced(cs[1..], parentEnd, ts, one.idx, source, c.end); }
      var rest := AttachChildren(cs[1..], parentEnd, ts, one.idx, source);
      assert (one.nodes + rest.nodes)[1..] == rest.nodes;
    }
  }

  lemma InnerStarts(c: Syntax, ts: seq<Trivia>)
    requires c.start <= c.end && Nested(c.children, c.start, c.end)
    ensures IndexOf(ts, c.start) <= IndexOf(ts, if c.children == [] then c.end else c.children[0].start)
    ensures IndexOf(ts, c.start) <= IndexOf(ts, c.end)
  {
    hide IndexOf;
    IndexGrows(ts, c.start, c.end);
    if c.children != [] { StartsAhead(c.children, c.start, c.end); IndexGrows(ts, c.start, c.children[0].start); }
  }

  lemma FormIsPlaced(f: Syntax, next: nat, ts: seq<Trivia>, idx: nat, source: string)
    requires idx <= IndexOf(ts, f.start) && f.start <= f.end <= next && Nested(f.children, f.start, f.end)
    ensures var one := AttachForm(f, next, ts, idx, source);
            var t := IndexOf(ts, if f.children == [] then f.start else f.end);
            var u := AfterTrailing(ts, t, f.end, next, source);
            && |one.nodes| == 1 && NodePlaced(f, one.nodes[0], idx, t, next, ts, source) && one.nodes[0].closing == []
            && Placed(f.children, one.nodes[0].children, IndexOf(ts, f.start), f.end, ts, source)
            && one.idx == u <= IndexOf(ts, next)
  {
    hide LineAt, OnLastLine, IndexOf, PastSameLine, Past, AttachChildren, Placed, AfterTrailing;
    var s := IndexOf(ts, f.start);
    InnerStarts(f, ts);
    IndexGrows(ts, f.end, next);
    PastIsIndex(ts, idx, f.start);
    ChildrenArePlaced(f.children, f.end, ts, s, source, f.start);
    SameLineIsLast(ts, IndexOf(ts, if f.children == [] then f.start else f.end), f.end, next, source);
  }

  lemma {:induction false} FormsArePlaced(fs: seq<Syntax>, ts: seq<Trivia>, idx: nat, source: string, lo: nat, hi: nat)
    requires Nested(fs, lo, hi) && hi <= MAX_OFFSET && idx <= |ts| && (fs != [] ==> idx <= IndexOf(ts, fs[0].start))
    ensures var r := AttachEach(fs, ts, idx, source); PlacedForms(fs, r.nodes, idx, ts, source, r.idx)
    decreases fs
  {
    hide IndexOf, AttachForm, Placed, NodePlaced, AfterTrailing;
    if fs != [] {
      var f, next := fs[0], NextStart(fs, MAX_OFFSET);
      StartsAhead(fs, lo, hi);
      FormIsPlaced(f, next, ts, idx, source);
      var one := AttachForm(f, next, ts, idx, source);
      FormsArePlaced(fs[1..], ts, one.idx, source, f.end, hi);
      var rest := AttachEach(fs[1..], ts, one.idx, source);
      assert (one.nodes + rest.nodes)[1..] == rest.nodes;
    }
  }

  /** A whole file: every item is where its position says, and what no form took dangles. */
  lemma FileIsPlaced(fs: seq<Syntax>, ts: seq<Trivia>, source: string, hi: nat) returns (rest: nat)
    requires fs != [] && Nested(fs, 0, hi) && hi <= MAX_OFFSET
    ensures var t := AttachForms(fs, ts, source);
            rest <= |ts| && PlacedForms(fs, t.forms, 0, ts, source, rest) && t.dangling == DropFinalBlanks(ts[rest..])
  {
    hide PlacedForms, AttachEach, IndexOf;
    FormsArePlaced(fs, ts, 0, source, 0, hi);
    rest := AttachEach(fs, ts, 0, source).idx;
  }
}
