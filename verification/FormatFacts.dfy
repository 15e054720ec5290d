/**
  What the formatter's documents say: the leaves of the document built for an
  annotated tree are the tree's words, in order, comments included.
*/
module FormatFacts {
  import opened Render
  import opened RenderFacts
  import opened Trivia
  import opened Format

  // ----- leaves of the builders ------------------------------------------------------------------------

  function LeavesOf(parts: seq<Doc>): seq<string> {
    if parts == [] then [] else Leaves(parts[0]) + LeavesOf(parts[1..])
  }

  lemma {:induction false} LeavesJoin(a: seq<Doc>, b: seq<Doc>)
    ensures LeavesOf(a + b) == LeavesOf(a) + LeavesOf(b)
  {
    if a == [] {
      assert a + b == b;
    } else {
      LeavesJoin(a[1..], b);
      assert (a + b)[1..] == a[1..] + b;
    }
  }

  lemma LeavesSnoc(a: seq<Doc>, d: Doc)
    ensures LeavesOf(a + [d]) == LeavesOf(a) + Leaves(d)
  {
    LeavesJoin(a, [d]);
    assert LeavesOf([d]) == Leaves(d) + LeavesOf([]);
  }

  lemma {:induction false} LeavesOfDocs(parts: seq<Doc>)
    ensures LeavesAll(ToDocs(parts)) == LeavesOf(parts) && Leaves(ConcatOf(parts)) == LeavesOf(parts)
  {
    if parts != [] {
      LeavesOfDocs(parts[1..]);
      assert |parts| == 1 ==> parts[1..] == [];
    }
  }

  lemma {:induction false} LeavesInterleaved(sep: Doc, docs: seq<Doc>)
    requires Leaves(sep) == []
    ensures LeavesOf(Interleaved(sep, docs)) == LeavesOf(docs)
  {
    if |docs| > 1 {
      var init, last := docs[..|docs| - 1], docs[|docs| - 1];
      assert docs == init + [last];
      LeavesInterleaved(sep, init);
      assert Interleaved(sep, docs) == (Interleaved(sep, init) + [sep]) + [last];
      LeavesSnoc(Interleaved(sep, init), sep);
      LeavesSnoc(Interleaved(sep, init) + [sep], last);
      LeavesSnoc(init, last);
    }
  }

  lemma {:induction false} LeavesWrapped(docs: seq<Doc>)
    ensures LeavesOf(Wrapped(docs)) == LeavesOf(docs)
  {
    if docs != [] {
      var init, last := docs[..|docs| - 1], docs[|docs| - 1];
      LeavesWrapped(init);
      LeavesOfDocs([Break, last]);
      assert [Break, last] == [Break] + [last];
      LeavesSnoc([Break], last);
      assert LeavesOf([Break]) == Leaves(Break) + LeavesOf([]);
      LeavesSnoc(Wrapped(init), Group(ConcatOf([Break, last])));
      LeavesSnoc(init, last);
      assert docs == init + [last];
    }
  }

  lemma Leaves2(a: Doc, b: Doc)
    ensures Leaves(ConcatOf([a, b])) == Leaves(a) + Leaves(b)
  {
    LeavesOfDocs([a, b]);
    assert [a, b] == [a] + [b];
    LeavesSnoc([a], b);
    LeavesSnoc([], a);
    assert [] + [a] == [a];
  }

  lemma Leaves3(a: Doc, b: Doc, c: Doc)
    ensures Leaves(ConcatOf([a, b, c])) == Leaves(a) + Leaves(b) + Leaves(c)
  {
    LeavesOfDocs([a, b, c]);
    assert [a, b, c] == [a, b] + [c];
    LeavesSnoc([a, b], c);
    Leaves2(a, b);
    LeavesOfDocs([a, b]);
  }

  // ----- the words of a tree ---------------------------------------------------------------------------------

  function CommentTexts(ts: seq<Trivia>): seq<string> {
    if ts == [] then []
    else CommentTexts(ts[..|ts| - 1]) + if ts[|ts| - 1].Comment? then [ts[|ts| - 1].text] else []
  }

  /** A trailing comment stands two spaces after the text. */
  function TrailingTexts(ts: seq<Trivia>): seq<string> {
    if ts == [] then []
    else TrailingTexts(ts[..|ts| - 1]) + if ts[|ts| - 1].Comment? then ["  ", ts[|ts| - 1].text] else []
  }

  /** The leaves a node is made of, in source order: its comments around its tokens. */
  function Words(n: Annotated): seq<string>
    decreases n, 1
  {
    CommentTexts(n.leading) + Tokens(n) + TrailingTexts(n.trailing) + CommentTexts(n.closing)
  }

  function Tokens(n: Annotated): seq<string>
    decreases n, 0
  {
    match n.kind
    case Atom(text, _) => [text]
    case List => if n.children == [] then ["()"] else ["("] + WordsOf(n.children) + [")"]
    case Collection(open, close) => if n.children == [] then [open + close] else [open] + WordsOf(n.children) + [close]
    case Pairs(open, close) => if n.children == [] then [open + close] else [open] + WordsOf(n.children) + [close]
    case Prefix(text) => if n.children == [] then [text] else [text] + Words(n.children[0])
  }

  function WordsOf(ns: seq<Annotated>): seq<string>
    decreases ns, 0
  {
    if ns == [] then [] else Words(ns[0]) + WordsOf(ns[1..])
  }

  lemma {:induction false} LeavesBlank(parts: seq<Doc>)
    requires forall i :: 0 <= i < |parts| ==> parts[i].BlankLine?
    ensures LeavesOf(parts) == []
  {
    if parts != [] { LeavesBlank(parts[1..]); }
  }

  lemma {:induction false} LeavesLeading(ts: seq<Trivia>)
    ensures LeavesOf(LeadingItems(ts)) == CommentTexts(ts)
  {
    if ts != [] {
      var init, last := ts[..|ts| - 1], ts[|ts| - 1];
      LeavesLeading(init);
      match last
      case Comment(text, _, _) =>
        assert LeadingItems(ts) == (LeadingItems(init) + [Text(text)]) + [HardBreak];
        LeavesSnoc(LeadingItems(init), Text(text));
        LeavesSnoc(LeadingItems(init) + [Text(text)], HardBreak);
      case BlankLines(count, _, _) =>
        LeavesBlank(Blanks(count));
        LeavesJoin(LeadingItems(init), Blanks(count));
    }
  }

  lemma LeavesOfLeading(ts: seq<Trivia>)
    ensures LeavesOf(Leading(ts)) == CommentTexts(ts)
  {
    LeavesLeading(ts);
    if HasComment(ts) {
      assert Leading(ts) == [FreshLine] + LeadingItems(ts);
      LeavesJoin([FreshLine], LeadingItems(ts));
      assert LeavesOf([FreshLine]) == Leaves(FreshLine) + LeavesOf([]);
    } else {
      assert Leading(ts) == LeadingItems(ts);
    }
  }

  lemma {:induction false} LeavesTrailing(ts: seq<Trivia>)
    ensures LeavesOf(TrailingItems(ts)) == TrailingTexts(ts)
  {
    if ts != [] {
      var init, last := ts[..|ts| - 1], ts[|ts| - 1];
      LeavesTrailing(init);
      if last.Comment? {
        assert TrailingItems(ts) == (TrailingItems(init) + [Text("  ")]) + [Text(last.text)];
        LeavesSnoc(TrailingItems(init), Text("  "));
        LeavesSnoc(TrailingItems(init) + [Text("  ")], Text(last.text));
      } else {
        assert TrailingItems(ts) == TrailingItems(init);
      }
    }
  }

  lemma {:induction false} LeavesClosing(ts: seq<Trivia>)
    ensures LeavesOf(ClosingItems(ts)) == CommentTexts(ts)
  {
    if ts != [] {
      var init, last := ts[..|ts| - 1], ts[|ts| - 1];
      var head := ClosingItems(init) + if HoldsText(init) then [HardBreak] else [];
      LeavesClosing(init);
      LeavesSnoc(ClosingItems(init), HardBreak);
      assert !HoldsText(init) ==> head == ClosingItems(init);
      match last
      case Comment(text, _, _) => LeavesSnoc(head, Text(text));
      case BlankLines(count, _, _) =>
        LeavesBlank(Blanks(count));
        LeavesJoin(head, Blanks(count));
    }
  }

  lemma LeavesOfTrailing(n: Annotated)
    ensures LeavesOf(Trailing(n)) == TrailingTexts(n.trailing) + CommentTexts(n.closing)
  {
    var head := TrailingItems(n.trailing) + ClosingItems(n.closing);
    LeavesTrailing(n.trailing);
    LeavesClosing(n.closing);
    LeavesJoin(TrailingItems(n.trailing), ClosingItems(n.closing));
    LeavesSnoc(head, CommentBreak);
    assert Trailing(n) == head + [CommentBreak] || Trailing(n) == head;
  }

  // ----- the document has the words of the tree ------------------------------------------------------------

  lemma {:induction false} WithoutTrailingHasWords(n: Annotated)
    ensures Leaves(FormatWithoutTrailing(n)) == CommentTexts(n.leading) + Tokens(n)
    decreases n, 1
  {
    SyntaxHasTokens(n);
    LeavesOfLeading(n.leading);
    LeavesSnoc(Leading(n.leading), FormatSyntax(n));
    LeavesOfDocs(Leading(n.leading) + [FormatSyntax(n)]);
  }

  lemma {:induction false} AnnotatedHasWords(n: Annotated)
    ensures Leaves(FormatAnnotated(n)) == Words(n)
    decreases n, 2
  {
    WithoutTrailingHasWords(n);
    TrailingHasWords(n);
    Leaves2(FormatWithoutTrailing(n), ConcatOf(Trailing(n)));
  }

  lemma LeavesNested(d: Doc)
    ensures Leaves(NestOf(1, d)) == Leaves(d) && Leaves(GroupOf(d)) == Leaves(d) && Leaves(Align(d)) == Leaves(d)
  {}

  lemma LeavesParens(d: Doc)
    ensures Leaves(Parens(d)) == ["("] + Leaves(d) + [")"]
  {
    LeavesNested(d);
    Leaves3(Text("("), NestOf(1, d), Text(")"));
  }

  lemma {:induction false} PairHasWords(ns: seq<Annotated>)
    requires |ns| >= 2
    ensures Leaves(FormatPair(ns)) == Words(ns[0]) + Words(ns[1])
    decreases ns, 0
  {
    if CommentBetween(ns[0], ns[1]) {
      PairBelowHasWords(ns);
    } else {
      AnnotatedHasWords(ns[0]);
      AnnotatedHasWords(ns[1]);
      Leaves3(FormatAnnotated(ns[0]), Space, FormatAnnotated(ns[1]));
    }
  }

  lemma {:induction false} PairBelowHasWords(ns: seq<Annotated>)
    requires |ns| >= 2
    ensures Leaves(FormatPairBelow(ns)) == Words(ns[0]) + Words(ns[1])
    decreases ns, 0, 0
  {
    hide ConcatOf, NestOf, Leaves, LeavesOf, Trailing, FormatWithoutTrailing, Tokens, CommentTexts, TrailingTexts;
    var k, v := ns[0], ns[1];
    var kt, vt := ConcatOf(Trailing(k)), ConcatOf(Trailing(v));
    TrailingHasWords(k);
    TrailingHasWords(v);
    WithoutTrailingHasWords(k);
    WithoutTrailingHasWords(v);
    BelowLeaves(FormatWithoutTrailing(k), kt, FormatWithoutTrailing(v), vt);
    assert Words(k) == Leaves(FormatWithoutTrailing(k)) + Leaves(kt);
    assert Words(v) == Leaves(FormatWithoutTrailing(v)) + Leaves(vt);
  }

  lemma BelowLeaves(key: Doc, kt: Doc, value: Doc, vt: Doc)
    ensures Leaves(ConcatOf([key, NestOf(1, ConcatOf([kt, HardBreak, value])), vt]))
         == (Leaves(key) + Leaves(kt)) + (Leaves(value) + Leaves(vt))
  {
    hide ConcatOf, NestOf, Leaves;
    var below := ConcatOf([kt, HardBreak, value]);
    LeavesOfBreak();
    Leaves3(kt, HardBreak, value);
    LeavesNested(below);
    Leaves3(key, NestOf(1, below), vt);
    Regroup(Leaves(key), Leaves(kt), Leaves(value), Leaves(vt));
  }

  lemma Regroup(a: seq<string>, b: seq<string>, c: seq<string>, d: seq<string>)
    ensures a + (b + [] + c) + d == (a + b) + (c + d)
  {}

  lemma TrailingHasWords(n: Annotated)
    ensures Leaves(ConcatOf(Trailing(n))) == TrailingTexts(n.trailing) + CommentTexts(n.closing)
  {
    LeavesOfTrailing(n);
    LeavesOfDocs(Trailing(n));
  }

  lemma {:induction false} EachHasWords(ns: seq<Annotated>)
    ensures LeavesOf(FormatEach(ns)) == WordsOf(ns)
    decreases ns, 1
  {
    if ns != [] {
      AnnotatedHasWords(ns[0]);
      EachHasWords(ns[1..]);
      LeavesJoin([FormatAnnotated(ns[0])], FormatEach(ns[1..]));
      assert LeavesOf([FormatAnnotated(ns[0])]) == Leaves(FormatAnnotated(ns[0])) + LeavesOf([]);
    }
  }

  lemma WordsOfTwo(ns: seq<Annotated>)
    requires |ns| >= 2
    ensures WordsOf(ns) == Words(ns[0]) + Words(ns[1]) + WordsOf(ns[2..])
  {
    assert ns[1..][0] == ns[1] && ns[1..][1..] == ns[2..];
  }

  lemma {:induction false} PairDocsHaveWords(ns: seq<Annotated>)
    ensures LeavesOf(PairDocs(ns)) == WordsOf(ns)
    decreases ns, 1
  {
    if |ns| == 1 {
      AnnotatedHasWords(ns[0]);
      assert ns[1..] == [];
      assert PairDocs(ns) == [FormatAnnotated(ns[0])];
      assert LeavesOf(PairDocs(ns)) == Leaves(FormatAnnotated(ns[0])) + LeavesOf([]);
    } else if |ns| >= 2 {
      PairHasWords(ns);
      PairDocsHaveWords(ns[2..]);
      WordsOfTwo(ns);
      LeavesJoin([FormatPair(ns)], PairDocs(ns[2..]));
      assert LeavesOf([FormatPair(ns)]) == Leaves(FormatPair(ns)) + LeavesOf([]);
    }
  }

  lemma {:induction false} ArgUnitsHaveWords(ns: seq<Annotated>)
    ensures LeavesOf(ArgUnits(ns)) == WordsOf(ns)
    decreases ns, 1
  {
    if ns != [] {
      if |ns| > 1 && IsKeyword(ns[0]) && !IsKeyword(ns[1]) {
        PairHasWords(ns);
        ArgUnitsHaveWords(ns[2..]);
        WordsOfTwo(ns);
        LeavesJoin([FormatPair(ns)], ArgUnits(ns[2..]));
        assert LeavesOf([FormatPair(ns)]) == Leaves(FormatPair(ns)) + LeavesOf([]);
      } else {
        AnnotatedHasWords(ns[0]);
        ArgUnitsHaveWords(ns[1..]);
        LeavesJoin([FormatAnnotated(ns[0])], ArgUnits(ns[1..]));
        assert LeavesOf([FormatAnnotated(ns[0])]) == Leaves(FormatAnnotated(ns[0])) + LeavesOf([]);
      }
    }
  }

  lemma {:induction false} SyntaxHasTokens(n: Annotated)
    ensures Leaves(FormatSyntax(n)) == Tokens(n)
    decreases n, 0
  {
    match n.kind
    case Atom(_, _) =>
    case List => if n.children != [] { CallHasTokens(n); }
    case Collection(open, close) =>
      if n.children != [] {
        var elems := FormatEach(n.children);
        EachHasWords(n.children);
        LeavesFill(elems);
        LeavesNested(Fill(elems));
        Leaves3(Text(open), Align(Fill(elems)), Text(close));
      }
    case Pairs(open, close) =>
      if n.children != [] {
        var docs := PairDocs(n.children);
        PairDocsHaveWords(n.children);
        LeavesIntersperse(docs);
        LeavesNested(Intersperse(docs));
        LeavesNested(GroupOf(Intersperse(docs)));
        Leaves3(Text(open), Align(GroupOf(Intersperse(docs))), Text(close));
      }
    case Prefix(text) =>
      if n.children != [] {
        AnnotatedHasWords(n.children[0]);
        Leaves2(Text(text), FormatAnnotated(n.children[0]));
      }
  }

  lemma LeavesFill(docs: seq<Doc>)
    ensures Leaves(Fill(docs)) == LeavesOf(docs)
  {
    if docs != [] {
      LeavesWrapped(docs[1..]);
      LeavesOfDocs(FillParts(docs));
      LeavesJoin([docs[0]], Wrapped(docs[1..]));
      assert LeavesOf([docs[0]]) == Leaves(docs[0]) + LeavesOf([]);
    }
  }

  lemma LeavesIntersperse(docs: seq<Doc>)
    ensures Leaves(Intersperse(docs)) == LeavesOf(docs)
  {
    LeavesInterleaved(Break, docs);
    LeavesOfDocs(Interleaved(Break, docs));
    if |docs| == 1 { LeavesOfDocs(docs); }
  }

  lemma {:induction false} CallHasTokens(n: Annotated)
    requires n.kind.List? && n.children != []
    ensures Leaves(FormatSyntax(n)) == Tokens(n)
    decreases n.children, 2
  {
    hide Leaves, LeavesOf, Parens, ConcatOf, FormatAnnotated, ArgUnits, Words;
    var head := FormatAnnotated(n.children[0]);
    var units := ArgUnits(n.children[1..]);
    AnnotatedHasWords(n.children[0]);
    ArgUnitsHaveWords(n.children[1..]);
    if units == [] {
      LeavesParens(head);
      NoLeaves();
    } else {
      var hang := Hang(units[0], ConcatOf(Wrapped(units[1..])));
      HangHasLeaves(units);
      Leaves2(head, hang);
      LeavesParens(ConcatOf([head, hang]));
    }
  }

  lemma NoLeaves()
    ensures LeavesOf([]) == []
  {}

  lemma HangHasLeaves(units: seq<Doc>)
    requires units != []
    ensures Leaves(Hang(units[0], ConcatOf(Wrapped(units[1..])))) == LeavesOf(units)
  {
    LeavesWrapped(units[1..]);
    LeavesOfDocs(Wrapped(units[1..]));
  }

  /** The document of a file has exactly the words of its forms, then its dangling comments. */
  lemma FormsHaveWords(forms: seq<Annotated>, dangling: seq<Trivia>)
    ensures Leaves(FormatForms(forms, dangling)) == WordsOf(forms) + CommentTexts(dangling)
  {
    hide LeavesOf, Interleaved, FormatEach, Leading, ConcatOf, Leaves;
    var docs := Interleaved(HardBreak, FormatEach(forms));
    EachHasWords(forms);
    assert Leaves(HardBreak) == [] by { LeavesOfBreak(); }
    LeavesInterleaved(HardBreak, FormatEach(forms));
    var sep := if forms == [] then [] else [HardBreak];
    if dangling == [] {
      assert docs + [] == docs;
      LeavesOfDocs(docs);
      assert CommentTexts(dangling) == [];
    } else {
      LeavesOfLeading(dangling);
      LeavesJoin(docs, sep + Leading(dangling));
      LeavesJoin(sep, Leading(dangling));
      LeavesOfSep(sep);
      LeavesOfDocs(docs + (sep + Leading(dangling)));
    }
  }

  lemma LeavesOfBreak()
    ensures Leaves(HardBreak) == []
  {}

  lemma LeavesOfSep(sep: seq<Doc>)
    requires sep == [] || sep == [HardBreak]
    ensures LeavesOf(sep) == []
  {
    assert LeavesOf([]) == [];
  }
}
