# Elle: a verified model of its compiler passes, formatter and C memory layout

Elle compiles a Lisp through a tree-shaped high-level IR (the HIR), formats source
text with a document printer, and passes values to C. This project models five parts
of it and proves what each is relied on for.

1. **The tail, lift and return passes.** `HirSyntax` is the HIR and `HirEval` a
   step-bounded evaluator of it: frames of slots, capture cells, closures, dynamic
   parameters, `break`, `recur`, and tail calls that replace their frame. Everything
   the runtime does outside the HIR goes through one arbitrary host function, so every
   theorem holds for every host. `TailCall`, `Anf` and `ReturnMint` are the passes.
   `Pipeline` states the result: a compiled unit, run with frame replacement, does what
   the analyzed unit does without, and each function hands its result over exactly once.
   `AnfNodes` and `ReturnNodes` say of every node, by constructors and child positions
   (`HirNodes`), what the lift and the return pass leave there.
2. **Closing and grafting a fragment.** `Fragment` is the one rebuild both directions
   share, `FragmentWalk` and `Graft` run it over growing tables and arenas, and
   `FragmentEval` says a grafted body runs as the body it came from.
3. **The HIR analyses and dead-binding elimination.** `BitSets`, `Liveness` and
   `LivenessWalk` are the liveness analysis. `LivenessFree` says that what is live is
   used, and `LivenessSound` and `LivenessExact` that runs which agree on it end alike,
   and when they do not. `NodeOrder` is the post-order numbering, `Escape` the worklist.
   The `Dead` modules are the purity fixpoint and the pass that
   drops bindings with it. `DeadTheorem` says what the pass preserves, for hosts that
   allocate too: results and worlds are the same up to where new objects are.
   `DeadPatterns` shows that `letrec`s and files that bind by pattern are covered.
4. **The formatter.** `Trivia` attaches comments and blank lines to the span tree,
   `Format` builds the document, `Render` lays it out. `TriviaFacts`, `RenderFacts`,
   `FormatFacts` and `CommentSafety` say that nothing is lost, moved, fused or
   commented out on the way. `TriviaPlaces` says where each comment goes, by position;
   `RenderBreaks`, `FormatLines` and `FormatIndent` where lines break and how far they
   are indented, by widths and columns.
5. **C layout and memory.** `FfiLayout` computes sizes, alignments and offsets in
   wrapping `usize` arithmetic, and `FfiMemory` and `FfiMarshal` write and read nested
   values over bytes.

Code that the source writes as recursion is a function here. Loops and objects that
the source updates are methods and classes, each proved equal to such a function, so
that what is proved about the function holds of the loop.

Where the code falls short of what its documentation says, the model follows the code:

- A function body that is a `cond` without `else` returns nil, when no test holds,
  without the retain its caller releases (`ReturnMint.ElselessCondDeliversNothing`). A
  body with no such gap in tail position always delivers.
- Dropping a dead binding can drop a fault: in
  `(letrec [g (fn [] (f)) x (g) f (fn [] 1)] 2)` the call of `g` runs before `f` is bound
  (`DeadWitness.StrippingMayDropAFault`). Where every function a dropped initializer
  reaches is bound by an enclosing scope or an earlier sibling, faults are kept too
  (`DeadTheorem.StrippingIsExact`).
- The end of a `while` body is given what is live after the loop, though the test
  comes next. At the loop's head that is enough (`Liveness.WhileSolutionIsLeast`);
  inside the body it is exactly when the loop needs nothing beyond it
  (`Liveness.WhileBodyEnd`, `Liveness.WhileBodyMayMissTheTest`).
- Liveness tells enough where no assignment it counted on can be passed by
  (`LivenessExact.LivenessIsEnough`). An `and` or `or` may end before one, and a `break`
  may jump over one, exactly when something live after is not live before
  (`LivenessExact.LogicExactly`, `LivenessExact.BreakExactly`). The analysis takes the
  callee of a call to run before the arguments, which run first
  (`LivenessExact.CalleeRunsLast`); it drops an assigned name whose cell is still needed
  (`LivenessExact.AssignNeedsItsCell`); and it keeps live, before a `letrec`, the names
  that its own initializers capture (`LivenessFree.LetrecNameIsLive`).
- Blank lines before a node that does not start a line are lost when no comment is among
  them (`FormatLines.LeadingIsWritten`). Between the forms of a file they are kept
  (`FormatLines.FormKeepsItsBlankLines`).
- Dangling trivia may end in blank lines, in a file without forms
  (`TriviaFacts.DanglingEndsInComment`). Trivia inside a top-level form is left to the
  next form exactly when the form has no children, as a string literal has none
  (`TriviaFacts.InsideAFormWithoutChildren`).
- A struct gets its true size exactly when that is below the address space
  (`FfiLayout.SizeIsExact`); past it the size wraps
  (`FfiLayout.HalfSpaceTwiceWrapsToNothing`).

## Model

| member | source | states |
|---|---|---|
| `TailCall.EvalAgrees` | src/hir/tailcall.rs:45-258 | In a tail-safe program, evaluation with frame replacement and evaluation of every marked call as an ordinary call have the same outcome and state, up to a replaced frame counting as its value, for every tree, tail position, fuel and state, also through breaks out of loops, call arguments and `parameterize`. |
| `TailCall.InvokeAgrees` | src/hir/tailcall.rs:45-157 | The same for one call: a marked call's replacement carries the value and world the ordinary call would have. |
| `TailCall.ApplyAgrees` | src/hir/tailcall.rs:35-38 | A function run with replacement gives its caller the same outcome, world and frame as a run without. |
| `PassShapes.MarkSafe` | src/hir/tailcall.rs:45-258 | Marking marks exactly the calls in tail position, those in the value of a `break` to a tail block included, and keeps block ids unshadowed. |
| `PassShapes.MarkErases` | src/hir/tailcall.rs:45-258 | Marking changes tail flags only. |
| `PassCode.CodeSafeAt` | src/hir/tailcall.rs:45-258 | Every lambda inside a tail-safe tree has a body that is tail-safe on its own, from tail position and with no tail block. |
| `Erasure.EvalErases` | src/hir/anf.rs:41-71 | For every tree, environment, fuel and host, running a tree with lift wraps and `Return`s and running it with both removed give the same outcome (value, break, recur, replacement, fault), world and value in every slot the lift did not make. |
| `Erasure.WrapForwards` | src/hir/anf.rs:41-71 | A wrap evaluates to its node's value and writes only the slot of the made name. |
| `Anf.TransformAddsWraps` | src/hir/anf.rs:145-353 | Erasing the lifted tree gives back what the tree erased to, every made name is new to the arena, and the arena only grows. |
| `Anf.ReturningAddsWraps` | src/hir/anf.rs:100-128 | The same for a returning position, where a release that is still owed is named too. |
| `Anf.NameTailAddsWraps` | src/hir/anf.rs:79-91 | The same for naming the end of a chain of propagating tails. |
| `PassShapes.TransformShaped` | src/hir/anf.rs:145-353 | The lift keeps block ids unshadowed and adds no `Return`. |
| `AnfForm.TransformNormal` | src/hir/anf.rs:145-353 | After the lift every child in a consumer position is named: following propagating tails from it ends at a node that does not allocate. `AnfNodes.LiftNamesHeapValues` says the same by constructors. |
| `AnfForm.ReturningNormal` | src/hir/anf.rs:100-128 | After the lift of a returning position no release is owed by an unnamed node. |
| `AnfForm.NormalStays` | src/hir/anf.rs:41-141 | The lift changes no tree in normal form, and makes no name for one. |
| `AnfForm.LiftIsIdempotent` | src/hir/anf.rs:357-367 | Lifting a lifted unit is a no-op, whatever the arena has grown to. |
| `AnfForm.TransformDraws` | src/hir/anf.rs:28-40 | Each arena index the lift draws is bound at exactly one new site, to a node that makes a heap value, and no other index gains a site. |
| `AnfForm.ReturningDraws` | src/hir/anf.rs:100-128 | The same for a returning position. |
| `AnfForm.AllocatesIsHeap` | src/hir/expr.rs:361-377 | A node allocates if and only if it is a lambda, a call, an `eval`, an `emit`, an intrinsic that makes a value or hands back a call result, or a `match` with a pattern that copies. |
| `AnfNodes.LiftNamesHeapValues` | src/hir/anf.rs:145-353 | In a lifted tree, whatever it was, no child whose value its parent consumes ends, however deep in bodies that hand their value up, at a node that makes a heap value; a bound initializer is such a node at most itself; and no function body ends at an `eval` or an unmarked call. |
| `AnfNodes.WellNamedStays` | src/hir/anf.rs:41-141 | The lift leaves a tree that already looks like this as it is, so it makes a name only where one is missing. |
| `ReturnMint.WalkMints` | src/hir/return_incref.rs:41-180 | For every tree without `Return`, state and host, the walked tree executes one `Return` when it ends in a value in tail position or in a break to a tail block, and none when it ends in any other value or break, a recur or a frame replacement. |
| `ReturnMint.BodyDeliversOnce` | src/hir/return_incref.rs:27-198 | A completed run of a walked body executed exactly one `Return`, or none because a tail call replaced it, or none because its value is the nil of a gap, an else-less `cond` or an empty sequence, and then only if the body has one in tail position. |
| `ReturnMint.ElselessCondDeliversNothing` | src/hir/return_incref.rs:182-198 | The gap is real: a body that is an else-less `cond` whose test is false runs to nil and executes no `Return`. |
| `PassShapes.WalkErases` | src/hir/return_incref.rs:41-212 | The return pass adds `Return`s and nothing else. |
| `ReturnNodes.ReturnsStandAroundLeaves` | src/hir/return_incref.rs:182-198 | At every depth of a walked tree, a `Return` stands around no marked call, `recur`, poison node or other `Return`, and around none of the compounds that hand tail position on. |
| `PassCode.CodeWalked` | src/hir/return_incref.rs:41-51 | The code object of every lambda in a walked unit is the walk of that lambda's own body from tail position. |
| `PassCode.CodeErases` | src/hir/anf.rs:145-353 | The code objects of an erased tree are the erased code objects. |
| `Pipeline.SameErasureSameRun` | src/hir/anf.rs:14-24 | Two units that erase alike run alike. |
| `Pipeline.MarkingPreservesMeaning` | src/hir/tailcall.rs:35-38 | Marking a unit and letting marked calls replace their frames changes no run of it. |
| `Pipeline.CompilePreservesMeaning` | src/hir/anf.rs:14-24 | After marking, lifting and return wrapping, a unit run with frame replacement has the outcome, world and visible slots of the analyzed unit run plainly, for every host, state and fuel. |
| `Pipeline.CompiledFunctionsDeliverOnce` | src/hir/return_incref.rs:4-15 | Every function of a compiled unit delivers its result once: by one `Return`, by one tail call, or not at all for the nil of a gap, and then only if its lifted body has one in tail position. |
| `FragmentWalk.TableBuilder.IntroduceName` | src/hir/fragment.rs:257-271 | A binder gets the next table index, with a local entry that records it. |
| `FragmentWalk.TableBuilder.IntroduceNameOnce` | src/hir/fragment.rs:273-278 | A pattern variable already in the index keeps its entry. |
| `FragmentWalk.TableBuilder.ReferTo` | src/hir/fragment.rs:280-295 | A reference answers from the index, adds a global entry and lists it, or declines a free name that is no global. |
| `FragmentWalk.TableBuilder.Walk` | src/hir/fragment.rs:344-446 | The walk that grows the table gives the rebuilt tree and ends in the table of the rebuild on values, and is declined exactly when that is. |
| `FragmentWalk.CloseBody` | src/hir/fragment.rs:88-111 | Closing introduces the parameters in order, then rebuilds the body. |
| `FragmentClose.ClosesExactly` | src/hir/fragment.rs:71-79 | A body closes if and only if it uses the listed forms, holds an intrinsic only where they are allowed, and every name it mentions before binding it is a module name or a primitive. |
| `FragmentClose.WalkExactly` | src/hir/fragment.rs:344-446 | The same at every node of the walk, with the set of names in the index afterwards. |
| `FragmentClose.ClosedBodyGrafts` | src/hir/fragment.rs:340-343 | A body that closes is declined by no graft. |
| `FragmentFacts.GraftTakes` | src/hir/fragment.rs:308-327 | The grafting side rebuilds every body of the listed forms. |
| `FragmentFacts.ClosingGrows` | src/hir/fragment.rs:257-300 | Closing a part of a body that binds each name once keeps every entry made before, gives each name it meets an entry of its own that says what the arena says, and lists exactly the globals. |
| `FragmentFacts.GraftRenames` | src/hir/fragment.rs:344-446 | Grafting what closing produced renames every name by one map, in every part of the body. |
| `Graft.BindingArena.AllocFrom` | src/hir/arena/store.rs:39-46 | A minted binding is the next arena index and carries the recorded metadata. |
| `Graft.BindingArena.GraftWith` | src/hir/fragment.rs:202-226 | A graft succeeds exactly when every global resolves, then appends the local entries to the arena and rebuilds the body over the host bindings; a graft that fails leaves the arena as it was. |
| `Graft.MintedAreFresh` | src/hir/fragment.rs:214-222 | Minted bindings are new to the arena, pairwise distinct, and distinct from every resolved global. |
| `Graft.GraftedBody` | src/hir/fragment.rs:88-226 | Close then graft gives the body renamed by one map that sends each bound name to a new binding of the same kind that nothing else maps to. |
| `FragmentEval.EvalRenames` | src/hir/fragment.rs:344-446 | A renamed body has the outcome and effects of the body, keeps each name's slot equal to its new name's, and leaves every slot the host had as it was. |
| `FragmentEval.GraftRunsTheSame` | src/hir/fragment.rs:180-226 | For every uniquely bound body that closes and every arena whose resolver knows its globals, the grafted body evaluates as the body does, for every context, fuel and pair of frames that agree. |
| `FragmentEval.GraftedCallRunsTheSame` | src/hir/fragment.rs:195-201 | With the parameters read out of the graft by the indices closing gave, binding arguments to them and running the graft does what binding the arguments to the parameters and running the body does. |
| `BitSets.BitSet.Set` | src/hir/liveness.rs:32-38 | Adds exactly the bit, when it is in range. |
| `BitSets.BitSet.Clear` | src/hir/liveness.rs:39-45 | Removes exactly the bit. |
| `BitSets.BitSet.Contains` | src/hir/liveness.rs:46-53 | Tests membership of the set the words stand for. |
| `BitSets.BitSet.UnionWith` | src/hir/liveness.rs:56-70 | Adds the other set's members that fit, and reports whether any was new. |
| `BitSets.BitSet.Indices` | src/hir/liveness.rs:71-83 | Lists the members in increasing order, each once. |
| `BitSets.BitSet.IsEmpty` | src/hir/liveness.rs:84-87 | True exactly of the empty set. |
| `BitSets.WordsExtensional` | src/hir/liveness.rs:24-87 | Word vectors of one length are equal exactly when they stand for the same set. |
| `Liveness.BeforeIsFlow` | src/hir/liveness/analyze.rs:9-242 | Every node's transfer is gen/keep, bit by bit, nested loops included. |
| `Liveness.LoopSolutionIsLeast` | src/hir/liveness.rs:120-159 | What a loop body needs solves the loop's equation and is contained in every set closed under a pass. |
| `Liveness.LoopIterationIsExact` | src/hir/liveness.rs:120-159 | Whatever the body, the second pass gives what the first gave, and with the loop's names cleared that is the least solution less those names. |
| `Liveness.WhileSolutionIsLeast` | src/hir/liveness/analyze.rs:226-231 | The one pass over a `while` solves its equation, in which the body is followed by the test again, and is contained in every set closed under it. |
| `Liveness.WhileBodyEnd` | src/hir/liveness/analyze.rs:226-231 | The set after a `while`, which its body is analyzed with, holds all that is live at the body's end if and only if it holds what the loop itself needs. |
| `Liveness.WhileBodyMayMissTheTest` | src/hir/liveness/analyze.rs:226-231 | That condition is needed: in `(while x nil)` with nothing live after it, `x` is live at the end of the body and not in the set. |
| `LivenessFree.LiveIsFree` | src/hir/liveness/analyze.rs:9-242 | A name live before a node is live after it, or is read or captured in the node outside the scopes that bind it. |
| `LivenessFree.LetrecNameIsLive` | src/hir/liveness/analyze.rs:57-70 | A name that a lambda among its own `letrec`'s initializers captures is live before the `letrec`. |
| `LivenessSound.EvalAgrees` | src/hir/liveness/analyze.rs:9-242 | From two states that agree on what is live before a node, and in every name the index leaves out, a sure tree ends in the same outcome and world, and in states that agree on what is live after, or at the target of its `break`: for every host, fuel and tree, through loops, closures and calls. |
| `LivenessExact.LivenessIsEnough` | src/hir/liveness/analyze.rs:9-242 | In a sure tree what is live before decides the outcome and what is live after. Sure is a condition on the tree: no `and` or `or` that ends early and no `break` passes by a counted assignment, no callee expression assigns what an argument reads, a name in a cell is written only where its slot is known. |
| `LivenessExact.LogicExactly` | src/hir/liveness/analyze.rs:142-152 | For an `and` or `or` that starts with a variable, with the rest sure, this holds if and only if all that is live after it is live before it. |
| `LivenessExact.BreakExactly` | src/hir/liveness/analyze.rs:137-140 | For a block that may be left at its first step, with the rest sure, it holds under the same condition and no other. |
| `LivenessExact.AssignNeedsItsCell` | src/hir/liveness/analyze.rs:116-122 | For an assignment to a boxed name it never holds: the name is dropped, and its cell is where the value goes. |
| `LivenessExact.CalleeRunsLast` | src/hir/liveness/analyze.rs:99-106 | For `((begin (assign z nil) f) z)` it does not hold: `z` is not live before it, and is passed. |
| `LivenessWalk.IterateLoop` | src/hir/liveness.rs:120-159 | The loop stops after at most two passes, so its cap of ten is never reached, and its result is the least solution. |
| `LivenessWalk.Analyze` | src/hir/liveness/analyze.rs:9-242 | The walk over word vectors computes exactly the live-before set of every tree, which `LivenessFree.LiveIsFree` and `LivenessSound.EvalAgrees` describe. |
| `LivenessWalk.AnalyzeSequence` | src/hir/liveness.rs:111-118 | A sequence is analyzed back to front, each expression before what follows it. |
| `NodeOrder.Numbering.Visit` | src/hir/liveness.rs:197-215 | Visiting a node numbers its subtree by place in the post-order list, from the next number on. |
| `NodeOrder.ComputeOrder` | src/hir/liveness.rs:193-220 | The numbering of a tree is its post-order list from zero, and every node that child positions lead to has a number. |
| `NodeOrder.NumberedAt` | src/hir/liveness.rs:197-215 | With distinct ids the indices are dense and in post-order, and `low` is where the subtree begins. |
| `NodeOrder.SubtreeIsSlice` | src/hir/liveness.rs:193-220 | A node's subtree is the slice of the post-order list that ends at it. |
| `NodeOrder.ContainmentIsARange` | src/hir/liveness.rs:222-233 | With distinct ids, one node is in another's subtree if and only if its index lies between the other's `low` and index. |
| `NodeOrder.SiblingsRankInOrder` | src/hir/liveness.rs:193-220 | A descendant ranks below its ancestor, and an earlier sibling's subtree below a later sibling's. |
| `NodeOrder.EveryNodeIsNumbered` | src/hir/liveness.rs:197-215 | Whatever child positions lead to from the root is numbered. |
| `NodeOrder.UnderIsARange` | src/hir/liveness.rs:222-233 | With distinct ids, child positions lead from one node to another if and only if the other's index lies between the first's `low` and index. |
| `Escape.Propagate` | src/hir/escape.rs:275-307 | The worklist ends with exactly the least set that holds the seeds and is closed: with a binding it holds all that flows into it and, for containment, the parts of every pair it may hold, and with a lambda, where captures are followed, all it captures. |
| `Escape.ClosedIsPulled` | src/hir/escape.rs:293-306 | Closed in the graph's own terms, edge by edge, is closed under what the worklist pulls in for an atom. |
| `Escape.PropagateGrows` | src/hir/escape.rs:275-307 | More seeds and more edges give no fewer escapes. |
| `Escape.AnalyzeEscape` | src/hir/escape.rs:173-260 | Each facet is the least closed set of its own seeds and edges, and what is returned escapes. |
| `Dead.PureFunctions` | src/hir/dead.rs:212-224 | The rounds end with a set nothing more can be admitted to, in an order in which each lambda is effect-free from those before it. |
| `Dead.AdmitPureLambdas` | src/hir/dead.rs:228-263 | One round keeps the order, grows the set exactly when it says so, and otherwise found nothing admissible. |
| `DeadRank.PureSetIsLeast` | src/hir/dead.rs:212-224 | The pure set is contained in every set closed under admission, so the order of visits does not matter. |
| `DeadRank.PureCallsGoDown` | src/hir/dead.rs:180-210 | What a pure function calls is a declared pure primitive or was admitted before it. |
| `DeadRank.RecursiveIsNeverPure` | src/hir/dead.rs:200-263 | No function that calls itself is ever admitted. |
| `DeadNodes.EffectFreeIsInert` | src/hir/dead.rs:90-167 | The test on an initializer is that every node in it, at any depth, is one whose evaluation nobody can see: by constructor, with every call in it to a pure function or primitive and silent. |
| `DeadNodes.PureExactly` | src/hir/dead.rs:212-263 | A name is in the pure set if and only if it is bound once, to a lambda all of whose body is inert given that set, and is never written; and the set is the least with that property. |
| `DeadSites.EffectFreeNames` | src/hir/dead.rs:90-167 | An effect-free tree captures nothing, writes nothing and binds by `let` alone. |
| `DeadEval.EvalHarmless` | src/hir/dead.rs:90-210 | From a sane state, with silent signals and primitive declarations that mean what they say, effect-free code gives a value and does no more to the world than add objects, or faults on a callee that is not bound yet; where the names it calls are bound it does not fault, and with more steps than there are pure functions it may call it does not run out of them. |
| `DeadEval.EffectFreeGivesAValue` | src/hir/dead.rs:90-167 | Effect-free code whose callees are bound gives a value in finitely many steps, with cells, log and old objects unchanged. |
| `DeadProgram.UsesAreReads` | src/hir/defuse.rs:99-374 | The def-use walk records exactly the names that are read or captured. |
| `DeadProgram.CodeIsStripped` | src/hir/dead.rs:42-54 | The code objects of a stripped tree are the stripped code objects of the lambdas that are kept. |
| `DeadProgram.CodeIsScoped` | src/hir/analyze/scopes.rs:265-284 | In a tree whose dropped calls find their callees bound, so do those inside each lambda, counting on the names bound where the lambda is made. |
| `DeadNames.Conserved` | src/hir/dead.rs:42-54 | Of every name in every role, occurrences before the pass are those kept plus those shed with a dropped binding. |
| `DeadSites.ShedSite` | src/hir/dead.rs:42-84 | Whatever is shed was shed with a binding site that qualifies for dropping. |
| `DeadNodes.LeftSiteWasLive` | src/hir/dead.rs:42-84 | Every binding left in the stripped tree is one of the original's, its initializer stripped, that was read or flagged or had an initializer that can be seen. |
| `DeadNodes.NoDeadSiteIsLeft` | src/hir/dead.rs:42-84 | In the stripped tree no `let` or `letrec` site is left whose name is unread and unflagged and whose initializer is inert throughout. |
| `DeadScope.ProgramObeys` | src/hir/dead.rs:56-84 | In a program whose names are as the analyzer and the def-use walk leave them, nothing that is kept reads, captures or assigns a name that is dropped; a pattern may go on binding one. |
| `DeadScope.NothingDangles` | src/hir/dead.rs:21-84 | Every name the program binds that the stripped program still reads, captures or writes is still bound there. |
| `DeadSane.EvalSane` | src/hir/arena.rs:153-164 | Every evaluation keeps trusted names holding nil or their own callees, and keeps bound, and able to be called, the names its scope counts on: through `let`, `letrec` with forward references, `def`, patterns, loops and calls. |
| `DeadRun.EvalStrips` | src/hir/dead.rs:42-54 | Running a tree and its stripped form in step, each node keeps outcome, world, dynamic parameters and the slot of every name still read, captured or assigned the same up to one injective map of objects, for every host that does not look at addresses; without a bound-callee plan the original may fault instead. |
| `DeadTheorem.RulesSound` | src/hir/dead.rs:180-263 | What the pass trusts of a name holds of the program: a pure function's one site, its body, its parameters. |
| `DeadTheorem.StrippingKeepsResults` | src/hir/dead.rs:1-40 | Every run of a sound program that completes, completes with the same result and world, up to where new objects are, once dead bindings are gone; a dropped call may have allocated. |
| `DeadTheorem.StrippingAddsNoResults` | src/hir/dead.rs:21-40 | Every run of the stripped program is a run of the original, given one more step than there are pure functions, unless the original faults. |
| `DeadTheorem.StrippingIsExact` | src/hir/dead.rs:21-84 | If every function a dropped initializer reaches is bound by an enclosing scope or an earlier sibling, the original and the stripped program have the same runs, both ways and faults included. |
| `DeadWitness.StrippingMayDropAFault` | src/hir/dead.rs:90-167 | That condition is needed: a concrete `letrec`, sound in every other way and run by a sound host from a sound state, faults, and its stripped form runs to a value; no plan meets the condition for it. |
| `DeadWitness.MakerIsFit` | src/primitives/def.rs:81-92 | A host whose operations allocate an object of their arguments meets every condition put on hosts. |
| `DeadWitness.LaterCallFits` | src/hir/dead.rs:90-167 | The condition is met by the same functions with the dropped call after the bindings, though one function calls the other before it is bound. |
| `DeadPatterns.PlainIsSound` | src/hir/dead.rs:21-40 | A tree with no lambda site and no assignment, whose initializers that bind names have effects, is a sound program, with the reads and pure functions the pass collects and whatever the arena says of its names. |
| `DeadPatterns.PatternLetIsSound` | src/hir/analyze/letrec.rs:163-237 | The tree of `(letrec [[a b] e] b)`, each leaf bound to nil and then by the pattern, is a sound program. |
| `DeadPatterns.UnreadLeafGoes` | src/hir/dead.rs:56-84 | In it the pass drops the nil binding of the leaf that nothing reads and keeps the pattern that binds it. |
| `DeadPatterns.FileIsSound` | src/hir/analyze/fileletrec/letrec.rs:162-202 | The tree of a file with `(def [a b] e)` and `(begin (def y v))`, whose last form reads `b` and `y`, is a sound program. |
| `DeadTheorem.EliminateDeadBindings` | src/hir/dead.rs:21-40 | The pass strips by the recorded reads and by the pure set, which is exactly the names bound once to an inert lambda and never written; what it returns has no dead site left, leaves no name dangling, keeps every completed run, and adds none but where the original faults. |
| `Render.Renderer.LayoutFrom` | src/formatter/render.rs:76-170 | Layout with its pushed output and line flags ends in the cursor that the layout function gives; the `RenderBreaks` rows say where that breaks. |
| `Render.Renderer.EmitNewline` | src/formatter/render.rs:189-199 | Writes a newline and the indent, and leaves the cursor at that column at a line start. |
| `Render.Renderer.EmitUnlessAbsorbed` | src/formatter/render.rs:173-187 | After a comment's own break a separator writes nothing. |
| `Render.Renderer.RenderAll` | src/formatter/render.rs:40-60 | Rendering gives the bytes of the document laid out flat from an empty first line. |
| `Render.MeasureFlat` | src/formatter/render.rs:202-225 | The early-exit checked sum is the measure. |
| `RenderFacts.MeasureIsFlatWidth` | src/formatter/render.rs:202-225 | The measure is the length of the flat text, and is absent only for a part that is never flat or a width past `usize`. |
| `RenderFacts.FlatWritesFlatText` | src/formatter/render.rs:125-168 | A measured width that fits is written exactly: those bytes, no newline, every nested group and hang on the same line. |
| `RenderFacts.MeasuredWidthIsRealWidth` | src/formatter/render.rs:125-222 | Of a document that fits with no comment break pending, flat layout writes the measured number of bytes if and only if it does not meet a blank line before anything else at a line start. |
| `RenderFacts.LayoutKeepsTruth` | src/formatter/render.rs:76-195 | In every document, mode and width, the column is the length of the current line, `at_start` means that line is spaces only, and `after_comment` implies `at_start`. |
| `RenderFacts.CurrentLineIsSinceNewline` | src/formatter/render.rs:189-199 | With newline-free texts the current line is what follows the last newline byte. |
| `RenderFacts.LayoutKeepsLeaves` | src/formatter/render.rs:76-170 | The text leaves come out once each and in order, and all else written is white space. |
| `RenderFacts.WidthChangesOnlyWhiteSpace` | src/formatter/render.rs:40-60 | Renderings under any two configurations differ in spaces and newlines only. |
| `RenderFacts.SeparatorsSeparate` | src/formatter/render.rs:88-186 | After any break, space or hard break the output ends in white space, also when a comment break absorbed it. |
| `RenderBreaks.RoomIsMeasured` | src/formatter/render.rs:125-130 | Measured to fit means that the flat text holds no hard break and ends within the line width. |
| `RenderBreaks.PartIsWritten` | src/formatter/render.rs:76-170 | What stands anywhere in a document is written between what comes before and after it, at the mode and indent its place gives it: groups flat or broken by their width, nests adding levels, aligns taking the column, hangs by where they start. |
| `RenderBreaks.BreakIsWritten` | src/formatter/render.rs:110-123 | A break anywhere is a newline and its indent where its mode is broken, and one space where it is flat, unless a comment break has just ended the line. |
| `RenderBreaks.HardBreakIsWritten` | src/formatter/render.rs:132-187 | A hard break is a newline and its indent in every mode. |
| `RenderBreaks.HangIsWritten` | src/formatter/render.rs:151-168 | A hang joins its first part with a space if it starts in the left half of the line or that part fits there, and else starts a line. |
| `RenderBreaks.ModeIsOfItsGroup` | src/formatter/render.rs:125-130 | A part with no other group between is flat if and only if its group holds no hard break and its flat text, from the group's column, ends within the line width. |
| `RenderBreaks.IndentIsNested` | src/formatter/render.rs:105-108 | Down a path without align or hang the indent grows by the levels nested times the indent width. |
| `RenderBreaks.IndentIsAligned` | src/formatter/render.rs:149-149 | Inside an align it grows so from the column the align starts at. |
| `Trivia.TakeUntil` | src/formatter/trivia.rs:242-297 | The cursor loop takes the items before the bound and stops at the first at or past it. |
| `Trivia.TakeSameLineComment` | src/formatter/trivia.rs:301-314 | Takes the next item exactly when it is a comment on the same line before the bound. |
| `Trivia.DropFinalBlankLines` | src/formatter/trivia.rs:231-240 | Drops the final run of blanks and nothing else. |
| `Trivia.LineAtOffset` | src/formatter/trivia.rs:216-229 | The line of an offset is one more than the newlines before it. |
| `Trivia.AttachToChildren` | src/formatter/trivia.rs:317-392 | The shared-cursor walk under a parent attaches what the attachment function gives. |
| `Trivia.AttachTriviaToForms` | src/formatter/trivia.rs:242-297 | The same over a file, with what is left dangling. |
| `TriviaFacts.ChildrenConserve` | src/formatter/trivia.rs:317-392 | Under every parent, reading leading, children, trailing and closing in order gives the trivia consumed less the lost items, and all of the parent's is consumed. |
| `TriviaFacts.FormsConserve` | src/formatter/trivia.rs:242-297 | For sorted trivia and nested spans, reading the forms and then the dangling trivia gives the file's trivia less the lost items, nothing duplicated or moved. |
| `TriviaFacts.LostComment` | src/formatter/trivia.rs:317-392 | Under a parent a comment is lost if and only if it starts inside a childless node below it. |
| `TriviaFacts.LostFileComment` | src/formatter/trivia.rs:242-392 | In a file a comment is lost if and only if it starts inside a childless nested node. |
| `TriviaFacts.FormsWellAttached` | src/formatter/trivia.rs:242-392 | Every node has at most one trailing item, a comment, and closing trivia that does not end in blanks. |
| `TriviaFacts.DanglingEndsInComment` | src/formatter/trivia.rs:290-297 | Dangling trivia is empty or ends in a comment if and only if it is not the case that the file has no forms and ends in blank lines. |
| `TriviaFacts.FirstInSpan` | src/formatter/trivia.rs:242-297 | The item a form's span begins with is the first at or past its start: no form before it takes one. |
| `TriviaFacts.InsideAFormWithoutChildren` | src/formatter/trivia.rs:242-297 | For sorted trivia and nested forms, an item that starts inside a top-level form, and is not the comment trailing it (the first item of its span, on its last line), is left to what follows if and only if the form has no children; it then leads the next form, or dangles after the last. |
| `TriviaFacts.TopLevelStringIsNotSteppedOver` | src/formatter/trivia.rs:242-297 | A string literal is such a form: the blank line in a three-line string leads the symbol after it. |
| `TriviaPlaces.LineIsCounted` | src/formatter/trivia.rs:216-229 | The line of an offset is one more than the number of newlines before it. |
| `TriviaPlaces.ChildrenArePlaced` | src/formatter/trivia.rs:317-392 | Under any parent, at every depth, each node leads with the items from where the one before it stopped up to its start, trails the first item past its end if that is a comment on its last line before what comes next, and the last child closes with the rest up to the parent's end less final blanks: by offset and line alone. |
| `TriviaPlaces.FormsArePlaced` | src/formatter/trivia.rs:242-288 | The same for the forms of a file, where a form without children steps over nothing. |
| `TriviaPlaces.FileIsPlaced` | src/formatter/trivia.rs:242-297 | The same for a whole file, with what is left dangling less final blanks. |
| `Format.EmitLeading` | src/formatter/format.rs:79-96 | The loop over leading trivia pushes the documents the model gives it. |
| `Format.TrailingTrivia` | src/formatter/format.rs:144-179 | The loop with its line-holds-text flag builds the trailing and closing document. |
| `Format.IntersperseDocs` | src/formatter/doc.rs:129-146 | Documents are joined with a break between each two. |
| `Format.FillDocs` | src/formatter/doc.rs:184-202 | Each document after the first is grouped with the break before it. |
| `FormatFacts.AnnotatedHasWords` | src/formatter/format.rs:110-142 | The leaves of a node's document are its leading comments, its tokens and its trailing comments, in order. |
| `FormatFacts.SyntaxHasTokens` | src/formatter/format.rs:235-297 | The document of a node, a list laid out as a call, has its brackets, its children's words and its closing comments, in order. |
| `FormatFacts.PairBelowHasWords` | src/formatter/format.rs:211-233 | A value put below its key loses and moves no word of either. |
| `FormatFacts.FormsHaveWords` | src/formatter/format.rs:33-66 | The document of a file has exactly the words of its forms, then its dangling comments. |
| `FormatLines.LeadingIsWritten` | src/formatter/format.rs:79-96 | At a line start leading comments come out on a line each and each run of blank lines as that many, up to two; elsewhere a comment among them starts that line, and without one nothing is written. |
| `FormatLines.ClosingIsWritten` | src/formatter/format.rs:144-179 | Closing trivia starts on the line after the last text and keeps its blank lines. |
| `FormatLines.FormKeepsItsBlankLines` | src/formatter/format.rs:33-66 | Every form of a file starts a line, so the comments and blank lines before it stand in the rendered file as lines. |
| `FormatLines.ArgumentWrapsAlone` | src/formatter/forms/call.rs:41-41 | An argument or element after the first is on the same line if and only if it holds no hard break and ends within the line width there, whatever the others do. |
| `FormatLines.PairsWrapTogether` | src/formatter/format.rs:379-410 | The entries of a struct are on one line if all of them fit, and else on a line each. |
| `FormatIndent.CallHangs` | src/formatter/forms/call.rs:27-44 | A call's arguments hang from the open parenthesis, one indent in from its column. |
| `FormatIndent.CollectionAligns` | src/formatter/format.rs:351-373 | A collection's elements fill lines that start after its open bracket. |
| `FormatIndent.KeywordKeepsItsValue` | src/formatter/forms/call.rs:50-67 | A keyword argument and its value have a space between them, on one line, unless a comment comes between. |
| `CommentSafety.LayoutIsGuarded` | src/formatter/render.rs:76-195 | A document in which every comment is followed by a break is laid out so, whatever the configuration, indent and mode. |
| `CommentSafety.FormatsShut` | src/formatter/format.rs:79-179 | Every node's document leaves no comment open on its last line. |
| `CommentSafety.FormattedFileIsGuarded` | src/formatter/format.rs:33-66 | In a formatted file whose lists are laid out as calls, whatever the configuration, a newline stands between each comment and any later text. |
| `CommentSafety.FormattedFileKeepsWords` | src/formatter/format.rs:33-66 | Attached, built with lists laid out as calls, and rendered, a file has its tokens in order and its comments in order, less exactly those inside childless nested nodes. |
| `Bits.MaskDropsLowBits` | src/ffi/types.rs:92-92 | Masking off the low bits of a word takes its remainder away. |
| `FfiLayout.MaskIsRoundUp` | src/ffi/types.rs:92-103 | The masked expression is rounding up to the alignment if and only if the rounded number is still a word. |
| `FfiLayout.RoundUpIsLeast` | src/ffi/types.rs:92-103 | Rounding up gives the least multiple at or past the number. |
| `FfiLayout.ComputeFieldOffsets` | src/ffi/types.rs:87-105 | The loop over fields computes the offsets and padded size of the recursive definition, or nothing when a field has no layout. |
| `FfiLayout.SizeKnown` | src/ffi/types.rs:146-168 | A size is known if and only if the type holds no `Void`. |
| `FfiLayout.SizeIsExact` | src/ffi/types.rs:146-168 | The masked, wrapping size is the size over unbounded numbers if and only if that is below the address space. |
| `FfiLayout.OffsetsArePlaces` | src/ffi/types.rs:87-105 | The computed offsets are the least aligned places, and the size the padded end, if and only if the struct fits. |
| `FfiLayout.HalfSpaceTwiceWrapsToNothing` | src/ffi/types.rs:87-168 | Two arrays of 2^62 two-byte numbers in one struct give it size 0. |
| `FfiLayout.ExtentIsAligned` | src/ffi/types.rs:146-200 | Every size is a multiple of its alignment, so array elements stay aligned. |
| `FfiLayout.LeavesAligned` | src/ffi/types.rs:87-200 | At an aligned address every scalar at any depth is at a multiple of its own size. |
| `FfiLayout.LeavesInOrder` | src/ffi/types.rs:87-200 | The scalars of a type are disjoint, in order and inside it. |
| `FfiLayout.BooleansAndStrings` | src/ffi/types.rs:87-200 | A boolean takes one byte, a wide one four and aligned to four, a string an eight-byte pointer, as the offsets in structs show. |
| `FfiMemory.WriteFrame` | src/ffi/to_c/buffer.rs:25-169 | A write, failed or not, changes no byte outside the value's own. |
| `FfiMemory.WriteSucceedsIff` | src/ffi/to_c/buffer.rs:25-169 | A write succeeds on exactly the values the type can hold, at every depth. |
| `FfiMemory.LoadIsLocal` | src/ffi/from_c.rs:36-133 | A read depends on the value's own bytes only. |
| `FfiMemory.ScalarRoundTrip` | src/ffi/scalar.rs:22-92 | A scalar reads back as written: unsigned 64-bit numbers by bit pattern, booleans by truth, pointers by address. |
| `FfiMemory.RoundTrip` | src/ffi/from_c.rs:36-133 | A value written as any nested struct or array type reads back as itself, byte arrays as bytes. |
| `FfiMemory.BytesRoundTrip` | src/ffi/from_c.rs:110-124 | An array of one-byte numbers reads back as its bytes. |
| `FfiMemory.CanonIsStable` | src/ffi/from_c.rs:36-133 | What is read back is accepted by a write and reads back unchanged. |
| `FfiMemory.LoadThenStore` | src/ffi/scalar.rs:22-92 | Any bits of an integer scalar survive being read and written back. |
| `FfiMemory.IntegerBytes` | src/ffi/scalar.rs:26-66 | An integer is stored little-endian in two's complement: byte by byte, in as many bytes as its type has. |
| `FfiMemory.BooleanBytes` | src/ffi/scalar.rs:24-25 | A boolean is stored as one or zero by truth, where nil and false alone are untrue. |
| `FfiMemory.BitsRead` | src/ffi/from_c.rs:36-96 | A boolean reads as true unless all its bytes are zero, and a pointer or string field as nil or the address. |
| `FfiMemory.AddressReadsBack` | src/ffi/scalar.rs:73-76 | A pointer, raw or managed, is stored as its address and reads back as it, or as nil for address zero. |
| `FfiMemory.FieldsIndependent` | src/ffi/types.rs:87-105 | Writing one field of a struct leaves every other field's value as it was. |
| `FfiMemory.LeavesIndependent` | src/ffi/scalar.rs:22-92 | Writing any one scalar of a type, at any depth, in structs and arrays alike, leaves what every other scalar reads as it was. |
| `FfiMarshal.WriteScalarTo` | src/ffi/scalar.rs:22-92 | The store through a pointer does to the bytes what the write function says. |
| `FfiMarshal.WriteTo` | src/ffi/to_c/buffer.rs:25-169 | The recursive writer, with its loops over fields and elements, does to memory what the write function says, up to the first error. |
| `FfiMarshal.ReadFrom` | src/ffi/from_c.rs:36-133 | The recursive reader gives what the read function says, errors included. |
| `FfiMarshal.WriteThenRead` | src/ffi/from_c.rs:36-133 | Writing and then reading through the two walks gives the value back and touches no other byte. |

## Left out

- In-place rewriting: `mark`, `walk` and `strip` update an owned tree through a mutable reference; they are modelled as functions from tree to tree, and the tree has no sharing that could tell.
- DefUseBuilder: only the set of used names is modelled, as a function, not definition sites and value origins.
- ReturnMint.BodyDeliversOnce: one way only; a gap in tail position that no run reaches does no harm, and which gaps are reached is not decided.
- DeadTheorem.StrippingAddsNoResults: allows the original to fault instead; DeadTheorem.StrippingIsExact has the condition under which it does not, one way only, since a call before its callee is bound may sit on a branch no run takes.
- `def`: its cell is made when it runs, where the source makes the cells of a body's `def`s ahead; a lambda made before a `def` of the same body does not see it here.
- Primitives: a frame holds them and a lambda captures them, where the source loads constants.
- Graft.GraftedBody: bodies that bind a name twice; analysis gives every binder its own arena entry.
- Fragments: node ids, spans, signals and `LambdaFragment`; patterns are a shape and their variables, so an `or` pattern's shared variable appears once.
- Tail calls to natives: a marked call always replaces the frame; the fall-through for a native callee is not modelled.
- `parameterize`: the dynamic bindings are restored on every way out of its body.
- Liveness: the per-node live-out record; only live-before sets are modelled.
- LivenessExact.LivenessIsEnough: one way only; a tree that is not sure may pass by an assignment on a branch no run takes. LivenessExact.LogicExactly and LivenessExact.BreakExactly go both ways, for the forms that fail.
- LivenessSound.EvalAgrees: takes a pattern to bind all its variables when it matches, which the host decides.
- DeadNodes.NoDeadSiteIsLeft: stated for calls whose stripped form keeps its signal, as the pass keeps the recorded one.
- RenderBreaks.RoomIsMeasured: for a line width below the largest `usize`; at that width a sum that overflows counts as fitting.
- Escape: how the flow graph and its seeds are collected from a tree.
- Node ids: kept only where a pass reads them, as a lambda's code pointer and in the post-order numbering.
- `functionalize`, region inference and type inference over the HIR.
- FormatFacts.SyntaxHasTokens: lists headed by `def`, `let`, `if`, `cond` and the other special heads go to handlers by head symbol that are not modelled; every list is laid out as a call, here and in CommentSafety.
- FfiMemory.WriteSucceedsIff: no strings among the values, so a `Str` field takes nil alone.
- Formatter: the lexer and reader, and `collect_trivia`.
- FFI: floats, strings written to C, by-value calls, callbacks and the registry.
- Evaluation of primitives, natives and patterns: one arbitrary host function stands for them.
- Natives that call a closure back, as `map` and `fold` do: the host gives values and a world, and runs no code of the program.
- Cell flags that outlive the code they were set for: `DeadScope.NamesSound` takes a name in a cell, inside a dropped initializer or a pure function, to be captured or assigned.
