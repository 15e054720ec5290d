/**
  The tail, lift and return passes in the order the compiler runs them, and what
  they leave unchanged: the meaning of every program.
*/
module Pipeline {
  import opened HirSyntax
  import opened HirEval
  import opened HirShape
  import opened Erasure
  import opened TailCall
  import opened Anf
  import opened ReturnMint
  import opened PassShapes
  import opened PassCode

  /** `mark_tail_calls`, then `anf_lift`, whose last step is `wrap_tail_returns`. */
  function Compile(e: Hir, arena: nat): Hir {
    WrapTailReturns(Returning(MarkTailCalls(e), arena).0)
  }

  /** What analysis hands the passes: names of its own arena, fresh block ids, no `Return`. */
  predicate Analyzed(e: Hir, arena: nat) {
    Lifted(arena, e) && Shaped(false, {}, e)
  }

  function Program(e: Hir, host: Host, tco: bool): Ctx {
    Ctx(CodeOf(e), host, tco)
  }

  lemma ErasedProgram(m: Mode, e: Hir, host: Host, tco: bool)
    requires Lifted(m.bound, e) && (m.unmark ==> !tco)
    ensures CtxErases(m, Program(e, host, tco), Program(Erase(m, e), host, tco))
  {
    forall id ensures FnErases(m, CodeOf(e), CodeOf(Erase(m, e)), id) { CodeErases(m, e, id); }
    assert forall id :: id in CodeOf(e) <==> id in CodeOf(Erase(m, e)) by {
      forall id ensures id in CodeOf(e) <==> id in CodeOf(Erase(m, e)) {
        assert FnErases(m, CodeOf(e), CodeOf(Erase(m, e)), id);
      }
    }
    forall id | id in CodeOf(e)
      ensures LiftedFn(m.bound, CodeOf(e)[id]) && CodeOf(Erase(m, e))[id] == EraseFn(m, CodeOf(e)[id])
    {
      assert FnErases(m, CodeOf(e), CodeOf(Erase(m, e)), id);
    }
  }

  /** Two trees that erase alike run alike. */
  lemma SameErasureSameRun(m: Mode, e: Hir, f: Hir, host: Host, tco: bool, n: nat, st: State)
    requires Lifted(m.bound, e) && Lifted(m.bound, f) && Erase(m, e) == Erase(m, f) && (m.unmark ==> !tco)
    ensures ResSim(m.bound, Eval(Program(e, host, tco), n, e, st), Eval(Program(f, host, tco), n, f, st))
  {
    ErasedProgram(m, e, host, tco);
    ErasedProgram(m, f, host, tco);
    EvalErases(m, Program(e, host, tco), Program(Erase(m, e), host, tco), n, e, st, st);
    EvalErases(m, Program(f, host, tco), Program(Erase(m, f), host, tco), n, f, st, st);
  }

  /** Marking tail calls, and letting each replace its frame, changes no program's run. */
  lemma MarkingPreservesMeaning(e: Hir, arena: nat, host: Host, n: nat, st: State)
    requires Analyzed(e, arena)
    ensures var marked := MarkTailCalls(e);
            ResSim(arena, Eval(Program(marked, host, true), n, marked, st), Eval(Program(e, host, false), n, e, st))
  {
    var marked := MarkTailCalls(e);
    var c := Program(marked, host, true);
    MarkSafe(false, {}, e, false, {});
    forall id | id in c.code ensures TailSafe(true, c.code[id].body, true, {}) {
      CodeSafeAt(marked, false, {}, id);
    }
    EvalAgrees(true, c, n, marked, st, false, {});
    MarkErases(Mode(arena, true), e, false, {});
    SameErasureSameRun(Mode(arena, true), marked, e, host, false, n, st);
  }

  /**
    A compiled unit, run with tail calls replacing their frames, does what the
    analyzed unit does run plainly: the same outcome, the same world, and the same
    value in every slot the source can name, for every host, state and fuel.
  */
  lemma CompilePreservesMeaning(e: Hir, arena: nat, host: Host, n: nat, st: State)
    requires Analyzed(e, arena)
    ensures var unit := Compile(e, arena);
            ResSim(arena, Eval(Program(unit, host, true), n, unit, st), Eval(Program(e, host, false), n, e, st))
  {
    var m := Mode(arena, false);
    var marked := MarkTailCalls(e);
    var lifted := Returning(marked, arena).0;
    MarkErases(m, e, false, {});
    ReturningAddsWraps(m, marked, arena);
    WalkErases(m, lifted, true, {});
    SameErasureSameRun(m, Compile(e, arena), marked, host, true, n, st);
    MarkingPreservesMeaning(e, arena, host, n, st);
  }

  /**
    Every function of a compiled unit keeps the calling convention: an activation
    that completes executed exactly one `Return`, or none because a tail call
    replaced it, or none because its result is the nil of a gap in its lifted body.
  */
  lemma CompiledFunctionsDeliverOnce(e: Hir, arena: nat, host: Host, id: nat, n: nat, entry: State)
    requires Analyzed(e, arena) && entry.mints == 0
    requires id in CodeOf(Compile(e, arena))
    ensures var unit := Program(Compile(e, arena), host, true);
            var r := Eval(unit, n, unit.code[id].body, entry);
            var lifted := CodeOf(Returning(MarkTailCalls(e), arena).0);
            && id in lifted
            && (r.out.Replaced? ==> r.st.mints == 0)
            && (r.out.Val? ==>
               r.st.mints == 1 || (r.st.mints == 0 && r.out.value == NilValue && !GapFree(lifted[id].body, true, {})))
  {
    var marked := MarkTailCalls(e);
    var lifted := Returning(marked, arena).0;
    MarkSafe(false, {}, e, false, {});
    ReturningShaped(false, {}, marked, arena);
    CodeWalked({}, lifted, true, {}, id);
    BodyDeliversOnce(Program(Compile(e, arena), host, true), n, CodeOf(lifted)[id].body, entry);
  }
}
