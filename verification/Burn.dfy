/** Compiling a formula to a program and running it, as loops. */
module Burn {
  import opened Nouns
  import opened Formulas
  import opened Bytecode
  import opened Assembler
  import opened AssemblerLoops
  import opened Compile
  import opened Strict
  import opened Nock4K
  import opened Machine
  import opened Simulation
  import opened Theorems

  predicate ClosedOps(code: seq<Instr>) {
    forall i :: 0 <= i < |code| ==> i + 1 + Span(code[i]) <= |code|
  }

  lemma ClosedCat(a: seq<Instr>, b: seq<Instr>)
    requires ClosedOps(a) && ClosedOps(b)
    ensures ClosedOps(a + b)
  {
  }

  // A skip in front of code at least as long as its span.
  lemma ClosedSkip(op: Instr, rest: seq<Instr>)
    requires ClosedOps(rest) && Span(op) <= |rest|
    ensures ClosedOps([op] + rest)
  {
  }

  lemma ClosedIf(test: seq<Instr>, yep: seq<Instr>, nop: seq<Instr>)
    requires ClosedOps(test) && ClosedOps(yep) && ClosedOps(nop)
    ensures ClosedOps(CatIf(Some(test), Some(yep), Some(nop)).value)
  {
    var no, skip := SkipNo(|yep| + 1), Skip(|nop|);
    ClosedSkip(skip, nop);
    ClosedCat(yep, [skip] + nop);
    ClosedSkip(no, yep + ([skip] + nop));
    ClosedCat(test, [no] + (yep + ([skip] + nop)));
    assert test + ([no] + (yep + ([skip] + nop))) == test + [no] + (yep + [skip] + nop);
  }

  lemma ClosedDispatch(fore: Instr, body: seq<Instr>, hind: Instr, los: bool)
    requires ClosedOps(body) && Span(fore) == Span(hind) == 0
    ensures ClosedOps(CatDispatch(fore, Some(body), hind, los).value)
  {
    var end, fen := [CleanUp(los)], body + [hind, Skip(1)];
    var tail := [Skip(1)] + end;
    ClosedSkip(Skip(1), end);
    ClosedSkip(hind, tail);
    ClosedCat(body, [hind] + tail);
    assert body + ([hind] + tail) == fen + end;
    ClosedSkip(SkipNo(|fen|), fen + end);
    ClosedSkip(fore, [SkipNo(|fen|)] + (fen + end));
    assert [fore] + ([SkipNo(|fen|)] + (fen + end)) == [fore, SkipNo(|fen|)] + (fen + end);
  }

  predicate ClosedCode(c: Code) { c.Some? ==> ClosedOps(c.value) }

  lemma ClosedCats(a: Code, b: Code)
    requires ClosedCode(a) && ClosedCode(b)
    ensures ClosedCode(Cat(a, b))
  {
    if a.Some? && b.Some? { ClosedCat(a.value, b.value); }
  }

  lemma ClosedSwap(a: Code, i: Instr, b: Code, j: Instr)
    requires ClosedCode(a) && ClosedCode(b) && Span(i) == Span(j) == 0
    ensures ClosedCode(Cat(Cat(a, One(i)), Cat(b, One(j))))
    ensures ClosedCode(Cat(Cat(a, One(i)), b)) && ClosedCode(Cat(a, One(i)))
  {
    ClosedCats(a, One(i));
    ClosedCats(b, One(j));
    ClosedCats(Cat(a, One(i)), Cat(b, One(j)));
    ClosedCats(Cat(a, One(i)), b);
  }

  /** Every skip the compiler emits stays inside the code it is emitted in. */
  lemma {:induction false} CompClosed(f: Noun, los: bool, tel: bool)
    ensures ClosedCode(Comp(f, los, tel))
    decreases Weight(f), 1
  {
    hide View, Cap, HintOf, ClosedCode, Cat, MutOf;
    var v := View(f);
    if v.Op9? {
      if v.a.Atom? && v.a.val > 0 {
        if v.a.val == 1 || Cap(v.a.val) == 3 {
          MacLighter(f, v.a, v.c);
          CompClosed(Mac(v.a, v.c), los, tel);
        } else {
          CompClosed(v.c, los || tel, false);
          ClosedSwap(Comp(v.c, los || tel, false), Kick(v.a, tel), None, Bail) by { assert ClosedCode(None) by { ClosedNone(); } }
        }
      } else {
        ClosedNone();
      }
    } else if v.Hint? {
      HintClosed(v.a, v.b, v.c, los, tel);
    } else if v.Mark? {
      CompClosed(v.c, los, tel);
      CompClosed(v.c, los, false);
      DispatchClosed(HiltFore(Cell(v.a, v.c)), Comp(v.c, los, false), HiltHind(los), los);
    } else if v.Op5? || v.Op6? {
      TestClosed(f, los, tel);
    } else if v.Pair? || v.Op2? || v.Op10? || v.Op12? {
      PairClosed(f, los, tel);
    } else {
      PlainClosed(f, los, tel);
    }
  }

  lemma ClosedNone()
    ensures ClosedCode(None)
  {
  }

  lemma DispatchClosed(fore: Instr, body: Code, hind: Instr, los: bool)
    requires ClosedCode(body) && Span(fore) == Span(hind) == 0
    ensures ClosedCode(CatDispatch(fore, body, hind, los))
  {
    if body.Some? { ClosedDispatch(fore, body.value, hind, los); }
  }

  lemma MutSpan(a: Noun, los: bool)
    ensures Span(MutOf(a, los)) == 0
  {
  }

  lemma {:induction false} PairClosed(f: Noun, los: bool, tel: bool)
    requires var v := View(f); v.Pair? || v.Op2? || v.Op10? || v.Op12?
    ensures ClosedCode(Comp(f, los, tel))
    decreases Weight(f), 0
  {
    hide View, Cap, HintOf, Cat, MutOf, ClosedCode;
    match View(f)
    case Pair(b, c) =>
      CompClosed(b, false, false); CompClosed(c, false, false);
      ClosedSwap(Comp(b, false, false), Swap, Comp(c, false, false), Auto(los));
    case Op2(b, c) =>
      CompClosed(b, false, false); CompClosed(c, false, false);
      ClosedSwap(Comp(b, false, false), Swap, Comp(c, false, false), Nock(CallOf(los, tel)));
    case Op10(a, b, c) =>
      MutSpan(a, los);
      CompClosed(b, false, false); CompClosed(c, false, false);
      ClosedSwap(Comp(c, false, false), Swap, Comp(b, false, false), MutOf(a, los));
    case Op12(b, c) =>
      CompClosed(b, false, false); CompClosed(c, false, false);
      ClosedSwap(Comp(b, false, false), Swap, Comp(c, false, false), Wish(los));
    case _ =>
  }

  lemma {:induction false} PlainClosed(f: Noun, los: bool, tel: bool)
    requires var v := View(f); v.Op0? || v.Op1? || v.Op3? || v.Op4? || v.Op7? || v.Op8? || v.Junk?
    ensures ClosedCode(Comp(f, los, tel))
    decreases Weight(f), 0
  {
    hide View, Cap, HintOf, Cat, MutOf;
    match View(f)
    case Op3(b) => CompClosed(b, los, false); ClosedSwap(Comp(b, los, false), Deep, None, Bail);
    case Op4(b) => CompClosed(b, los, false); ClosedSwap(Comp(b, los, false), Bump, None, Bail);
    case Op7(b, c) =>
      CompClosed(b, los, false); CompClosed(c, true, tel);
      ClosedCats(Comp(b, los, false), Comp(c, true, tel));
    case Op8(b, c) =>
      CompClosed(b, false, false); CompClosed(c, true, tel);
      ClosedSwap(Comp(b, false, false), Snoc(los), Comp(c, true, tel), Bail);
    case _ =>
  }

  lemma {:induction false} TestClosed(f: Noun, los: bool, tel: bool)
    requires View(f).Op5? || View(f).Op6?
    ensures ClosedCode(Comp(f, los, tel))
    decreases Weight(f), 0
  {
    hide View, Cap, HintOf, Formulaic;
    match View(f)
    case Op5(b, c) =>
      CompClosed(b, false, false); CompClosed(c, false, false);
      CompClosed(b, los, false); CompClosed(c, los, false);
      ClosedSwap(Comp(b, false, false), Swap, Comp(c, false, false), Same(los));
      if b.Cell? { ClosedSwap(Comp(c, los, false), SameAs(b.tail), None, Bail); }
      if c.Cell? { ClosedSwap(Comp(b, los, false), SameAs(c.tail), None, Bail); }
    case Op6(b, c, d) =>
      CompClosed(b, false, false); CompClosed(c, los, tel); CompClosed(d, los, tel);
      var yep := if Formulaic(c) then Comp(c, los, tel) else One(Bail);
      var nop := if Formulaic(d) then Comp(d, los, tel) else One(Bail);
      if Comp(b, false, false).Some? && yep.Some? && nop.Some? {
        ClosedIf(Comp(b, false, false).value, yep.value, nop.value);
      }
  }

  lemma {:induction false} HintClosed(t: Noun, b: Noun, c: Noun, los: bool, tel: bool)
    ensures ClosedCode(CompHint(t, b, c, los, tel))
    decreases Weight(b) + Weight(c), 2
  {
    hide Comp, HintOf, CatDispatch, Cat;
    var clue := Comp(b, false, false);
    CompClosed(b, false, false);
    CompClosed(c, los, tel); CompClosed(c, los, false); CompClosed(c, true, false); CompClosed(c, false, false);
    match HintOf(t)
    case Dispatch =>
      DispatchClosed(HintFore(Cell(t, c)), Comp(c, los, false), HintHind(los), los);
      ClosedCats(clue, CatDispatch(HintFore(Cell(t, c)), Comp(c, los, false), HintHind(los), los));
    case Trace => ClosedSwap(clue, Bush(t), Comp(c, los, false), Drop);
    case Live => ClosedSwap(clue, Heck, Comp(c, los, tel), Bail);
    case SlogHint => ClosedSwap(clue, Slog, Comp(c, los, tel), Bail);
    case FastHint => ClosedSwap(clue, Swap, Comp(c, false, false), Fast(los));
    case MemoHint =>
      var mem := Cat(Comp(c, true, false), One(Save));
      ClosedCats(Comp(c, true, false), One(Save));
      MemoClosed(c, mem, los);
      ClosedSwap(clue, Toss, CatMemo(c, mem, los), Bail);
    case Other => ClosedSwap(clue, Toss, Comp(c, los, tel), Bail);
  }

  lemma MemoClosed(key: Noun, mem: Code, los: bool)
    requires ClosedCode(mem)
    ensures ClosedCode(CatMemo(key, mem, los))
  {
    if mem.Some? { ClosedSkip(Memo(|mem.value|, key, los), mem.value); }
  }

  /** Compile a formula and lay out its program: a program exactly when the
      formula compiles and its tables can be indexed.  The machine runs just
      the ones below 2^31 bytes, whose skips fit a signed word. */
  method Bite(fol: Noun) returns (p: Option<Prog>)
    ensures p.Some? <==> Comp(fol, true, true).Some? && TablesFit(Words(Comp(fol, true, true).value))
    ensures Runnable(fol) <==> p.Some? && |p.value.bytes| <= 0x8000_0000
    ensures p.Some? ==> p.value == Assemble(Comp(fol, true, true).value)
  {
    hide Comp, Asm, Lits, Cals, Regs, Mems, Reach, Words, Flip, WordOk, Pick, Runnable, TablesFit, Closed, ClosedOps, Sips;
    BiteRuns(fol);
    var ops := Comp(fol, true, true);
    if ops.None? { return None; }
    var code := Words(ops.value);
    CompClosed(fol, true, true);
    WordsClosed(ops.value);
    var rev := Flip(code);
    FlipOk(ops.value);
    var ok, byc, cal, reg, lit, mem, sip := Melt(rev);
    if !ok { return None; }
    var prog := AsmProg(rev, byc, sip);
    return Some(prog);
  }

  lemma BiteRuns(fol: Noun)
    ensures var ops := Comp(fol, true, true);
            Runnable(fol) <==> ops.Some? && TablesFit(Words(ops.value)) && |Assemble(ops.value).bytes| <= 0x8000_0000
  {
    hide Comp, Lits, Cals, Regs, Mems, Reach, Words;
  }

  // The compiler's list, last instruction first.
  lemma FlipOk(code: seq<Instr>)
    ensures var rev := Flip(Words(code)); Flip(rev) == Words(code) && |rev| == |code| && forall i :: 0 <= i < |rev| ==> WordOk(rev[i])
  {
    hide Pick, WordOk;
    var rev := Flip(Words(code));
    forall i | 0 <= i < |rev| ensures WordOk(rev[i]) { PickMeaning(code[|rev| - 1 - i], 0); }
    assert Flip(rev) == Words(code);
  }

  lemma WordsClosed(code: seq<Instr>)
    requires ClosedOps(code)
    ensures Closed(Words(code))
  {
    hide Pick, Span, SpanOf;
    forall i | 0 <= i < |code| ensures i + 1 + SpanOf(Words(code)[i]) <= |code| { PickShape(code[i]); }
  }

  /** The dispatch loop, for a bounded number of instructions: it never goes
      wrong, a value it returns is the Nock 4K value with the caches left in
      order, and it dies only where there is no value to return. */
  method Burn(cfg: Config, w: World, bus: Noun, fol: Noun, bound: nat) returns (s: State)
    requires ConfigOk(cfg) && Inv(w)
    ensures s != Wrong
    ensures s.Done? ==> Gives(bus, fol, s.v) && Later(w, s.w)
    ensures s == Dead ==> Fails(LimEnter(bus, fol))
    ensures s.Run? ==> forall n: nat :: n <= bound ==> RunN(cfg, Start(w, bus, fol), n).Run?
  {
    hide Step, ConfigOk, Inv, Start, Lim, Runnable, LimEnter, Fails, Later, Gives;
    ghost var start := Start(w, bus, fol);
    s := Start(w, bus, fol);
    for i := 0 to bound
      invariant s == RunN(cfg, start, i)
    {
      RunAdd(cfg, start, i, 1);
      assert RunN(cfg, s, 1) == RunN(cfg, Step(cfg, s), 0);
      s := Step(cfg, s);
    }
    NeverWrong(cfg, w, bus, fol, bound);
    if s.Done? { Soundness(cfg, w, bus, fol, bound); }
    if s == Dead { Dies(cfg, w, bus, fol); }
    forall n: nat | n <= bound && !RunN(cfg, start, n).Run? ensures !s.Run? { SameStop(cfg, start, n, bound); }
  }
}
