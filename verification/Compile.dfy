/** The compiler from Nock formulas to opcode lists. */
module Compile {
  import opened Nouns
  import opened Formulas
  import opened Bytecode
  import Assembler
  import Nock4K

  // Hint tags with their own treatment: four characters, first one lowest.
  const BOUT: nat := 0x74756f62
  const FAST: nat := 0x74736166
  const HELA: nat := 0x616c6568
  const HUNK: nat := 0x6b6e7568
  const LIVE: nat := 0x6576696c
  const LOSE: nat := 0x65736f6c
  const MEAN: nat := 0x6e61656d
  const MEMO: nat := 0x6f6d656d
  const NARA: nat := 0x6172616e
  const SLOG: nat := 0x676f6c73
  const SPOT: nat := 0x746f7073
  const XRAY: nat := 0x79617278

  /** How a hint is compiled. */
  datatype Hint = Dispatch | Trace | Live | SlogHint | FastHint | MemoHint | Other

  function HintOf(tag: Noun): Hint {
    if tag.Cell? then Other
    else if tag.val == XRAY || tag.val == NARA || tag.val == HELA || tag.val == BOUT then Dispatch
    else if tag.val == HUNK || tag.val == LOSE || tag.val == MEAN || tag.val == SPOT then Trace
    else if tag.val == LIVE then Live
    else if tag.val == SLOG then SlogHint
    else if tag.val == FAST then FastHint
    else if tag.val == MEMO then MemoHint
    else Other
  }

  // Could this noun be run as a formula?
  predicate Formulaic(f: Noun)
    decreases Size(f)
  {
    match View(f)
    case Pair(b, c) => Formulaic(b) && Formulaic(c)
    case Op0(a) => a.Atom?
    case Op1(_) => true
    case Op2(b, c) => Formulaic(b) && Formulaic(c)
    case Op3(b) => Formulaic(b)
    case Op4(b) => Formulaic(b)
    case Op5(b, c) => Formulaic(b) && Formulaic(c)
    case Op6(b, c, d) => Formulaic(b) && (Formulaic(c) || Formulaic(d))
    case Op7(b, c) => Formulaic(b) && Formulaic(c)
    case Op8(b, c) => Formulaic(b) && Formulaic(c)
    case Op9(a, c) => a.Atom? && Formulaic(c)
    case Op10(a, b, c) => a.Atom? && Formulaic(b) && Formulaic(c)
    case Hint(a, b, c) => Formulaic(c) && a.Atom? && Formulaic(b)
    case Mark(_, c) => Formulaic(c)
    case Op12(b, c) => Formulaic(b) && Formulaic(c)
    case Junk => false
  }

  // Work left in compiling a formula; op 9 can expand into ops 7 and 2.
  function Weight(f: Noun): nat
    decreases Size(f)
  {
    match View(f)
    case Pair(b, c) => 1 + Weight(b) + Weight(c)
    case Op2(b, c) => 1 + Weight(b) + Weight(c)
    case Op3(b) => 1 + Weight(b)
    case Op4(b) => 1 + Weight(b)
    case Op5(b, c) => 1 + Weight(b) + Weight(c)
    case Op6(b, c, d) => 1 + Weight(b) + Weight(c) + Weight(d)
    case Op7(b, c) => 1 + Weight(b) + Weight(c)
    case Op8(b, c) => 1 + Weight(b) + Weight(c)
    case Op9(_, c) => 10 + Weight(c)
    case Op10(_, b, c) => 1 + Weight(b) + Weight(c)
    case Hint(_, b, c) => 1 + Weight(b) + Weight(c)
    case Mark(_, c) => 1 + Weight(c)
    case Op12(b, c) => 1 + Weight(b) + Weight(c)
    case _ => 1
  }

  type Code = Option<seq<Instr>>

  function Cat(a: Code, b: Code): Code {
    if a.Some? && b.Some? then Some(a.value + b.value) else None
  }

  function One(i: Instr): Code { Some([i]) }

  // Test, then one of two branches.
  function CatIf(test: Code, yep: Code, nop: Code): Code {
    if yep.None? || nop.None? then None else
    Cat(Cat(test, One(SkipNo(|yep.value| + 1))), Cat(Cat(yep, One(Skip(|nop.value|))), nop))
  }

  // A hint with code before and after its formula, and a way around both.
  function CatDispatch(fore: Instr, body: Code, hind: Instr, los: bool): Code {
    var fen := Cat(body, Some([hind, Skip(1)]));
    if fen.None? then None else
    Cat(Some([fore, SkipNo(|fen.value|)]), Cat(fen, One(CleanUp(los))))
  }

  // Memoised code, skipped over when its result is known.
  function CatMemo(key: Noun, mem: Code, los: bool): Code {
    if mem.None? then None else Cat(One(Memo(|mem.value|, key, los)), mem)
  }

  // Code for [0 axis].
  function CompSlot(axis: nat, los: bool): seq<Instr> {
    if axis == 0 then [Bail]
    else if axis == 1 then if los then [] else [Copy]
    else if axis == 2 then [Head(los)]
    else if axis == 3 then [Tail_(los)]
    else [Frag_(axis, los)]
  }

  function CallOf(los: bool, tel: bool): CallMode {
    if tel then Tail else if los then Lose else Keep
  }

  function MutOf(axe: Noun, los: bool): Instr {
    if axe == Atom(2) then MutHead(los)
    else if axe == Atom(3) then MutTail(los)
    else if axe == Atom(6) then MutSam(los)
    else Mut(axe, los)
  }

  function CleanUp(los: bool): Instr { if los then Toss else Swap }

  // A computed constant formula.
  predicate IsConst(f: Noun) { f.Cell? && f.head == Atom(1) }

  // The cost of expanding [9 1 c] and [9 b c], b under the tail.
  function Mac(axis: Noun, core: Noun): Noun {
    Cell(Atom(7), Cell(core, Nock4K.Pull(axis)))
  }

  lemma MacLighter(f: Noun, axis: Noun, core: Noun)
    requires View(f) == Op9(axis, core)
    ensures Weight(Mac(axis, core)) < Weight(f)
  {
    var p := Nock4K.Pull(axis);
    assert View(Mac(axis, core)) == Op7(core, p);
    assert View(p) == Op2(Cell(Atom(0), Atom(1)), Cell(Atom(0), axis));
    assert Weight(p) == 3;
  }

  /** Compile `f`.  `los`: drop the subject from the stack; `tel`: `f` is in
      tail position.  `None` is a deterministic error in the compiler. */
  function Comp(f: Noun, los: bool, tel: bool): Code
    decreases Weight(f), 0
  {
    match View(f)
    case Pair(b, c) =>
      Cat(Cat(Comp(b, false, false), One(Swap)), Cat(Comp(c, false, false), One(Auto(los))))
    case Op0(a) => if a.Atom? then Some(CompSlot(a.val, los)) else None
    case Op1(a) => One(Lit(a, los))
    case Op2(b, c) =>
      Cat(Cat(Comp(b, false, false), One(Swap)), Cat(Comp(c, false, false), One(Nock(CallOf(los, tel)))))
    case Op3(b) => Cat(Comp(b, los, false), One(Deep))
    case Op4(b) => Cat(Comp(b, los, false), One(Bump))
    case Op5(b, c) =>
      if b.Atom? || c.Atom? then None
      else if IsConst(b) && IsConst(c) then One(Lit(Loob(b.tail == c.tail), los))
      else if IsConst(b) then Cat(Comp(c, los, false), One(SameAs(b.tail)))
      else if IsConst(c) then Cat(Comp(b, los, false), One(SameAs(c.tail)))
      else Cat(Cat(Comp(b, false, false), One(Swap)), Cat(Comp(c, false, false), One(Same(los))))
    case Op6(b, c, d) =>
      if !Formulaic(c) && !Formulaic(d) then None else
      CatIf(Comp(b, false, false),
            if Formulaic(c) then Comp(c, los, tel) else One(Bail),
            if Formulaic(d) then Comp(d, los, tel) else One(Bail))
    case Op7(b, c) => Cat(Comp(b, los, false), Comp(c, true, tel))
    case Op8(b, c) => Cat(Cat(Comp(b, false, false), One(Snoc(los))), Comp(c, true, tel))
    case Op9(a, c) =>
      if a.Cell? || a.val == 0 then None
      else if a.val == 1 || Cap(a.val) == 3 then MacLighter(f, a, c); Comp(Mac(a, c), los, tel)
      else Cat(Comp(c, los || tel, false), One(Kick(a, tel)))
    case Op10(a, b, c) =>
      Cat(Cat(Comp(c, false, false), One(Swap)), Cat(Comp(b, false, false), One(MutOf(a, los))))
    case Hint(t, b, c) => CompHint(t, b, c, los, tel)
    case Mark(t, c) =>
      if HintOf(t) == Dispatch
      then CatDispatch(HiltFore(Cell(t, c)), Comp(c, los, false), HiltHind(los), los)
      else Comp(c, los, tel)
    case Op12(b, c) =>
      Cat(Cat(Comp(b, false, false), One(Swap)), Cat(Comp(c, false, false), One(Wish(los))))
    case Junk => None
  }

  // [11 [t b] c]
  function CompHint(t: Noun, b: Noun, c: Noun, los: bool, tel: bool): Code
    decreases Weight(b) + Weight(c), 1
  {
    var clue := Comp(b, false, false);
    match HintOf(t)
    case Dispatch => Cat(clue, CatDispatch(HintFore(Cell(t, c)), Comp(c, los, false), HintHind(los), los))
    case Trace => Cat(Cat(clue, One(Bush(t))), Cat(Comp(c, los, false), One(Drop)))
    case Live => Cat(Cat(clue, One(Heck)), Comp(c, los, tel))
    case SlogHint => Cat(Cat(clue, One(Slog)), Comp(c, los, tel))
    case FastHint => Cat(Cat(clue, One(Swap)), Cat(Comp(c, false, false), One(Fast(los))))
    case MemoHint =>
      Cat(Cat(clue, One(Toss)), CatMemo(c, Cat(Comp(c, true, false), One(Save)), los))
    case Other => Cat(Cat(clue, One(Toss)), Comp(c, los, tel))
  }

  // The program a formula is run with, if it has one.
  predicate Runnable(f: Noun) {
    var c := Comp(f, true, true);
    c.Some? && Fits(Assembler.Words(c.value))
  }

  function CodeOf(f: Noun): seq<Instr>
    requires Runnable(f)
  {
    Comp(f, true, true).value
  }

  function ProgOf(f: Noun): Prog
    requires Runnable(f)
  {
    Assembler.Assemble(CodeOf(f))
  }
}
