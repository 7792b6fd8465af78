/** The runtime's evaluation order against the Nock 4K specification. */
module Agreement {
  import opened Nouns
  import opened Formulas
  import opened Nock4K
  import opened Bytecode
  import opened Compile
  import opened Strict
  import Assembler

  // ---- every value of the runtime is a value of Nock 4K ----

  lemma StarUp(a: Noun, f: Noun, j: nat, m: nat)
    requires Star(a, f, j).Some? && j <= m
    ensures Star(a, f, m) == Star(a, f, j)
  {
    StarMono(a, f, j, m);
  }

  // The branch rule, by the value of the test.
  lemma {:induction false} StarOp6(a: Noun, f: Noun, j: nat, yes: bool)
    requires View(f).Op6? && j >= 1 && Star(a, View(f).b, j) == Some(Loob(yes))
    ensures Star(a, f, j + 3) == Star(a, if yes then View(f).c else View(f).d, j + 2)
  {
    hide Slot;
    var b, c, d := View(f).b, View(f).c, View(f).d;
    var one := Cell(Atom(4), b);
    var two := Cell(Atom(4), one);
    var n := if yes then 0 else 1;
    assert View(one) == Op4(b) && View(two) == Op4(one);
    var hop := Cell(Atom(0), Atom(n + 2));
    assert View(hop) == Op0(Atom(n + 2));
    hide View;
    assert Star(a, one, j + 1) == Some(Atom(n + 1));
    assert Star(a, two, j + 2) == Some(Atom(n + 2));
    SlotPair(n + 2, Atom(2), Atom(3));
    assert Star(Cell(Atom(2), Atom(3)), hop, j + 2) == Some(Atom(n + 2));
    SlotPair(n + 2, c, d);
    assert Star(Cell(c, d), hop, j + 2) == Some(if yes then c else d);
  }

  lemma ViewTail()
    ensures View(Cell(Atom(0), Atom(3))) == Op0(Atom(3))
  {
  }

  lemma SlotPair(axis: nat, x: Noun, y: Noun)
    ensures Slot(2, Cell(x, y)) == Some(x) && Slot(3, Cell(x, y)) == Some(y) && Slot(1, x) == Some(x)
    ensures x.Atom? && y.Atom? && axis >= 4 ==> Slot(axis, Cell(x, y)).None?
  {
    assert Slot(1, Cell(x, y)) == Some(Cell(x, y));
    if x.Atom? && y.Atom? && axis >= 4 { SlotDeep(axis, x, y); }
  }

  lemma {:induction false} SlotDeep(axis: nat, x: Noun, y: Noun)
    requires x.Atom? && y.Atom? && axis >= 4
    ensures Slot(axis, Cell(x, y)).None?
  {
    assert Slot(1, Cell(x, y)) == Some(Cell(x, y));
    if axis / 2 >= 4 { SlotDeep(axis / 2, x, y); }
  }

  // The arm-running formula reads its arm and runs it.
  lemma {:induction false} StarPull(x: Noun, b: Noun, j: nat)
    ensures Star(x, Pull(b), j + 2) ==
            if b.Cell? || Slot(b.val, x).None? then None else Star(x, Slot(b.val, x).value, j + 1)
  {
    var one, arm := Cell(Atom(0), Atom(1)), Cell(Atom(0), b);
    assert View(Pull(b)) == Op2(one, arm) && View(one) == Op0(Atom(1)) && View(arm) == Op0(b);
    hide View;
    assert Slot(1, x) == Some(x);
    assert Star(x, Cell(Atom(0), Atom(1)), j + 1) == Some(x);
    assert Star(x, Cell(Atom(0), b), j + 1) == if b.Atom? then Slot(b.val, x) else None;
  }

  lemma {:induction false} EvalStar(a: Noun, f: Noun, k: nat) returns (j: nat)
    requires Eval(a, f, k).Val?
    ensures Star(a, f, j) == Some(Eval(a, f, k).v)
    decreases k, Weight(f), 1
  {
    hide View, Slot, Frag;
    var v := View(f);
    if v.Pair? || v.Op5? || v.Op10? || v.Hint? {
      j := StarBoth(a, f, k);
    } else if v.Op2? {
      j := Star2(a, f, k);
    } else if v.Op6? {
      j := Star6(a, f, k);
    } else if v.Op7? || v.Op8? {
      j := Star78(a, f, k);
    } else if v.Op9? {
      j := Star9(a, f, k);
    } else if v.Op3? || v.Op4? {
      j := EvalStar(a, v.b, k);
      j := j + 1;
    } else if v.Mark? {
      j := EvalStar(a, v.c, k);
      j := j + 1;
    } else {
      j := 1;
      if v.Op0? { FragIsSlot(v.a.val, a); }
    }
  }

  lemma {:induction false} StarBoth(a: Noun, f: Noun, k: nat) returns (j: nat)
    requires Eval(a, f, k).Val?
    requires var v := View(f); v.Pair? || v.Op5? || v.Op10? || v.Hint?
    ensures Star(a, f, j) == Some(Eval(a, f, k).v)
    decreases k, Weight(f), 0
  {
    hide View, Slot, Frag, Hax, Edit;
    var v := View(f);
    var m := EvalStar(a, v.b, k);
    var n := EvalStar(a, v.c, k);
    var x, y := Eval(a, v.b, k).v, Eval(a, v.c, k).v;
    StarUp(a, v.b, m, m + n + 1);
    StarUp(a, v.c, n, m + n + 1);
    j := m + n + 2;
    if v.Op10? { EditIsHax(y, v.a.val, x); }
    if v.Hint? {
      SlotPair(3, x, y);
      ViewTail();
      assert Star(Cell(x, y), Cell(Atom(0), Atom(3)), m + n + 1) == Some(y);
    }
  }

  lemma {:induction false} Star2(a: Noun, f: Noun, k: nat) returns (j: nat)
    requires Eval(a, f, k).Val? && View(f).Op2?
    ensures Star(a, f, j) == Some(Eval(a, f, k).v)
    decreases k, Weight(f), 0
  {
    hide Runnable, Formulaic, View, Slot, Frag;
    var v := View(f);
    var m := EvalStar(a, v.b, k);
    var n := EvalStar(a, v.c, k);
    var x, y := Eval(a, v.b, k).v, Eval(a, v.c, k).v;
    var l := EvalStar(x, y, k - 1);
    StarUp(a, v.b, m, m + n + l);
    StarUp(a, v.c, n, m + n + l);
    StarUp(x, y, l, m + n + l);
    j := m + n + l + 1;
  }

  lemma {:induction false} Star6(a: Noun, f: Noun, k: nat) returns (j: nat)
    requires Eval(a, f, k).Val? && View(f).Op6?
    ensures Star(a, f, j) == Some(Eval(a, f, k).v)
    decreases k, Weight(f), 0
  {
    hide Runnable, Formulaic, View, Slot, Frag;
    var v := View(f);
    var m := EvalStar(a, v.b, k);
    var x := Eval(a, v.b, k).v;
    var g := if x == YES then v.c else v.d;
    var n := EvalStar(a, g, k);
    StarUp(a, v.b, m, m + n + 1);
    StarUp(a, g, n, m + n + 3);
    StarOp6(a, f, m + n + 1, x == YES);
    j := m + n + 4;
  }

  lemma {:induction false} Star78(a: Noun, f: Noun, k: nat) returns (j: nat)
    requires Eval(a, f, k).Val? && (View(f).Op7? || View(f).Op8?)
    ensures Star(a, f, j) == Some(Eval(a, f, k).v)
    decreases k, Weight(f), 0
  {
    hide Runnable, Formulaic, View, Slot, Frag;
    var v := View(f);
    var m := EvalStar(a, v.b, k);
    var x := Eval(a, v.b, k).v;
    var y := if v.Op7? then x else Cell(x, a);
    var n := EvalStar(y, v.c, k);
    StarUp(a, v.b, m, m + n);
    StarUp(y, v.c, n, m + n);
    j := m + n + 1;
  }

  lemma {:induction false} Star9(a: Noun, f: Noun, k: nat) returns (j: nat)
    requires Eval(a, f, k).Val? && View(f).Op9?
    ensures Star(a, f, j) == Some(Eval(a, f, k).v)
    decreases k, Weight(f), 0
  {
    hide Runnable, Formulaic, View, Slot, Frag;
    var v := View(f);
    var m := EvalStar(a, v.c, k);
    var x := Eval(a, v.c, k).v;
    FragIsSlot(v.a.val, x);
    var g := Frag(v.a.val, x).value;
    var l := EvalStar(x, g, k - 1);
    StarUp(a, v.c, m, m + l + 2);
    StarUp(x, g, l, m + l + 1);
    StarPull(x, v.a, m + l);
    j := m + l + 3;
  }

  /** Whatever the runtime's evaluation yields, Nock 4K yields. */
  lemma LimGives(a: Noun, f: Noun, v: Noun)
    requires Lim(a, f) == Val(v)
    ensures Gives(a, f, v)
  {
    hide Eval;
    var k := Settles(a, f);
    assert Eval(a, f, k) == Val(v);
    var j := EvalStar(a, f, k);
  }

  // ---- formulas the runtime never refuses ----

  /** Hint tags are atoms and op 9 never names axis 0. */
  predicate Regular(f: Noun)
    decreases Size(f)
  {
    match View(f)
    case Pair(b, c) => Regular(b) && Regular(c)
    case Op2(b, c) => Regular(b) && Regular(c)
    case Op3(b) => Regular(b)
    case Op4(b) => Regular(b)
    case Op5(b, c) => Regular(b) && Regular(c)
    case Op6(b, c, d) => Regular(b) && Regular(c) && Regular(d)
    case Op7(b, c) => Regular(b) && Regular(c)
    case Op8(b, c) => Regular(b) && Regular(c)
    case Op9(a, c) => a != Atom(0) && Regular(c)
    case Op10(_, b, c) => Regular(b) && Regular(c)
    case Hint(t, b, c) => t.Atom? && Regular(b) && Regular(c)
    case Mark(_, c) => Regular(c)
    case Op12(b, c) => Regular(b) && Regular(c)
    case _ => true
  }

  // The formulas that a formula is made of, itself included.
  function Inside(f: Noun): set<Noun>
    decreases Size(f)
  {
    {f} + match View(f)
          case Pair(b, c) => Inside(b) + Inside(c)
          case Op2(b, c) => Inside(b) + Inside(c)
          case Op3(b) => Inside(b)
          case Op4(b) => Inside(b)
          case Op5(b, c) => Inside(b) + Inside(c)
          case Op6(b, c, d) => Inside(b) + Inside(c) + Inside(d)
          case Op7(b, c) => Inside(b) + Inside(c)
          case Op8(b, c) => Inside(b) + Inside(c)
          case Op9(_, c) => Inside(c)
          case Op10(_, b, c) => Inside(b) + Inside(c)
          case Hint(_, b, c) => Inside(b) + Inside(c)
          case Mark(_, c) => Inside(c)
          case Op12(b, c) => Inside(b) + Inside(c)
          case _ => {}
  }

  // [9 0 c], and [11 [[p q] b] c].
  predicate Faulty(g: Noun) {
    && g.Cell? && g.tail.Cell?
    && (|| (g.head == Atom(9) && g.tail.head == Atom(0))
        || (g.head == Atom(11) && g.tail.head.Cell? && g.tail.head.head.Cell?))
  }

  lemma FaultyView(f: Noun)
    ensures Faulty(f) <==> (View(f).Op9? && View(f).a == Atom(0)) || (View(f).Hint? && View(f).a.Cell?)
  {
  }

  /** A formula is regular if and only if no formula in it is one of these. */
  lemma {:induction false} RegularIff(f: Noun)
    ensures Regular(f) <==> forall g :: g in Inside(f) ==> !Faulty(g)
    decreases Size(f)
  {
    FaultyView(f);
    hide View, Faulty;
    match View(f)
    case Op3(b) => RegularIff(b);
    case Op4(b) => RegularIff(b);
    case Op6(b, c, d) => RegularIff(b); RegularIff(c); RegularIff(d);
    case Op9(_, c) => RegularIff(c);
    case Mark(_, c) => RegularIff(c);
    case Op0(_) =>
    case Op1(_) =>
    case Junk =>
    case v => RegularIff(v.b); RegularIff(v.c);
  }

  // A regular formula whose program, if it has one, is within the size limits.
  predicate Tame(f: Noun) {
    Regular(f) && (Comp(f, true, true).Some? ==> Fits(Assembler.Words(Comp(f, true, true).value)))
  }

  // A formula entered by ops 2 and 9, or the clue of a timing hint.
  datatype Visit = Entered(g: Noun) | Clue(x: Noun)

  /** What running `f` meets on the way. */
  function Reached(a: Noun, f: Noun, k: nat): set<Visit>
    decreases k, Weight(f), 0
  {
    match View(f)
    case Pair(b, c) => Reached(a, b, k) + Reached(a, c, k)
    case Op2(b, c) =>
      var x, y := Eval(a, b, k), Eval(a, c, k);
      Reached(a, b, k) + Reached(a, c, k) + if x.Val? && y.Val? then ReachedIn(x.v, y.v, k) else {}
    case Op3(b) => Reached(a, b, k)
    case Op4(b) => Reached(a, b, k)
    case Op5(b, c) => Reached(a, b, k) + Reached(a, c, k)
    case Op6(b, c, d) =>
      var x := Eval(a, b, k);
      Reached(a, b, k)
      + (if x == Val(YES) then Reached(a, c, k) else if x == Val(NO) then Reached(a, d, k) else {})
    case Op7(b, c) =>
      var x := Eval(a, b, k);
      Reached(a, b, k) + if x.Val? then Reached(x.v, c, k) else {}
    case Op8(b, c) =>
      var x := Eval(a, b, k);
      Reached(a, b, k) + if x.Val? then Reached(Cell(x.v, a), c, k) else {}
    case Op9(b, c) =>
      var x := Eval(a, c, k);
      Reached(a, c, k)
      + if x.Val? && b.Atom? && Frag(b.val, x.v).Some? then ReachedIn(x.v, Frag(b.val, x.v).value, k) else {}
    case Op10(_, b, c) => Reached(a, b, k) + Reached(a, c, k)
    case Hint(t, b, c) =>
      var x := Eval(a, b, k);
      Reached(a, b, k) + Reached(a, c, k) + if t == Atom(BOUT) && x.Val? then {Clue(x.v)} else {}
    case Mark(_, c) => Reached(a, c, k)
    case Op12(b, c) => Reached(a, b, k) + Reached(a, c, k)
    case _ => {}
  }

  function ReachedIn(a: Noun, f: Noun, k: nat): set<Visit>
    decreases k, 0, 0
  {
    {Entered(f)} + if k == 0 then {} else Reached(a, f, k - 1)
  }

  // Formulas that are tame, and clues that are cells.
  ghost predicate AllTame(s: set<Visit>) { forall v :: v in s ==> if v.Entered? then Tame(v.g) else v.x.Cell? }

  // A regular noun that Nock 4K can run looks like a formula.
  lemma {:induction false} GivesFormulaic(a: Noun, f: Noun, j: nat)
    requires Star(a, f, j).Some? && Regular(f)
    ensures Formulaic(f)
    decreases j
  {
    hide View, Slot, Hax;
    var m := j - 1;
    match View(f)
    case Pair(b, c) => GivesFormulaic(a, b, m); GivesFormulaic(a, c, m);
    case Op2(b, c) => GivesFormulaic(a, b, m); GivesFormulaic(a, c, m);
    case Op3(b) => GivesFormulaic(a, b, m);
    case Op4(b) => GivesFormulaic(a, b, m);
    case Op5(b, c) => GivesFormulaic(a, b, m); GivesFormulaic(a, c, m);
    case Op6(b, c, d) =>
      var x := BranchOf(a, f, j);
      GivesFormulaic(a, b, j - 3);
      GivesFormulaic(a, if x then c else d, m);
    case Op7(b, c) => GivesFormulaic(a, b, m); GivesFormulaic(Star(a, b, m).value, c, m);
    case Op8(b, c) => GivesFormulaic(a, b, m); GivesFormulaic(Cell(Star(a, b, m).value, a), c, m);
    case Op9(b, c) => GivesFormulaic(a, c, m); PullAxis(Star(a, c, m).value, b, m);
    case Op10(_, b, c) => GivesFormulaic(a, b, m); GivesFormulaic(a, c, m);
    case Hint(_, b, c) => GivesFormulaic(a, b, m); GivesFormulaic(a, c, m);
    case Mark(_, c) => GivesFormulaic(a, c, m);
    case _ =>
  }

  // A value of [6 b c d] comes from a loobean b and the branch it names.
  lemma {:induction false} BranchOf(a: Noun, f: Noun, j: nat) returns (yes: bool)
    requires View(f).Op6? && Star(a, f, j).Some?
    ensures j >= 4 && Star(a, View(f).b, j - 3) == Some(Loob(yes))
    ensures Star(a, f, j) == Star(a, if yes then View(f).c else View(f).d, j - 1)
  {
    hide Slot;
    var b, c, d := View(f).b, View(f).c, View(f).d;
    var one := Cell(Atom(4), b);
    var two := Cell(Atom(4), one);
    assert View(one) == Op4(b) && View(two) == Op4(one);
    var x := Star(a, two, j - 1);
    var hop := Cell(Atom(0), x.value);
    assert View(hop) == Op0(x.value);
    var y := Star(Cell(Atom(2), Atom(3)), hop, j - 1);
    assert View(Cell(Atom(0), y.value)) == Op0(y.value);
    hide View;
    assert Star(a, one, j - 2).Some? && Star(a, b, j - 3).Some?;
    SlotPair(x.value.val, Atom(2), Atom(3));
    yes := x.value.val == 2;
    SlotPair(2, c, d);
  }

  lemma PullAxis(x: Noun, b: Noun, m: nat)
    requires Star(x, Pull(b), m).Some?
    ensures m >= 2 && b.Atom? && Slot(b.val, x).Some?
    ensures Star(x, Pull(b), m) == Star(x, Slot(b.val, x).value, m - 1)
  {
    hide Slot;
    if m >= 2 { StarPull(x, b, m - 2); }
  }

  // What looks like a formula and is regular compiles.
  lemma {:induction false} RegularCompiles(f: Noun, los: bool, tel: bool)
    requires Regular(f) && Formulaic(f)
    ensures Comp(f, los, tel).Some?
    decreases Size(f)
  {
    hide View, HintOf, Cap, CompSlot;
    var v := View(f);
    if v.Pair? || v.Op2? || v.Op10? || v.Op12? || v.Op3? || v.Op4? {
      CompilesKeep(f, los, tel);
    } else if v.Op6? || v.Op7? || v.Op8? {
      CompilesChain(f, los, tel);
    } else if v.Op5? {
      CompilesOp5(f, los, tel);
    } else if v.Op9? {
      RegularCompiles(v.c, los, false);
      RegularCompiles(v.c, los || tel, false);
      MacCompiles(v.a, v.c, los, tel);
    } else if v.Hint? {
      RegularCompiles(v.b, false, false);
      RegularCompiles(v.c, los, tel); RegularCompiles(v.c, los, false);
      RegularCompiles(v.c, true, false); RegularCompiles(v.c, false, false);
      HintCompiles(v.a, v.b, v.c, los, tel);
    } else if v.Mark? {
      RegularCompiles(v.c, los, tel); RegularCompiles(v.c, los, false);
    }
  }

  lemma {:induction false} CompilesKeep(f: Noun, los: bool, tel: bool)
    requires Regular(f) && Formulaic(f)
    requires var v := View(f); v.Pair? || v.Op2? || v.Op10? || v.Op12? || v.Op3? || v.Op4?
    ensures Comp(f, los, tel).Some?
    decreases Size(f), 0
  {
    hide View, HintOf, Cap, CompSlot;
    var v := View(f);
    if v.Op3? || v.Op4? {
      RegularCompiles(v.b, los, false);
    } else {
      RegularCompiles(v.b, false, false); RegularCompiles(v.c, false, false);
    }
  }

  lemma {:induction false} CompilesChain(f: Noun, los: bool, tel: bool)
    requires Regular(f) && Formulaic(f)
    requires var v := View(f); v.Op6? || v.Op7? || v.Op8?
    ensures Comp(f, los, tel).Some?
    decreases Size(f), 0
  {
    hide View, HintOf, Cap, CompSlot;
    match View(f)
    case Op6(b, c, d) =>
      RegularCompiles(b, false, false);
      if Formulaic(c) { RegularCompiles(c, los, tel); }
      if Formulaic(d) { RegularCompiles(d, los, tel); }
    case Op7(b, c) => RegularCompiles(b, los, false); RegularCompiles(c, true, tel);
    case Op8(b, c) => RegularCompiles(b, false, false); RegularCompiles(c, true, tel);
  }

  lemma {:induction false} CompilesOp5(f: Noun, los: bool, tel: bool)
    requires Regular(f) && Formulaic(f) && View(f).Op5?
    ensures Comp(f, los, tel).Some?
    decreases Size(f), 0
  {
    hide HintOf, Cap, CompSlot;
    var b, c := View(f).b, View(f).c;
    RegularCompiles(b, false, false); RegularCompiles(c, false, false);
    RegularCompiles(b, los, false); RegularCompiles(c, los, false);
    assert b.Cell? && c.Cell?;
    hide View;
  }

  lemma HintCompiles(t: Noun, b: Noun, c: Noun, los: bool, tel: bool)
    requires Comp(b, false, false).Some? && Comp(c, los, tel).Some? && Comp(c, los, false).Some?
    requires Comp(c, true, false).Some? && Comp(c, false, false).Some?
    ensures CompHint(t, b, c, los, tel).Some?
  {
    hide Comp, HintOf;
  }

  lemma MacCompiles(b: Noun, c: Noun, los: bool, tel: bool)
    requires b.Atom? && Comp(c, los, false).Some?
    ensures Comp(Mac(b, c), los, tel).Some?
  {
    var p, one, arm := Pull(b), Cell(Atom(0), Atom(1)), Cell(Atom(0), b);
    assert View(Mac(b, c)) == Op7(c, p) && View(p) == Op2(one, arm);
    assert View(one) == Op0(Atom(1)) && View(arm) == Op0(b);
    hide View, CompSlot;
    assert Comp(one, false, false).Some? && Comp(arm, false, false).Some?;
    assert Comp(p, true, tel).Some?;
  }

  // A tame formula that has a value has a program.
  lemma TameRunnable(a: Noun, f: Noun, j: nat)
    requires Tame(f) && Star(a, f, j).Some?
    ensures Runnable(f)
  {
    hide Star, Comp, Fits, Regular;
    GivesFormulaic(a, f, j);
    RegularCompiles(f, true, true);
  }

  // ---- every value of Nock 4K is a value of the runtime, unless refused ----

  lemma {:induction false} StarEval(a: Noun, f: Noun, j: nat, k: nat)
    requires Star(a, f, j).Some? && k >= j
    ensures Eval(a, f, k) == Val(Star(a, f, j).value) || Eval(a, f, k) == Refused
    ensures Regular(f) && AllTame(Reached(a, f, k)) ==> Eval(a, f, k).Val?
    decreases j, 1
  {
    hide View, Slot, Frag, Hax, Edit, Tame;
    var v := View(f);
    if v.Pair? || v.Op5? || v.Op10? || v.Hint? {
      StarEvalBoth(a, f, j, k);
    } else if v.Op2? {
      StarEval2(a, f, j, k);
    } else if v.Op6? {
      StarEval6(a, f, j, k);
    } else if v.Op7? || v.Op8? {
      StarEval78(a, f, j, k);
    } else if v.Op9? {
      StarEval9(a, f, j, k);
    } else if v.Op3? || v.Op4? {
      StarEval(a, v.b, j - 1, k);
    } else if v.Mark? {
      StarEval(a, v.c, j - 1, k);
    } else if v.Op0? {
      FragIsSlot(v.a.val, a);
    }
  }

  lemma {:induction false} StarEvalBoth(a: Noun, f: Noun, j: nat, k: nat)
    requires Star(a, f, j).Some? && k >= j
    requires var v := View(f); v.Pair? || v.Op5? || v.Op10? || v.Hint?
    ensures Eval(a, f, k) == Val(Star(a, f, j).value) || Eval(a, f, k) == Refused
    ensures Regular(f) && AllTame(Reached(a, f, k)) ==> Eval(a, f, k).Val?
    decreases j, 0
  {
    hide View, Slot, Frag, Hax, Edit, Tame;
    var v := View(f);
    StarEval(a, v.b, j - 1, k);
    StarEval(a, v.c, j - 1, k);
    var x, y := Star(a, v.b, j - 1).value, Star(a, v.c, j - 1).value;
    if v.Op10? && v.a.Atom? { EditIsHax(y, v.a.val, x); }
    if v.Hint? {
      SlotPair(3, x, y);
      ViewTail();
      if v.a == Atom(BOUT) && Eval(a, v.b, k).Val? { assert Clue(Eval(a, v.b, k).v) in Reached(a, f, k); }
    }
  }

  lemma {:induction false} StarEval2(a: Noun, f: Noun, j: nat, k: nat)
    requires Star(a, f, j).Some? && k >= j && View(f).Op2?
    ensures Eval(a, f, k) == Val(Star(a, f, j).value) || Eval(a, f, k) == Refused
    ensures Regular(f) && AllTame(Reached(a, f, k)) ==> Eval(a, f, k).Val?
    decreases j, 0
  {
    hide View, Slot, Frag, Hax, Edit, Tame, Formulaic, Enter, ReachedIn;
    var v := View(f);
    StarEval(a, v.b, j - 1, k);
    StarEval(a, v.c, j - 1, k);
    StarEnter(Star(a, v.b, j - 1).value, Star(a, v.c, j - 1).value, j - 1, k);
  }

  lemma {:induction false} StarEval6(a: Noun, f: Noun, j: nat, k: nat)
    requires Star(a, f, j).Some? && k >= j && View(f).Op6?
    ensures Eval(a, f, k) == Val(Star(a, f, j).value) || Eval(a, f, k) == Refused
    ensures Regular(f) && AllTame(Reached(a, f, k)) ==> Eval(a, f, k).Val?
    decreases j, 0
  {
    hide View, Slot, Frag, Hax, Edit, Tame, Formulaic, Enter, ReachedIn;
    var v := View(f);
    var yes := BranchOf(a, f, j);
    var g := if yes then v.c else v.d;
    StarEval(a, v.b, j - 3, k);
    StarEval(a, g, j - 1, k);
    if Regular(f) { GivesFormulaic(a, g, j - 1); }
  }

  lemma {:induction false} StarEval78(a: Noun, f: Noun, j: nat, k: nat)
    requires Star(a, f, j).Some? && k >= j && (View(f).Op7? || View(f).Op8?)
    ensures Eval(a, f, k) == Val(Star(a, f, j).value) || Eval(a, f, k) == Refused
    ensures Regular(f) && AllTame(Reached(a, f, k)) ==> Eval(a, f, k).Val?
    decreases j, 0
  {
    hide View, Slot, Frag, Hax, Edit, Tame, Formulaic, Enter, ReachedIn;
    var v := View(f);
    StarEval(a, v.b, j - 1, k);
    var x := Star(a, v.b, j - 1).value;
    StarEval(if v.Op7? then x else Cell(x, a), v.c, j - 1, k);
  }

  lemma {:induction false} StarEval9(a: Noun, f: Noun, j: nat, k: nat)
    requires Star(a, f, j).Some? && k >= j && View(f).Op9?
    ensures Eval(a, f, k) == Val(Star(a, f, j).value) || Eval(a, f, k) == Refused
    ensures Regular(f) && AllTame(Reached(a, f, k)) ==> Eval(a, f, k).Val?
    decreases j, 0
  {
    hide View, Slot, Frag, Hax, Edit, Tame, Formulaic, Enter, ReachedIn;
    var v := View(f);
    StarEval(a, v.c, j - 1, k);
    var x := Star(a, v.c, j - 1).value;
    PullAxis(x, v.a, j - 1);
    FragIsSlot(v.a.val, x);
    StarEnter(x, Slot(v.a.val, x).value, j - 2, k);
  }

  lemma {:induction false} StarEnter(a: Noun, f: Noun, j: nat, k: nat)
    requires Star(a, f, j).Some? && k > j
    ensures Enter(a, f, k) == Val(Star(a, f, j).value) || Enter(a, f, k) == Refused
    ensures AllTame(ReachedIn(a, f, k)) ==> Enter(a, f, k).Val?
    decreases j, 2
  {
    hide Star, Eval, Runnable, Regular;
    StarEval(a, f, j, k - 1);
    assert Entered(f) in ReachedIn(a, f, k);
    if Tame(f) { TameRunnable(a, f, j); }
  }

  /** If Nock 4K gives `v`, the runtime gives `v` or refuses; it refuses only
      if some formula it reaches is not tame. */
  lemma GivesLim(a: Noun, f: Noun, v: Noun)
    requires Gives(a, f, v)
    ensures Lim(a, f) == Val(v) || Lim(a, f) == Refused
    ensures Regular(f) && (forall k: nat :: AllTame(Reached(a, f, k))) ==> Lim(a, f) == Val(v)
  {
    hide Star, Eval, Regular, AllTame, Reached;
    var j: nat :| Star(a, f, j) == Some(v);
    StarEval(a, f, j, j);
    EvalLim(a, f, j);
  }

  /** A crash of the runtime is a formula without a value in Nock 4K. */
  lemma CrashNoValue(a: Noun, f: Noun, v: Noun)
    requires Lim(a, f) == Crash
    ensures !Gives(a, f, v)
  {
    hide Star, Eval, Regular, AllTame, Reached;
    if Gives(a, f, v) { GivesLim(a, f, v); }
  }
}
