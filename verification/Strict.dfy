/** Big-step semantics in the runtime's own order of evaluation.  Only entering
    a computed formula (ops 2 and 9) spends fuel. */
module Strict {
  import opened Nouns
  import opened Formulas
  import opened Compile

  /** `Crash`: Nock 4K has no value either.  `Refused`: the runtime gives up on
      a formula it will not run.  `More`: out of fuel. */
  datatype Result = Val(v: Noun) | Crash | Refused | More

  function OfOption(o: Option<Noun>): Result {
    if o.Some? then Val(o.value) else Crash
  }

  function Eval(a: Noun, f: Noun, k: nat): Result
    decreases k, Weight(f), 0
  {
    match View(f)
    case Pair(b, c) =>
      var x := Eval(a, b, k);
      if !x.Val? then x else
      var y := Eval(a, c, k);
      if !y.Val? then y else Val(Cell(x.v, y.v))
    case Op0(b) => if b.Atom? then OfOption(Frag(b.val, a)) else Crash
    case Op1(b) => Val(b)
    case Op2(b, c) =>
      var x := Eval(a, b, k);
      if !x.Val? then x else
      var y := Eval(a, c, k);
      if !y.Val? then y else Enter(x.v, y.v, k)
    case Op3(b) =>
      var x := Eval(a, b, k);
      if !x.Val? then x else Val(Loob(x.v.Cell?))
    case Op4(b) =>
      var x := Eval(a, b, k);
      if !x.Val? then x else if x.v.Atom? then Val(Atom(x.v.val + 1)) else Crash
    case Op5(b, c) =>
      var x := Eval(a, b, k);
      if !x.Val? then x else
      var y := Eval(a, c, k);
      if !y.Val? then y else Val(Loob(x.v == y.v))
    case Op6(b, c, d) =>
      var x := Eval(a, b, k);
      if !x.Val? then x
      else if x.v == YES then if Formulaic(c) then Eval(a, c, k) else Refused
      else if x.v == NO then if Formulaic(d) then Eval(a, d, k) else Refused
      else Crash
    case Op7(b, c) =>
      var x := Eval(a, b, k);
      if !x.Val? then x else Eval(x.v, c, k)
    case Op8(b, c) =>
      var x := Eval(a, b, k);
      if !x.Val? then x else Eval(Cell(x.v, a), c, k)
    case Op9(b, c) =>
      var x := Eval(a, c, k);
      if !x.Val? then x else if b.Cell? then Crash else
      var g := Frag(b.val, x.v);
      if g.None? then Crash else Enter(x.v, g.value, k)
    case Op10(b, c, d) =>
      var y := Eval(a, d, k);
      if !y.Val? then y else
      var x := Eval(a, c, k);
      if !x.Val? then x else if b.Atom? then OfOption(Edit(y.v, b.val, x.v)) else Crash
    case Hint(t, c, d) =>
      var x := Eval(a, c, k);
      if !x.Val? then x else
      var y := Eval(a, d, k);
      if y.Val? && t == Atom(BOUT) && x.v.Atom? then Refused else y
    case Mark(_, c) => Eval(a, c, k)
    case Op12(b, c) =>
      var x := Eval(a, b, k);
      if !x.Val? then x else
      var y := Eval(a, c, k);
      if !y.Val? then y else Crash
    case Junk => Crash
  }

  // Run a computed formula as a program of its own.
  function Enter(a: Noun, f: Noun, k: nat): Result
    decreases k, 0, 0
  {
    if !Runnable(f) then Refused
    else if k == 0 then More
    else Eval(a, f, k - 1)
  }

  // More fuel never changes a result.
  lemma {:induction false} EvalMono(a: Noun, f: Noun, k: nat, j: nat)
    requires k <= j && Eval(a, f, k) != More
    ensures Eval(a, f, j) == Eval(a, f, k)
    decreases k, Weight(f), 1
  {
    var v := View(f);
    if v.Op2? || v.Op7? || v.Op8? || v.Op9? || v.Op6? {
      MonoChain(a, f, k, j);
    } else if v.Pair? || v.Op5? || v.Op10? || v.Hint? || v.Op12? {
      MonoBoth(a, f, k, j);
    } else if v.Op3? || v.Op4? {
      EvalMono(a, v.b, k, j);
    } else if v.Mark? {
      EvalMono(a, v.c, k, j);
    }
  }

  lemma {:induction false} MonoBoth(a: Noun, f: Noun, k: nat, j: nat)
    requires k <= j && Eval(a, f, k) != More
    requires var v := View(f); v.Pair? || v.Op5? || v.Op10? || v.Hint? || v.Op12?
    ensures Eval(a, f, j) == Eval(a, f, k)
    decreases k, Weight(f), 0
  {
    hide View, Runnable, Edit, OfOption, Loob;
    var v := View(f);
    var fst, snd := if v.Op10? then v.c else v.b, if v.Op10? then v.b else v.c;
    EvalMono(a, fst, k, j);
    if Eval(a, fst, k).Val? { EvalMono(a, snd, k, j); }
  }

  lemma {:induction false} MonoChain(a: Noun, f: Noun, k: nat, j: nat)
    requires k <= j && Eval(a, f, k) != More
    requires var v := View(f); v.Op2? || v.Op7? || v.Op8? || v.Op9? || v.Op6?
    ensures Eval(a, f, j) == Eval(a, f, k)
    decreases k, Weight(f), 0
  {
    hide View, Runnable, Formulaic, Frag, Enter;
    var v := View(f);
    var fst := if v.Op9? then v.c else v.b;
    EvalMono(a, fst, k, j);
    var x := Eval(a, fst, k);
    if x.Val? {
      match v
      case Op2(_, c) =>
        EvalMono(a, c, k, j);
        if Eval(a, c, k).Val? { EnterMono(x.v, Eval(a, c, k).v, k, j); }
      case Op6(_, c, d) =>
        if x.v == YES && Formulaic(c) { EvalMono(a, c, k, j); }
        if x.v == NO && Formulaic(d) { EvalMono(a, d, k, j); }
      case Op7(_, c) => EvalMono(x.v, c, k, j);
      case Op8(_, c) => EvalMono(Cell(x.v, a), c, k, j);
      case Op9(b, _) =>
        if b.Atom? && Frag(b.val, x.v).Some? { EnterMono(x.v, Frag(b.val, x.v).value, k, j); }
    }
  }

  lemma {:induction false} EnterMono(a: Noun, f: Noun, k: nat, j: nat)
    requires k <= j && Enter(a, f, k) != More
    ensures Enter(a, f, j) == Enter(a, f, k)
    decreases k, 0, 0
  {
    if Runnable(f) { EvalMono(a, f, k - 1, j - 1); }
  }

  // The result with as much fuel as it takes; `More` if it never ends.
  ghost function Lim(a: Noun, f: Noun): Result {
    if exists k: nat :: Eval(a, f, k) != More
    then var k: nat :| Eval(a, f, k) != More; Eval(a, f, k)
    else More
  }

  ghost function LimEnter(a: Noun, f: Noun): Result {
    if Runnable(f) then Lim(a, f) else Refused
  }

  // A bounded result is the limit or says nothing.
  lemma EvalLim(a: Noun, f: Noun, k: nat)
    ensures Eval(a, f, k) == More || Eval(a, f, k) == Lim(a, f)
  {
    hide Eval;
    if Eval(a, f, k) != More {
      var j: nat :| Eval(a, f, j) != More && Lim(a, f) == Eval(a, f, j);
      EvalMono(a, f, k, k + j);
      EvalMono(a, f, j, k + j);
    }
  }

  // From some fuel on, the result is the limit.
  lemma Settles(a: Noun, f: Noun) returns (k: nat)
    ensures forall j :: j >= k ==> Eval(a, f, j) == Lim(a, f)
  {
    hide Eval;
    if Lim(a, f) == More {
      k := 0;
      forall j: nat ensures Eval(a, f, j) == More { EvalLim(a, f, j); }
    } else {
      k :| Eval(a, f, k) != More;
      forall j: nat | j >= k ensures Eval(a, f, j) == Lim(a, f) {
        EvalMono(a, f, k, j);
        EvalLim(a, f, j);
      }
    }
  }

  lemma SettlesEnter(a: Noun, f: Noun) returns (k: nat)
    ensures forall j :: j >= k ==> Enter(a, f, j) == LimEnter(a, f)
  {
    k := Settles(a, f);
    k := k + 1;
  }

  /** The limit of a formula in terms of the limits of its parts. */
  ghost function LimStep(a: Noun, f: Noun): Result {
    match View(f)
    case Pair(b, c) =>
      var x := Lim(a, b);
      if !x.Val? then x else
      var y := Lim(a, c);
      if !y.Val? then y else Val(Cell(x.v, y.v))
    case Op0(b) => if b.Atom? then OfOption(Frag(b.val, a)) else Crash
    case Op1(b) => Val(b)
    case Op2(b, c) =>
      var x := Lim(a, b);
      if !x.Val? then x else
      var y := Lim(a, c);
      if !y.Val? then y else LimEnter(x.v, y.v)
    case Op3(b) =>
      var x := Lim(a, b);
      if !x.Val? then x else Val(Loob(x.v.Cell?))
    case Op4(b) =>
      var x := Lim(a, b);
      if !x.Val? then x else if x.v.Atom? then Val(Atom(x.v.val + 1)) else Crash
    case Op5(b, c) =>
      var x := Lim(a, b);
      if !x.Val? then x else
      var y := Lim(a, c);
      if !y.Val? then y else Val(Loob(x.v == y.v))
    case Op6(b, c, d) =>
      var x := Lim(a, b);
      if !x.Val? then x
      else if x.v == YES then if Formulaic(c) then Lim(a, c) else Refused
      else if x.v == NO then if Formulaic(d) then Lim(a, d) else Refused
      else Crash
    case Op7(b, c) =>
      var x := Lim(a, b);
      if !x.Val? then x else Lim(x.v, c)
    case Op8(b, c) =>
      var x := Lim(a, b);
      if !x.Val? then x else Lim(Cell(x.v, a), c)
    case Op9(b, c) =>
      var x := Lim(a, c);
      if !x.Val? then x else if b.Cell? then Crash else
      var g := Frag(b.val, x.v);
      if g.None? then Crash else LimEnter(x.v, g.value)
    case Op10(b, c, d) =>
      var y := Lim(a, d);
      if !y.Val? then y else
      var x := Lim(a, c);
      if !x.Val? then x else if b.Atom? then OfOption(Edit(y.v, b.val, x.v)) else Crash
    case Hint(t, c, d) =>
      var x := Lim(a, c);
      if !x.Val? then x else
      var y := Lim(a, d);
      if y.Val? && t == Atom(BOUT) && x.v.Atom? then Refused else y
    case Mark(_, c) => Lim(a, c)
    case Op12(b, c) =>
      var x := Lim(a, b);
      if !x.Val? then x else
      var y := Lim(a, c);
      if !y.Val? then y else Crash
    case Junk => Crash
  }

  // The limit satisfies the evaluator's own equations, without fuel.
  lemma LimEq(a: Noun, f: Noun)
    ensures Lim(a, f) == LimStep(a, f)
  {
    hide Lim, View;
    var v := View(f);
    var k := Settles(a, f);
    if v.Op2? || v.Op7? || v.Op8? || v.Op9? || v.Op6? {
      LimChain(a, f);
    } else if v.Pair? || v.Op5? || v.Op10? || v.Hint? || v.Op12? {
      LimBoth(a, f);
    } else if v.Op3? || v.Op4? {
      var k1 := Settles(a, v.b);
      assert Eval(a, f, k + k1) == Lim(a, f);
      assert Eval(a, v.b, k + k1) == Lim(a, v.b);
    } else if v.Mark? {
      var k1 := Settles(a, v.c);
      assert Eval(a, f, k + k1) == Lim(a, f) && Eval(a, v.c, k + k1) == Lim(a, v.c);
    } else {
      assert Eval(a, f, k) == Lim(a, f);
    }
  }

  lemma LimBoth(a: Noun, f: Noun)
    requires var v := View(f); v.Pair? || v.Op5? || v.Op10? || v.Hint? || v.Op12?
    ensures Lim(a, f) == LimStep(a, f)
  {
    hide Lim, View, Edit, OfOption, Loob;
    var v := View(f);
    var k := Settles(a, f);
    var k1 := Settles(a, v.b);
    var k2 := Settles(a, v.c);
    var n := k + k1 + k2;
    assert Eval(a, f, n) == Lim(a, f);
    assert Eval(a, v.b, n) == Lim(a, v.b);
    assert Eval(a, v.c, n) == Lim(a, v.c);
  }

  lemma LimChain(a: Noun, f: Noun)
    requires var v := View(f); v.Op2? || v.Op7? || v.Op8? || v.Op9? || v.Op6?
    ensures Lim(a, f) == LimStep(a, f)
  {
    hide Lim, View, Formulaic, Frag, Enter, LimEnter, Runnable;
    var v := View(f);
    var fst := if v.Op9? then v.c else v.b;
    var k := Settles(a, f);
    var k1 := Settles(a, fst);
    var x := Lim(a, fst);
    assert Eval(a, f, k + k1) == Lim(a, f) && Eval(a, fst, k + k1) == x;
    if x.Val? {
      match v
      case Op2(_, c) =>
        var k2 := Settles(a, c);
        var y := Lim(a, c);
        var m := k + k1 + k2;
        assert Eval(a, f, m) == Lim(a, f) && Eval(a, fst, m) == x && Eval(a, c, m) == y;
        if y.Val? {
          var k3 := SettlesEnter(x.v, y.v);
          var n := k + k1 + k2 + k3;
          assert Eval(a, f, n) == Lim(a, f) && Eval(a, fst, n) == x && Eval(a, c, n) == y;
          assert Enter(x.v, y.v, n) == LimEnter(x.v, y.v);
        }
      case Op6(_, c, d) =>
        var k2 := Settles(a, c);
        var k3 := Settles(a, d);
        var n := k + k1 + k2 + k3;
        assert Eval(a, f, n) == Lim(a, f) && Eval(a, fst, n) == x;
        assert Eval(a, c, n) == Lim(a, c) && Eval(a, d, n) == Lim(a, d);
      case Op7(_, c) =>
        var k2 := Settles(x.v, c);
        var n := k + k1 + k2;
        assert Eval(a, f, n) == Lim(a, f) && Eval(a, fst, n) == x && Eval(x.v, c, n) == Lim(x.v, c);
      case Op8(_, c) =>
        var k2 := Settles(Cell(x.v, a), c);
        var n := k + k1 + k2;
        assert Eval(a, f, n) == Lim(a, f) && Eval(a, fst, n) == x;
        assert Eval(Cell(x.v, a), c, n) == Lim(Cell(x.v, a), c);
      case Op9(b, _) =>
        if b.Atom? && Frag(b.val, x.v).Some? {
          var g := Frag(b.val, x.v).value;
          var k3 := SettlesEnter(x.v, g);
          var n := k + k1 + k3;
          assert Eval(a, f, n) == Lim(a, f) && Eval(a, fst, n) == x && Enter(x.v, g, n) == LimEnter(x.v, g);
        }
    }
  }
}
