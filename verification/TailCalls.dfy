/** Calls in tail position leave nothing on the stack, and what a run leaves in
    the memo cache and the call sites. */
module TailCalls {
  import opened Nouns
  import opened Formulas
  import opened Bytecode
  import opened Assembler
  import opened Compile
  import opened Strict
  import opened Machine
  import opened Simulation
  import Nock4K

  // ---- tail calls ----

  // A formula to run on a subject.
  datatype Call = Call(bus: Noun, fol: Noun)

  /** The call with which `f` on `a` ends, if the last thing it does is to run a
      computed formula or an arm. */
  ghost function Handoff(a: Noun, f: Noun): Option<Call>
    decreases Size(f)
  {
    match View(f)
    case Op2(b, c) => if Lim(a, b).Val? && Lim(a, c).Val? then Some(Call(Lim(a, b).v, Lim(a, c).v)) else None
    case Op6(b, c, d) =>
      if Lim(a, b) == Val(YES) && Formulaic(c) then Handoff(a, c)
      else if Lim(a, b) == Val(NO) && Formulaic(d) then Handoff(a, d) else None
    case Op7(b, c) => if Lim(a, b).Val? then Handoff(Lim(a, b).v, c) else None
    case Op8(b, c) => if Lim(a, b).Val? then Handoff(Cell(Lim(a, b).v, a), c) else None
    case Op9(b, c) =>
      if Lim(a, c).Val? && b.Atom? && Frag(b.val, Lim(a, c).v).Some? then Some(Call(Lim(a, c).v, Frag(b.val, Lim(a, c).v).value)) else None
    case Hint(t, b, c) => if Lim(a, b).Val? && Passing(t) then Handoff(a, c) else None
    case Mark(t, c) => if HintOf(t) != Dispatch then Handoff(a, c) else None
    case _ => None
  }

  // The call's value is the formula's.
  lemma {:induction false} HandoffValue(a: Noun, f: Noun)
    requires Handoff(a, f).Some?
    ensures Lim(a, f) == LimEnter(Handoff(a, f).value.bus, Handoff(a, f).value.fol)
    decreases Size(f)
  {
    hide Lim, LimEnter, View, Frag, Formulaic;
    LimEq(a, f);
    match View(f)
    case Op6(b, c, d) => HandoffValue(a, if Lim(a, b) == Val(YES) then c else d);
    case Op7(b, c) => HandoffValue(Lim(a, b).v, c);
    case Op8(b, c) => HandoffValue(Cell(Lim(a, b).v, a), c);
    case Hint(t, b, c) => BoutDispatches(t); HandoffValue(a, c);
    case Mark(_, c) => HandoffValue(a, c);
    case _ =>
  }

  // Hints that do nothing after their formula.
  predicate Passing(t: Noun) { HintOf(t) == Live || HintOf(t) == SlogHint || HintOf(t) == Other }

  // The machine has made the call, with `rest` below its subject.
  ghost predicate Made(cfg: Config, s: State, n: nat, rest: Stack, c: Call, w: World)
    requires s.Run?
  {
    RunN(cfg, s, n) == Goto(w, c.fol, Push(c.bus, rest)) && Later(s.w, w)
  }

  // The value of a part of a formula, which the machine computes.
  lemma SimPart(cfg: Config, s: State, i: nat, bus: Noun, rest: Stack, f: Noun, los: bool) returns (n: nat)
    requires Pre(cfg, s, i, bus, rest, f, los, false) && Lim(bus, f).Val?
    ensures s.Run? && Comp(f, los, false).Some?
    ensures var t := RunN(cfg, s, n); Ends(t, s, i + |Comp(f, los, false).value|, false, Below(los, bus, rest)) && Lim(bus, f) == Val(t.stack.top)
  {
    hide Comp, Step, Eval, Lim, Inv, Off, Runnable, Fetch;
    var k := Settles(bus, f);
    n := Sim(cfg, s, i, bus, rest, f, los, false, k);
    assert Eval(bus, f, k) == Lim(bus, f);
  }

  lemma TailOp2(cfg: Config, s: State, i: nat, bus: Noun, rest: Stack, f: Noun) returns (n: nat, w: World)
    requires Pre(cfg, s, i, bus, rest, f, true, true) && View(f).Op2? && Lim(bus, View(f).b).Val? && Lim(bus, View(f).c).Val?
    ensures s.Run? && Made(cfg, s, n, rest, Call(Lim(bus, View(f).b).v, Lim(bus, View(f).c).v), w)
  {
    hide Comp, Step, Eval, Lim, Inv, Off, Runnable, Fetch, View, Weight, Goto;
    var b, c, op, all := View(f).b, View(f).c, Nock(Tail), CodeOf(s.key);
    UnfoldOp2(bus, f, true, true, 0);
    var cb, cc := Comp(b, false, false).value, Comp(c, false, false).value;
    HasCat(all, i, cb + [Swap], cc + [op]);
    HasCat(all, i + |cb| + 1, cc, [op]);
    var j := i + |cb| + 1 + |cc|;
    HasOne(all, j, op);
    var k1 := Settles(bus, b);
    var k2 := Settles(bus, c);
    assert Eval(bus, b, k1 + k2) == Lim(bus, b) && Eval(bus, c, k1 + k2) == Lim(bus, c);
    n := SimTwo(cfg, s, i, bus, rest, b, c, k1 + k2);
    var t := RunN(cfg, s, n);
    var e := StepOp(cfg, t, j);
    RunAdd(cfg, s, n, 1);
    assert RunN(cfg, t, 1) == RunN(cfg, Step(cfg, t), 0);
    n, w := n + 1, t.w;
  }

  lemma TailKick(cfg: Config, s: State, i: nat, bus: Noun, rest: Stack, f: Noun, g: Noun) returns (n: nat, w: World)
    requires Pre(cfg, s, i, bus, rest, f, true, true) && View(f).Op9? && Lim(bus, View(f).c).Val?
    requires var a := View(f).a; a.Atom? && a.val >= 2 && Cap(a.val) == 2 && Frag(a.val, Lim(bus, View(f).c).v) == Some(g)
    ensures s.Run? && Made(cfg, s, n, rest, Call(Lim(bus, View(f).c).v, g), w)
  {
    hide Comp, Step, Eval, Lim, Inv, Off, Runnable, Fetch, View, Weight, Find, Frag, Lock, Cap;
    var a, c, op, all := View(f).a, View(f).c, Kick(View(f).a, true), CodeOf(s.key);
    UnfoldKick(bus, f, true, true, 0);
    var cc := Comp(c, true, false).value;
    HasCat(all, i, cc, [op]);
    var j := i + |cc|;
    HasOne(all, j, op);
    n := SimPart(cfg, s, i, bus, rest, c, true);
    var t := RunN(cfg, s, n);
    var e := StepKick(cfg, t, j);
    LockOk(t.w, t.key, e.ix, a.val, t.stack.top);
    var l := Lock(t.w, t.key, e.ix, a, t.stack.top);
    w := if l.Some? then l.value.1 else t.w;
    FindOk(w, g);
    KickFound(w, g);
    RunAdd(cfg, s, n, 1);
    assert RunN(cfg, t, 1) == RunN(cfg, Step(cfg, t), 0);
    n := n + 1;
  }

  lemma KickFound(w: World, g: Noun)
    ensures g in w.progs ==> Find(w, g) == Some(w)
  {
  }

  // First some steps, and then the call.
  lemma MadeAfter(cfg: Config, s: State, n: nat, m: nat, rest: Stack, c: Call, w: World)
    requires s.Run? && RunN(cfg, s, n).Run? && Later(s.w, RunN(cfg, s, n).w) && Made(cfg, RunN(cfg, s, n), m, rest, c, w)
    ensures Made(cfg, s, n + m, rest, c, w)
  {
    hide Inv, Step, Goto;
    RunAdd(cfg, s, n, m);
  }

  lemma TailOp7(cfg: Config, s: State, i: nat, bus: Noun, rest: Stack, f: Noun) returns (n: nat, w: World)
    requires Pre(cfg, s, i, bus, rest, f, true, true) && Handoff(bus, f).Some? && View(f).Op7?
    ensures s.Run? && Made(cfg, s, n, rest, Handoff(bus, f).value, w)
    decreases Weight(f), 0
  {
    hide Comp, Step, Eval, Lim, Inv, Off, Runnable, Fetch, View, Weight, Formulaic, Made;
    var b, c := View(f).b, View(f).c;
    UnfoldOp7(bus, f, true, true, 0);
    var cb, cc := Comp(b, true, false).value, Comp(c, true, true).value;
    HasCat(CodeOf(s.key), i, cb, cc);
    n := SimPart(cfg, s, i, bus, rest, b, true);
    var t := RunN(cfg, s, n);
    var m;
    m, w := TailCall(cfg, t, i + |cb|, t.stack.top, rest, c);
    MadeAfter(cfg, s, n, m, rest, Handoff(t.stack.top, c).value, w);
    n := n + m;
  }

  lemma TailOp8(cfg: Config, s: State, i: nat, bus: Noun, rest: Stack, f: Noun) returns (n: nat, w: World)
    requires Pre(cfg, s, i, bus, rest, f, true, true) && Handoff(bus, f).Some? && View(f).Op8?
    ensures s.Run? && Made(cfg, s, n, rest, Handoff(bus, f).value, w)
    decreases Weight(f), 0
  {
    hide Comp, Step, Eval, Lim, Inv, Off, Runnable, Fetch, View, Weight, Formulaic, Made;
    var b, c := View(f).b, View(f).c;
    UnfoldOp8(bus, f, true, true, 0);
    var cb, cc := Comp(b, false, false).value, Comp(c, true, true).value;
    HasCat(CodeOf(s.key), i, cb + [Snoc(true)], cc);
    HasCat(CodeOf(s.key), i, cb, [Snoc(true)]);
    HasOne(CodeOf(s.key), i + |cb|, Snoc(true));
    n := SimPart(cfg, s, i, bus, rest, b, false);
    var t := RunN(cfg, s, n);
    var e := StepOp(cfg, t, i + |cb|);
    var u := Step(cfg, t);
    RunAdd(cfg, s, n, 1);
    assert RunN(cfg, t, 1) == RunN(cfg, u, 0);
    n := n + 1;
    var m;
    m, w := TailCall(cfg, u, i + |cb| + 1, Cell(t.stack.top, bus), rest, c);
    MadeAfter(cfg, s, n, m, rest, Handoff(Cell(t.stack.top, bus), c).value, w);
    n := n + m;
  }

  lemma TailOp6(cfg: Config, s: State, i: nat, bus: Noun, rest: Stack, f: Noun) returns (n: nat, w: World)
    requires Pre(cfg, s, i, bus, rest, f, true, true) && Handoff(bus, f).Some? && View(f).Op6?
    ensures s.Run? && Made(cfg, s, n, rest, Handoff(bus, f).value, w)
    decreases Weight(f), 0
  {
    hide Comp, Step, Exec, Eval, Lim, Inv, Off, Runnable, Fetch, View, Weight, Formulaic, Made, Has;
    var b, c, d, all := View(f).b, View(f).c, View(f).d, CodeOf(s.key);
    UnfoldOp6(bus, f, true, true, 0);
    var cb, yep, nop := Comp(b, false, false).value, Branch(c, true, true).value, Branch(d, true, true).value;
    HasIf(all, i, cb, yep, nop);
    n := SimPart(cfg, s, i, bus, rest, b, false);
    var t, j := RunN(cfg, s, n), i + |cb|;
    IfSpan(all, j, yep, nop);
    var u := StepTest(cfg, t, j, bus, rest);
    RunAdd(cfg, s, n, 1);
    n := n + 1;
    var m;
    if t.stack.top == YES {
      m, w := TailCall(cfg, u, j + 1, bus, rest, c);
    } else {
      m, w := TailCall(cfg, u, j + 1 + |yep| + 1, bus, rest, d);
    }
    MadeAfter(cfg, s, n, m, rest, Handoff(bus, f).value, w);
    n := n + m;
  }

  lemma IfSpan(all: seq<Instr>, j: nat, yep: seq<Instr>, nop: seq<Instr>)
    requires IfAt(all, j, yep, nop)
    ensures j + 1 + |yep| + 1 + |nop| <= |all| && Has(all, j + 1, yep) && Has(all, j + 1 + |yep| + 1, nop) && all[j] == SkipNo(|yep| + 1)
  {
  }

  lemma TailOp9(cfg: Config, s: State, i: nat, bus: Noun, rest: Stack, f: Noun) returns (n: nat, w: World)
    requires Pre(cfg, s, i, bus, rest, f, true, true) && Handoff(bus, f).Some? && View(f).Op9?
    ensures s.Run? && Made(cfg, s, n, rest, Handoff(bus, f).value, w)
    decreases Weight(f), 0
  {
    var a, c := View(f).a, View(f).c;
    ArmNotZero(f);
    hide Comp, Step, Eval, Lim, Inv, Off, Runnable, Fetch, View, Weight, Formulaic, Made, Frag, Cap, Mac;
    if a.val == 1 || Cap(a.val) == 3 {
      UnfoldMac(bus, f, true, true, 0);
      HandoffMac(bus, f);
      n, w := TailCall(cfg, s, i, bus, rest, Mac(a, c));
    } else {
      n, w := TailKick(cfg, s, i, bus, rest, f, Frag(a.val, Lim(bus, c).v).value);
    }
  }

  lemma ArmNotZero(f: Noun)
    requires Comp(f, true, true).Some? && View(f).Op9?
    ensures View(f).a.Atom? && View(f).a.val >= 1
  {
    hide View, Cap;
  }

  lemma HandoffMac(a: Noun, f: Noun)
    requires View(f).Op9? && View(f).a.Atom? && Handoff(a, f).Some?
    ensures Handoff(a, Mac(View(f).a, View(f).c)) == Handoff(a, f)
  {
    var b, c := View(f).a, View(f).c;
    MacView(b, c);
    var x, p, one, arm := Lim(a, c).v, Nock4K.Pull(b), Cell(Atom(0), Atom(1)), Cell(Atom(0), b);
    hide Lim, Frag, View, Mac, Nock4K.Pull, Formulaic;
    FragOne(x);
    LimEq(x, one);
    LimEq(x, arm);
    assert Handoff(x, p) == Some(Call(x, Frag(b.val, x).value));
  }

  lemma TailHint(cfg: Config, s: State, i: nat, bus: Noun, rest: Stack, f: Noun) returns (n: nat, w: World)
    requires Pre(cfg, s, i, bus, rest, f, true, true) && Handoff(bus, f).Some? && View(f).Hint?
    ensures s.Run? && Made(cfg, s, n, rest, Handoff(bus, f).value, w)
    decreases Weight(f), 0
  {
    hide Comp, CompHint, Step, Exec, Eval, Lim, Inv, Off, Runnable, Fetch, View, Weight, HintOf, Made, Formulaic;
    var t, b, c, all := View(f).a, View(f).b, View(f).c, CodeOf(s.key);
    UnfoldHint(bus, f, true, true, 0);
    CompPassing(t, b, c, true, true);
    var cb, cc := Comp(b, false, false).value, Comp(c, true, true).value;
    HasCat(all, i, cb + [PopOf(t)], cc);
    var k := Settles(bus, b);
    assert Eval(bus, b, k) == Lim(bus, b);
    n := SimClue(cfg, s, i, bus, rest, b, PopOf(t), k);
    var u := RunN(cfg, s, n);
    var m;
    m, w := TailCall(cfg, u, i + |cb| + 1, bus, rest, c);
    MadeAfter(cfg, s, n, m, rest, Handoff(bus, c).value, w);
    n := n + m;
  }

  lemma TailMark(cfg: Config, s: State, i: nat, bus: Noun, rest: Stack, f: Noun) returns (n: nat, w: World)
    requires Pre(cfg, s, i, bus, rest, f, true, true) && Handoff(bus, f).Some? && View(f).Mark?
    ensures s.Run? && Made(cfg, s, n, rest, Handoff(bus, f).value, w)
    decreases Weight(f), 0
  {
    hide Comp, Step, Exec, Eval, Lim, Inv, Off, Runnable, Fetch, View, Weight, HintOf, CatDispatch, Formulaic, Made;
    UnfoldMark(bus, f, true, true, 0);
    n, w := TailCall(cfg, s, i, bus, rest, View(f).c);
  }

  /** A formula in tail position makes its last call with the stack as it was
      below its subject: no frame, no operand is left. */
  lemma TailCall(cfg: Config, s: State, i: nat, bus: Noun, rest: Stack, f: Noun) returns (n: nat, w: World)
    requires Pre(cfg, s, i, bus, rest, f, true, true) && Handoff(bus, f).Some?
    ensures s.Run? && Made(cfg, s, n, rest, Handoff(bus, f).value, w)
    decreases Weight(f), 1
  {
    hide Comp, Step, Eval, Lim, Inv, Off, Runnable, Fetch, Weight, Formulaic, Pre, Made, Goto, HintOf;
    match View(f)
    case Op2(_, _) => n, w := TailOp2(cfg, s, i, bus, rest, f);
    case Op6(_, _, _) => n, w := TailOp6(cfg, s, i, bus, rest, f);
    case Op7(_, _) => n, w := TailOp7(cfg, s, i, bus, rest, f);
    case Op8(_, _) => n, w := TailOp8(cfg, s, i, bus, rest, f);
    case Op9(_, _) => n, w := TailOp9(cfg, s, i, bus, rest, f);
    case Hint(_, _, _) => n, w := TailHint(cfg, s, i, bus, rest, f);
    case Mark(_, _) => n, w := TailMark(cfg, s, i, bus, rest, f);
    case _ =>
  }

  // ---- chains of tail calls ----

  /** `calls` follow one another in tail position, each formula with a
      program. */
  ghost predicate Chain(calls: seq<Call>) {
    && calls != [] && (forall i :: 0 <= i < |calls| ==> Runnable(calls[i].fol))
    && forall i {:trigger calls[i]} :: 0 <= i < |calls| - 1 ==> Handoff(calls[i].bus, calls[i].fol) == Some(calls[i + 1])
  }

  /** However long a chain of tail calls is, the last is made on the stack that
      the first was: a loop in tail position runs in constant stack. */
  lemma {:induction false} TailLoop(cfg: Config, w: World, rest: Stack, calls: seq<Call>) returns (n: nat, w': World)
    requires ConfigOk(cfg) && Inv(w) && Chain(calls)
    ensures var c := calls[|calls| - 1];
            RunN(cfg, Goto(w, calls[0].fol, Push(calls[0].bus, rest)), n) == Goto(w', c.fol, Push(c.bus, rest)) && Later(w, w')
    decreases |calls|
  {
    hide Inv, Step, Runnable, Comp, Lim, Find, Handoff, Off;
    var c := calls[0];
    var s := Goto(w, c.fol, Push(c.bus, rest));
    if |calls| == 1 {
      n, w' := 0, w;
    } else {
      FindOk(w, c.fol);
      StartAt(s);
      var w1;
      n, w1 := TailCall(cfg, s, 0, c.bus, rest, c.fol);
      assert Chain(calls[1..]) by { ChainRest(calls); }
      var m;
      m, w' := TailLoop(cfg, w1, rest, calls[1..]);
      RunAdd(cfg, s, n, m);
      n := n + m;
    }
  }

  lemma ChainRest(calls: seq<Call>)
    requires Chain(calls) && |calls| > 1
    ensures Chain(calls[1..])
  {
    hide Runnable, Handoff;
    var rest := calls[1..];
    forall i | 0 <= i < |rest| - 1 ensures Handoff(rest[i].bus, rest[i].fol) == Some(rest[i + 1]) { assert rest[i] == calls[i + 1]; }
  }

  // ---- what the memo cache holds afterwards ----

  ghost predicate Remembers(w: World, bus: Noun, c: Noun) {
    Cell(bus, c) in w.memo && Lim(bus, c) == Val(w.memo[Cell(bus, c)])
  }

  // A cache that is large enough forgets nothing.
  ghost predicate Forgetless(cfg: Config) { forall m :: cfg.trim(m) == m }

  /** Off the home road, the value of a memoised formula is remembered once it
      has been computed, unless the cache forgets. */
  lemma Remembered(cfg: Config, s: State, i: nat, bus: Noun, rest: Stack, f: Noun, los: bool, tel: bool) returns (n: nat)
    requires Pre(cfg, s, i, bus, rest, f, los, tel) && View(f).Hint? && HintOf(View(f).a) == MemoHint
    requires Lim(bus, f).Val? && !cfg.home && Forgetless(cfg)
    ensures s.Run? && Comp(f, los, tel).Some?
    ensures var t := RunN(cfg, s, n);
            Ends(t, s, i + |Comp(f, los, tel).value|, false, Below(los, bus, rest)) && Lim(bus, f) == Val(t.stack.top)
            && Remembers(t.w, bus, View(f).c)
  {
    hide Comp, CompHint, Step, Exec, Eval, Lim, Inv, Off, Runnable, Fetch, View, Weight, HintOf;
    var t, b, c, all := View(f).a, View(f).b, View(f).c, CodeOf(s.key);
    UnfoldHint(bus, f, los, tel, 0);
    BoutDispatches(t);
    CompMemo(t, b, c, los, tel);
    var cb, cc := Comp(b, false, false).value, Comp(c, true, false).value;
    HasMemo(all, i, cb + [Toss], Memo(|cc| + 1, c, los), cc);
    var k := Settles(bus, b);
    assert Eval(bus, b, k) == Lim(bus, b);
    n := SimClue(cfg, s, i, bus, rest, b, Toss, k);
    var u := RunN(cfg, s, n);
    var m := MemoRun(cfg, u, i + |cb| + 1, bus, rest, c, cc, los);
    RunAdd(cfg, s, n, m);
    n := n + m;
  }

  lemma MemoRun(cfg: Config, s: State, i: nat, bus: Noun, rest: Stack, c: Noun, cc: seq<Instr>, los: bool) returns (n: nat)
    requires ConfigOk(cfg) && At(s, i) && s.stack == Push(bus, rest) && Lim(bus, c).Val? && !cfg.home && Forgetless(cfg)
    requires var all := CodeOf(s.key);
             Has(all, i + 1, cc) && i + |cc| + 1 < |all| && all[i] == Memo(|cc| + 1, c, los) && all[i + 1 + |cc|] == Save
    requires Comp(c, true, false) == Some(cc)
    ensures var t := RunN(cfg, s, n);
            Ends(t, s, i + 1 + |cc| + 1, false, Below(los, bus, rest)) && Lim(bus, c) == Val(t.stack.top) && Remembers(t.w, bus, c)
    ensures Remembers(s.w, bus, c) ==> n == 1
  {
    hide Comp, Step, Exec, Eval, Lim, Off, Runnable, Fetch, Inv;
    StepMemo(cfg, s, i, |cc| + 1, c, los, bus, rest);
    var u := Step(cfg, s);
    n := 1;
    assert RunN(cfg, s, 1) == RunN(cfg, u, 0);
    if Cell(bus, c) in s.w.memo {
      MemoTrue(s.w, bus, c);
    } else {
      var below := Below(los, bus, rest);
      var m := SimPart(cfg, u, i + 1, bus, Push(Cell(bus, c), below), c, true);
      var x := RunN(cfg, u, m);
      StepSave(cfg, x, i + 1 + |cc|, bus, c, below);
      SaveStores(cfg, x, i + 1 + |cc|, bus, c, below);
      RunAdd(cfg, u, m, 1);
      assert RunN(cfg, x, 1) == RunN(cfg, Step(cfg, x), 0);
      n := 1 + (m + 1);
    }
  }

  lemma SaveStores(cfg: Config, s: State, i: nat, bus: Noun, c: Noun, below: Stack)
    requires At(s, i) && i < |CodeOf(s.key)| && CodeOf(s.key)[i] == Save && !cfg.home && Forgetless(cfg)
    requires s.stack.Push? && s.stack.rest == Push(Cell(bus, c), below) && Lim(bus, c) == Val(s.stack.top)
    ensures var t := Step(cfg, s); t.Run? && Remembers(t.w, bus, c)
  {
    hide Comp, Step, Off, Runnable, Fetch, Inv, Lim;
    var e := StepOp(cfg, s, i);
  }
}
