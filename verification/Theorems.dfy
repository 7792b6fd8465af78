/** What the Nock engine guarantees, from bytes to the specification. */
module Theorems {
  import opened Nouns
  import opened Formulas
  import opened Nock4K
  import opened Bytecode
  import opened Compile
  import opened Strict
  import opened Machine
  import opened Simulation
  import opened Agreement

  /** A whole run, as far as `k` calls deep: it has died because there is no
      value, or it is still going, or it has returned the value. */
  lemma WholeRun(cfg: Config, w: World, bus: Noun, fol: Noun, k: nat) returns (n: nat)
    requires ConfigOk(cfg) && Inv(w)
    ensures var t := RunN(cfg, Start(w, bus, fol), n);
            || (t == Dead && Fails(LimEnter(bus, fol)))
            || (t.Run? && n + 1 >= k && Enter(bus, fol, k) == More)
            || (t.Done? && LimEnter(bus, fol) == Val(t.v) && Later(w, t.w))
  {
    hide Step, Eval, Lim, Inv, Runnable, Fetch, Goto, Enter, LimEnter;
    var s := Start(w, bus, fol);
    n := SimEnter(cfg, w, bus, fol, Empty, k);
    var t := RunN(cfg, s, n);
    if Halting(t) && Later(w, t.w) && t.stack.Push? && t.stack.rest == Empty && LimEnter(bus, fol) == Val(t.stack.top) {
      Finish(cfg, t);
      RunAdd(cfg, s, n, 1);
      assert RunN(cfg, t, 1) == RunN(cfg, Step(cfg, t), 0);
      n := n + 1;
    }
  }

  lemma Finish(cfg: Config, t: State)
    requires Halting(t) && t.stack.Push? && t.stack.rest == Empty
    ensures Step(cfg, t) == Done(t.stack.top, t.w)
  {
    hide Inv, Fetch, Runnable;
  }

  // Two stops of the same machine are the same.
  lemma SameStop(cfg: Config, s: State, n: nat, m: nat)
    requires !RunN(cfg, s, n).Run?
    ensures m >= n ==> RunN(cfg, s, m) == RunN(cfg, s, n)
    ensures !RunN(cfg, s, m).Run? ==> RunN(cfg, s, m) == RunN(cfg, s, n)
  {
    hide Step;
    if m >= n {
      RunAdd(cfg, s, n, m - n);
      RunStopped(cfg, RunN(cfg, s, n), m - n);
    } else if !RunN(cfg, s, m).Run? {
      RunAdd(cfg, s, m, n - m);
      RunStopped(cfg, RunN(cfg, s, m), n - m);
    }
  }

  /** Soundness: a value returned by the bytecode machine, however its caches
      were filled and whatever they forget meanwhile, is the Nock 4K value; and
      the caches and the trace stack are left in order. */
  lemma Soundness(cfg: Config, w: World, bus: Noun, fol: Noun, n: nat)
    requires ConfigOk(cfg) && Inv(w) && RunN(cfg, Start(w, bus, fol), n).Done?
    ensures var t := RunN(cfg, Start(w, bus, fol), n);
            Gives(bus, fol, t.v) && Lim(bus, fol) == Val(t.v) && Runnable(fol) && Later(w, t.w)
  {
    hide Step, Eval, Lim, Inv, Runnable, Start, Gives, Later;
    var s := Start(w, bus, fol);
    var m := WholeRun(cfg, w, bus, fol, n + 1);
    SameStop(cfg, s, n, m);
    LimGives(bus, fol, RunN(cfg, s, n).v);
  }

  /** Completeness, exactly: a run returns `v` if and only if the formula has
      a program and its evaluation yields `v`. */
  lemma Returns(cfg: Config, w: World, bus: Noun, fol: Noun, v: Noun)
    requires ConfigOk(cfg) && Inv(w)
    ensures (exists n: nat :: RunN(cfg, Start(w, bus, fol), n).Done? && RunN(cfg, Start(w, bus, fol), n).v == v)
       <==> (Runnable(fol) && Lim(bus, fol) == Val(v))
  {
    hide Step, Eval, Lim, Inv, Runnable, Start;
    var s := Start(w, bus, fol);
    if Runnable(fol) && Lim(bus, fol) == Val(v) {
      var k := SettlesEnter(bus, fol);
      var n := WholeRun(cfg, w, bus, fol, k);
      assert Enter(bus, fol, k) == Val(v);
      assert RunN(cfg, s, n).Done? && RunN(cfg, s, n).v == v;
    }
    if n: nat :| RunN(cfg, s, n).Done? && RunN(cfg, s, n).v == v {
      Soundness(cfg, w, bus, fol, n);
    }
  }

  /** Completeness against Nock 4K: if it gives `v`, every formula entered on
      the way, the first included, is tame, and every timing hint's clue is a
      cell, the machine returns `v`. */
  lemma Completeness(cfg: Config, w: World, bus: Noun, fol: Noun, v: Noun)
    requires ConfigOk(cfg) && Inv(w)
    requires Gives(bus, fol, v) && Tame(fol) && (forall k: nat :: AllTame(Reached(bus, fol, k)))
    ensures exists n: nat :: RunN(cfg, Start(w, bus, fol), n).Done? && RunN(cfg, Start(w, bus, fol), n).v == v
  {
    hide Step, Eval, Lim, Inv, Runnable, Start, Star, Comp, Fits, Regular, AllTame, Reached;
    var j: nat :| Star(bus, fol, j) == Some(v);
    GivesLim(bus, fol, v);
    TameRunnable(bus, fol, j);
    Returns(cfg, w, bus, fol, v);
  }

  /** A run dies exactly when the formula crashes or is refused. */
  lemma Dies(cfg: Config, w: World, bus: Noun, fol: Noun)
    requires ConfigOk(cfg) && Inv(w)
    ensures (exists n: nat :: RunN(cfg, Start(w, bus, fol), n) == Dead) <==> Fails(LimEnter(bus, fol))
  {
    hide Step, Eval, Lim, Inv, Runnable, Start, LimEnter, Enter;
    var s := Start(w, bus, fol);
    if Fails(LimEnter(bus, fol)) {
      var k := SettlesEnter(bus, fol);
      var n := WholeRun(cfg, w, bus, fol, k);
      assert Enter(bus, fol, k) == LimEnter(bus, fol);
      assert RunN(cfg, s, n) == Dead;
    }
    if n: nat :| RunN(cfg, s, n) == Dead {
      var m := WholeRun(cfg, w, bus, fol, n + 1);
      SameStop(cfg, s, n, m);
    }
  }

  /** The machine never reads past a program, a table or the stack. */
  lemma NeverWrong(cfg: Config, w: World, bus: Noun, fol: Noun, n: nat)
    requires ConfigOk(cfg) && Inv(w)
    ensures RunN(cfg, Start(w, bus, fol), n) != Wrong
  {
    hide Step, Eval, Lim, Inv, Runnable, Start, LimEnter, Enter;
    var s := Start(w, bus, fol);
    var m := WholeRun(cfg, w, bus, fol, n + 1);
    if RunN(cfg, s, n) == Wrong { SameStop(cfg, s, n, m); }
  }

  /** Caches are invisible: from any two sets of honest caches, on the home
      road or not, whatever each evicts, runs return the same value or both
      return none. */
  lemma CachesInvisible(cfg: Config, w: World, cfg': Config, w': World, bus: Noun, fol: Noun, v: Noun)
    requires ConfigOk(cfg) && Inv(w) && ConfigOk(cfg') && Inv(w')
    requires exists n: nat :: RunN(cfg, Start(w, bus, fol), n).Done? && RunN(cfg, Start(w, bus, fol), n).v == v
    ensures exists n: nat :: RunN(cfg', Start(w', bus, fol), n).Done? && RunN(cfg', Start(w', bus, fol), n).v == v
  {
    hide Step, Lim, Inv, Runnable, Start, ConfigOk;
    Returns(cfg, w, bus, fol, v);
    Returns(cfg', w', bus, fol, v);
  }

  // Empty caches are honest.
  lemma ColdStart(tax: Noun)
    ensures Inv(World(map[], map[], map[], tax, 0))
  {
  }

  // ---- formulas that Nock 4K runs and the runtime does not ----

  // [6 [1 0] [1 42] 9 0 0 1]: the branch not taken does not compile.
  const DEAD_BRANCH: Noun :=
    Cell(Atom(6), Cell(Cell(Atom(1), Atom(0)), Cell(Cell(Atom(1), Atom(42)),
      Cell(Atom(9), Cell(Atom(0), Cell(Atom(0), Atom(1)))))))

  // [11 [%bout 1 0] 1 42]: a timing hint whose clue is an atom.
  const ATOM_CLUE: Noun :=
    Cell(Atom(11), Cell(Cell(Atom(BOUT), Cell(Atom(1), Atom(0))), Cell(Atom(1), Atom(42))))

  // [6 [1 0] [11 [[0 0] 1 0] 1 42] 1 0]: a hint tag that is a cell, in a branch.
  const CELL_TAG: Noun :=
    Cell(Atom(6), Cell(Cell(Atom(1), Atom(0)), Cell(
      Cell(Atom(11), Cell(Cell(Cell(Atom(0), Atom(0)), Cell(Atom(1), Atom(0))), Cell(Atom(1), Atom(42)))),
      Cell(Atom(1), Atom(0)))))

  // The formulas [1 0], [1 42] and [0 1].
  const ZERO: Noun := Cell(Atom(1), Atom(0))
  const FORTY_TWO: Noun := Cell(Atom(1), Atom(42))
  const SELF: Noun := Cell(Atom(0), Atom(1))

  lemma Constants(a: Noun, n: nat)
    requires n > 0
    ensures View(ZERO) == Op1(Atom(0)) && View(FORTY_TWO) == Op1(Atom(42)) && View(SELF) == Op0(Atom(1))
    ensures Star(a, ZERO, n) == Some(Atom(0)) && Star(a, FORTY_TWO, n) == Some(Atom(42))
  {
    assert View(ZERO) == Op1(Atom(0)) && View(FORTY_TWO) == Op1(Atom(42)) && View(SELF) == Op0(Atom(1));
    hide View;
  }

  lemma DeadBranchGives(a: Noun)
    ensures Gives(a, DEAD_BRANCH, Atom(42))
  {
    var f, d := DEAD_BRANCH, Cell(Atom(9), Cell(Atom(0), SELF));
    assert View(f) == Op6(ZERO, FORTY_TWO, d);
    hide View, Star;
    Constants(a, 1);
    Constants(a, 3);
    StarOp6(a, f, 1, true);
  }

  lemma DeadBranchStops()
    ensures !Runnable(DEAD_BRANCH)
  {
    var f, d := DEAD_BRANCH, Cell(Atom(9), Cell(Atom(0), SELF));
    assert View(f) == Op6(ZERO, FORTY_TWO, d) && View(d) == Op9(Atom(0), SELF);
    Constants(Atom(0), 1);
    hide View, CompSlot, Slot, Fits, Star;
    DeadArm(d);
    hide Formulaic;
  }

  // An arm axis of zero passes the formula test and does not compile.
  lemma DeadArm(d: Noun)
    requires View(d) == Op9(Atom(0), SELF) && Formulaic(SELF)
    ensures Formulaic(d) && Comp(d, true, true).None?
  {
    hide View, CompSlot, Slot, Fits, Star;
  }

  lemma DeadBranchRefused(a: Noun)
    ensures Gives(a, DEAD_BRANCH, Atom(42)) && !Runnable(DEAD_BRANCH)
  {
    hide Gives, Runnable;
    DeadBranchGives(a);
    DeadBranchStops();
  }

  lemma AtomClueGives(a: Noun)
    ensures Gives(a, ATOM_CLUE, Atom(42))
  {
    var f := ATOM_CLUE;
    assert View(f) == Hint(Atom(BOUT), ZERO, FORTY_TWO);
    ViewTail();
    SlotPair(3, Atom(0), Atom(42));
    Constants(a, 1);
    hide View, Slot;
    assert Star(Cell(Atom(0), Atom(42)), Cell(Atom(0), Atom(3)), 1) == Some(Atom(42));
    assert Star(a, f, 2) == Some(Atom(42));
  }

  lemma AtomClueStops(a: Noun)
    ensures Lim(a, ATOM_CLUE) == Refused
  {
    var f := ATOM_CLUE;
    assert View(f) == Hint(Atom(BOUT), ZERO, FORTY_TWO);
    Constants(a, 1);
    hide View, Lim, Star;
    LimEq(a, f);
    LimEq(a, ZERO);
    LimEq(a, FORTY_TWO);
  }

  lemma AtomClueRefused(a: Noun)
    ensures Gives(a, ATOM_CLUE, Atom(42)) && Lim(a, ATOM_CLUE) == Refused
  {
    hide Gives, Lim;
    AtomClueGives(a);
    AtomClueStops(a);
  }

  lemma CellTagGives(a: Noun, c: Noun)
    requires View(c) == Hint(Cell(Atom(0), Atom(0)), ZERO, FORTY_TWO) && View(CELL_TAG) == Op6(ZERO, c, ZERO)
    ensures Gives(a, CELL_TAG, Atom(42))
  {
    var f := CELL_TAG;
    ViewTail();
    SlotPair(3, Atom(0), Atom(42));
    Constants(a, 1);
    Constants(a, 2);
    hide View, Slot;
    assert Star(Cell(Atom(0), Atom(42)), Cell(Atom(0), Atom(3)), 2) == Some(Atom(42));
    assert Star(a, c, 3) == Some(Atom(42));
    hide Star;
    StarOp6(a, f, 1, true);
  }

  lemma CellTagStops(a: Noun, c: Noun)
    requires View(c) == Hint(Cell(Atom(0), Atom(0)), ZERO, FORTY_TWO) && View(CELL_TAG) == Op6(ZERO, c, ZERO)
    ensures Lim(a, CELL_TAG) == Refused
  {
    Constants(a, 1);
    hide View, Lim, Star;
    LimEq(a, CELL_TAG);
    LimEq(a, ZERO);
    assert !Formulaic(c);
  }

  lemma CellTagRefused(a: Noun)
    ensures Gives(a, CELL_TAG, Atom(42)) && Lim(a, CELL_TAG) == Refused
  {
    var c := Cell(Atom(11), Cell(Cell(Cell(Atom(0), Atom(0)), ZERO), FORTY_TWO));
    assert View(CELL_TAG) == Op6(ZERO, c, ZERO) && View(c) == Hint(Cell(Atom(0), Atom(0)), ZERO, FORTY_TWO);
    hide Gives, Lim, View;
    CellTagGives(a, c);
    CellTagStops(a, c);
  }
}
