/** Compiled code does what the formula says, whatever the caches hold. */
module Simulation {
  import opened Nouns
  import opened Formulas
  import opened Bytecode
  import opened Assembler
  import opened Compile
  import opened Strict
  import opened Machine

  // A locked call site holds the program of the arm its battery names.
  ghost predicate SiteOk(w: World, k: (Noun, nat))
    requires k in w.sites
  {
    var site := w.sites[k];
    && k.0 in w.progs && k.1 < |w.progs[k.0].cals|
    && var axe := w.progs[k.0].cals[k.1];
       && axe.Atom? && axe.val >= 2 && Cap(axe.val) == 2
       && Frag(Mas(axe.val), site.bat) == Some(site.pog)
       && site.pog in w.progs
  }

  /** The caches tell the truth. */
  ghost predicate Inv(w: World) {
    && (forall f :: f in w.progs ==> Runnable(f) && w.progs[f] == ProgOf(f))
    && (forall k :: k in w.sites ==> SiteOk(w, k))
    && (forall m :: m in w.memo ==> m.Cell? && Lim(m.head, m.tail) == Val(w.memo[m]))
  }

  predicate Has(all: seq<Instr>, i: nat, code: seq<Instr>) {
    i + |code| <= |all| && all[i..i + |code|] == code
  }

  lemma HasCat(all: seq<Instr>, i: nat, a: seq<Instr>, b: seq<Instr>)
    requires Has(all, i, a + b)
    ensures Has(all, i, a) && Has(all, i + |a|, b)
  {
    var s := all[i..i + |a + b|];
    assert all[i..i + |a|] == s[..|a|] == a;
    assert all[i + |a|..i + |a| + |b|] == s[|a|..] == b;
  }

  lemma HasOne(all: seq<Instr>, i: nat, op: Instr)
    requires Has(all, i, [op])
    ensures i < |all| && all[i] == op
  {
    assert all[i..i + 1][0] == all[i];
  }

  // The machine is about to run instruction `i` of the current program.
  ghost predicate At(s: State, i: nat) {
    && s.Run? && Inv(s.w) && s.key in s.w.progs && Runnable(s.key)
    && i <= |CodeOf(s.key)| && s.ip == Off(CodeOf(s.key), i)
  }

  ghost predicate Halting(s: State) {
    && s.Run? && Inv(s.w) && s.key in s.w.progs
    && Fetch(s.w.progs[s.key], s.ip).Fetched? && Fetch(s.w.progs[s.key], s.ip).op == Halt
  }

  // What a run may change besides the stack: the caches grow, nothing else.
  ghost predicate Later(w: World, w': World) {
    && Inv(w') && w'.tax == w.tax
    && forall f :: f in w.progs ==> f in w'.progs
  }

  // One step of the machine, by the instruction it is at.
  lemma StepAt(cfg: Config, s: State, i: nat) returns (f: Fetched)
    requires At(s, i) && i < |CodeOf(s.key)|
    ensures Decodes(f, CodeOf(s.key), i)
    ensures Step(cfg, s) == Exec(cfg, s.key, f, s.stack, s.w)
    ensures s.w.progs[s.key] == Assemble(CodeOf(s.key))
  {
    hide Fetch, Exec, Decodes, Comp, Fits, Assemble, Off;
    FetchAt(CodeOf(s.key), i);
    f := Fetch(s.w.progs[s.key], s.ip);
    DecodesFetched(f, CodeOf(s.key), i);
  }

  lemma DecodesFetched(f: Fetched, code: seq<Instr>, i: nat)
    requires i < |code| && Decodes(f, code, i)
    ensures f.Fetched? && f.next == Off(code, i + 1)
    ensures f.op == Resolve(code[i], Reach(Words(code)[i + 1..], Span(code[i])))
  {
  }

  // The end of a program is its terminator.
  lemma AtEndHalts(s: State)
    requires s.Run? && Runnable(s.key) && At(s, |CodeOf(s.key)|)
    ensures Halting(s)
  {
    hide Fetch, Comp, Fits, Assemble, Off;
    FetchEnd(CodeOf(s.key));
  }

  // Instruction `j`, or the end of another program reached by a tail call.
  ghost predicate Ends(t: State, s: State, j: nat, tel: bool, below: Stack) {
    && s.Run? && t.Run? && Later(s.w, t.w)
    && t.stack.Push? && t.stack.rest == below
    && ((At(t, j) && t.key == s.key) || (tel && Halting(t)))
  }

  ghost predicate Fails(r: Result) { r == Crash || r == Refused }

  /** After `n` steps the machine has died because the formula has no value,
      or has used up the fuel, or is done and has left the formula's value. */
  ghost predicate Good(t: State, s: State, n: nat, j: nat, tel: bool, below: Stack, bus: Noun, f: Noun, k: nat) {
    || (t == Dead && Fails(Lim(bus, f)))
    || (t.Run? && n >= k && Eval(bus, f, k) == More)
    || (Ends(t, s, j, tel, below) && Lim(bus, f) == Val(t.stack.top))
  }

  function Below(los: bool, bus: Noun, rest: Stack): Stack {
    if los then rest else Push(bus, rest)
  }

  ghost predicate Pre(cfg: Config, s: State, i: nat, bus: Noun, rest: Stack, f: Noun, los: bool, tel: bool) {
    && ConfigOk(cfg) && At(s, i) && (tel ==> los)
    && Comp(f, los, tel).Some? && Has(CodeOf(s.key), i, Comp(f, los, tel).value)
    && s.stack == Push(bus, rest)
  }

  ghost predicate Post(cfg: Config, s: State, i: nat, bus: Noun, rest: Stack, f: Noun, los: bool, tel: bool, k: nat, n: nat) {
    && Comp(f, los, tel).Some?
    && Good(RunN(cfg, s, n), s, n, i + |Comp(f, los, tel).value|, tel, Below(los, bus, rest), bus, f, k)
  }

  // Two results in order.
  function Both(x: Result, y: Result): Result {
    if !x.Val? then x else if !y.Val? then y else Val(Cell(x.v, y.v))
  }

  /** Code for `b`, a swap, and code for `c` leave [c bus b | rest]. */
  ghost predicate GoodTwo(t: State, s: State, n: nat, j: nat, bus: Noun, rest: Stack, b: Noun, c: Noun, k: nat) {
    || (t == Dead && Fails(Both(Lim(bus, b), Lim(bus, c))))
    || (t.Run? && n >= k && Both(Eval(bus, b, k), Eval(bus, c, k)) == More)
    || GotTwo(t, s, j, bus, rest, b, c)
  }

  ghost predicate GotTwo(t: State, s: State, j: nat, bus: Noun, rest: Stack, b: Noun, c: Noun) {
    && s.Run? && At(t, j) && t.key == s.key && Later(s.w, t.w)
    && Three(t.stack) && t.stack.rest.top == bus && t.stack.rest.rest.rest == rest
    && Lim(bus, b) == Val(t.stack.rest.rest.top) && Lim(bus, c) == Val(t.stack.top)
  }

  lemma SimTwo(cfg: Config, s: State, i: nat, bus: Noun, rest: Stack, b: Noun, c: Noun, k: nat) returns (n: nat)
    requires ConfigOk(cfg) && At(s, i) && s.stack == Push(bus, rest)
    requires Comp(b, false, false).Some? && Comp(c, false, false).Some?
    requires Has(CodeOf(s.key), i, Comp(b, false, false).value + [Swap])
    requires Has(CodeOf(s.key), i + |Comp(b, false, false).value| + 1, Comp(c, false, false).value)
    ensures GoodTwo(RunN(cfg, s, n), s, n, i + |Comp(b, false, false).value| + 1 + |Comp(c, false, false).value|, bus, rest, b, c, k)
    decreases k, Weight(b) + Weight(c), 3
  {
    hide Comp, Exec, Step, Eval, Lim, Inv, Decodes, Assemble, Off, Runnable, Fetch;
    var cb, cc := Comp(b, false, false).value, Comp(c, false, false).value;
    HasCat(CodeOf(s.key), i, cb, [Swap]);
    HasOne(CodeOf(s.key), i + |cb|, Swap);
    n := Sim(cfg, s, i, bus, rest, b, false, false, k);
    var t := RunN(cfg, s, n);
    EvalLim(bus, b, k);
    EvalLim(bus, c, k);
    if Ends(t, s, i + |cb|, false, Push(bus, rest)) && Lim(bus, b) == Val(t.stack.top) {
      var t' := StepSwap(cfg, t, i + |cb|);
      var m := Sim(cfg, t', i + |cb| + 1, bus, Push(t.stack.top, rest), c, false, false, k);
      RunAdd(cfg, s, n, 1 + m);
      n := n + 1 + m;
    }
  }

  // One step that is not a skip, memo or kick.
  lemma StepOp(cfg: Config, s: State, i: nat) returns (f: Fetched)
    requires At(s, i) && i < |CodeOf(s.key)|
    ensures f.Fetched? && f.next == Off(CodeOf(s.key), i + 1)
    ensures Step(cfg, s) == Exec(cfg, s.key, f, s.stack, s.w)
    ensures var op := CodeOf(s.key)[i]; !op.Skip? && !op.SkipNo? && !op.Memo? ==> f.op == op
  {
    hide Exec, Step, Comp, Assemble, Off, Inv, Runnable, Reach;
    f := StepAt(cfg, s, i);
  }

  // One skip, conditional skip or memo lookup.
  lemma StepSpan(cfg: Config, s: State, i: nat) returns (f: Fetched)
    requires At(s, i) && i < |CodeOf(s.key)| && i + 1 + Span(CodeOf(s.key)[i]) <= |CodeOf(s.key)|
    requires var op := CodeOf(s.key)[i]; op.Skip? || op.SkipNo? || op.Memo?
    ensures f.Fetched? && f.next == Off(CodeOf(s.key), i + 1)
    ensures f.jump == Off(CodeOf(s.key), i + 1 + Span(CodeOf(s.key)[i]))
    ensures Step(cfg, s) == Exec(cfg, s.key, f, s.stack, s.w)
    ensures var op := CodeOf(s.key)[i];
            match op
            case Skip(_) => f.op.Skip?
            case SkipNo(_) => f.op.SkipNo?
            case Memo(_, key, l) => f.op.Memo? && f.op.key == key && f.op.lose == l
            case _ => true
  {
    hide Exec, Step, Comp, Assemble, Off, Inv, Runnable, Reach;
    f := StepAt(cfg, s, i);
  }

  // One kick.
  lemma StepKick(cfg: Config, s: State, i: nat) returns (f: Fetched)
    requires At(s, i) && i < |CodeOf(s.key)| && CodeOf(s.key)[i].Kick?
    ensures f.Fetched? && f.op == CodeOf(s.key)[i] && f.next == Off(CodeOf(s.key), i + 1)
    ensures Step(cfg, s) == Exec(cfg, s.key, f, s.stack, s.w)
    ensures f.ix < |s.w.progs[s.key].cals| && s.w.progs[s.key].cals[f.ix] == CodeOf(s.key)[i].axe
  {
    hide Exec, Step, Comp, Off, Inv, Runnable, Reach;
    f := StepAt(cfg, s, i);
  }

  // What the last instruction of a two-operand formula makes of its operands.
  function Combine(op: Instr, x: Noun, y: Noun): Result {
    match op
    case Auto(_) => Val(Cell(x, y))
    case Same(_) => Val(Loob(x == y))
    case Fast(_) => Val(y)
    case MutHead(_) => if x.Cell? then Val(Cell(y, x.tail)) else Crash
    case MutTail(_) => if x.Cell? then Val(Cell(x.head, y)) else Crash
    case MutSam(_) => if x.Cell? && x.tail.Cell? then Val(Cell(x.head, Cell(y, x.tail.tail))) else Crash
    case Mut(a, _) => if a.Atom? then OfOption(Edit(x, a.val, y)) else Crash
    case _ => Crash
  }

  predicate Combines(op: Instr, los: bool) {
    || op == Auto(los) || op == Same(los) || op == Fast(los) || op == Wish(los)
    || op == MutHead(los) || op == MutTail(los) || op == MutSam(los)
    || (op.Mut? && op.lose == los)
  }

  function Then(r: Result, op: Instr): Result {
    if r.Val? && r.v.Cell? then Combine(op, r.v.head, r.v.tail) else r
  }

  // The last instruction of a two-operand formula.
  lemma StepCombine(cfg: Config, t: State, j: nat, op: Instr, los: bool)
    requires At(t, j) && j < |CodeOf(t.key)| && CodeOf(t.key)[j] == op && Combines(op, los) && Three(t.stack)
    ensures var u, r := Step(cfg, t), Combine(op, t.stack.rest.rest.top, t.stack.top);
            || (u == Dead && r == Crash)
            || (At(u, j + 1) && u.key == t.key && u.w == t.w && r.Val? && u.stack == Leave(r.v, los, t.stack))
  {
    hide Comp, Step, Inv, Off, Runnable, Fetch, Edit;
    var f := StepOp(cfg, t, j);
  }

  lemma SimCombine(cfg: Config, s: State, i: nat, bus: Noun, rest: Stack, b: Noun, c: Noun, op: Instr, los: bool, k: nat)
    returns (n: nat)
    requires ConfigOk(cfg) && At(s, i) && s.stack == Push(bus, rest)
    requires Comp(b, false, false).Some? && Comp(c, false, false).Some? && Combines(op, los)
    requires Has(CodeOf(s.key), i, Comp(b, false, false).value + [Swap] + (Comp(c, false, false).value + [op]))
    ensures var t, j := RunN(cfg, s, n), i + |Comp(b, false, false).value| + 1 + |Comp(c, false, false).value| + 1;
            var r := Then(Both(Lim(bus, b), Lim(bus, c)), op);
            || (t == Dead && Fails(r))
            || (t.Run? && n >= k && Both(Eval(bus, b, k), Eval(bus, c, k)) == More)
            || (Ends(t, s, j, false, Below(los, bus, rest)) && r == Val(t.stack.top))
    decreases k, Weight(b) + Weight(c), 4
  {
    hide Comp, Step, Exec, Eval, Lim, Inv, Assemble, Off, Runnable, Fetch, Edit, Combine, Combines;
    var cb, cc := Comp(b, false, false).value, Comp(c, false, false).value;
    var all := CodeOf(s.key);
    HasCat(all, i, cb + [Swap], cc + [op]);
    HasCat(all, i + |cb| + 1, cc, [op]);
    HasOne(all, i + |cb| + 1 + |cc|, op);
    n := SimTwo(cfg, s, i, bus, rest, b, c, k);
    var t := RunN(cfg, s, n);
    if GotTwo(t, s, i + |cb| + 1 + |cc|, bus, rest, b, c) {
      StepCombine(cfg, t, i + |cb| + 1 + |cc|, op, los);
      RunAdd(cfg, s, n, 1);
      assert RunN(cfg, t, 1) == Step(cfg, t);
      n := n + 1;
    }
  }

  lemma StepSwap(cfg: Config, s: State, i: nat) returns (t: State)
    requires At(s, i) && i < |CodeOf(s.key)| && CodeOf(s.key)[i] == Swap
    requires s.stack.Push? && s.stack.rest.Push?
    ensures t == Step(cfg, s) && At(t, i + 1) && t.key == s.key && t.w == s.w
    ensures t.stack == Push(s.stack.rest.top, Push(s.stack.top, s.stack.rest.rest))
  {
    hide Inv, Fetch, Step;
    var f := StepAt(cfg, s, i);
    t := Step(cfg, s);
  }

  // ---- operations on one result ----

  function Apply(op: Instr, x: Noun): Result {
    match op
    case Deep => Val(Loob(x.Cell?))
    case Bump => if x.Atom? then Val(Atom(x.val + 1)) else Crash
    case SameAs(n) => Val(Loob(x == n))
    case _ => Crash
  }

  // [x ..] to [op x ..].
  lemma StepUnary(cfg: Config, s: State, i: nat, op: Instr)
    requires At(s, i) && i < |CodeOf(s.key)| && CodeOf(s.key)[i] == op && (op.Deep? || op.Bump? || op.SameAs?) && s.stack.Push?
    ensures var t, r := Step(cfg, s), Apply(op, s.stack.top);
            if r.Val? then At(t, i + 1) && t.key == s.key && t.w == s.w && t.stack == Push(r.v, s.stack.rest)
            else t == Dead && Fails(r)
  {
    hide Comp, Step, Off, Runnable, Fetch, Inv;
    var e := StepOp(cfg, s, i);
  }

  lemma SimUnary(cfg: Config, s: State, i: nat, bus: Noun, rest: Stack, b: Noun, op: Instr, los: bool, k: nat)
    returns (n: nat)
    requires ConfigOk(cfg) && At(s, i) && s.stack == Push(bus, rest)
    requires Comp(b, los, false).Some? && (op.Deep? || op.Bump? || op.SameAs?)
    requires Has(CodeOf(s.key), i, Comp(b, los, false).value + [op])
    ensures var t, j := RunN(cfg, s, n), i + |Comp(b, los, false).value| + 1;
            var r := if Lim(bus, b).Val? then Apply(op, Lim(bus, b).v) else Lim(bus, b);
            || (t == Dead && Fails(r))
            || (t.Run? && n >= k && Eval(bus, b, k) == More)
            || (Ends(t, s, j, false, Below(los, bus, rest)) && r == Val(t.stack.top))
    decreases k, Weight(b), 5
  {
    hide Comp, Step, Exec, Eval, Lim, Inv, Off, Runnable, Fetch, Apply;
    var cb := Comp(b, los, false).value;
    HasCat(CodeOf(s.key), i, cb, [op]);
    HasOne(CodeOf(s.key), i + |cb|, op);
    n := Sim(cfg, s, i, bus, rest, b, los, false, k);
    var t := RunN(cfg, s, n);
    if Ends(t, s, i + |cb|, false, Below(los, bus, rest)) && Lim(bus, b) == Val(t.stack.top) {
      StepUnary(cfg, t, i + |cb|, op);
      RunAdd(cfg, s, n, 1);
      assert RunN(cfg, t, 1) == Step(cfg, t);
      n := n + 1;
    }
  }

  // ---- calls ----

  // Adding a program keeps the caches honest.
  lemma FindOk(w: World, f: Noun)
    requires Inv(w)
    ensures Find(w, f).None? <==> !Runnable(f)
    ensures Find(w, f).Some? ==> f in Find(w, f).value.progs && Later(w, Find(w, f).value)
  {
    hide Runnable, ProgOf, Lim, Frag;
    if f !in w.progs && Runnable(f) {
      var w' := Find(w, f).value;
      forall k | k in w'.sites ensures SiteOk(w', k) { assert SiteOk(w, k); }
    }
  }

  // Run a formula as a program until it is about to return.
  lemma SimEnter(cfg: Config, w: World, a: Noun, g: Noun, below: Stack, k: nat) returns (n: nat)
    requires ConfigOk(cfg) && Inv(w)
    ensures var t := RunN(cfg, Goto(w, g, Push(a, below)), n);
            || (t == Dead && Fails(LimEnter(a, g)))
            || (t.Run? && n + 1 >= k && Enter(a, g, k) == More)
            || (Halting(t) && Later(w, t.w) && t.stack.Push? && t.stack.rest == below && LimEnter(a, g) == Val(t.stack.top))
    decreases k, 0, 0
  {
    hide Comp, Step, Eval, Lim, Inv, Off, Runnable, Fetch, Find;
    FindOk(w, g);
    var s := Goto(w, g, Push(a, below));
    if !Runnable(g) || k == 0 {
      n := 0;
    } else {
      StartAt(s);
      n := Sim(cfg, s, 0, a, below, g, true, true, k - 1);
      var t := RunN(cfg, s, n);
      if Ends(t, s, |CodeOf(g)|, true, below) && !Halting(t) { AtEndHalts(t); }
    }
  }

  lemma StartAt(s: State)
    requires s.Run? && Inv(s.w) && s.key in s.w.progs && s.ip == 0
    ensures At(s, 0) && Comp(s.key, true, true).Some?
    ensures Has(CodeOf(s.key), 0, Comp(s.key, true, true).value)
  {
    hide Comp, Fits, ProgOf, Lim;
    assert Runnable(s.key);
    assert CodeOf(s.key)[0..|CodeOf(s.key)|] == CodeOf(s.key);
  }

  // A program that is about to return resumes its caller.
  lemma Return(cfg: Config, t: State)
    requires Halting(t) && t.stack.Push? && t.stack.rest.Frame?
    ensures Step(cfg, t) == Run(t.stack.rest.key, t.stack.rest.ip, Push(t.stack.top, t.stack.rest.rest), t.w)
  {
    hide Inv, Fetch, Runnable;
  }

  // The stack a callee runs on.
  function CallBelow(mode: CallMode, key: Noun, next: nat, bus: Noun, rest: Stack): Stack {
    match mode
    case Tail => rest
    case Lose => Frame(key, next, rest)
    case Keep => Frame(key, next, Push(bus, rest))
  }

  /** From the moment a call has been made to the moment its value is left
      where the formula's value belongs. */
  lemma SimCall(cfg: Config, s: State, t: State, j: nat, a: Noun, g: Noun, bus: Noun, rest: Stack, los: bool, tel: bool, k: nat)
    returns (n: nat)
    requires ConfigOk(cfg) && s.Run? && t.Run? && Inv(t.w) && Later(s.w, t.w) && (tel ==> los)
    requires s.key in s.w.progs && Runnable(s.key) && j <= |CodeOf(s.key)|
    requires Step(cfg, t) == Goto(t.w, g, Push(a, CallBelow(CallOf(los, tel), s.key, Off(CodeOf(s.key), j), bus, rest)))
    ensures var u := RunN(cfg, t, n);
            || (u == Dead && Fails(LimEnter(a, g)))
            || (u.Run? && n >= k && Enter(a, g, k) == More)
            || (Ends(u, s, j, tel, Below(los, bus, rest)) && LimEnter(a, g) == Val(u.stack.top))
    decreases k, 0, 1
  {
    hide Comp, Step, Eval, Lim, Inv, Off, Runnable, Fetch, Find, Goto, Enter, LimEnter;
    var below := CallBelow(CallOf(los, tel), s.key, Off(CodeOf(s.key), j), bus, rest);
    var m := SimEnter(cfg, t.w, a, g, below, k);
    var u := RunN(cfg, Step(cfg, t), m);
    n := m + 1;
    if Halting(u) && Later(t.w, u.w) && u.stack.Push? && u.stack.rest == below && LimEnter(a, g) == Val(u.stack.top) && !tel {
      Return(cfg, u);
      RunAdd(cfg, t, n, 1);
      assert RunN(cfg, u, 1) == Step(cfg, u);
      n := n + 1;
    }
  }

  lemma UnfoldOp2(a: Noun, f: Noun, los: bool, tel: bool, k: nat)
    requires View(f).Op2?
    ensures var b, c := View(f).b, View(f).c;
            && Comp(f, los, tel) == Cat(Cat(Comp(b, false, false), One(Swap)), Cat(Comp(c, false, false), One(Nock(CallOf(los, tel)))))
            && Weight(b) + Weight(c) < Weight(f)
            && var x, y := Lim(a, b), Lim(a, c);
               Lim(a, f) == if x.Val? && y.Val? then LimEnter(x.v, y.v) else Both(x, y)
    ensures var x, y := Eval(a, View(f).b, k), Eval(a, View(f).c, k);
            && (Both(x, y) == More ==> Eval(a, f, k) == More)
            && (x.Val? && y.Val? && Enter(x.v, y.v, k) == More ==> Eval(a, f, k) == More)
    ensures Eval(a, View(f).b, k) == More || Eval(a, View(f).b, k) == Lim(a, View(f).b)
    ensures Eval(a, View(f).c, k) == More || Eval(a, View(f).c, k) == Lim(a, View(f).c)
  {
    hide Lim, View, LimEnter, Enter;
    LimEq(a, f);
    EvalLim(a, View(f).b, k);
    EvalLim(a, View(f).c, k);
  }

  lemma SimOp2(cfg: Config, s: State, i: nat, bus: Noun, rest: Stack, f: Noun, los: bool, tel: bool, k: nat)
    returns (n: nat)
    requires Pre(cfg, s, i, bus, rest, f, los, tel) && View(f).Op2?
    ensures Post(cfg, s, i, bus, rest, f, los, tel, k, n)
    decreases k, Weight(f), 0
  {
    hide Comp, Step, Eval, Lim, Inv, Off, Runnable, Fetch, View, Weight, Goto, Enter, LimEnter;
    var b, c, op, all := View(f).b, View(f).c, Nock(CallOf(los, tel)), CodeOf(s.key);
    UnfoldOp2(bus, f, los, tel, k);
    var cb, cc := Comp(b, false, false).value, Comp(c, false, false).value;
    HasCat(all, i, cb + [Swap], cc + [op]);
    HasCat(all, i + |cb| + 1, cc, [op]);
    var j := i + |cb| + 1 + |cc|;
    HasOne(all, j, op);
    n := SimTwo(cfg, s, i, bus, rest, b, c, k);
    var t := RunN(cfg, s, n);
    if GotTwo(t, s, j, bus, rest, b, c) {
      var e := StepOp(cfg, t, j);
      var m := SimCall(cfg, s, t, j + 1, t.stack.rest.rest.top, t.stack.top, bus, rest, los, tel, k);
      RunAdd(cfg, s, n, m);
      n := n + m;
    }
  }

  // The call-site cache never changes which program a kick runs.
  lemma LockOk(w: World, key: Noun, ix: nat, axe: nat, cor: Noun)
    requires Inv(w) && key in w.progs && ix < |w.progs[key].cals| && w.progs[key].cals[ix] == Atom(axe)
    requires axe >= 2 && Cap(axe) == 2
    ensures var l, g := Lock(w, key, ix, Atom(axe), cor), Frag(axe, cor);
            match l
            case None => g.None? || !Runnable(g.value)
            case Some((h, w')) => g == Some(h) && h in w'.progs && Later(w, w') && cor.Cell? && (key, ix) in w'.sites && w'.sites[(key, ix)] == Site(cor.head, h)
    ensures (key, ix) in w.sites && cor.Cell? && w.sites[(key, ix)].bat == cor.head ==> Lock(w, key, ix, Atom(axe), cor) == Some((w.sites[(key, ix)].pog, w))
  {
    hide Runnable, ProgOf, Lim, Find;
    var l, g := Lock(w, key, ix, Atom(axe), cor), Frag(axe, cor);
    if (key, ix) in w.sites { assert SiteOk(w, (key, ix)); }
    if g.Some? {
      FindOk(w, g.value);
      if l.Some? && l.value.1 != w {
        var w1, w' := Find(w, g.value).value, l.value.1;
        forall k | k in w'.sites ensures SiteOk(w', k) { if k != (key, ix) { assert SiteOk(w1, k); } }
      }
    }
  }

  lemma UnfoldKick(a: Noun, f: Noun, los: bool, tel: bool, k: nat)
    requires View(f).Op9? && View(f).a.Atom? && View(f).a.val >= 2 && Cap(View(f).a.val) == 2
    ensures var b, c := View(f).a, View(f).c;
            && Comp(f, los, tel) == Cat(Comp(c, los || tel, false), One(Kick(b, tel)))
            && Weight(c) < Weight(f)
            && Lim(a, f) == if !Lim(a, c).Val? then Lim(a, c) else
                            var g := Frag(b.val, Lim(a, c).v);
                            if g.None? then Crash else LimEnter(Lim(a, c).v, g.value)
    ensures var x := Eval(a, View(f).c, k);
            && (x == More || x == Lim(a, View(f).c))
            && (x == More ==> Eval(a, f, k) == More)
            && (x.Val? && Frag(View(f).a.val, x.v).Some? && Enter(x.v, Frag(View(f).a.val, x.v).value, k) == More
                ==> Eval(a, f, k) == More)
  {
    hide Lim, View, LimEnter, Enter, Frag;
    LimEq(a, f);
    EvalLim(a, View(f).c, k);
  }

  lemma SimKick(cfg: Config, s: State, i: nat, bus: Noun, rest: Stack, f: Noun, los: bool, tel: bool, k: nat)
    returns (n: nat)
    requires Pre(cfg, s, i, bus, rest, f, los, tel) && View(f).Op9?
    requires var a := View(f).a; a.Atom? && a.val >= 2 && Cap(a.val) == 2
    ensures Post(cfg, s, i, bus, rest, f, los, tel, k, n)
    decreases k, Weight(f), 0
  {
    hide Comp, Step, Eval, Lim, Inv, Off, Runnable, Fetch, View, Weight, Find, Enter, LimEnter, Lock, Frag, Exec, Cap;
    var a, c, op, all := View(f).a, View(f).c, Kick(View(f).a, tel), CodeOf(s.key);
    UnfoldKick(bus, f, los, tel, k);
    assert (los || tel) == los;
    var cc := Comp(c, los, false).value;
    HasCat(all, i, cc, [op]);
    var j := i + |cc|;
    HasOne(all, j, op);
    n := Sim(cfg, s, i, bus, rest, c, los, false, k);
    var t := RunN(cfg, s, n);
    if Ends(t, s, j, false, Below(los, bus, rest)) && Lim(bus, c) == Val(t.stack.top) {
      var cor := t.stack.top;
      var e := StepKick(cfg, t, j);
      var m := SimKicked(cfg, s, t, j + 1, e, a.val, cor, bus, rest, los, tel, k);
      RunAdd(cfg, s, n, m);
      n := n + m;
    }
  }

  lemma SimKicked(cfg: Config, s: State, t: State, j: nat, e: Fetched, axe: nat, cor: Noun, bus: Noun, rest: Stack,
                  los: bool, tel: bool, k: nat) returns (n: nat)
    requires ConfigOk(cfg) && s.Run? && t.Run? && Inv(t.w) && Later(s.w, t.w) && (tel ==> los)
    requires s.key in s.w.progs && Runnable(s.key) && j <= |CodeOf(s.key)| && t.key == s.key
    requires axe >= 2 && Cap(axe) == 2
    requires e.Fetched? && e.op == Kick(Atom(axe), tel) && e.next == Off(CodeOf(s.key), j)
    requires t.key in t.w.progs && e.ix < |t.w.progs[t.key].cals| && t.w.progs[t.key].cals[e.ix] == Atom(axe)
    requires t.stack == Push(cor, Below(los, bus, rest))
    requires Step(cfg, t) == Exec(cfg, t.key, e, t.stack, t.w)
    ensures var u, g := RunN(cfg, t, n), Frag(axe, cor);
            || (u == Dead && (g.None? || Fails(LimEnter(cor, g.value))))
            || (u.Run? && n >= k && g.Some? && Enter(cor, g.value, k) == More)
            || (Ends(u, s, j, tel, Below(los, bus, rest)) && g.Some? && LimEnter(cor, g.value) == Val(u.stack.top))
    decreases k, 0, 3
  {
    hide Comp, Step, Eval, Lim, Inv, Off, Runnable, Fetch, Frag, Lock;
    LockOk(t.w, t.key, e.ix, axe, cor);
    var l := Lock(t.w, t.key, e.ix, Atom(axe), cor);
    if l.None? {
      n := 1;
      assert RunN(cfg, t, 1) == RunN(cfg, Step(cfg, t), 0);
    } else {
      var g, w' := l.value.0, l.value.1;
      var below := if tel then Below(los, bus, rest) else Frame(t.key, e.next, Below(los, bus, rest));
      assert Step(cfg, t) == Goto(w', g, Push(cor, below));
      var m := SimEnter(cfg, w', cor, g, below, k);
      var u := RunN(cfg, Step(cfg, t), m);
      n := m + 1;
      if Halting(u) && Later(w', u.w) && u.stack.Push? && u.stack.rest == below && LimEnter(cor, g) == Val(u.stack.top) && !tel {
        Return(cfg, u);
        RunAdd(cfg, t, n, 1);
        assert RunN(cfg, u, 1) == Step(cfg, u);
        n := n + 1;
      }
    }
  }

  // ---- formulas that combine two results ----

  predicate TwoForm(f: Noun) {
    var v := View(f);
    || v.Pair? || v.Op10? || v.Op12?
    || (v.Op5? && v.b.Cell? && v.c.Cell? && !IsConst(v.b) && !IsConst(v.c))
    || (v.Hint? && HintOf(v.a) == FastHint)
  }

  function Fst(f: Noun): Noun
    requires TwoForm(f)
  {
    if View(f).Op10? then View(f).c else View(f).b
  }

  function Snd(f: Noun): Noun
    requires TwoForm(f)
  {
    if View(f).Op10? then View(f).b else View(f).c
  }

  function LastOp(f: Noun, los: bool): Instr
    requires TwoForm(f)
  {
    match View(f)
    case Pair(_, _) => Auto(los)
    case Op5(_, _) => Same(los)
    case Op10(a, _, _) => MutOf(a, los)
    case Hint(_, _, _) => Fast(los)
    case _ => Wish(los)
  }

  // The specialised edits do what the general one does.
  lemma MutCombine(a: Noun, los: bool, x: Noun, y: Noun)
    ensures Combines(MutOf(a, los), los)
    ensures Combine(MutOf(a, los), x, y) == if a.Atom? then OfOption(Edit(x, a.val, y)) else Crash
  {
    hide Edit;
    if a == Atom(2) || a == Atom(3) { EditSide(x, y); } else if a == Atom(6) { EditSample(x, y); }
  }

  lemma EditSide(x: Noun, y: Noun)
    ensures Edit(x, 2, y) == if x.Cell? then Some(Cell(y, x.tail)) else None
    ensures Edit(x, 3, y) == if x.Cell? then Some(Cell(x.head, y)) else None
  {
    if x.Cell? { assert Edit(x.head, 1, y) == Some(y) == Edit(x.tail, 1, y); }
  }

  lemma EditSample(x: Noun, y: Noun)
    ensures Edit(x, 6, y) == if x.Cell? && x.tail.Cell? then Some(Cell(x.head, Cell(y, x.tail.tail))) else None
  {
    assert Cap(6) == Cap(3) == 3 && Mas(6) == 2 * Mas(3) + 0 == 2;
    if x.Cell? { EditSide(x.tail, y); }
  }

  lemma UnfoldTwo(a: Noun, f: Noun, los: bool, tel: bool, k: nat)
    requires TwoForm(f)
    ensures var b, c, op := Fst(f), Snd(f), LastOp(f, los);
            && Comp(f, los, tel) == Cat(Cat(Comp(b, false, false), One(Swap)), Cat(Comp(c, false, false), One(op)))
            && Weight(b) + Weight(c) < Weight(f)
            && (Both(Eval(a, b, k), Eval(a, c, k)) == More ==> Eval(a, f, k) == More)
  {
    hide *;
    CompTwo(f, los, tel);
    WeightTwo(f);
    EvalTwo(a, f, k);
  }

  lemma CompTwo(f: Noun, los: bool, tel: bool)
    requires TwoForm(f)
    ensures Comp(f, los, tel) ==
            Cat(Cat(Comp(Fst(f), false, false), One(Swap)), Cat(Comp(Snd(f), false, false), One(LastOp(f, los))))
  {
    hide View, HintOf, MutOf, IsConst, Cat, CompHint;
    if View(f).Hint? { CompFast(View(f).a, View(f).b, View(f).c, los, tel); }
  }

  lemma CompFast(t: Noun, b: Noun, c: Noun, los: bool, tel: bool)
    requires HintOf(t) == FastHint
    ensures CompHint(t, b, c, los, tel) == Cat(Cat(Comp(b, false, false), One(Swap)), Cat(Comp(c, false, false), One(Fast(los))))
  {
    hide HintOf, Comp, Cat;
  }

  lemma WeightTwo(f: Noun)
    requires TwoForm(f)
    ensures Weight(Fst(f)) + Weight(Snd(f)) < Weight(f)
  {
    hide View, HintOf;
  }

  lemma EvalTwo(a: Noun, f: Noun, k: nat)
    requires TwoForm(f)
    ensures Both(Eval(a, Fst(f), k), Eval(a, Snd(f), k)) == More ==> Eval(a, f, k) == More
  {
    hide View, Edit, Cap, HintOf, OfOption, Runnable, Loob;
  }

  lemma LimTwo(a: Noun, f: Noun, los: bool)
    requires TwoForm(f)
    ensures var b, c, op := Fst(f), Snd(f), LastOp(f, los);
            Combines(op, los) && Lim(a, f) == Then(Both(Lim(a, b), Lim(a, c)), op)
  {
    hide Lim, View, Edit, Cap, HintOf, Runnable, OfOption;
    LimEq(a, f);
    var v := View(f);
    if v.Op10? {
      hide MutOf, Combine, Combines;
      MutCombine(v.a, los, Atom(0), Atom(0));
      var x, y := Lim(a, v.c), Lim(a, v.b);
      if x.Val? && y.Val? { MutCombine(v.a, los, x.v, y.v); }
    } else if v.Hint? {
      BoutDispatches(v.a);
    }
  }

  lemma BoutDispatches(t: Noun)
    ensures t == Atom(BOUT) ==> HintOf(t) == Dispatch
  {
  }

  lemma SimTwoForm(cfg: Config, s: State, i: nat, bus: Noun, rest: Stack, f: Noun, los: bool, tel: bool, k: nat)
    returns (n: nat)
    requires Pre(cfg, s, i, bus, rest, f, los, tel) && TwoForm(f)
    ensures Post(cfg, s, i, bus, rest, f, los, tel, k, n)
    decreases k, Weight(f), 0
  {
    hide Comp, Step, Eval, Lim, Inv, Off, Runnable, Fetch, View, Weight, TwoForm, Fst, Snd, LastOp, Then, Combines;
    UnfoldTwo(bus, f, los, tel, k);
    LimTwo(bus, f, los);
    assert Comp(Fst(f), false, false).value + [Swap] + (Comp(Snd(f), false, false).value + [LastOp(f, los)]) == Comp(f, los, tel).value;
    n := SimCombine(cfg, s, i, bus, rest, Fst(f), Snd(f), LastOp(f, los), los, k);
  }

  // ---- formulas that transform one result ----

  predicate OneForm(f: Noun) {
    var v := View(f);
    v.Op3? || v.Op4? || (v.Op5? && v.b.Cell? && v.c.Cell? && IsConst(v.b) != IsConst(v.c))
  }

  function OneArg(f: Noun): Noun
    requires OneForm(f)
  {
    if View(f).Op5? && IsConst(View(f).b) then View(f).c else View(f).b
  }

  function OneOp(f: Noun): Instr
    requires OneForm(f)
  {
    match View(f)
    case Op3(_) => Deep
    case Op4(_) => Bump
    case Op5(b, c) => SameAs(if IsConst(b) then b.tail else c.tail)
    case _ => Bail
  }

  lemma LimConst(a: Noun, f: Noun, k: nat)
    requires IsConst(f)
    ensures Lim(a, f) == Val(f.tail) == Eval(a, f, k)
  {
    LimEq(a, f);
  }

  lemma UnfoldOne(a: Noun, f: Noun, los: bool, tel: bool, k: nat)
    requires OneForm(f)
    ensures var b, op := OneArg(f), OneOp(f);
            && Comp(f, los, tel) == Cat(Comp(b, los, false), One(op))
            && (op.Deep? || op.Bump? || op.SameAs?) && Weight(b) < Weight(f)
            && Lim(a, f) == (if Lim(a, b).Val? then Apply(op, Lim(a, b).v) else Lim(a, b))
            && (Eval(a, b, k) == More ==> Eval(a, f, k) == More)
  {
    hide *;
    CompOne(f, los, tel);
    LimOne(a, f);
    EvalOne(a, f, k);
  }

  lemma CompOne(f: Noun, los: bool, tel: bool)
    requires OneForm(f)
    ensures Comp(f, los, tel) == Cat(Comp(OneArg(f), los, false), One(OneOp(f)))
    ensures var op := OneOp(f); (op.Deep? || op.Bump? || op.SameAs?) && Weight(OneArg(f)) < Weight(f)
  {
    hide View, IsConst;
  }

  lemma LimOne(a: Noun, f: Noun)
    requires OneForm(f)
    ensures var b := OneArg(f); Lim(a, f) == if Lim(a, b).Val? then Apply(OneOp(f), Lim(a, b).v) else Lim(a, b)
  {
    hide Lim, View;
    LimEq(a, f);
    var v := View(f);
    if v.Op5? {
      hide IsConst;
      LimConst(a, if IsConst(v.b) then v.b else v.c, 0);
    }
  }

  lemma EvalOne(a: Noun, f: Noun, k: nat)
    requires OneForm(f)
    ensures Eval(a, OneArg(f), k) == More ==> Eval(a, f, k) == More
  {
    hide View;
    var v := View(f);
    if v.Op5? {
      hide IsConst;
      LimConst(a, if IsConst(v.b) then v.b else v.c, k);
    }
  }

  lemma SimOneForm(cfg: Config, s: State, i: nat, bus: Noun, rest: Stack, f: Noun, los: bool, tel: bool, k: nat)
    returns (n: nat)
    requires Pre(cfg, s, i, bus, rest, f, los, tel) && OneForm(f)
    ensures Post(cfg, s, i, bus, rest, f, los, tel, k, n)
    decreases k, Weight(f), 0
  {
    hide Comp, Step, Eval, Lim, Inv, Off, Runnable, Fetch, View, Weight, OneForm, OneArg, OneOp, Apply;
    UnfoldOne(bus, f, los, tel, k);
    n := SimUnary(cfg, s, i, bus, rest, OneArg(f), OneOp(f), los, k);
  }

  // ---- constants and fragments ----

  predicate LeafForm(f: Noun) {
    var v := View(f);
    v.Op0? || v.Op1? || (v.Op5? && IsConst(v.b) && IsConst(v.c))
  }

  lemma UnfoldLeaf(a: Noun, f: Noun, los: bool, tel: bool)
    requires LeafForm(f)
    ensures View(f).Op0? ==> Comp(f, los, tel) == (if View(f).a.Atom? then Some(CompSlot(View(f).a.val, los)) else None)
    ensures View(f).Op0? && View(f).a.Atom? ==> Lim(a, f) == OfOption(Frag(View(f).a.val, a))
    ensures !View(f).Op0? ==> exists v :: Lim(a, f) == Val(v) && Comp(f, los, tel) == One(Lit(v, los))
  {
    hide Lim, View, Frag;
    LimEq(a, f);
    var v := View(f);
    if v.Op5? {
      LimConst(a, v.b, 0);
      LimConst(a, v.c, 0);
    }
  }

  lemma StepLit(cfg: Config, s: State, i: nat, v: Noun, los: bool, bus: Noun, rest: Stack)
    requires At(s, i) && i < |CodeOf(s.key)| && CodeOf(s.key)[i] == Lit(v, los) && s.stack == Push(bus, rest)
    ensures var t := Step(cfg, s); At(t, i + 1) && t.key == s.key && t.w == s.w && t.stack == Push(v, Below(los, bus, rest))
  {
    hide Comp, Step, Off, Runnable, Fetch, Inv;
    var e := StepOp(cfg, s, i);
  }

  lemma StepSlot(cfg: Config, s: State, i: nat, a: nat, los: bool, bus: Noun, rest: Stack)
    requires At(s, i) && CompSlot(a, los) != [] && i < |CodeOf(s.key)| && CodeOf(s.key)[i] == CompSlot(a, los)[0] && s.stack == Push(bus, rest)
    ensures Slotted(Step(cfg, s), s, i, Frag(a, bus), los, bus, rest)
  {
    hide Comp, Step, Exec, Off, Runnable, Fetch, Inv, Frag, Slotted;
    if a >= 4 {
      StepFrag(cfg, s, i, a, los, bus, rest);
    } else if a >= 2 {
      StepSide(cfg, s, i, a, los, bus, rest);
    } else {
      StepWhole(cfg, s, i, a, los, bus, rest);
    }
  }

  ghost predicate Slotted(t: State, s: State, i: nat, r: Option<Noun>, los: bool, bus: Noun, rest: Stack)
    requires s.Run?
  {
    if r.None? then t == Dead
    else At(t, i + 1) && t.key == s.key && t.w == s.w && t.stack == Push(r.value, Below(los, bus, rest))
  }

  lemma StepFrag(cfg: Config, s: State, i: nat, a: nat, los: bool, bus: Noun, rest: Stack)
    requires At(s, i) && i < |CodeOf(s.key)| && CodeOf(s.key)[i] == Frag_(a, los) && s.stack == Push(bus, rest)
    ensures Slotted(Step(cfg, s), s, i, Frag(a, bus), los, bus, rest)
  {
    hide Comp, Step, Off, Runnable, Fetch, Inv, Frag;
    var e := StepOp(cfg, s, i);
  }

  lemma StepSide(cfg: Config, s: State, i: nat, a: nat, los: bool, bus: Noun, rest: Stack)
    requires At(s, i) && i < |CodeOf(s.key)| && 2 <= a <= 3 && CodeOf(s.key)[i] == (if a == 2 then Head(los) else Tail_(los)) && s.stack == Push(bus, rest)
    ensures Slotted(Step(cfg, s), s, i, Frag(a, bus), los, bus, rest)
  {
    hide Comp, Step, Off, Runnable, Fetch, Inv, Frag;
    FragShort(bus);
    var e := StepOp(cfg, s, i);
  }

  lemma StepWhole(cfg: Config, s: State, i: nat, a: nat, los: bool, bus: Noun, rest: Stack)
    requires At(s, i) && i < |CodeOf(s.key)| && a < 2 && s.stack == Push(bus, rest)
    requires if a == 0 then CodeOf(s.key)[i] == Bail else !los && CodeOf(s.key)[i] == Copy
    ensures Slotted(Step(cfg, s), s, i, Frag(a, bus), los, bus, rest)
  {
    assert Frag(0, bus) == None && Frag(1, bus) == Some(bus);
    hide Comp, Step, Off, Runnable, Fetch, Inv, Frag;
    var e := StepOp(cfg, s, i);
  }

  lemma SimLeaf(cfg: Config, s: State, i: nat, bus: Noun, rest: Stack, f: Noun, los: bool, tel: bool, k: nat)
    returns (n: nat)
    requires Pre(cfg, s, i, bus, rest, f, los, tel) && LeafForm(f)
    ensures Post(cfg, s, i, bus, rest, f, los, tel, k, n)
    decreases k, Weight(f), 0
  {
    hide Comp, Step, Exec, Eval, Lim, Inv, Off, Runnable, Fetch, View, Frag, LeafForm;
    UnfoldLeaf(bus, f, los, tel);
    var code := Comp(f, los, tel).value;
    n := |code|;
    if code == [] {
      NoStep(View(f).a.val, los, bus);
    } else {
      HasOne(CodeOf(s.key), i, code[0]);
      assert RunN(cfg, s, 1) == RunN(cfg, Step(cfg, s), 0);
      if View(f).Op0? {
        StepSlot(cfg, s, i, View(f).a.val, los, bus, rest);
      } else {
        StepLit(cfg, s, i, code[0].noun, los, bus, rest);
      }
    }
  }

  // The whole subject, with no code.
  lemma NoStep(a: nat, los: bool, bus: Noun)
    requires CompSlot(a, los) == []
    ensures Frag(a, bus) == Some(bus) && los
  {
  }

  lemma FragShort(n: Noun)
    ensures Frag(2, n) == if n.Cell? then Some(n.head) else None
    ensures Frag(3, n) == if n.Cell? then Some(n.tail) else None
  {
    if n.Cell? { assert Frag(1, n.head) == Some(n.head) && Frag(1, n.tail) == Some(n.tail); }
  }

  // ---- composition ----

  lemma UnfoldOp7(a: Noun, f: Noun, los: bool, tel: bool, k: nat)
    requires View(f).Op7?
    ensures var b, c := View(f).b, View(f).c;
            && Comp(f, los, tel) == Cat(Comp(b, los, false), Comp(c, true, tel))
            && Weight(b) < Weight(f) && Weight(c) < Weight(f)
            && Lim(a, f) == (if Lim(a, b).Val? then Lim(Lim(a, b).v, c) else Lim(a, b))
            && (Eval(a, b, k) == More || Eval(a, b, k) == Lim(a, b))
            && (Eval(a, b, k) == More ==> Eval(a, f, k) == More)
            && (Lim(a, b).Val? && Eval(Lim(a, b).v, c, k) == More ==> Eval(a, f, k) == More)
  {
    hide Lim, View;
    LimEq(a, f);
    EvalLim(a, View(f).b, k);
  }

  lemma SimOp7(cfg: Config, s: State, i: nat, bus: Noun, rest: Stack, f: Noun, los: bool, tel: bool, k: nat)
    returns (n: nat)
    requires Pre(cfg, s, i, bus, rest, f, los, tel) && View(f).Op7?
    ensures Post(cfg, s, i, bus, rest, f, los, tel, k, n)
    decreases k, Weight(f), 0
  {
    hide Comp, Step, Eval, Lim, Inv, Off, Runnable, Fetch, View, Weight, Formulaic;
    var b, c, all := View(f).b, View(f).c, CodeOf(s.key);
    UnfoldOp7(bus, f, los, tel, k);
    var cb, cc := Comp(b, los, false).value, Comp(c, true, tel).value;
    HasCat(all, i, cb, cc);
    n := Sim(cfg, s, i, bus, rest, b, los, false, k);
    var t, below := RunN(cfg, s, n), Below(los, bus, rest);
    if Ends(t, s, i + |cb|, false, below) && Lim(bus, b) == Val(t.stack.top) {
      var m := Sim(cfg, t, i + |cb|, t.stack.top, below, c, true, tel, k);
      RunAdd(cfg, s, n, m);
      n := n + m;
    }
  }

  lemma UnfoldOp8(a: Noun, f: Noun, los: bool, tel: bool, k: nat)
    requires View(f).Op8?
    ensures var b, c := View(f).b, View(f).c;
            && Comp(f, los, tel) == Cat(Cat(Comp(b, false, false), One(Snoc(los))), Comp(c, true, tel))
            && Weight(b) < Weight(f) && Weight(c) < Weight(f)
            && Lim(a, f) == (if Lim(a, b).Val? then Lim(Cell(Lim(a, b).v, a), c) else Lim(a, b))
            && (Eval(a, b, k) == More || Eval(a, b, k) == Lim(a, b))
            && (Eval(a, b, k) == More ==> Eval(a, f, k) == More)
            && (Lim(a, b).Val? && Eval(Cell(Lim(a, b).v, a), c, k) == More ==> Eval(a, f, k) == More)
  {
    hide Lim, View;
    LimEq(a, f);
    EvalLim(a, View(f).b, k);
  }

  lemma SimOp8(cfg: Config, s: State, i: nat, bus: Noun, rest: Stack, f: Noun, los: bool, tel: bool, k: nat)
    returns (n: nat)
    requires Pre(cfg, s, i, bus, rest, f, los, tel) && View(f).Op8?
    ensures Post(cfg, s, i, bus, rest, f, los, tel, k, n)
    decreases k, Weight(f), 0
  {
    hide Comp, Step, Eval, Lim, Inv, Off, Runnable, Fetch, View, Weight, Formulaic;
    var b, c, all := View(f).b, View(f).c, CodeOf(s.key);
    UnfoldOp8(bus, f, los, tel, k);
    var cb, cc := Comp(b, false, false).value, Comp(c, true, tel).value;
    HasCat(all, i, cb + [Snoc(los)], cc);
    HasCat(all, i, cb, [Snoc(los)]);
    HasOne(all, i + |cb|, Snoc(los));
    n := Sim(cfg, s, i, bus, rest, b, false, false, k);
    var t, below := RunN(cfg, s, n), Below(los, bus, rest);
    if Ends(t, s, i + |cb|, false, Push(bus, rest)) && Lim(bus, b) == Val(t.stack.top) {
      var e := StepOp(cfg, t, i + |cb|);
      var u := Step(cfg, t);
      var m := Sim(cfg, u, i + |cb| + 1, Cell(t.stack.top, bus), below, c, true, tel, k);
      RunAdd(cfg, s, n, 1 + m);
      n := n + 1 + m;
    }
  }

  // ---- branches ----

  // The code of a branch that may not be a formula.
  function Branch(f: Noun, los: bool, tel: bool): Code {
    if Formulaic(f) then Comp(f, los, tel) else One(Bail)
  }

  ghost function LimBranch(a: Noun, f: Noun): Result {
    if Formulaic(f) then Lim(a, f) else Refused
  }

  lemma UnfoldOp6(a: Noun, f: Noun, los: bool, tel: bool, k: nat)
    requires View(f).Op6? && Comp(f, los, tel).Some?
    ensures var b, c, d := View(f).b, View(f).c, View(f).d;
            && Comp(f, los, tel) == CatIf(Comp(b, false, false), Branch(c, los, tel), Branch(d, los, tel))
            && Weight(b) < Weight(f) && Weight(c) + Weight(d) < Weight(f)
            && (var x := Lim(a, b);
                Lim(a, f) == if x == Val(YES) then LimBranch(a, c) else if x == Val(NO) then LimBranch(a, d)
                             else if x.Val? then Crash else x)
            && (Eval(a, b, k) == More || Eval(a, b, k) == Lim(a, b))
            && (Eval(a, b, k) == More ==> Eval(a, f, k) == More)
            && (Lim(a, b) == Val(YES) && Formulaic(c) && Eval(a, c, k) == More ==> Eval(a, f, k) == More)
            && (Lim(a, b) == Val(NO) && Formulaic(d) && Eval(a, d, k) == More ==> Eval(a, f, k) == More)
  {
    hide Lim, View, Formulaic;
    LimEq(a, f);
    EvalLim(a, View(f).b, k);
  }

  // One branch, which may be a bail.
  lemma SimBranch(cfg: Config, s: State, i: nat, bus: Noun, rest: Stack, f: Noun, los: bool, tel: bool, k: nat)
    returns (n: nat)
    requires ConfigOk(cfg) && At(s, i) && (tel ==> los) && s.stack == Push(bus, rest)
    requires Branch(f, los, tel).Some? && Has(CodeOf(s.key), i, Branch(f, los, tel).value)
    ensures var t := RunN(cfg, s, n);
            || (t == Dead && Fails(LimBranch(bus, f)))
            || (t.Run? && n >= k && Formulaic(f) && Eval(bus, f, k) == More)
            || (Ends(t, s, i + |Branch(f, los, tel).value|, tel, Below(los, bus, rest)) && LimBranch(bus, f) == Val(t.stack.top))
    decreases k, Weight(f), 5
  {
    hide Comp, Step, Eval, Lim, Inv, Off, Runnable, Fetch, Formulaic;
    if Formulaic(f) {
      n := Sim(cfg, s, i, bus, rest, f, los, tel, k);
    } else {
      HasOne(CodeOf(s.key), i, Bail);
      var e := StepOp(cfg, s, i);
      n := 1;
      assert RunN(cfg, s, 1) == RunN(cfg, Step(cfg, s), 0);
    }
  }

  // A test and its two branches, after the code of the condition.
  predicate IfAt(all: seq<Instr>, j: nat, yep: seq<Instr>, nop: seq<Instr>) {
    && Has(all, j + 1, yep) && Has(all, j + 1 + |yep| + 1, nop)
    && all[j] == SkipNo(|yep| + 1) && all[j + 1 + |yep|] == Skip(|nop|)
  }

  lemma HasIf(all: seq<Instr>, i: nat, cb: seq<Instr>, yep: seq<Instr>, nop: seq<Instr>)
    requires Has(all, i, cb + [SkipNo(|yep| + 1)] + (yep + [Skip(|nop|)] + nop))
    ensures Has(all, i, cb) && IfAt(all, i + |cb|, yep, nop)
  {
    hide Has;
    var j := i + |cb|;
    HasCat(all, i, cb + [SkipNo(|yep| + 1)], yep + [Skip(|nop|)] + nop);
    HasCat(all, i, cb, [SkipNo(|yep| + 1)]);
    HasOne(all, j, SkipNo(|yep| + 1));
    HasCat(all, j + 1, yep + [Skip(|nop|)], nop);
    HasCat(all, j + 1, yep, [Skip(|nop|)]);
    HasOne(all, j + 1 + |yep|, Skip(|nop|));
  }

  lemma SimOp6(cfg: Config, s: State, i: nat, bus: Noun, rest: Stack, f: Noun, los: bool, tel: bool, k: nat)
    returns (n: nat)
    requires Pre(cfg, s, i, bus, rest, f, los, tel) && View(f).Op6?
    ensures Post(cfg, s, i, bus, rest, f, los, tel, k, n)
    decreases k, Weight(f), 0
  {
    hide Comp, Step, Exec, Eval, Lim, Inv, Off, Runnable, Fetch, View, Weight, Formulaic, Branch, LimBranch, IfAt, Has;
    var b, c, d, all := View(f).b, View(f).c, View(f).d, CodeOf(s.key);
    UnfoldOp6(bus, f, los, tel, k);
    var cb, yep, nop := Comp(b, false, false).value, Branch(c, los, tel).value, Branch(d, los, tel).value;
    HasIf(all, i, cb, yep, nop);
    n := Sim(cfg, s, i, bus, rest, b, false, false, k);
    var t := RunN(cfg, s, n);
    if Ends(t, s, i + |cb|, false, Push(bus, rest)) && Lim(bus, b) == Val(t.stack.top) {
      var m := SimBranches(cfg, t, i + |cb|, bus, rest, c, d, yep, nop, los, tel, k);
      RunAdd(cfg, s, n, m);
      n := n + m;
    }
  }

  lemma StepTest(cfg: Config, t: State, j: nat, bus: Noun, rest: Stack) returns (u: State)
    requires At(t, j) && j < |CodeOf(t.key)| && CodeOf(t.key)[j].SkipNo? && t.stack.Push?
    requires j + 1 + CodeOf(t.key)[j].n <= |CodeOf(t.key)|
    ensures u == Step(cfg, t) && RunN(cfg, t, 1) == u
    ensures t.stack.top == YES ==> At(u, j + 1) && u.key == t.key && u.w == t.w && u.stack == t.stack.rest
    ensures t.stack.top == NO ==> At(u, j + 1 + CodeOf(t.key)[j].n) && u.key == t.key && u.w == t.w && u.stack == t.stack.rest
    ensures t.stack.top != YES && t.stack.top != NO ==> u == Dead
  {
    hide Comp, Step, Inv, Off, Runnable, Fetch;
    var e := StepSpan(cfg, t, j);
    u := Step(cfg, t);
    assert RunN(cfg, t, 1) == RunN(cfg, u, 0);
  }

  lemma StepJump(cfg: Config, t: State, j: nat) returns (u: State)
    requires At(t, j) && j < |CodeOf(t.key)| && CodeOf(t.key)[j].Skip?
    requires j + 1 + CodeOf(t.key)[j].n <= |CodeOf(t.key)|
    ensures u == Step(cfg, t) && RunN(cfg, t, 1) == u
    ensures At(u, j + 1 + CodeOf(t.key)[j].n) && u.key == t.key && u.w == t.w && u.stack == t.stack
  {
    hide Comp, Step, Inv, Off, Runnable, Fetch;
    var e := StepSpan(cfg, t, j);
    u := Step(cfg, t);
    assert RunN(cfg, t, 1) == RunN(cfg, u, 0);
  }

  // From the test of a branch to its end.
  lemma SimBranches(cfg: Config, t: State, j: nat, bus: Noun, rest: Stack, c: Noun, d: Noun,
                    yep: seq<Instr>, nop: seq<Instr>, los: bool, tel: bool, k: nat)
    returns (n: nat)
    requires At(t, j) && IfAt(CodeOf(t.key), j, yep, nop)
    requires ConfigOk(cfg) && (tel ==> los) && t.stack.Push? && t.stack.rest == Push(bus, rest)
    requires Branch(c, los, tel) == Some(yep) && Branch(d, los, tel) == Some(nop)
    ensures var u, end := RunN(cfg, t, n), j + 1 + |yep| + 1 + |nop|;
            var r := if t.stack.top == YES then LimBranch(bus, c) else if t.stack.top == NO then LimBranch(bus, d) else Crash;
            || (u == Dead && Fails(r))
            || (u.Run? && n >= k && t.stack.top == YES && Formulaic(c) && Eval(bus, c, k) == More)
            || (u.Run? && n >= k && t.stack.top == NO && Formulaic(d) && Eval(bus, d, k) == More)
            || (Ends(u, t, end, tel, Below(los, bus, rest)) && r == Val(u.stack.top))
    decreases k, Weight(c) + Weight(d), 6
  {
    hide Comp, Step, Exec, Eval, Lim, Inv, Off, Runnable, Fetch, Formulaic, Branch, LimBranch;
    var u := StepTest(cfg, t, j, bus, rest);
    n := 1;
    if t.stack.top == YES {
      var m := SimBranch(cfg, u, j + 1, bus, rest, c, los, tel, k);
      var x := RunN(cfg, u, m);
      n := 1 + m;
      if Ends(x, u, j + 1 + |yep|, tel, Below(los, bus, rest)) && LimBranch(bus, c) == Val(x.stack.top) && !(tel && Halting(x)) {
        var y := StepJump(cfg, x, j + 1 + |yep|);
        RunAdd(cfg, t, n, 1);
        n := n + 1;
      }
    } else if t.stack.top == NO {
      var m := SimBranch(cfg, u, j + 1 + |yep| + 1, bus, rest, d, los, tel, k);
      n := 1 + m;
    }
  }

  // ---- op 9 through ops 7 and 2 ----

  lemma UnfoldMac(a: Noun, f: Noun, los: bool, tel: bool, k: nat)
    requires View(f).Op9? && View(f).a.Atom? && View(f).a.val >= 1 && (View(f).a.val == 1 || Cap(View(f).a.val) == 3)
    ensures var g := Mac(View(f).a, View(f).c);
            && Comp(f, los, tel) == Comp(g, los, tel) && Weight(g) < Weight(f)
            && Lim(a, f) == Lim(a, g) && Eval(a, f, k) == Eval(a, g, k)
  {
    hide *;
    MacLighter(f, View(f).a, View(f).c);
    CompMac(f, los, tel);
    LimMac(a, f);
    EvalMac(a, f, k);
  }

  lemma CompMac(f: Noun, los: bool, tel: bool)
    requires View(f).Op9? && View(f).a.Atom? && View(f).a.val >= 1 && (View(f).a.val == 1 || Cap(View(f).a.val) == 3)
    ensures Comp(f, los, tel) == Comp(Mac(View(f).a, View(f).c), los, tel)
  {
    hide View, Cap, Mac;
  }

  lemma MacView(b: Noun, c: Noun)
    ensures var p := Nock4K.Pull(b);
            && View(Mac(b, c)) == Op7(c, p) && View(p) == Op2(Cell(Atom(0), Atom(1)), Cell(Atom(0), b))
            && View(Cell(Atom(0), Atom(1))) == Op0(Atom(1)) && View(Cell(Atom(0), b)) == Op0(b)
  {
  }

  lemma LimMac(a: Noun, f: Noun)
    requires View(f).Op9? && View(f).a.Atom? && View(f).a.val >= 1 && (View(f).a.val == 1 || Cap(View(f).a.val) == 3)
    ensures Lim(a, f) == Lim(a, Mac(View(f).a, View(f).c))
  {
    var b, c := View(f).a, View(f).c;
    MacView(b, c);
    hide Lim, Runnable, Frag, Cap, LimEnter, View, Mac, Nock4K.Pull;
    LimEq(a, f);
    LimEq(a, Mac(b, c));
    if Lim(a, c).Val? { LimPull(Lim(a, c).v, b); }
  }

  lemma EvalMac(a: Noun, f: Noun, k: nat)
    requires View(f).Op9? && View(f).a.Atom? && View(f).a.val >= 1 && (View(f).a.val == 1 || Cap(View(f).a.val) == 3)
    ensures Eval(a, f, k) == Eval(a, Mac(View(f).a, View(f).c), k)
  {
    var b, c := View(f).a, View(f).c;
    MacView(b, c);
    hide Runnable, Frag, Cap, Enter, View, Mac, Nock4K.Pull;
    if Eval(a, c, k).Val? { EvalPull(Eval(a, c, k).v, b, k); }
  }

  // Running the arm at an axis of the subject.
  lemma LimPull(x: Noun, b: Noun)
    requires b.Atom?
    ensures Lim(x, Nock4K.Pull(b)) ==
            if Frag(b.val, x).None? then Crash else LimEnter(x, Frag(b.val, x).value)
  {
    hide Lim, Runnable, Frag, LimEnter;
    var p, one, arm := Nock4K.Pull(b), Cell(Atom(0), Atom(1)), Cell(Atom(0), b);
    assert View(p) == Op2(one, arm);
    FragOne(x);
    LimEq(x, p);
    LimEq(x, one);
    LimEq(x, arm);
  }

  lemma EvalPull(x: Noun, b: Noun, k: nat)
    requires b.Atom?
    ensures Eval(x, Nock4K.Pull(b), k) ==
            if Frag(b.val, x).None? then Crash else Enter(x, Frag(b.val, x).value, k)
  {
    hide Runnable, Frag, Enter;
    var p, one, arm := Nock4K.Pull(b), Cell(Atom(0), Atom(1)), Cell(Atom(0), b);
    assert View(p) == Op2(one, arm);
    FragOne(x);
    assert Eval(x, one, k) == Val(x);
    assert Eval(x, arm, k) == OfOption(Frag(b.val, x));
  }

  lemma FragOne(x: Noun)
    ensures Frag(1, x) == Some(x)
  {
  }

  lemma SimMac(cfg: Config, s: State, i: nat, bus: Noun, rest: Stack, f: Noun, los: bool, tel: bool, k: nat)
    returns (n: nat)
    requires Pre(cfg, s, i, bus, rest, f, los, tel) && View(f).Op9? && View(f).a.Atom? && View(f).a.val >= 1
    requires View(f).a.val == 1 || Cap(View(f).a.val) == 3
    ensures Post(cfg, s, i, bus, rest, f, los, tel, k, n)
    decreases k, Weight(f), 0
  {
    hide Comp, Step, Eval, Lim, Inv, Off, Runnable, Fetch, View, Weight, Mac, Cap;
    UnfoldMac(bus, f, los, tel, k);
    n := Sim(cfg, s, i, bus, rest, Mac(View(f).a, View(f).c), los, tel, k);
  }

  // ---- hints ----

  // The value of a hinted formula, given its clue's.
  function Hinted(t: Noun, x: Result, y: Result): Result {
    if !x.Val? then x else if y.Val? && t == Atom(BOUT) && x.v.Atom? then Refused else y
  }

  lemma UnfoldHint(a: Noun, f: Noun, los: bool, tel: bool, k: nat)
    requires View(f).Hint?
    ensures var t, b, c := View(f).a, View(f).b, View(f).c;
            && Comp(f, los, tel) == CompHint(t, b, c, los, tel)
            && Weight(b) < Weight(f) && Weight(c) < Weight(f) && Weight(b) + Weight(c) < Weight(f)
            && Lim(a, f) == Hinted(t, Lim(a, b), Lim(a, c))
            && (Eval(a, b, k) == More || Eval(a, b, k) == Lim(a, b))
            && (Eval(a, b, k) == More ==> Eval(a, f, k) == More)
            && (Lim(a, b).Val? && Eval(a, c, k) == More ==> Eval(a, f, k) == More)
  {
    hide Lim, View, CompHint;
    LimEq(a, f);
    EvalLim(a, View(f).b, k);
  }

  // A clue has been computed and taken off the stack.
  ghost predicate GotClue(t: State, s: State, j: nat, bus: Noun, rest: Stack, b: Noun, op: Instr) {
    && s.Run? && At(t, j) && t.key == s.key && t.stack == Push(bus, rest)
    && (forall g :: g in s.w.progs ==> g in t.w.progs)
    && Lim(bus, b).Val?
    && t.w.tax == if op.Bush? then Cell(Cell(op.tag, Lim(bus, b).v), s.w.tax) else s.w.tax
  }

  // [clue ..] to [..].
  lemma StepClue(cfg: Config, s: State, i: nat, op: Instr)
    requires At(s, i) && i < |CodeOf(s.key)| && CodeOf(s.key)[i] == op && (op.Heck? || op.Slog? || op.Toss? || op.Bush?) && s.stack.Push?
    ensures var t := Step(cfg, s);
            && At(t, i + 1) && t.key == s.key && t.stack == s.stack.rest
            && t.w == if op.Bush? then s.w.(tax := Cell(Cell(op.tag, s.stack.top), s.w.tax)) else s.w
  {
    hide Comp, Step, Off, Runnable, Fetch, Inv;
    var e := StepOp(cfg, s, i);
    InvTax(s.w, Cell(Cell(if op.Bush? then op.tag else Atom(0), s.stack.top), s.w.tax));
  }

  lemma SimClue(cfg: Config, s: State, i: nat, bus: Noun, rest: Stack, b: Noun, op: Instr, k: nat) returns (n: nat)
    requires ConfigOk(cfg) && At(s, i) && s.stack == Push(bus, rest)
    requires Comp(b, false, false).Some? && (op.Heck? || op.Slog? || op.Toss? || op.Bush?)
    requires Has(CodeOf(s.key), i, Comp(b, false, false).value + [op])
    ensures var t, j := RunN(cfg, s, n), i + |Comp(b, false, false).value| + 1;
            || (t == Dead && Fails(Lim(bus, b)))
            || (t.Run? && n >= k && Eval(bus, b, k) == More)
            || GotClue(t, s, j, bus, rest, b, op)
    decreases k, Weight(b), 5
  {
    hide Comp, Step, Exec, Eval, Lim, Off, Runnable, Fetch, ProgOf, Inv;
    var cb := Comp(b, false, false).value;
    HasCat(CodeOf(s.key), i, cb, [op]);
    HasOne(CodeOf(s.key), i + |cb|, op);
    n := Sim(cfg, s, i, bus, rest, b, false, false, k);
    var t := RunN(cfg, s, n);
    if Ends(t, s, i + |cb|, false, Push(bus, rest)) && Lim(bus, b) == Val(t.stack.top) {
      StepClue(cfg, t, i + |cb|, op);
      RunAdd(cfg, s, n, 1);
      assert RunN(cfg, t, 1) == RunN(cfg, Step(cfg, t), 0);
      n := n + 1;
    }
  }

  // The trace stack and the clock play no part in the caches' honesty.
  lemma InvTax(w: World, tax: Noun)
    requires Inv(w)
    ensures Inv(w.(tax := tax)) && Inv(w.(tick := w.tick + 1))
  {
    hide Runnable, Lim, ProgOf, Frag;
    forall k | k in w.sites ensures SiteOk(w.(tax := tax), k) && SiteOk(w.(tick := w.tick + 1), k) {
      assert SiteOk(w, k);
    }
  }

  function PopOf(t: Noun): Instr {
    match HintOf(t)
    case Live => Heck
    case SlogHint => Slog
    case Trace => Bush(t)
    case _ => Toss
  }

  // Hints whose formula stays where it is.
  lemma SimPassing(cfg: Config, s: State, i: nat, bus: Noun, rest: Stack, f: Noun, los: bool, tel: bool, k: nat)
    returns (n: nat)
    requires Pre(cfg, s, i, bus, rest, f, los, tel) && View(f).Hint?
    requires var h := HintOf(View(f).a); h == Live || h == SlogHint || h == Other
    ensures Post(cfg, s, i, bus, rest, f, los, tel, k, n)
    decreases k, Weight(f), 0
  {
    hide Comp, CompHint, Step, Exec, Eval, Lim, Inv, Off, Runnable, Fetch, View, Weight, HintOf;
    var t, b, c, all := View(f).a, View(f).b, View(f).c, CodeOf(s.key);
    UnfoldHint(bus, f, los, tel, k);
    BoutDispatches(t);
    CompPassing(t, b, c, los, tel);
    var cb, cc := Comp(b, false, false).value, Comp(c, los, tel).value;
    HasCat(all, i, cb + [PopOf(t)], cc);
    n := SimClue(cfg, s, i, bus, rest, b, PopOf(t), k);
    var u := RunN(cfg, s, n);
    if GotClue(u, s, i + |cb| + 1, bus, rest, b, PopOf(t)) {
      var m := Sim(cfg, u, i + |cb| + 1, bus, rest, c, los, tel, k);
      RunAdd(cfg, s, n, m);
      n := n + m;
    }
  }

  lemma CompPassing(t: Noun, b: Noun, c: Noun, los: bool, tel: bool)
    requires var h := HintOf(t); h == Live || h == SlogHint || h == Other
    ensures CompHint(t, b, c, los, tel) == Cat(Cat(Comp(b, false, false), One(PopOf(t))), Comp(c, los, tel))
    ensures PopOf(t).Heck? || PopOf(t).Slog? || PopOf(t).Toss?
  {
    hide Comp, HintOf;
  }

  lemma StepDrop(cfg: Config, x: State, j: nat)
    requires At(x, j) && j < |CodeOf(x.key)| && CodeOf(x.key)[j] == Drop && x.w.tax.Cell?
    ensures var y := Step(cfg, x);
            && At(y, j + 1) && y.key == x.key && y.stack == x.stack && y.w == x.w.(tax := x.w.tax.tail)
  {
    hide Comp, Step, Off, Runnable, Fetch, Inv;
    var e := StepOp(cfg, x, j);
    InvTax(x.w, x.w.tax.tail);
  }

  // Hints that push on the trace stack around their formula.
  lemma SimTrace(cfg: Config, s: State, i: nat, bus: Noun, rest: Stack, f: Noun, los: bool, tel: bool, k: nat)
    returns (n: nat)
    requires Pre(cfg, s, i, bus, rest, f, los, tel) && View(f).Hint? && HintOf(View(f).a) == Trace
    ensures Post(cfg, s, i, bus, rest, f, los, tel, k, n)
    decreases k, Weight(f), 0
  {
    hide Comp, CompHint, Step, Exec, Eval, Lim, Inv, Off, Runnable, Fetch, View, Weight, HintOf;
    var t, b, c, all := View(f).a, View(f).b, View(f).c, CodeOf(s.key);
    UnfoldHint(bus, f, los, tel, k);
    BoutDispatches(t);
    assert CompHint(t, b, c, los, tel) == Cat(Cat(Comp(b, false, false), One(Bush(t))), Cat(Comp(c, los, false), One(Drop))) by { CompTrace(t, b, c, los, tel); }
    var cb, cc := Comp(b, false, false).value, Comp(c, los, false).value;
    HasCat(all, i, cb + [Bush(t)], cc + [Drop]);
    HasCat(all, i + |cb| + 1, cc, [Drop]);
    var j := i + |cb| + 1 + |cc|;
    HasOne(all, j, Drop);
    n := SimClue(cfg, s, i, bus, rest, b, Bush(t), k);
    var u := RunN(cfg, s, n);
    if GotClue(u, s, i + |cb| + 1, bus, rest, b, Bush(t)) {
      var m := Sim(cfg, u, i + |cb| + 1, bus, rest, c, los, false, k);
      RunAdd(cfg, s, n, m);
      n := n + m;
      var x := RunN(cfg, u, m);
      if Ends(x, u, j, false, Below(los, bus, rest)) && Lim(bus, c) == Val(x.stack.top) {
        StepDrop(cfg, x, j);
        RunAdd(cfg, s, n, 1);
        assert RunN(cfg, x, 1) == RunN(cfg, Step(cfg, x), 0);
        n := n + 1;
      }
    }
  }

  lemma CompTrace(t: Noun, b: Noun, c: Noun, los: bool, tel: bool)
    requires HintOf(t) == Trace
    ensures CompHint(t, b, c, los, tel) ==
            Cat(Cat(Comp(b, false, false), One(Bush(t))), Cat(Comp(c, los, false), One(Drop)))
  {
    hide Comp, HintOf;
  }

  // Memoised formulas.
  lemma SimMemoHint(cfg: Config, s: State, i: nat, bus: Noun, rest: Stack, f: Noun, los: bool, tel: bool, k: nat)
    returns (n: nat)
    requires Pre(cfg, s, i, bus, rest, f, los, tel) && View(f).Hint? && HintOf(View(f).a) == MemoHint
    ensures Post(cfg, s, i, bus, rest, f, los, tel, k, n)
    decreases k, Weight(f), 0
  {
    hide Comp, CompHint, Step, Exec, Eval, Lim, Inv, Off, Runnable, Fetch, View, Weight, HintOf;
    var t, b, c, all := View(f).a, View(f).b, View(f).c, CodeOf(s.key);
    UnfoldHint(bus, f, los, tel, k);
    BoutDispatches(t);
    CompMemo(t, b, c, los, tel);
    var cb, cc := Comp(b, false, false).value, Comp(c, true, false).value;
    var op := Memo(|cc| + 1, c, los);
    HasMemo(all, i, cb + [Toss], op, cc);
    n := SimClue(cfg, s, i, bus, rest, b, Toss, k);
    var u := RunN(cfg, s, n);
    if GotClue(u, s, i + |cb| + 1, bus, rest, b, Toss) {
      var m := SimMemo(cfg, u, i + |cb| + 1, bus, rest, c, cc, los, k);
      RunAdd(cfg, s, n, m);
      n := n + m;
    }
  }

  lemma CompMemo(t: Noun, b: Noun, c: Noun, los: bool, tel: bool)
    requires HintOf(t) == MemoHint && CompHint(t, b, c, los, tel).Some?
    ensures Comp(b, false, false).Some? && Comp(c, true, false).Some?
    ensures var cb, cc := Comp(b, false, false).value, Comp(c, true, false).value;
            CompHint(t, b, c, los, tel) == Some(cb + [Toss] + ([Memo(|cc| + 1, c, los)] + (cc + [Save])))
  {
    hide Comp, HintOf;
  }

  lemma HasMemo(all: seq<Instr>, i: nat, cb: seq<Instr>, op: Instr, cc: seq<Instr>)
    requires Has(all, i, cb + ([op] + (cc + [Save])))
    ensures var j := i + |cb|;
            Has(all, i, cb) && Has(all, j + 1, cc) && j + |cc| + 1 < |all| && all[j] == op && all[j + 1 + |cc|] == Save
  {
    hide Has;
    var j := i + |cb|;
    HasCat(all, i, cb, [op] + (cc + [Save]));
    HasCat(all, j, [op], cc + [Save]);
    HasCat(all, j + 1, cc, [Save]);
    HasOne(all, j, op);
    HasOne(all, j + 1 + |cc|, Save);
  }

  // Looking up, computing and saving a memoised formula.
  // [bus ..] to the value found, or to [bus [bus c] ..].
  lemma StepMemo(cfg: Config, s: State, i: nat, n: nat, c: Noun, los: bool, bus: Noun, rest: Stack)
    requires At(s, i) && i + 1 + n <= |CodeOf(s.key)| && CodeOf(s.key)[i] == Memo(n, c, los) && s.stack == Push(bus, rest)
    ensures var t, below := Step(cfg, s), Below(los, bus, rest);
            && t.Run? && t.key == s.key && t.w == s.w
            && if Cell(bus, c) in s.w.memo then At(t, i + 1 + n) && t.stack == Push(s.w.memo[Cell(bus, c)], below)
               else At(t, i + 1) && t.stack == Push(bus, Push(Cell(bus, c), below))
  {
    hide Comp, Step, Off, Runnable, Fetch, Inv;
    var e := StepSpan(cfg, s, i);
  }

  // [v [bus c] ..] to [v ..], remembered.
  lemma StepSave(cfg: Config, s: State, i: nat, bus: Noun, c: Noun, below: Stack)
    requires ConfigOk(cfg) && At(s, i) && i < |CodeOf(s.key)| && CodeOf(s.key)[i] == Save
    requires s.stack.Push? && s.stack.rest == Push(Cell(bus, c), below) && Lim(bus, c) == Val(s.stack.top)
    ensures var t := Step(cfg, s); At(t, i + 1) && t.key == s.key && t.stack == Push(s.stack.top, below) && Later(s.w, t.w)
  {
    hide Comp, Step, Off, Runnable, Fetch, Inv, Lim;
    var e := StepOp(cfg, s, i);
    SaveOk(cfg, s.w, bus, c, s.stack.top);
  }

  lemma SimMemo(cfg: Config, s: State, i: nat, bus: Noun, rest: Stack, c: Noun, cc: seq<Instr>, los: bool, k: nat)
    returns (n: nat)
    requires ConfigOk(cfg) && At(s, i) && s.stack == Push(bus, rest)
    requires var all := CodeOf(s.key);
             Has(all, i + 1, cc) && i + |cc| + 1 < |all| && all[i] == Memo(|cc| + 1, c, los) && all[i + 1 + |cc|] == Save
    requires Comp(c, true, false) == Some(cc)
    ensures var t := RunN(cfg, s, n);
            || (t == Dead && Fails(Lim(bus, c)))
            || (t.Run? && n >= k && Eval(bus, c, k) == More)
            || (Ends(t, s, i + 1 + |cc| + 1, false, Below(los, bus, rest)) && Lim(bus, c) == Val(t.stack.top))
    decreases k, Weight(c), 5
  {
    hide Comp, Step, Exec, Eval, Lim, Off, Runnable, Fetch, Inv;
    StepMemo(cfg, s, i, |cc| + 1, c, los, bus, rest);
    var u := Step(cfg, s);
    n := 1;
    assert RunN(cfg, s, 1) == RunN(cfg, u, 0);
    if Cell(bus, c) in s.w.memo {
      MemoTrue(s.w, bus, c);
    } else {
      var below := Below(los, bus, rest);
      var m := Sim(cfg, u, i + 1, bus, Push(Cell(bus, c), below), c, true, false, k);
      var x := RunN(cfg, u, m);
      n := 1 + m;
      if Ends(x, u, i + 1 + |cc|, false, Push(Cell(bus, c), below)) && Lim(bus, c) == Val(x.stack.top) {
        StepSave(cfg, x, i + 1 + |cc|, bus, c, below);
        RunAdd(cfg, s, n, 1);
        assert RunN(cfg, x, 1) == RunN(cfg, Step(cfg, x), 0);
        n := n + 1;
      }
    }
  }

  lemma MemoTrue(w: World, bus: Noun, c: Noun)
    requires Inv(w) && Cell(bus, c) in w.memo
    ensures Lim(bus, c) == Val(w.memo[Cell(bus, c)])
  {
    hide Runnable, Lim, SiteOk, ProgOf;
  }

  // Saving a true result keeps the memo cache honest, whatever it evicts.
  lemma SaveOk(cfg: Config, w: World, bus: Noun, c: Noun, v: Noun)
    requires ConfigOk(cfg) && Inv(w) && Lim(bus, c) == Val(v)
    ensures Inv(w.(memo := cfg.trim(w.memo[Cell(bus, c) := v])))
  {
    hide Runnable, Lim, ProgOf, Frag;
    var m := w.memo[Cell(bus, c) := v];
    var w' := w.(memo := cfg.trim(m));
    assert Submap(cfg.trim(m), m);
    forall k | k in w'.sites ensures SiteOk(w', k) { assert SiteOk(w, k); }
  }

  // ---- hints with code before and after their formula ----

  // After the `fore` instruction: [yes bus tok | rest], test, body, `hind`, skip, clean-up.
  predicate DispatchAt(all: seq<Instr>, j: nat, cc: seq<Instr>, hind: Instr) {
    && Has(all, j + 1, cc) && j + |cc| + 4 <= |all|
    && all[j] == SkipNo(|cc| + 2) && all[j + 1 + |cc|] == hind && all[j + 2 + |cc|] == Skip(1)
  }

  lemma StepHind(cfg: Config, x: State, j: nat, hind: Instr, los: bool, tok: Noun, bus: Noun, rest: Stack)
    requires At(x, j) && j < |CodeOf(x.key)| && CodeOf(x.key)[j] == hind
    requires hind == HiltHind(los) || hind == HintHind(los)
    requires x.stack.Push? && x.stack.rest == Below(los, bus, Push(tok, rest))
    ensures var y, ok := Step(cfg, x), if hind.HintHind? then HintTokenOk(tok) else HiltTokenOk(tok);
            if ok then At(y, j + 1) && y.key == x.key && y.w == x.w && y.stack == Push(x.stack.top, Below(los, bus, rest))
            else y == Dead
  {
    hide Comp, Step, Off, Runnable, Fetch, Inv, HintTokenOk, HiltTokenOk;
    var e := StepOp(cfg, x, j);
  }

  lemma SimDispatch(cfg: Config, s: State, j: nat, bus: Noun, tok: Noun, rest: Stack, c: Noun, cc: seq<Instr>, hind: Instr, los: bool, k: nat)
    returns (n: nat)
    requires At(s, j) && DispatchAt(CodeOf(s.key), j, cc, hind)
    requires ConfigOk(cfg) && s.stack == Push(YES, Push(bus, Push(tok, rest)))
    requires Comp(c, los, false) == Some(cc) && (hind == HiltHind(los) || hind == HintHind(los))
    ensures var t := RunN(cfg, s, n);
            var ok := if hind.HintHind? then HintTokenOk(tok) else HiltTokenOk(tok);
            || (t == Dead && (Fails(Lim(bus, c)) || (Lim(bus, c).Val? && !ok)))
            || (t.Run? && n >= k && Eval(bus, c, k) == More)
            || (Ends(t, s, j + |cc| + 4, false, Below(los, bus, rest)) && ok && Lim(bus, c) == Val(t.stack.top))
    decreases k, Weight(c), 5
  {
    hide Comp, Step, Exec, Eval, Lim, Off, Runnable, Fetch, Inv, HintTokenOk, HiltTokenOk;
    var u := StepTest(cfg, s, j, bus, Push(tok, rest));
    var below := Below(los, bus, Push(tok, rest));
    var m := Sim(cfg, u, j + 1, bus, Push(tok, rest), c, los, false, k);
    var x := RunN(cfg, u, m);
    n := 1 + m;
    if Ends(x, u, j + 1 + |cc|, false, below) && Lim(bus, c) == Val(x.stack.top) {
      StepHind(cfg, x, j + 1 + |cc|, hind, los, tok, bus, rest);
      var y := Step(cfg, x);
      RunAdd(cfg, s, n, 1);
      assert RunN(cfg, x, 1) == RunN(cfg, y, 0);
      n := n + 1;
      if y.Run? {
        var z := StepJump(cfg, y, j + 2 + |cc|);
        RunAdd(cfg, s, n, 1);
        n := n + 1;
      }
    }
  }

  lemma HasDispatch(all: seq<Instr>, i: nat, fore: Instr, cc: seq<Instr>, hind: Instr, los: bool)
    requires CatDispatch(fore, Some(cc), hind, los).Some?
    requires Has(all, i, CatDispatch(fore, Some(cc), hind, los).value)
    ensures |CatDispatch(fore, Some(cc), hind, los).value| == |cc| + 5
    ensures i + |cc| + 5 <= |all| && all[i] == fore && DispatchAt(all, i + 1, cc, hind)
  {
    var fen := cc + [hind, Skip(1)];
    HasCat(all, i, [fore, SkipNo(|fen|)], fen + [CleanUp(los)]);
    HasCat(all, i + 2, fen, [CleanUp(los)]);
    HasCat(all, i + 2, cc, [hind, Skip(1)]);
    assert all[i..i + 2] == [fore, SkipNo(|fen|)];
    assert all[i] == all[i..i + 2][0] && all[i + 1] == all[i..i + 2][1];
    assert all[i + 2 + |cc|..i + 4 + |cc|] == [hind, Skip(1)];
    assert all[i + 2 + |cc|] == all[i + 2 + |cc|..i + 4 + |cc|][0];
    assert all[i + 3 + |cc|] == all[i + 2 + |cc|..i + 4 + |cc|][1];
  }

  lemma UnfoldMark(a: Noun, f: Noun, los: bool, tel: bool, k: nat)
    requires View(f).Mark?
    ensures var t, c := View(f).a, View(f).c;
            && Comp(f, los, tel) == (if HintOf(t) == Dispatch
                                     then CatDispatch(HiltFore(Cell(t, c)), Comp(c, los, false), HiltHind(los), los)
                                     else Comp(c, los, tel))
            && Weight(c) < Weight(f) && Lim(a, f) == Lim(a, c) && Eval(a, f, k) == Eval(a, c, k)
  {
    hide Lim, View, HintOf, CatDispatch;
    LimEq(a, f);
  }

  // [bus ..] to [yes bus tok ..].
  lemma StepHiltFore(cfg: Config, s: State, i: nat, tag: Noun, c: Noun, bus: Noun, rest: Stack)
    requires At(s, i) && i < |CodeOf(s.key)| && CodeOf(s.key)[i] == HiltFore(Cell(tag, c)) && s.stack == Push(bus, rest)
    ensures var t := Step(cfg, s);
            && At(t, i + 1) && t.key == s.key && t.w == s.w.(tick := s.w.tick + 1)
            && t.stack == Push(YES, Push(bus, Push(HiltToken(tag, cfg.now(s.w.tick)), rest)))
  {
    hide Comp, Step, Off, Runnable, Fetch, Inv, HiltToken;
    var e := StepOp(cfg, s, i);
    InvTax(s.w, s.w.tax);
  }

  // [clue bus ..] likewise.
  lemma StepHintFore(cfg: Config, s: State, i: nat, tag: Noun, c: Noun, clue: Noun, bus: Noun, rest: Stack)
    requires At(s, i) && i < |CodeOf(s.key)| && CodeOf(s.key)[i] == HintFore(Cell(tag, c)) && s.stack == Push(clue, Push(bus, rest))
    ensures var t := Step(cfg, s);
            && At(t, i + 1) && t.key == s.key && t.w == s.w.(tick := s.w.tick + 1)
            && t.stack == Push(YES, Push(bus, Push(HintToken(tag, clue, cfg.now(s.w.tick)), rest)))
  {
    hide Comp, Step, Off, Runnable, Fetch, Inv, HintToken;
    var e := StepOp(cfg, s, i);
    InvTax(s.w, s.w.tax);
  }

  lemma SimMark(cfg: Config, s: State, i: nat, bus: Noun, rest: Stack, f: Noun, los: bool, tel: bool, k: nat)
    returns (n: nat)
    requires Pre(cfg, s, i, bus, rest, f, los, tel) && View(f).Mark?
    ensures Post(cfg, s, i, bus, rest, f, los, tel, k, n)
    decreases k, Weight(f), 0
  {
    hide Comp, Step, Exec, Eval, Lim, Inv, Off, Runnable, Fetch, View, Weight, HintOf, CatDispatch, HiltTokenOk, DispatchAt, HiltToken;
    var t, c := View(f).a, View(f).c;
    UnfoldMark(bus, f, los, tel, k);
    if HintOf(t) == Dispatch {
      n := SimMarked(cfg, s, i, bus, rest, t, c, los, k);
    } else {
      n := Sim(cfg, s, i, bus, rest, c, los, tel, k);
    }
  }

  lemma SimMarked(cfg: Config, s: State, i: nat, bus: Noun, rest: Stack, tag: Noun, c: Noun, los: bool, k: nat)
    returns (n: nat)
    requires ConfigOk(cfg) && At(s, i) && s.stack == Push(bus, rest)
    requires var code := CatDispatch(HiltFore(Cell(tag, c)), Comp(c, los, false), HiltHind(los), los);
             code.Some? && Has(CodeOf(s.key), i, code.value)
    ensures var t := RunN(cfg, s, n);
            var code := CatDispatch(HiltFore(Cell(tag, c)), Comp(c, los, false), HiltHind(los), los);
            || (t == Dead && Fails(Lim(bus, c)))
            || (t.Run? && n >= k && Eval(bus, c, k) == More)
            || (Ends(t, s, i + |code.value|, false, Below(los, bus, rest)) && Lim(bus, c) == Val(t.stack.top))
    decreases k, Weight(c), 6
  {
    hide Comp, Step, Exec, Eval, Lim, Inv, Off, Runnable, Fetch, CatDispatch, HiltTokenOk, DispatchAt, HiltToken;
    CatDispatchSome(HiltFore(Cell(tag, c)), Comp(c, los, false), HiltHind(los), los);
    var cc := Comp(c, los, false).value;
    HasDispatch(CodeOf(s.key), i, HiltFore(Cell(tag, c)), cc, HiltHind(los), los);
    StepHiltFore(cfg, s, i, tag, c, bus, rest);
    var u := Step(cfg, s);
    var tok := HiltToken(tag, cfg.now(s.w.tick));
    TokenOk(tag, cfg.now(s.w.tick));
    var m := SimDispatch(cfg, u, i + 1, bus, tok, rest, c, cc, HiltHind(los), los, k);
    n := 1 + m;
  }

  lemma CatDispatchSome(fore: Instr, body: Code, hind: Instr, los: bool)
    requires CatDispatch(fore, body, hind, los).Some?
    ensures body.Some?
  {
  }

  lemma TokenOk(t: Noun, now: nat)
    ensures HiltTokenOk(HiltToken(t, now))
    ensures forall clue :: HintTokenOk(HintToken(t, clue, now)) <==> !(t == Atom(BOUT) && clue.Atom?)
  {
  }

  lemma SimDispatchHint(cfg: Config, s: State, i: nat, bus: Noun, rest: Stack, f: Noun, los: bool, tel: bool, k: nat)
    returns (n: nat)
    requires Pre(cfg, s, i, bus, rest, f, los, tel) && View(f).Hint? && HintOf(View(f).a) == Dispatch
    ensures Post(cfg, s, i, bus, rest, f, los, tel, k, n)
    decreases k, Weight(f), 0
  {
    hide Comp, CompHint, Step, Exec, Eval, Lim, Inv, Off, Runnable, Fetch, View, Weight, HintOf, CatDispatch, HintTokenOk, HintToken, DispatchAt;
    var t, b, c, all := View(f).a, View(f).b, View(f).c, CodeOf(s.key);
    UnfoldHint(bus, f, los, tel, k);
    CompDispatch(t, b, c, los, tel);
    var fore, hind := HintFore(Cell(t, c)), HintHind(los);
    CatDispatchSome(fore, Comp(c, los, false), hind, los);
    var cb, cc := Comp(b, false, false).value, Comp(c, los, false).value;
    HasCat(all, i, cb, CatDispatch(fore, Some(cc), hind, los).value);
    HasDispatch(all, i + |cb|, fore, cc, hind, los);
    n := Sim(cfg, s, i, bus, rest, b, false, false, k);
    var x := RunN(cfg, s, n);
    if Ends(x, s, i + |cb|, false, Push(bus, rest)) && Lim(bus, b) == Val(x.stack.top) {
      StepHintFore(cfg, x, i + |cb|, t, c, x.stack.top, bus, rest);
      var u := Step(cfg, x);
      var tok := HintToken(t, x.stack.top, cfg.now(x.w.tick));
      TokenOk(t, cfg.now(x.w.tick));
      var m := SimDispatch(cfg, u, i + |cb| + 1, bus, tok, rest, c, cc, hind, los, k);
      RunAdd(cfg, s, n, 1 + m);
      n := n + 1 + m;
    }
  }

  lemma CompDispatch(t: Noun, b: Noun, c: Noun, los: bool, tel: bool)
    requires HintOf(t) == Dispatch && CompHint(t, b, c, los, tel).Some?
    ensures CompHint(t, b, c, los, tel) ==
            Cat(Comp(b, false, false), CatDispatch(HintFore(Cell(t, c)), Comp(c, los, false), HintHind(los), los))
    ensures Comp(b, false, false).Some? && CatDispatch(HintFore(Cell(t, c)), Comp(c, los, false), HintHind(los), los).Some?
  {
    hide Comp, HintOf, CatDispatch;
  }

  /** The simulation: wherever a formula's code stands in a program, running it
      computes the formula. */
  lemma Sim(cfg: Config, s: State, i: nat, bus: Noun, rest: Stack, f: Noun, los: bool, tel: bool, k: nat) returns (n: nat)
    requires Pre(cfg, s, i, bus, rest, f, los, tel)
    ensures Post(cfg, s, i, bus, rest, f, los, tel, k, n)
    decreases k, Weight(f), 2
  {
    CompForm(f, los, tel);
    hide Comp, Step, Eval, Lim, Inv, Off, Runnable, Fetch, View, Weight, HintOf, Cap, Post, Pre;
    var v := View(f);
    if TwoForm(f) { n := SimTwoForm(cfg, s, i, bus, rest, f, los, tel, k); }
    else if OneForm(f) { n := SimOneForm(cfg, s, i, bus, rest, f, los, tel, k); }
    else if LeafForm(f) { n := SimLeaf(cfg, s, i, bus, rest, f, los, tel, k); }
    else if v.Op2? { n := SimOp2(cfg, s, i, bus, rest, f, los, tel, k); }
    else if v.Op6? { n := SimOp6(cfg, s, i, bus, rest, f, los, tel, k); }
    else if v.Op7? { n := SimOp7(cfg, s, i, bus, rest, f, los, tel, k); }
    else if v.Op8? { n := SimOp8(cfg, s, i, bus, rest, f, los, tel, k); }
    else if v.Op9? && (v.a.val == 1 || Cap(v.a.val) == 3) { n := SimMac(cfg, s, i, bus, rest, f, los, tel, k); }
    else if v.Op9? { n := SimKick(cfg, s, i, bus, rest, f, los, tel, k); }
    else if v.Mark? { n := SimMark(cfg, s, i, bus, rest, f, los, tel, k); }
    else if HintOf(v.a) == Trace { n := SimTrace(cfg, s, i, bus, rest, f, los, tel, k); }
    else if HintOf(v.a) == MemoHint { n := SimMemoHint(cfg, s, i, bus, rest, f, los, tel, k); }
    else if HintOf(v.a) == Dispatch { n := SimDispatchHint(cfg, s, i, bus, rest, f, los, tel, k); }
    else { n := SimPassing(cfg, s, i, bus, rest, f, los, tel, k); }
  }

  // What compiles is one of the forms above.
  lemma CompForm(f: Noun, los: bool, tel: bool)
    requires Comp(f, los, tel).Some?
    ensures var v := View(f);
            || TwoForm(f) || OneForm(f) || LeafForm(f) || v.Op2? || v.Op6? || v.Op7? || v.Op8? || v.Mark?
            || (v.Op9? && v.a.Atom? && v.a.val >= 1) || v.Hint?
  {
    hide View, HintOf, Cap;
  }
}
