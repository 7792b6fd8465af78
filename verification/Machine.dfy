/** The bytecode machine: an operand stack interleaved with burnframes, the
    program cache, the call-site caches, the memo cache and the trace stack. */
module Machine {
  import opened Nouns
  import opened Bytecode
  import opened Compile

  datatype Stack =
    | Empty
    | Push(top: Noun, rest: Stack)
    | Frame(key: Noun, ip: nat, rest: Stack)

  // A call site that has been used: the battery it was locked to, its program.
  datatype Site = Site(bat: Noun, pog: Noun)

  datatype World = World(progs: map<Noun, Prog>, sites: map<(Noun, nat), Site>,
                         memo: map<Noun, Noun>, tax: Noun, tick: nat)

  /** `Dead` is a bail or a failed assertion; `Wrong` is a state in which the
      C code would read something that is not there. */
  datatype State =
    | Run(key: Noun, ip: nat, stack: Stack, w: World)
    | Done(v: Noun, w: World)
    | Dead
    | Wrong

  /** What a run depends on besides its state: whether this is the home road,
      which memo entries survive a save, and what the clock says. */
  datatype Config = Config(home: bool, trim: map<Noun, Noun> -> map<Noun, Noun>, now: nat -> nat)

  ghost predicate Submap(m: map<Noun, Noun>, n: map<Noun, Noun>) {
    forall k :: k in m ==> k in n && m[k] == n[k]
  }

  // A cache may forget entries but not invent them.
  ghost predicate ConfigOk(cfg: Config) {
    forall m :: Submap(cfg.trim(m), m)
  }

  // The cached program for a formula, compiling it if need be.
  function Find(w: World, f: Noun): Option<World> {
    if f in w.progs then Some(w)
    else if Runnable(f) then Some(w.(progs := w.progs[f := ProgOf(f)]))
    else None
  }

  function Goto(w: World, f: Noun, st: Stack): State {
    match Find(w, f)
    case None => Dead
    case Some(w') => Run(f, 0, st, w')
  }

  // Make sure call site `ix` of `key` holds the program for this core's arm.
  function Lock(w: World, key: Noun, ix: nat, axe: Noun, cor: Noun): Option<(Noun, World)> {
    if (key, ix) in w.sites && cor.Atom? then None
    else if (key, ix) in w.sites && w.sites[(key, ix)].bat == cor.head
    then Some((w.sites[(key, ix)].pog, w))
    else if axe.Cell? then None else
    var g := Frag(axe.val, cor);
    if g.None? then None else
    var w' := Find(w, g.value);
    if w'.None? || cor.Atom? then None
    else Some((g.value, w'.value.(sites := w'.value.sites[(key, ix) := Site(cor.head, g.value)])))
  }

  // [x bus o rest], the operands of a binary operation.
  predicate Three(st: Stack) {
    st.Push? && st.rest.Push? && st.rest.rest.Push?
  }

  // The result of a binary operation, keeping or losing the subject.
  function Leave(v: Noun, lose: bool, st: Stack): Stack
    requires Three(st)
  {
    Push(v, if lose then st.rest.rest.rest else Push(st.rest.top, st.rest.rest.rest))
  }

  // The result of a unary operation on the subject.
  function Put(v: Noun, lose: bool, st: Stack): Stack
    requires st.Push?
  {
    Push(v, if lose then st.rest else st)
  }

  // The token a hint leaves for the code after its formula.
  function HiltToken(tag: Noun, now: nat): Noun {
    if tag == Atom(BOUT) then Cell(tag, Atom(now)) else Atom(0)
  }
  function HintToken(tag: Noun, clue: Noun, now: nat): Noun {
    if tag == Atom(BOUT) then Cell(tag, Cell(clue, Atom(now))) else Atom(0)
  }

  predicate HiltTokenOk(tok: Noun) {
    if tok.Cell? then tok.head == Atom(BOUT) else tok == Atom(0)
  }
  predicate HintTokenOk(tok: Noun) {
    if tok.Cell? && tok.tail.Cell? then tok.head == Atom(BOUT) && tok.tail.head.Cell?
    else tok == Atom(0)
  }

  function Exec(cfg: Config, key: Noun, f: Fetched, st: Stack, w: World): State
    requires f.Fetched?
  {
    match f.op
    case Halt =>
      if !st.Push? then Wrong else
      (match st.rest
       case Empty => Done(st.top, w)
       case Frame(k, ip, r) => Run(k, ip, Push(st.top, r), w)
       case Push(_, _) => Wrong)
    case Bail => Dead
    case Copy => if st.Push? then Run(key, f.next, Push(st.top, st), w) else Wrong
    case Swap =>
      if st.Push? && st.rest.Push?
      then Run(key, f.next, Push(st.rest.top, Push(st.top, st.rest.rest)), w) else Wrong
    case Toss => if st.Push? then Run(key, f.next, st.rest, w) else Wrong
    case Auto(l) =>
      if Three(st) then Run(key, f.next, Leave(Cell(st.rest.rest.top, st.top), l, st), w) else Wrong
    case Snoc(l) =>
      if st.Push? && st.rest.Push?
      then Run(key, f.next, Put(Cell(st.top, st.rest.top), l, st.rest), w) else Wrong
    case Head(l) =>
      if !st.Push? then Wrong else if st.top.Atom? then Dead
      else Run(key, f.next, Put(st.top.head, l, st), w)
    case Tail_(l) =>
      if !st.Push? then Wrong else if st.top.Atom? then Dead
      else Run(key, f.next, Put(st.top.tail, l, st), w)
    case Frag_(a, l) =>
      if !st.Push? then Wrong else
      var x := Frag(a, st.top);
      if x.None? then Dead else Run(key, f.next, Put(x.value, l, st), w)
    case Lit(n, l) => if st.Push? then Run(key, f.next, Put(n, l, st), w) else Wrong
    case Nock(m) =>
      if !Three(st) then Wrong else
      var fol, prev, bus, r := st.top, st.rest.top, st.rest.rest.top, st.rest.rest.rest;
      (match m
       case Tail => Goto(w, fol, Push(bus, r))
       case Lose => Goto(w, fol, Push(bus, Frame(key, f.next, r)))
       case Keep => Goto(w, fol, Push(bus, Frame(key, f.next, Push(prev, r)))))
    case Deep => if st.Push? then Run(key, f.next, Push(Loob(st.top.Cell?), st.rest), w) else Wrong
    case Bump =>
      if !st.Push? then Wrong else if st.top.Cell? then Dead
      else Run(key, f.next, Push(Atom(st.top.val + 1), st.rest), w)
    case SameAs(n) => if st.Push? then Run(key, f.next, Push(Loob(st.top == n), st.rest), w) else Wrong
    case Same(l) =>
      if Three(st) then Run(key, f.next, Leave(Loob(st.top == st.rest.rest.top), l, st), w) else Wrong
    case Skip(_) => Run(key, f.jump, st, w)
    case SkipNo(_) =>
      if !st.Push? then Wrong
      else if st.top == NO then Run(key, f.jump, st.rest, w)
      else if st.top == YES then Run(key, f.next, st.rest, w)
      else Dead
    case Kick(axe, tail) =>
      if !st.Push? then Wrong else
      (match Lock(w, key, f.ix, axe, st.top)
       case None => Dead
       case Some((g, w')) =>
         Run(g, 0, if tail then st else Push(st.top, Frame(key, f.next, st.rest)), w'))
    case Wish(_) => if Three(st) then Dead else Wrong
    case Bush(t) =>
      if st.Push? then Run(key, f.next, st.rest, w.(tax := Cell(Cell(t, st.top), w.tax))) else Wrong
    case Drop => if w.tax.Cell? then Run(key, f.next, st, w.(tax := w.tax.tail)) else Dead
    case Heck => if st.Push? then Run(key, f.next, st.rest, w) else Wrong
    case Slog => if st.Push? then Run(key, f.next, st.rest, w) else Wrong
    case Fast(l) => if Three(st) then Run(key, f.next, Leave(st.top, l, st), w) else Wrong
    case Memo(_, k, l) =>
      if !st.Push? then Wrong else
      var memo := Cell(st.top, k);
      var below := if l then st.rest else st;
      if memo in w.memo then Run(key, f.jump, Push(w.memo[memo], below), w)
      else Run(key, f.next, Push(st.top, Push(memo, below)), w)
    case Save =>
      if !(st.Push? && st.rest.Push?) then Wrong else
      var memo := if cfg.home then w.memo else cfg.trim(w.memo[st.rest.top := st.top]);
      Run(key, f.next, Push(st.top, st.rest.rest), w.(memo := memo))
    case HiltFore(a) =>
      if !st.Push? then Wrong else if a.Atom? then Dead else
      Run(key, f.next, Push(YES, Push(st.top, Push(HiltToken(a.head, cfg.now(w.tick)), st.rest))),
          w.(tick := w.tick + 1))
    case HintFore(a) =>
      if !(st.Push? && st.rest.Push?) then Wrong else if a.Atom? then Dead else
      Run(key, f.next,
          Push(YES, Push(st.rest.top, Push(HintToken(a.head, st.top, cfg.now(w.tick)), st.rest.rest))),
          w.(tick := w.tick + 1))
    case HiltHind(l) => Hind(key, f.next, l, false, st, w)
    case HintHind(l) => Hind(key, f.next, l, true, st, w)
    case MutHead(l) =>
      if !Three(st) then Wrong else
      var o := st.rest.rest.top;
      if o.Atom? then Dead else Run(key, f.next, Leave(Cell(st.top, o.tail), l, st), w)
    case MutTail(l) =>
      if !Three(st) then Wrong else
      var o := st.rest.rest.top;
      if o.Atom? then Dead else Run(key, f.next, Leave(Cell(o.head, st.top), l, st), w)
    case MutSam(l) =>
      if !Three(st) then Wrong else
      var o := st.rest.rest.top;
      if o.Atom? || o.tail.Atom? then Dead
      else Run(key, f.next, Leave(Cell(o.head, Cell(st.top, o.tail.tail)), l, st), w)
    case Mut(a, l) =>
      if !Three(st) then Wrong else if a.Cell? then Dead else
      var x := Edit(st.rest.rest.top, a.val, st.top);
      if x.None? then Dead else Run(key, f.next, Leave(x.value, l, st), w)
  }

  // [pro tok ..] or [pro bus tok ..]: check and drop the token.
  function Hind(key: Noun, next: nat, lose: bool, dyn: bool, st: Stack, w: World): State {
    if !(st.Push? && st.rest.Push?) || (!lose && !st.rest.rest.Push?) then Wrong else
    var tok := if lose then st.rest.top else st.rest.rest.top;
    var below := if lose then st.rest.rest else Push(st.rest.top, st.rest.rest.rest);
    if (if dyn then HintTokenOk(tok) else HiltTokenOk(tok)) then Run(key, next, Push(st.top, below), w)
    else Dead
  }

  function Step(cfg: Config, s: State): State {
    if !s.Run? then s
    else if s.key !in s.w.progs then Wrong
    else
      var f := Fetch(s.w.progs[s.key], s.ip);
      if f.Fetched? then Exec(cfg, s.key, f, s.stack, s.w) else Wrong
  }

  function RunN(cfg: Config, s: State, n: nat): State
    decreases n
  {
    if n == 0 then s else RunN(cfg, Step(cfg, s), n - 1)
  }

  lemma {:induction false} RunAdd(cfg: Config, s: State, n: nat, m: nat)
    ensures RunN(cfg, s, n + m) == RunN(cfg, RunN(cfg, s, n), m)
    decreases n
  {
    if n > 0 { RunAdd(cfg, Step(cfg, s), n - 1, m); }
  }

  // A stopped machine stays stopped.
  lemma {:induction false} RunStopped(cfg: Config, s: State, n: nat)
    requires !s.Run?
    ensures RunN(cfg, s, n) == s
  {
    if n > 0 { RunStopped(cfg, s, n - 1); }
  }

  // .*(bus fol) with the caches as they are in `w`.
  function Start(w: World, bus: Noun, fol: Noun): State {
    Goto(w, fol, Push(bus, Empty))
  }
}
