/** Unifying equality: two nouns are compared with an explicit stack, equal
    parts are made to share, and what loses its last reference by that is
    freed; after many comparisons equal pairs are remembered. */
module Equality {
  import opened Nouns
  import opened Take
  import opened Mugs
  import E = InPlace

  // ---- references in order ----

  // Direct atoms are small, and indirect atoms are not.
  predicate Small(r: Ref) { r.Cat? ==> r.v < HALF }

  predicate Proper(o: Obj) { if o.AtomObj? then o.val >= HALF else Small(o.hed) && Small(o.tel) }

  ghost predicate Sorted(objs: Objs) { forall x :: x in objs ==> Proper(objs[x]) }

  ghost predicate InOrder(objs: Objs, den: map<Addr, Noun>, mm: Murmur) { Memoised(objs, den, mm) && Sorted(objs) }

  // Every reference denotes what it did.
  ghost predicate SameNouns(a: Objs, b: Objs) { forall r, n :: Denotes(a, r, n) ==> Denotes(b, r, n) }

  // ---- sharing ----

  function WithField(o: Obj, left: bool, r: Ref): Obj
    requires o.CellObj?
  {
    if left then CellObj(o.mug, r, o.tel) else CellObj(o.mug, o.hed, r)
  }

  function Field(o: Obj, left: bool): Ref
    requires o.CellObj?
  {
    if left then o.hed else o.tel
  }

  // A field replaced by a reference that denotes the same.
  lemma {:induction false} SharedStill(objs: Objs, x: Addr, left: bool, r: Ref, m: Noun, q: Ref, n: Noun)
    requires x in objs && objs[x].CellObj? && Denotes(objs, Field(objs[x], left), m) && Denotes(objs, r, m) && Denotes(objs, q, n)
    ensures Denotes(objs[x := WithField(objs[x], left, r)], q, n)
    decreases n
  {
    if q.Pom? {
      var o := objs[q.a];
      var hed, tel := if q.a == x && left then r else o.hed, if q.a == x && !left then r else o.tel;
      if q.a == x { DenotesOne(objs, Field(o, left), m, if left then n.head else n.tail); }
      SharedStill(objs, x, left, r, m, hed, n.head);
      SharedStill(objs, x, left, r, m, tel, n.tail);
    }
  }

  lemma SharedOrder(objs: Objs, den: map<Addr, Noun>, mm: Murmur, x: Addr, left: bool, r: Ref, m: Noun)
    requires InOrder(objs, den, mm) && x in objs && objs[x].CellObj? && Denotes(objs, Field(objs[x], left), m) && Denotes(objs, r, m) && Small(r)
    ensures var b := objs[x := WithField(objs[x], left, r)]; InOrder(b, den, mm) && SameNouns(objs, b) && b.Keys == objs.Keys
  {
    hide MugOf;
    var b := objs[x := WithField(objs[x], left, r)];
    forall q, n | Denotes(objs, q, n) ensures Denotes(b, q, n) { SharedStill(objs, x, left, r, m, q, n); }
    hide Denotes;
    forall y | y in b ensures y in den && Denotes(b, RefAt(b, y), den[y]) { assert RefAt(b, y) == RefAt(objs, y); }
  }

  // ---- sharing on a counted heap ----

  ghost function Muggy(mm: Murmur): E.Muggery { n => MugOf(mm, n) }

  // Every object denotes a noun and is counted.
  ghost predicate Tended(h: Heap, ext: multiset<Ref>, den: map<Addr, Noun>, mm: Murmur) {
    E.Exact(h, ext, Muggy(mm)) && InOrder(h.objs, den, mm)
  }

  // Some reference leads to what it refers to, if that is on this road.
  predicate Live(objs: Objs, r: Ref) { r.Cat? || !r.a.Normal? || r.a in objs }

  // What an object refers to is there.
  lemma FieldLive(h: Heap, ext: multiset<Ref>, f: E.Muggery, x: Addr, left: bool)
    requires E.Exact(h, ext, f) && x in h.objs && h.objs[x].CellObj?
    ensures Live(h.objs, Field(h.objs[x], left)) && (x.Senior? ==> Field(h.objs[x], left).Cat? || !Field(h.objs[x], left).a.Normal?)
  {
    hide E.Hashed, Denotes;
    var r := Field(h.objs[x], left);
    if !r.Cat? && r.a.Normal? {
      assert RefsIn(h.objs, x, r.a.i) > 0;
      if UseOf(h, r.a.i) == 0 { E.RefsZero(h.objs, 0, h.next, r.a.i, x.i); }
    }
  }

  // What is held outside is there.
  lemma HeldLive(h: Heap, ext: multiset<Ref>, f: E.Muggery, r: Ref)
    requires E.Exact(h, ext, f) && r in ext
    ensures Live(h.objs, r)
  {
    hide E.Hashed, Denotes;
    if !r.Cat? && r.a.Normal? { assert E.Held(ext, r.a.i) > 0; }
  }

  // A removed object is one that nothing refers to any more: no reference will
  // lead to it again.
  lemma GoneForGood(h: Heap, ext: multiset<Ref>, f: E.Muggery, i: nat)
    requires E.Exact(h, ext, f) && Normal(i) !in h.objs
    ensures E.Lone(h.objs, i) && E.Held(ext, i) == 0
  {
    hide E.Hashed, Denotes;
    assert UseOf(h, i) == 0;
    forall x | x in h.objs ensures RefsIn(h.objs, x, i) == 0 {
      if x.Normal? { E.RefsZero(h.objs, 0, h.next, i, x.i); }
    }
  }

  // Removing objects that nothing refers to changes no noun.
  lemma {:induction false} LiveDenotes(a: Objs, h: Heap, ext: multiset<Ref>, f: E.Muggery, r: Ref, n: Noun)
    requires E.Exact(h, ext, f) && E.Fewer(a, h.objs) && Denotes(a, r, n) && Live(h.objs, r)
    ensures Denotes(h.objs, r, n)
    decreases n
  {
    hide E.Exact;
    if r.Pom? {
      FieldLive(h, ext, f, r.a, true);
      FieldLive(h, ext, f, r.a, false);
      LiveDenotes(a, h, ext, f, a[r.a].hed, n.head);
      LiveDenotes(a, h, ext, f, a[r.a].tel, n.tail);
    }
  }

  lemma LiveOrder(a: Objs, h: Heap, ext: multiset<Ref>, den: map<Addr, Noun>, mm: Murmur)
    requires E.Exact(h, ext, Muggy(mm)) && E.Fewer(a, h.objs) && InOrder(a, den, mm)
    ensures InOrder(h.objs, den, mm)
  {
    hide E.Exact, Denotes, MugOf;
    forall x | x in h.objs ensures Denotes(h.objs, RefAt(h.objs, x), den[x]) { LiveDenotes(a, h, ext, Muggy(mm), RefAt(a, x), den[x]); }
  }

  // A field replaced: what it held is now held outside.
  lemma FieldCounts(h: Heap, ext: multiset<Ref>, f: E.Muggery, x: Addr, left: bool, r: Ref, i: nat)
    requires E.Exact(h, ext + multiset{r}, f) && x in h.objs && h.objs[x].CellObj? && (x.Senior? ==> r.Cat? || !r.a.Normal?)
    ensures var b, was := h.objs[x := WithField(h.objs[x], left, r)], Field(h.objs[x], left);
            Refs(b, 0, h.next, i) + E.Held(ext + multiset{was}, i) == Refs(h.objs, 0, h.next, i) + E.Held(ext + multiset{r}, i)
    ensures x.Senior? ==> RefsIn(h.objs[x := WithField(h.objs[x], left, r)], x, i) == 0
  {
    hide E.Hashed, Denotes, E.Held;
    var b, was := h.objs[x := WithField(h.objs[x], left, r)], Field(h.objs[x], left);
    E.HeldMore(ext, r);
    E.HeldMore(ext, was);
    if x.Normal? {
      E.RefsSwap(h.objs, b, 0, h.next, i, x.i);
    } else {
      assert RefsIn(h.objs, x, i) == 0;
      RefsSame(h.objs, b, 0, h.next, i);
    }
  }

  lemma FieldHashed(objs: Objs, f: E.Muggery, x: Addr, left: bool, r: Ref, m: Noun)
    requires E.Hashed(objs, f) && x in objs && objs[x].CellObj? && Denotes(objs, Field(objs[x], left), m) && Denotes(objs, r, m)
    ensures E.Hashed(objs[x := WithField(objs[x], left, r)], f)
  {
    var b, was := objs[x := WithField(objs[x], left, r)], Field(objs[x], left);
    SharedStill(objs, x, left, r, m, was, m);
    SharedStill(objs, x, left, r, m, r, m);
    hide Denotes;
    forall y, n | y in b && b[y].CellObj? && Denotes(b, Pom(y), n) ensures b[y].mug == Hash(0) || b[y].mug == Hash(f(n)) {
      SharedStill(b, x, left, was, m, Pom(y), n);
      assert b[x := WithField(b[x], left, was)] == objs;
    }
  }

  lemma FieldSenior(h: Heap, ext: multiset<Ref>, f: E.Muggery, x: Addr, left: bool, r: Ref)
    requires E.Exact(h, ext + multiset{r}, f) && x in h.objs && h.objs[x].CellObj? && (x.Senior? ==> r.Cat? || !r.a.Normal?)
    ensures var b := h.objs[x := WithField(h.objs[x], left, r)]; forall y, i :: y in b && y.Senior? ==> RefsIn(b, y, i) == 0
  {
    hide E.Hashed, Denotes, E.Held, Refs;
    var b := h.objs[x := WithField(h.objs[x], left, r)];
    forall y, i | y in b && y.Senior? ensures RefsIn(b, y, i) == 0 { assert RefsIn(h.objs, y, i) == 0; }
  }

  lemma FieldExact(h: Heap, ext: multiset<Ref>, f: E.Muggery, x: Addr, left: bool, r: Ref, m: Noun)
    requires E.Exact(h, ext + multiset{r}, f) && x in h.objs && h.objs[x].CellObj? && (x.Senior? ==> r.Cat? || !r.a.Normal?)
    requires Denotes(h.objs, Field(h.objs[x], left), m) && Denotes(h.objs, r, m)
    ensures E.Exact(h.(objs := h.objs[x := WithField(h.objs[x], left, r)]), ext + multiset{Field(h.objs[x], left)}, f)
  {
    FieldHashed(h.objs, f, x, left, r, m);
    FieldSenior(h, ext, f, x, left, r);
    hide E.Hashed, Denotes, E.Held, Refs, RefsIn, WithField;
    var was := Field(h.objs[x], left);
    var k := h.(objs := h.objs[x := WithField(h.objs[x], left, r)]);
    forall i: nat ensures UseOf(k, i) == Refs(k.objs, 0, k.next, i) + E.Held(ext + multiset{was}, i) {
      FieldCounts(h, ext, f, x, left, r, i);
    }
  }

  // ---- the stack ----

  datatype Stage = Whole | Heads | Tails
  datatype Duel = Duel(stage: Stage, a: Ref, b: Ref)

  // What the two sides of a frame denote.
  datatype Pair = Pair(x: Noun, y: Noun)

  // What is still to be shown for a frame once the ones above are done with.
  predicate Owes(f: Duel, p: Pair) {
    match f.stage
    case Whole => p.x == p.y
    case Heads => p.x.Cell? && p.y.Cell? && p.x.tail == p.y.tail
    case Tails => true
  }

  // What is known of a frame once the ones above are done with.
  predicate Knows(f: Duel, p: Pair) {
    match f.stage
    case Whole => true
    case Heads => p.x.Cell? && p.y.Cell? && p.x.head == p.y.head
    case Tails => p.x.Cell? && p.y.Cell? && p.x == p.y
  }

  ghost predicate Refers(objs: Objs, f: Duel, p: Pair) {
    && Denotes(objs, f.a, p.x) && Denotes(objs, f.b, p.y) && Small(f.a) && Small(f.b)
    && (!f.stage.Whole? ==> f.a.Pom? && f.b.Pom?)
  }

  // All that is owed.
  predicate Debts(stack: seq<Duel>, ps: seq<Pair>)
    requires |ps| == |stack|
  {
    forall k :: 0 <= k < |stack| ==> Owes(stack[k], ps[k])
  }

  // What is known of each frame, if all above it, and `up`, holds.
  ghost predicate Facts(objs: Objs, stack: seq<Duel>, ps: seq<Pair>, up: bool)
    decreases |stack|
  {
    |ps| == |stack| &&
    (stack != [] ==>
      && Refers(objs, stack[0], ps[0]) && (up ==> Knows(stack[0], ps[0]))
      && Facts(objs, stack[1..], ps[1..], up && Owes(stack[0], ps[0])))
  }

  lemma {:induction false} FactsStill(a: Objs, b: Objs, stack: seq<Duel>, ps: seq<Pair>, up: bool)
    requires Facts(a, stack, ps, up) && SameNouns(a, b)
    ensures Facts(b, stack, ps, up)
    decreases |stack|
  {
    hide Denotes, Owes, Knows;
    if stack != [] { FactsStill(a, b, stack[1..], ps[1..], up && Owes(stack[0], ps[0])); }
  }

  lemma FactsPush(objs: Objs, f: Duel, p: Pair, stack: seq<Duel>, ps: seq<Pair>, up: bool)
    requires Refers(objs, f, p) && (up ==> Knows(f, p)) && Facts(objs, stack, ps, up && Owes(f, p))
    ensures Facts(objs, [f] + stack, [p] + ps, up)
  {
    hide Denotes, Owes, Knows, Refers;
    assert ([f] + stack)[1..] == stack && ([p] + ps)[1..] == ps;
  }

  lemma FactsTop(objs: Objs, stack: seq<Duel>, ps: seq<Pair>, up: bool)
    requires Facts(objs, stack, ps, up) && stack != []
    ensures |ps| == |stack| && Refers(objs, stack[0], ps[0]) && (up ==> Knows(stack[0], ps[0]))
    ensures Facts(objs, stack[1..], ps[1..], up && Owes(stack[0], ps[0]))
  {
    hide Denotes, Owes, Knows, Refers;
  }

  lemma DebtsPush(f: Duel, p: Pair, stack: seq<Duel>, ps: seq<Pair>)
    requires |ps| == |stack|
    ensures Debts([f] + stack, [p] + ps) <==> Owes(f, p) && Debts(stack, ps)
  {
    hide Owes;
    var s, q := [f] + stack, [p] + ps;
    assert s[0] == f && q[0] == p;
    if Debts(s, q) {
      forall k | 0 <= k < |stack| ensures Owes(stack[k], ps[k]) { var j := k + 1; assert Owes(s[j], q[j]); }
    }
  }

  ghost function Work(f: Duel, p: Pair): nat {
    match f.stage
    case Whole => 3 * Size(p.x)
    case Heads => if p.x.Cell? then 3 * Size(p.x.tail) + 2 else 0
    case Tails => 1
  }

  ghost function AllWork(stack: seq<Duel>, ps: seq<Pair>): nat
    requires |ps| == |stack|
    decreases |stack|
  {
    if stack == [] then 0 else Work(stack[0], ps[0]) + AllWork(stack[1..], ps[1..])
  }

  lemma WorkPush(f: Duel, p: Pair, stack: seq<Duel>, ps: seq<Pair>)
    requires |ps| == |stack|
    ensures AllWork([f] + stack, [p] + ps) == Work(f, p) + AllWork(stack, ps)
  {
    hide Work;
    assert ([f] + stack)[1..] == stack && ([p] + ps)[1..] == ps;
  }

  /** Everything the loop keeps: what is known, and that the answer is yes if
      and only if all debts can be paid. */
  ghost predicate Running(objs: Objs, den: map<Addr, Noun>, mm: Murmur, stack: seq<Duel>, ps: seq<Pair>, same: bool) {
    InOrder(objs, den, mm) && Facts(objs, stack, ps, true) && (same <==> Debts(stack, ps))
  }

  // ---- what one comparison does to the stack ----

  // A pair found equal is dropped.
  lemma Settled(objs: Objs, den: map<Addr, Noun>, mm: Murmur, stack: seq<Duel>, ps: seq<Pair>, same: bool)
    requires Running(objs, den, mm, stack, ps, same) && stack != [] && Owes(stack[0], ps[0])
    ensures Running(objs, den, mm, stack[1..], ps[1..], same) && AllWork(stack[1..], ps[1..]) < AllWork(stack, ps)
  {
    hide Owes, Facts, InOrder, Debts;
    FactsTop(objs, stack, ps, true);
    assert stack == [stack[0]] + stack[1..] && ps == [ps[0]] + ps[1..];
    DebtsPush(stack[0], ps[0], stack[1..], ps[1..]);
    WorkPush(stack[0], ps[0], stack[1..], ps[1..]);
    WorkSome(objs, stack[0], ps[0]);
  }

  lemma WorkSome(objs: Objs, f: Duel, p: Pair)
    requires Refers(objs, f, p)
    ensures Work(f, p) > 0
  {
    SizeIs(p.x);
  }

  // Two cells are their heads and then their tails.
  lemma Opened(objs: Objs, den: map<Addr, Noun>, mm: Murmur, stack: seq<Duel>, ps: seq<Pair>, same: bool)
    requires Running(objs, den, mm, stack, ps, same) && stack != [] && stack[0].stage.Whole? && stack[0].a.Pom? && stack[0].b.Pom?
    ensures stack[0].a.a in objs && stack[0].b.a in objs && objs[stack[0].a.a].CellObj? && objs[stack[0].b.a].CellObj? && ps[0].x.Cell? && ps[0].y.Cell?
    ensures var f, p := stack[0], ps[0];
            var up, up' := Duel(Whole, objs[f.a.a].hed, objs[f.b.a].hed), Pair(p.x.head, p.y.head);
            var s, q := [up] + ([Duel(Heads, f.a, f.b)] + stack[1..]), [up'] + ([p] + ps[1..]);
            Running(objs, den, mm, s, q, same) && AllWork(s, q) < AllWork(stack, ps)
  {
    FactsTop(objs, stack, ps, true);
    var f, p := stack[0], ps[0];
    DenIs(objs, den, mm, f.a, p.x);
    DenIs(objs, den, mm, f.b, p.y);
    Deeper(objs, den, mm, stack, ps, same, Duel(Heads, f.a, f.b), true);
  }

  // The head or the tail of the pair on top comes next.
  lemma Deeper(objs: Objs, den: map<Addr, Noun>, mm: Murmur, stack: seq<Duel>, ps: seq<Pair>, same: bool, g: Duel, left: bool)
    requires Running(objs, den, mm, stack, ps, same) && stack != [] && g.a == stack[0].a && g.b == stack[0].b && g.a.Pom? && g.b.Pom?
    requires g.a.a in objs && g.b.a in objs && objs[g.a.a].CellObj? && objs[g.b.a].CellObj? && ps[0].x.Cell? && ps[0].y.Cell?
    requires if left then stack[0].stage.Whole? && g.stage.Heads? else stack[0].stage.Heads? && g.stage.Tails?
    ensures var p := ps[0];
            var up, up' := Duel(Whole, Field(objs[g.a.a], left), Field(objs[g.b.a], left)), Pair(if left then p.x.head else p.x.tail, if left then p.y.head else p.y.tail);
            var s, q := [up] + ([g] + stack[1..]), [up'] + ([p] + ps[1..]);
            Running(objs, den, mm, s, q, same) && AllWork(s, q) < AllWork(stack, ps)
  {
    var f, p, rest, more := stack[0], ps[0], stack[1..], ps[1..];
    var up, up' := Duel(Whole, Field(objs[g.a.a], left), Field(objs[g.b.a], left)), Pair(if left then p.x.head else p.x.tail, if left then p.y.head else p.y.tail);
    FactsTop(objs, stack, ps, true);
    assert stack == [f] + rest && ps == [p] + more;
    DebtsPush(f, p, rest, more);
    WorkPush(f, p, rest, more);
    DeeperRefers(objs, g, p, up, up', left);
    SizeIs(p.x);
    hide Facts, Debts, AllWork, InOrder, Denotes, Refers;
    assert Owes(f, p) <==> Owes(up, up') && Owes(g, p);
    assert (true && Owes(up, up')) && Owes(g, p) <==> true && Owes(f, p);
    FactsPush(objs, g, p, rest, more, true && Owes(up, up'));
    FactsPush(objs, up, up', [g] + rest, [p] + more, true);
    DebtsPush(g, p, rest, more);
    DebtsPush(up, up', [g] + rest, [p] + more);
    WorkPush(g, p, rest, more);
    WorkPush(up, up', [g] + rest, [p] + more);
  }

  lemma DeeperRefers(objs: Objs, g: Duel, p: Pair, up: Duel, up': Pair, left: bool)
    requires g.a.Pom? && g.b.Pom? && Denotes(objs, g.a, p.x) && Denotes(objs, g.b, p.y) && Sorted(objs)
    requires p.x.Cell? && p.y.Cell? && g.a.a in objs && g.b.a in objs && objs[g.a.a].CellObj? && objs[g.b.a].CellObj?
    requires up == Duel(Whole, Field(objs[g.a.a], left), Field(objs[g.b.a], left))
    requires up' == Pair(if left then p.x.head else p.x.tail, if left then p.y.head else p.y.tail)
    ensures Refers(objs, g, p) && Refers(objs, up, up')
  {
    assert Proper(objs[g.a.a]) && Proper(objs[g.b.a]);
  }

  // ---- where the pairs on the stack come from ----

  function Part(n: Noun, left: bool): Noun
    requires n.Cell?
  {
    if left then n.head else n.tail
  }

  // The pair `f` is the heads, or the tails, of the pair `g` below it.
  ghost predicate Hangs(objs: Objs, f: Duel, p: Pair, g: Duel, q: Pair) {
    && !g.stage.Whole? && g.a.Pom? && g.b.Pom? && q.x.Cell? && q.y.Cell?
    && g.a.a in objs && g.b.a in objs && objs[g.a.a].CellObj? && objs[g.b.a].CellObj?
    && f.a == Field(objs[g.a.a], g.stage.Heads?) && f.b == Field(objs[g.b.a], g.stage.Heads?)
    && p == Pair(Part(q.x, g.stage.Heads?), Part(q.y, g.stage.Heads?))
  }

  // Each pair hangs on the one below, and the last is the pair in question.
  ghost predicate Strung(objs: Objs, stack: seq<Duel>, ps: seq<Pair>, root: Duel, goal: Pair)
    decreases |stack|
  {
    && |ps| == |stack|
    && (|stack| == 1 ==> stack[0].a == root.a && stack[0].b == root.b && ps[0] == goal)
    && (|stack| > 1 ==> Hangs(objs, stack[0], ps[0], stack[1], ps[1]) && Strung(objs, stack[1..], ps[1..], root, goal))
  }

  lemma StrungPop(objs: Objs, stack: seq<Duel>, ps: seq<Pair>, root: Duel, goal: Pair)
    requires Strung(objs, stack, ps, root, goal) && stack != []
    ensures Strung(objs, stack[1..], ps[1..], root, goal)
  {
    hide Hangs;
  }

  // The heads, or the tails, of the pair on top.
  lemma StrungPush(objs: Objs, stack: seq<Duel>, ps: seq<Pair>, root: Duel, goal: Pair, g: Duel, up: Duel, up': Pair)
    requires Strung(objs, stack, ps, root, goal) && stack != [] && g.a == stack[0].a && g.b == stack[0].b
    requires Hangs(objs, up, up', g, ps[0])
    ensures Strung(objs, [up] + ([g] + stack[1..]), [up'] + ([ps[0]] + ps[1..]), root, goal)
  {
    var s, q := [g] + stack[1..], [ps[0]] + ps[1..];
    assert s[1..] == stack[1..] && q[1..] == ps[1..] && ([up] + s)[1..] == s && ([up'] + q)[1..] == q;
    assert Strung(objs, s, q, root, goal);
    hide Hangs;
  }

  // Where a cell of one pair is met again further down the stack, it is not
  // the field that is replaced that leads back up.
  lemma Apart(objs: Objs, x: Addr, left: bool, p: Pair, n: Noun, g: Duel, q: Pair)
    requires p.x.Cell? && p.y.Cell? && Part(p.x, left) == Part(p.y, left) && (n == p.x || n == p.y) && Denotes(objs, Pom(x), n)
    requires Refers(objs, g, q) && q.x.Cell? && q.y.Cell? && g.a.Pom? && g.b.Pom?
    requires Size(p.x) <= Size(Part(q.x, g.stage.Heads?)) && Size(p.y) <= Size(Part(q.y, g.stage.Heads?))
    ensures (g.a.a == x ==> g.stage.Heads? != left) && (g.b.a == x ==> g.stage.Heads? != left)
  {
    SizeIs(p.x);
    SizeIs(p.y);
    if g.a.a == x { DenotesOne(objs, g.a, q.x, n); }
    if g.b.a == x { DenotesOne(objs, g.b, q.y, n); }
    hide Size;
  }

  lemma HangsStill(objs: Objs, x: Addr, left: bool, r: Ref, f: Duel, p: Pair, g: Duel, q: Pair)
    requires Hangs(objs, f, p, g, q) && x in objs && objs[x].CellObj?
    requires (g.a.a == x ==> g.stage.Heads? != left) && (g.b.a == x ==> g.stage.Heads? != left)
    ensures Hangs(objs[x := WithField(objs[x], left, r)], f, p, g, q)
  {
  }

  // Replacing a field of a cell of the pair on top does not cut the string.
  lemma {:induction false} StrungShared(objs: Objs, x: Addr, left: bool, r: Ref, p: Pair, n: Noun, stack: seq<Duel>, ps: seq<Pair>, up: bool, root: Duel, goal: Pair)
    requires p.x.Cell? && p.y.Cell? && Part(p.x, left) == Part(p.y, left) && (n == p.x || n == p.y)
    requires x in objs && objs[x].CellObj? && Denotes(objs, Pom(x), n)
    requires Strung(objs, stack, ps, root, goal) && Facts(objs, stack, ps, up)
    requires stack != [] ==> Size(p.x) <= Size(ps[0].x) && Size(p.y) <= Size(ps[0].y)
    ensures Strung(objs[x := WithField(objs[x], left, r)], stack, ps, root, goal)
    decreases |stack|
  {
    hide Denotes, Owes, Knows, WithField;
    if |stack| > 1 {
      FactsTop(objs, stack, ps, up);
      FactsTop(objs, stack[1..], ps[1..], up && Owes(stack[0], ps[0]));
      SizeIs(ps[1].x);
      SizeIs(ps[1].y);
      hide Size, Refers;
      Apart(objs, x, left, p, n, stack[1], ps[1]);
      HangsStill(objs, x, left, r, stack[0], ps[0], stack[1], ps[1]);
      hide Hangs;
      StrungShared(objs, x, left, r, p, n, stack[1..], ps[1..], up && Owes(stack[0], ps[0]), root, goal);
    }
  }

  // Removing what nothing refers to does not cut it either.
  lemma {:induction false} StrungLive(a: Objs, h: Heap, ext: multiset<Ref>, f: E.Muggery, stack: seq<Duel>, ps: seq<Pair>, up: bool, root: Duel, goal: Pair)
    requires E.Exact(h, ext, f) && E.Fewer(a, h.objs) && root.a in ext && root.b in ext
    requires Strung(a, stack, ps, root, goal) && Facts(a, stack, ps, up)
    ensures Strung(h.objs, stack, ps, root, goal) && Facts(h.objs, stack, ps, up)
    ensures stack != [] ==> Live(h.objs, stack[0].a) && Live(h.objs, stack[0].b)
    decreases |stack|
  {
    hide E.Exact, Denotes, Owes, Knows;
    if stack != [] {
      StrungLive(a, h, ext, f, stack[1..], ps[1..], up && Owes(stack[0], ps[0]), root, goal);
      if |stack| == 1 {
        HeldLive(h, ext, f, root.a);
        HeldLive(h, ext, f, root.b);
      } else {
        FieldLive(h, ext, f, stack[1].a.a, stack[1].stage.Heads?);
        FieldLive(h, ext, f, stack[1].b.a, stack[1].stage.Heads?);
      }
      LiveDenotes(a, h, ext, f, stack[0].a, ps[0].x);
      LiveDenotes(a, h, ext, f, stack[0].b, ps[0].y);
    }
  }

  // ---- comparing one pair ----

  datatype Verdict = Alike | Unlike | Open

  // Both hashes are there and differ.
  predicate MugsDiffer(a: Obj, b: Obj) { a.mug != Hash(0) && b.mug != Hash(0) && a.mug != b.mug }

  // An atom that is not the same reference: equal if both are indirect and
  // have the same words.
  predicate AtomAlike(objs: Objs, a: Ref, b: Ref)
    requires (a.Pug? ==> a.a in objs && objs[a.a].AtomObj?) && (b.Pug? ==> b.a in objs && objs[b.a].AtomObj?)
  {
    a.Pug? && b.Pug? && !MugsDiffer(objs[a.a], objs[b.a]) && objs[a.a].val == objs[b.a].val
  }

  lemma MugsTell(objs: Objs, den: map<Addr, Noun>, mm: Murmur, a: Ref, b: Ref, p: Pair)
    requires Memoised(objs, den, mm) && Denotes(objs, a, p.x) && Denotes(objs, b, p.y) && !a.Cat? && !b.Cat?
    ensures a.a in objs && b.a in objs && (MugsDiffer(objs[a.a], objs[b.a]) ==> p.x != p.y)
  {
    hide Memoised, MugOf;
    DenIs(objs, den, mm, a, p.x);
    DenIs(objs, den, mm, b, p.y);
  }

  lemma AtomTell(objs: Objs, den: map<Addr, Noun>, mm: Murmur, a: Ref, b: Ref, p: Pair)
    requires InOrder(objs, den, mm) && Denotes(objs, a, p.x) && Denotes(objs, b, p.y) && Small(a) && Small(b) && a != b && !a.Pom?
    ensures (a.Pug? ==> a.a in objs && objs[a.a].AtomObj?) && (b.Pug? ==> b.a in objs && objs[b.a].AtomObj?)
    ensures AtomAlike(objs, a, b) <==> p.x == p.y
  {
    if a.Pug? { assert Proper(objs[a.a]); }
    if b.Pug? { assert Proper(objs[b.a]); }
    if a.Pug? && b.Pug? { MugsTell(objs, den, mm, a, b, p); }
    hide Memoised, MugOf;
  }

  // How references are made to share: not at all, or one takes the other's
  // place; which one depends on the roads they are on.
  datatype Wed = Leave | KeepA | KeepB

  predicate OnRoad(r: Ref) { !r.Cat? && r.a.Normal? }

  // A reference to this road does not take the place of one to a road above.
  ghost predicate Fair(wed: (Ref, Ref) -> Wed) {
    forall a, b :: (wed(a, b).KeepA? && OnRoad(a) ==> OnRoad(b)) && (wed(a, b).KeepB? && OnRoad(b) ==> OnRoad(a))
  }

  // A field of one side of the pair is replaced by that of the other, or not.
  ghost predicate Overwritten(a: Objs, b: Objs, f: Duel, left: bool) {
    && f.a.Pom? && f.b.Pom? && f.a.a in a && f.b.a in a && a[f.a.a].CellObj? && a[f.b.a].CellObj?
    && (|| b == a
        || b == a[f.b.a := WithField(a[f.b.a], left, Field(a[f.a.a], left))]
        || b == a[f.a.a := WithField(a[f.a.a], left, Field(a[f.b.a], left))])
  }

  /** Everything the loop keeps of the heap and of the stack: every count is
      exact, and every pair hangs on references that are held, so that nothing
      on the stack can be freed. */
  ghost predicate Steady(h: Heap, ext: multiset<Ref>, den: map<Addr, Noun>, mm: Murmur, stack: seq<Duel>, ps: seq<Pair>, same: bool, root: Duel, goal: Pair) {
    && E.Exact(h, ext, Muggy(mm)) && root.a in ext && root.b in ext
    && Running(h.objs, den, mm, stack, ps, same) && Strung(h.objs, stack, ps, root, goal)
  }

  // The pair on top made to share, and what that gave up freed.
  lemma Rejoined(h: Heap, mid: Objs, k: Heap, ext: multiset<Ref>, den: map<Addr, Noun>, mm: Murmur, stack: seq<Duel>, ps: seq<Pair>, same: bool, root: Duel, goal: Pair, left: bool)
    requires Steady(h, ext, den, mm, stack, ps, same, root, goal) && stack != [] && |ps| == |stack| && ps[0].x.Cell? && ps[0].y.Cell?
    requires Part(ps[0].x, left) == Part(ps[0].y, left)
    requires Overwritten(h.objs, mid, stack[0], left) && InOrder(mid, den, mm) && SameNouns(h.objs, mid)
    requires E.Exact(k, ext, Muggy(mm)) && E.Fewer(mid, k.objs)
    ensures Steady(k, ext, den, mm, stack, ps, same, root, goal)
  {
    hide E.Exact, E.Fewer, InOrder, Facts, Debts, SameNouns, Strung, WithField;
    var f, p := stack[0], ps[0];
    FactsTop(h.objs, stack, ps, true);
    StrungShared(h.objs, f.b.a, left, Field(h.objs[f.a.a], left), p, p.y, stack, ps, true, root, goal);
    StrungShared(h.objs, f.a.a, left, Field(h.objs[f.b.a], left), p, p.x, stack, ps, true, root, goal);
    FactsStill(h.objs, mid, stack, ps, true);
    StrungLive(mid, k, ext, Muggy(mm), stack, ps, true, root, goal);
    LiveOrder(mid, k, ext, den, mm);
  }

  // ---- what is shared in the end ----

  // A rule that makes any two references share.
  ghost predicate Eager(wed: (Ref, Ref) -> Wed) { forall a, b :: a != b ==> !wed(a, b).Leave? }

  // Two cells with the same reference on one side.
  predicate Twin(objs: Objs, f: Duel, left: bool) {
    && f.a.Pom? && f.b.Pom? && f.a.a in objs && f.b.a in objs && objs[f.a.a].CellObj? && objs[f.b.a].CellObj?
    && Field(objs[f.a.a], left) == Field(objs[f.b.a], left)
  }

  // Pairs whose tails are being compared share their heads.
  ghost predicate Halved(objs: Objs, stack: seq<Duel>) {
    forall k :: 0 <= k < |stack| && stack[k].stage.Tails? ==> Twin(objs, stack[k], true)
  }

  // If the nouns are equal, so is every pair, and pairs further down are larger.
  lemma {:induction false} Bigger(objs: Objs, stack: seq<Duel>, ps: seq<Pair>, up: bool, root: Duel, goal: Pair)
    requires Strung(objs, stack, ps, root, goal) && Facts(objs, stack, ps, up) && goal.x == goal.y
    ensures |ps| == |stack|
    ensures forall k :: 0 <= k < |stack| ==> Refers(objs, stack[k], ps[k]) && ps[k].x == ps[k].y && (k > 0 ==> Size(ps[k].x) > Size(ps[0].x))
    decreases |stack|
  {
    hide Refers, Owes, Knows, Denotes;
    if stack != [] {
      FactsTop(objs, stack, ps, up);
      var s, q := stack[1..], ps[1..];
      if |stack| > 1 {
        SizeIs(ps[1].x);
        SizeIs(ps[1].y);
        hide Size;
        Bigger(objs, s, q, up && Owes(stack[0], ps[0]), root, goal);
        assert q[0] == ps[1] && q[0].x == q[0].y;
        hide Strung, Facts;
        forall k | 0 <= k < |stack| ensures Refers(objs, stack[k], ps[k]) && ps[k].x == ps[k].y && (k > 0 ==> Size(ps[k].x) > Size(ps[0].x)) {
          if k > 0 { assert stack[k] == s[k - 1] && ps[k] == q[k - 1]; }
        }
      }
    }
  }

  // Making the pair on top share leaves larger pairs as they are.
  lemma HalvedOver(a: Objs, b: Objs, stack: seq<Duel>, ps: seq<Pair>, root: Duel, goal: Pair, left: bool)
    requires Strung(a, stack, ps, root, goal) && Facts(a, stack, ps, true) && goal.x == goal.y && stack != []
    requires Halved(a, stack) && Overwritten(a, b, stack[0], left) && (stack[0].stage.Tails? ==> !left)
    ensures Halved(b, stack)
  {
    Bigger(a, stack, ps, true, root, goal);
    hide Strung, Facts;
    forall k | 0 <= k < |stack| && stack[k].stage.Tails? ensures Twin(b, stack[k], true) {
      assert Twin(a, stack[k], true);
      if k > 0 { CellsApart(a, stack[0], ps[0], stack[k], ps[k]); }
    }
  }

  lemma CellsApart(objs: Objs, f: Duel, p: Pair, g: Duel, q: Pair)
    requires Refers(objs, f, p) && Refers(objs, g, q) && p.x == p.y && q.x == q.y && Size(q.x) > Size(p.x)
    requires f.a.Pom? && f.b.Pom? && g.a.Pom? && g.b.Pom?
    ensures f.a.a != g.a.a && f.a.a != g.b.a && f.b.a != g.a.a && f.b.a != g.b.a
  {
    if f.a.a == g.a.a { DenotesOne(objs, f.a, p.x, q.x); }
    if f.a.a == g.b.a { DenotesOne(objs, f.a, p.x, q.y); }
    if f.b.a == g.a.a { DenotesOne(objs, f.b, p.y, q.x); }
    if f.b.a == g.b.a { DenotesOne(objs, f.b, p.y, q.y); }
  }

  // What is freed is on none of these pairs.
  lemma HalvedLive(b: Objs, c: Objs, stack: seq<Duel>, ps: seq<Pair>, root: Duel, goal: Pair)
    requires Halved(b, stack) && E.Fewer(b, c) && Strung(c, stack, ps, root, goal) && Facts(c, stack, ps, true) && goal.x == goal.y
    ensures Halved(c, stack)
  {
    Bigger(c, stack, ps, true, root, goal);
    hide Strung, Facts;
    forall k | 0 <= k < |stack| && stack[k].stage.Tails? ensures Twin(c, stack[k], true) {
      assert Twin(b, stack[k], true) && Refers(c, stack[k], ps[k]);
    }
  }

  lemma HalvedAdvance(objs: Objs, stack: seq<Duel>, stack': seq<Duel>)
    requires stack != [] && Halved(objs, stack) && Twin(objs, stack[0], true)
    requires |stack'| == |stack| + 1 && stack'[0].stage.Whole? && stack'[1] == Duel(Tails, stack[0].a, stack[0].b) && stack'[2..] == stack[1..]
    ensures Halved(objs, stack')
  {
    forall k | 0 <= k < |stack'| && stack'[k].stage.Tails? ensures Twin(objs, stack'[k], true) {
      if k > 1 { assert stack'[k] == stack'[2..][k - 2] == stack[k - 1]; }
    }
  }

  lemma HalvedPop(objs: Objs, stack: seq<Duel>)
    requires stack != [] && Halved(objs, stack)
    ensures Halved(objs, stack[1..])
  {
  }

  // The last pair is done with: its cells share both sides, or are no cells.
  lemma MergedLast(objs: Objs, stack: seq<Duel>, ps: seq<Pair>, root: Duel, goal: Pair)
    requires Strung(objs, stack, ps, root, goal) && |stack| == 1 && goal.x == goal.y
    requires if stack[0].stage.Tails? then Twin(objs, stack[0], true) && Twin(objs, stack[0], false) else stack[0].a == stack[0].b || !ps[0].x.Cell?
    ensures Merged(objs, root, goal)
  {
  }

  lemma HalvedOne(objs: Objs, f: Duel)
    ensures f.stage.Whole? ==> Halved(objs, [f])
  {
  }

  // A pair that is done with taken off the stack.
  lemma LastPop(objs: Objs, stack: seq<Duel>, ps: seq<Pair>, root: Duel, goal: Pair)
    requires Strung(objs, stack, ps, root, goal) && stack != [] && |ps| == |stack| && goal.x == goal.y && Halved(objs, stack)
    requires if stack[0].stage.Tails? then Twin(objs, stack[0], false) else stack[0].a == stack[0].b || !ps[0].x.Cell?
    ensures Halved(objs, stack[1..]) && (stack[1..] == [] ==> Merged(objs, root, goal))
  {
    HalvedPop(objs, stack);
    if |stack| == 1 { MergedLast(objs, stack, ps, root, goal); }
  }

  lemma MergedNot(objs: Objs, root: Duel, goal: Pair)
    requires goal.x != goal.y
    ensures Merged(objs, root, goal)
  {
  }

  // Below the pair on top are only pairs that are being looked into.
  lemma NotWhole(objs: Objs, stack: seq<Duel>, ps: seq<Pair>, root: Duel, goal: Pair)
    requires Strung(objs, stack, ps, root, goal)
    ensures |stack| > 1 ==> !stack[1].stage.Whole?
  {
  }

  lemma TwinLive(b: Objs, c: Objs, f: Duel, p: Pair, left: bool)
    requires Twin(b, f, left) && E.Fewer(b, c) && Refers(c, f, p)
    ensures Twin(c, f, left)
  {
  }

  // Two equal cells that have been compared have both sides in common.
  ghost predicate Merged(objs: Objs, root: Duel, goal: Pair) {
    root.a != root.b && goal.x.Cell? && goal.x == goal.y ==> Twin(objs, root, true) && Twin(objs, root, false)
  }

  class Comparer {
    const heap: E.Editor
    const wed: (Ref, Ref) -> Wed

    constructor (h: E.Editor, w: (Ref, Ref) -> Wed)
      ensures heap == h && wed == w
    {
      heap, wed := h, w;
    }

    // Compare a pair as far as that goes without looking inside cells.
    method Look(f: Duel, ghost p: Pair, ghost den: map<Addr, Noun>, ghost mm: Murmur) returns (v: Verdict)
      requires InOrder(heap.objs, den, mm) && Refers(heap.objs, f, p)
      ensures v.Alike? ==> p.x == p.y && (f.a == f.b || !p.x.Cell?)
      ensures v.Unlike? ==> p.x != p.y
      ensures v.Open? ==> f.a.Pom? && f.b.Pom? && f.a != f.b
    {
      if f.a == f.b {
        DenotesOne(heap.objs, f.a, p.x, p.y);
        return Alike;
      }
      hide Memoised, MugOf;
      if !f.a.Pom? {
        AtomTell(heap.objs, den, mm, f.a, f.b, p);
        return if AtomAlike(heap.objs, f.a, f.b) then Alike else Unlike;
      }
      if !f.b.Pom? { return Unlike; }
      MugsTell(heap.objs, den, mm, f.a, f.b, p);
      v := if MugsDiffer(heap.objs[f.a.a], heap.objs[f.b.a]) then Unlike else Open;
    }

    // Put another reference to the same noun in a field, and give up the one
    // that was there.
    method Refill(x: Addr, left: bool, r: Ref, ghost m: Noun, ghost ext: multiset<Ref>, ghost den: map<Addr, Noun>, ghost mm: Murmur)
        returns (ok: bool, ghost mid: Objs)
      requires Tended(heap.Now(), ext, den, mm) && x in heap.objs && heap.objs[x].CellObj? && Small(r)
      requires Denotes(heap.objs, Field(heap.objs[x], left), m) && Denotes(heap.objs, r, m) && (OnRoad(r) ==> OnRoad(Field(heap.objs[x], left)))
      modifies heap`objs, heap`use
      ensures mid == old(heap.objs)[x := WithField(old(heap.objs)[x], left, r)]
      ensures ok ==> E.Exact(heap.Now(), ext, Muggy(mm)) && E.Fewer(mid, heap.objs) && InOrder(mid, den, mm)
      ensures ok ==> SameNouns(old(heap.objs), mid) && E.Unseen(old(heap.objs), heap.objs, ext)
      ensures !ok ==> Overflowing(heap.Now())
    {
      hide E.Exact, E.Unseen, E.Fewer, E.Spared, InOrder, Denotes, SameNouns, Overflowing, WithField;
      ghost var f, was := Muggy(mm), Field(heap.objs[x], left);
      var b := Field(heap.objs[x], left);
      FieldLive(heap.Now(), ext, f, x, left);
      mid := heap.objs[x := WithField(heap.objs[x], left, r)];
      SharedOrder(heap.objs, den, mm, x, left, r, m);
      SameUnseen(heap.objs, mid, ext);
      ok := heap.Keep(r, m, ext, f);
      if !ok { return; }
      FieldExact(heap.Now(), ext, f, x, left, r, m);
      SharedStill(heap.objs, x, left, r, m, b, m);
      heap.objs := heap.objs[x := WithField(heap.objs[x], left, r)];
      heap.Lose(b, m, ext, f);
      E.UnseenTrans(old(heap.objs), mid, heap.objs, ext);
    }

    // Make two cells share equal heads, or equal tails; the use count of the
    // one that is kept may be full.
    method Share(f: Duel, left: bool, ghost p: Pair, ghost ext: multiset<Ref>, ghost den: map<Addr, Noun>, ghost mm: Murmur) returns (ok: bool, ghost mid: Objs)
      requires Tended(heap.Now(), ext, den, mm) && Fair(wed)
      requires Refers(heap.objs, f, p) && f.a.Pom? && f.b.Pom? && p.x.Cell? && p.y.Cell? && Part(p.x, left) == Part(p.y, left)
      modifies heap`objs, heap`use
      ensures ok ==> Overwritten(old(heap.objs), mid, f, left) && InOrder(mid, den, mm) && SameNouns(old(heap.objs), mid)
      ensures ok ==> E.Exact(heap.Now(), ext, Muggy(mm)) && E.Fewer(mid, heap.objs) && E.Unseen(old(heap.objs), heap.objs, ext)
      ensures ok && Eager(wed) ==> Twin(mid, f, left)
      ensures !ok ==> Overflowing(heap.Now())
    {
      hide E.Exact, E.Unseen, E.Fewer, Memoised, SameNouns, Overflowing, MugOf;
      SharePair(heap.objs, den, mm, f, p, left);
      SameNounsSelf(heap.objs);
      E.UnseenSame(heap.objs, ext);
      E.FewerSame(heap.objs);
      var a, b := Field(heap.objs[f.a.a], left), Field(heap.objs[f.b.a], left);
      ok, mid := true, heap.objs;
      if a == b { return; }
      match wed(a, b) {
        case Leave =>
        case KeepA => ok, mid := Refill(f.b.a, left, a, Part(p.x, left), ext, den, mm);
        case KeepB => ok, mid := Refill(f.a.a, left, b, Part(p.x, left), ext, den, mm);
      }
    }

    // The same for the pair on top of the stack.
    method Join(stack: seq<Duel>, left: bool, ghost ps: seq<Pair>, ghost same: bool, ghost root: Duel, ghost goal: Pair,
                ghost ext: multiset<Ref>, ghost den: map<Addr, Noun>, ghost mm: Murmur) returns (ok: bool)
      requires |ps| == |stack| > 0 && Steady(heap.Now(), ext, den, mm, stack, ps, same, root, goal) && Fair(wed)
      requires if left then stack[0].stage.Heads? else stack[0].stage.Tails?
      modifies heap`objs, heap`use
      ensures ok ==> Steady(heap.Now(), ext, den, mm, stack, ps, same, root, goal) && E.Unseen(old(heap.objs), heap.objs, ext)
      ensures ok && goal.x == goal.y && Eager(wed) && Halved(old(heap.objs), stack) ==> Halved(heap.objs, stack) && Twin(heap.objs, stack[0], left)
      ensures !ok ==> Overflowing(heap.Now())
    {
      hide E.Exact, E.Unseen, E.Fewer, InOrder, Facts, Debts, SameNouns, Strung, Overflowing, Overwritten, Halved, Twin;
      FactsTop(heap.objs, stack, ps, true);
      ghost var h, mid := heap.Now(), heap.objs;
      ok, mid := Share(stack[0], left, ps[0], ext, den, mm);
      if ok {
        Rejoined(h, mid, heap.Now(), ext, den, mm, stack, ps, same, root, goal, left);
        if goal.x == goal.y && Eager(wed) && Halved(h.objs, stack) {
          HalvedOver(h.objs, mid, stack, ps, root, goal, left);
          HalvedLive(mid, heap.objs, stack, ps, root, goal);
          FactsTop(heap.objs, stack, ps, true);
          TwinLive(mid, heap.objs, stack[0], ps[0], left);
        }
      }
    }

    // The heads are equal: share them and go on to the tails.
    method Advance(stack: seq<Duel>, ghost ps: seq<Pair>, ghost same: bool, ghost root: Duel, ghost goal: Pair,
                   ghost ext: multiset<Ref>, ghost den: map<Addr, Noun>, ghost mm: Murmur) returns (ok: bool, stack': seq<Duel>, ghost ps': seq<Pair>)
      requires |ps| == |stack| > 0 && Steady(heap.Now(), ext, den, mm, stack, ps, same, root, goal) && Fair(wed) && stack[0].stage.Heads?
      modifies heap`objs, heap`use
      ensures ok ==> |ps'| == |stack'| && Steady(heap.Now(), ext, den, mm, stack', ps', same, root, goal) && AllWork(stack', ps') < AllWork(stack, ps)
      ensures ok ==> E.Unseen(old(heap.objs), heap.objs, ext) && |stack'| > 1
      ensures ok && goal.x == goal.y && Eager(wed) && Halved(old(heap.objs), stack) ==> Halved(heap.objs, stack')
      ensures !ok ==> Overflowing(heap.Now())
    {
      hide E.Exact, E.Unseen, InOrder, Facts, Debts, AllWork, Strung, Overflowing, Hangs, Halved, Twin;
      ghost var was := heap.objs;
      stack', ps' := stack, ps;
      ok := Join(stack, true, ps, same, root, goal, ext, den, mm);
      if !ok { return; }
      FactsTop(heap.objs, stack, ps, true);
      var f := stack[0];
      ghost var p := ps[0];
      TailsThere(heap.objs, den, mm, f, p);
      Deeper(heap.objs, den, mm, stack, ps, same, Duel(Tails, f.a, f.b), false);
      HangsHere(heap.objs, f, Tails, p);
      StrungPush(heap.objs, stack, ps, root, goal, Duel(Tails, f.a, f.b), Duel(Whole, heap.objs[f.a.a].tel, heap.objs[f.b.a].tel), Pair(p.x.tail, p.y.tail));
      stack' := [Duel(Whole, heap.objs[f.a.a].tel, heap.objs[f.b.a].tel)] + ([Duel(Tails, f.a, f.b)] + stack[1..]);
      ps' := [Pair(p.x.tail, p.y.tail)] + ([p] + ps[1..]);
      if goal.x == goal.y && Eager(wed) && Halved(was, stack) { HalvedAdvance(heap.objs, stack, stack'); }
    }

    // Two cells: go on to their heads.
    method GoIn(stack: seq<Duel>, ghost ps: seq<Pair>, ghost same: bool, ghost root: Duel, ghost goal: Pair,
                ghost ext: multiset<Ref>, ghost den: map<Addr, Noun>, ghost mm: Murmur) returns (stack': seq<Duel>, ghost ps': seq<Pair>)
      requires |ps| == |stack| > 0 && Steady(heap.Now(), ext, den, mm, stack, ps, same, root, goal)
      requires stack[0].stage.Whole? && stack[0].a.Pom? && stack[0].b.Pom?
      ensures |ps'| == |stack'| && Steady(heap.Now(), ext, den, mm, stack', ps', same, root, goal) && AllWork(stack', ps') < AllWork(stack, ps)
      ensures |stack'| > 1 && (Halved(heap.objs, stack) ==> Halved(heap.objs, stack'))
    {
      hide E.Exact, InOrder, Facts, Debts, AllWork, Strung, Hangs, Twin;
      var f := stack[0];
      ghost var p := ps[0];
      Opened(heap.objs, den, mm, stack, ps, same);
      HangsHere(heap.objs, f, Heads, p);
      StrungPush(heap.objs, stack, ps, root, goal, Duel(Heads, f.a, f.b), Duel(Whole, heap.objs[f.a.a].hed, heap.objs[f.b.a].hed), Pair(p.x.head, p.y.head));
      stack' := [Duel(Whole, heap.objs[f.a.a].hed, heap.objs[f.b.a].hed)] + ([Duel(Heads, f.a, f.b)] + stack[1..]);
      ps' := [Pair(p.x.head, p.y.head)] + ([p] + ps[1..]);
    }

    /** Compare with equal pairs remembered. */
    method Cape(start: seq<Duel>, ghost qs: seq<Pair>, ghost same: bool, ghost root: Duel, ghost goal: Pair,
                ghost ext: multiset<Ref>, ghost den: map<Addr, Noun>, ghost mm: Murmur) returns (ok: bool, yes: bool)
      requires Steady(heap.Now(), ext, den, mm, start, qs, same, root, goal) && Fair(wed) && start != []
      requires goal.x == goal.y && Eager(wed) ==> Halved(heap.objs, start)
      modifies heap`objs, heap`use
      ensures ok ==> yes == same && Tended(heap.Now(), ext, den, mm) && E.Unseen(old(heap.objs), heap.objs, ext)
      ensures ok && yes && Eager(wed) ==> Merged(heap.objs, root, goal)
      ensures !ok ==> Overflowing(heap.Now())
    {
      hide E.Exact, E.Unseen, InOrder, Facts, Debts, AllWork, Running, Strung, Refers, Overflowing, Fair, Eager, Halved, Twin, Merged;
      var stack, har: set<(Addr, Addr)> := start, {};
      ghost var ps := qs;
      ok := true;
      ghost var tight := goal.x == goal.y && Eager(wed);
      E.UnseenSame(heap.objs, ext);
      RunningSize(heap.objs, den, mm, stack, ps, same);
      while stack != []
        invariant |ps| == |stack| && Steady(heap.Now(), ext, den, mm, stack, ps, same, root, goal) && E.Unseen(old(heap.objs), heap.objs, ext)
        invariant Equals(har, den) && (|stack| == 1 && stack[0].stage.Whole? ==> har == {})
        invariant tight ==> Halved(heap.objs, stack) && (stack == [] ==> Merged(heap.objs, root, goal))
        decreases AllWork(stack, ps)
      {
        ghost var was := heap.objs;
        var f := stack[0];
        ghost var p := ps[0];
        Top(heap.objs, den, mm, stack, ps, same);
        if f.stage.Heads? {
          ok, stack, ps := Advance(stack, ps, same, root, goal, ext, den, mm);
          if !ok { return false, false; }
          E.UnseenTrans(old(heap.objs), was, heap.objs, ext);
          continue;
        }
        if f.stage.Tails? {
          ok := Join(stack, false, ps, same, root, goal, ext, den, mm);
          if !ok { return false, false; }
          E.UnseenTrans(old(heap.objs), was, heap.objs, ext);
        } else {
          var v := Look(f, p, den, mm);
          if v.Unlike? { Refuted(heap.objs, den, mm, stack, ps, same); return true, false; }
          if v.Open? {
            if (f.a.a, f.b.a) in har {
              HarHit(heap.objs, den, mm, har, f, p);
              Settled(heap.objs, den, mm, stack, ps, same);
              StrungPop(heap.objs, stack, ps, root, goal);
              NotWhole(heap.objs, stack, ps, root, goal);
              if tight { HalvedPop(heap.objs, stack); }
              stack, ps := stack[1..], ps[1..];
              continue;
            }
            stack, ps := GoIn(stack, ps, same, root, goal, ext, den, mm);
            continue;
          }
        }
        if f.a != f.b {
          Keepable(heap.objs, den, mm, stack, ps, same, har);
          har := har + {(f.a.a, f.b.a)};
        }
        Paid(heap.objs, den, mm, stack, ps, same);
        Settled(heap.objs, den, mm, stack, ps, same);
        StrungPop(heap.objs, stack, ps, root, goal);
        NotWhole(heap.objs, stack, ps, root, goal);
        if tight { LastPop(heap.objs, stack, ps, root, goal); }
        stack, ps := stack[1..], ps[1..];
      }
      NothingOwed(heap.objs, den, mm, ps, same);
      if goal.x != goal.y { MergedNot(heap.objs, root, goal); }
      yes := true;
    }

    /** Compare two nouns that are held; after 65,536 comparisons go on with
        equal pairs remembered.  The answer is right and no held reference
        denotes anything else, or a use count is full. */
    method Sing(a: Ref, b: Ref, ghost x: Noun, ghost y: Noun, ghost ext: multiset<Ref>, ghost den: map<Addr, Noun>, ghost mm: Murmur) returns (ok: bool, yes: bool)
      requires Tended(heap.Now(), ext, den, mm) && a in ext && b in ext && Fair(wed)
      requires Denotes(heap.objs, a, x) && Denotes(heap.objs, b, y) && Small(a) && Small(b)
      modifies heap`objs, heap`use
      ensures ok ==> (yes <==> x == y) && Tended(heap.Now(), ext, den, mm) && E.Unseen(old(heap.objs), heap.objs, ext)
      ensures ok && yes && Eager(wed) ==> Merged(heap.objs, Duel(Whole, a, b), Pair(x, y))
      ensures !ok ==> Overflowing(heap.Now())
    {
      hide E.Exact, E.Unseen, InOrder, Facts, Debts, AllWork, Running, Strung, Refers, Denotes, Overflowing, Fair, Eager, Halved, Twin, Merged;
      var stack, ovr := [Duel(Whole, a, b)], 0;
      ghost var ps, same, root, goal := [Pair(x, y)], x == y, Duel(Whole, a, b), Pair(x, y);
      Begin(heap.objs, den, mm, a, b, x, y);
      StrungOne(heap.objs, root, goal);
      ok := true;
      ghost var tight := x == y && Eager(wed);
      HalvedOne(heap.objs, root);
      E.UnseenSame(heap.objs, ext);
      while stack != []
        invariant |ps| == |stack| && Steady(heap.Now(), ext, den, mm, stack, ps, same, root, goal) && E.Unseen(old(heap.objs), heap.objs, ext)
        invariant tight ==> Halved(heap.objs, stack) && (stack == [] ==> Merged(heap.objs, root, goal))
        decreases AllWork(stack, ps)
      {
        ghost var was := heap.objs;
        var f := stack[0];
        ghost var p := ps[0];
        Top(heap.objs, den, mm, stack, ps, same);
        if f.stage.Heads? {
          ok, stack, ps := Advance(stack, ps, same, root, goal, ext, den, mm);
          if !ok { return false, false; }
          E.UnseenTrans(old(heap.objs), was, heap.objs, ext);
          continue;
        }
        if f.stage.Tails? {
          ok := Join(stack, false, ps, same, root, goal, ext, den, mm);
          if !ok { return false, false; }
          E.UnseenTrans(old(heap.objs), was, heap.objs, ext);
        } else {
          var v := Look(f, p, den, mm);
          if v.Unlike? { Refuted(heap.objs, den, mm, stack, ps, same); return true, false; }
          if v.Open? {
            stack, ps := GoIn(stack, ps, same, root, goal, ext, den, mm);
            continue;
          }
        }
        ovr := (ovr + 1) % 0x1_0000;
        if ovr == 0 {
          was := heap.objs;
          ok, yes := Cape(stack, ps, same, root, goal, ext, den, mm);
          if ok { E.UnseenTrans(old(heap.objs), was, heap.objs, ext); }
          return;
        }
        Paid(heap.objs, den, mm, stack, ps, same);
        Settled(heap.objs, den, mm, stack, ps, same);
        StrungPop(heap.objs, stack, ps, root, goal);
        if tight { LastPop(heap.objs, stack, ps, root, goal); }
        stack, ps := stack[1..], ps[1..];
      }
      NothingOwed(heap.objs, den, mm, ps, same);
      yes := true;
    }
  }

  lemma SameUnseen(a: Objs, b: Objs, ext: multiset<Ref>)
    requires SameNouns(a, b)
    ensures E.Unseen(a, b, ext)
  {
    hide Denotes;
  }

  lemma SharePair(objs: Objs, den: map<Addr, Noun>, mm: Murmur, f: Duel, p: Pair, left: bool)
    requires InOrder(objs, den, mm) && Refers(objs, f, p) && f.a.Pom? && f.b.Pom? && p.x.Cell? && p.y.Cell?
    ensures f.a.a in objs && f.b.a in objs && objs[f.a.a].CellObj? && objs[f.b.a].CellObj?
    ensures var a, b := Field(objs[f.a.a], left), Field(objs[f.b.a], left);
            Denotes(objs, a, Part(p.x, left)) && Denotes(objs, b, Part(p.y, left)) && Small(a) && Small(b)
  {
    DenIs(objs, den, mm, f.a, p.x);
    DenIs(objs, den, mm, f.b, p.y);
    assert Proper(objs[f.a.a]) && Proper(objs[f.b.a]);
  }

  lemma HangsHere(objs: Objs, f: Duel, stage: Stage, p: Pair)
    requires f.a.Pom? && f.b.Pom? && f.a.a in objs && f.b.a in objs && objs[f.a.a].CellObj? && objs[f.b.a].CellObj?
    requires p.x.Cell? && p.y.Cell? && !stage.Whole?
    ensures var left := stage.Heads?;
            Hangs(objs, Duel(Whole, Field(objs[f.a.a], left), Field(objs[f.b.a], left)), Pair(Part(p.x, left), Part(p.y, left)), Duel(stage, f.a, f.b), p)
  {
  }

  lemma StrungOne(objs: Objs, root: Duel, goal: Pair)
    ensures Strung(objs, [root], [goal], root, goal)
  {
  }

  lemma Begin(objs: Objs, den: map<Addr, Noun>, mm: Murmur, a: Ref, b: Ref, x: Noun, y: Noun)
    requires InOrder(objs, den, mm) && Denotes(objs, a, x) && Denotes(objs, b, y) && Small(a) && Small(b)
    ensures Running(objs, den, mm, [Duel(Whole, a, b)], [Pair(x, y)], x == y)
  {
    hide InOrder, Denotes;
    var f, p := Duel(Whole, a, b), Pair(x, y);
    FactsPush(objs, f, p, [], [], true);
    DebtsPush(f, p, [], []);
    assert [f] + [] == [f] && [p] + [] == [p];
  }

  lemma TailsThere(objs: Objs, den: map<Addr, Noun>, mm: Murmur, f: Duel, p: Pair)
    requires InOrder(objs, den, mm) && Refers(objs, f, p) && f.a.Pom? && f.b.Pom?
    ensures f.a.a in objs && f.b.a in objs && objs[f.a.a].CellObj? && objs[f.b.a].CellObj?
  {
    DenIs(objs, den, mm, f.a, p.x);
    DenIs(objs, den, mm, f.b, p.y);
  }

  lemma SameNounsSelf(a: Objs)
    ensures SameNouns(a, a)
  {
  }

  lemma RunningSize(objs: Objs, den: map<Addr, Noun>, mm: Murmur, stack: seq<Duel>, ps: seq<Pair>, same: bool)
    requires Running(objs, den, mm, stack, ps, same)
    ensures |ps| == |stack| && InOrder(objs, den, mm)
  {
  }

  lemma Top(objs: Objs, den: map<Addr, Noun>, mm: Murmur, stack: seq<Duel>, ps: seq<Pair>, same: bool)
    requires Running(objs, den, mm, stack, ps, same) && stack != []
    ensures |ps| == |stack| && InOrder(objs, den, mm) && Refers(objs, stack[0], ps[0]) && Knows(stack[0], ps[0])
  {
    FactsTop(objs, stack, ps, true);
  }

  // Pairs of objects that denote the same noun.
  ghost predicate Equals(har: set<(Addr, Addr)>, den: map<Addr, Noun>) {
    forall k :: k in har ==> k.0 in den && k.1 in den && den[k.0] == den[k.1]
  }

  lemma HarHit(objs: Objs, den: map<Addr, Noun>, mm: Murmur, har: set<(Addr, Addr)>, f: Duel, p: Pair)
    requires InOrder(objs, den, mm) && Refers(objs, f, p) && f.a.Pom? && f.b.Pom? && Equals(har, den) && (f.a.a, f.b.a) in har && f.stage.Whole?
    ensures Owes(f, p)
  {
    DenIs(objs, den, mm, f.a, p.x);
    DenIs(objs, den, mm, f.b, p.y);
  }

  lemma Keepable(objs: Objs, den: map<Addr, Noun>, mm: Murmur, stack: seq<Duel>, ps: seq<Pair>, same: bool, har: set<(Addr, Addr)>)
    requires Running(objs, den, mm, stack, ps, same) && stack != [] && |ps| == |stack| && ps[0].x == ps[0].y && stack[0].a != stack[0].b && Equals(har, den)
    ensures !stack[0].a.Cat? && !stack[0].b.Cat? && Equals(har + {(stack[0].a.a, stack[0].b.a)}, den)
  {
    FactsTop(objs, stack, ps, true);
    var f, p := stack[0], ps[0];
    hide Memoised, MugOf, Facts, Debts;
    if !f.a.Pom? { AtomTell(objs, den, mm, f.a, f.b, p); }
    DenIs(objs, den, mm, f.a, p.x);
    DenIs(objs, den, mm, f.b, p.y);
  }

  lemma Paid(objs: Objs, den: map<Addr, Noun>, mm: Murmur, stack: seq<Duel>, ps: seq<Pair>, same: bool)
    requires Running(objs, den, mm, stack, ps, same) && stack != [] && |ps| == |stack| && ps[0].x == ps[0].y && !stack[0].stage.Heads?
    ensures Owes(stack[0], ps[0])
  {
  }

  lemma Refuted(objs: Objs, den: map<Addr, Noun>, mm: Murmur, stack: seq<Duel>, ps: seq<Pair>, same: bool)
    requires Running(objs, den, mm, stack, ps, same) && stack != [] && |ps| == |stack| && ps[0].x != ps[0].y && stack[0].stage.Whole?
    ensures !same && InOrder(objs, den, mm)
  {
    hide Facts, InOrder;
    assert !Owes(stack[0], ps[0]);
  }

  lemma NothingOwed(objs: Objs, den: map<Addr, Noun>, mm: Murmur, ps: seq<Pair>, same: bool)
    requires Running(objs, den, mm, [], ps, same)
    ensures same && InOrder(objs, den, mm)
  {
  }

  // ---- a remembered pair can outlive its object ----

  /** An object whose one reference was the field that is replaced is freed,
      whether it is in a remembered pair or not. */
  lemma Forgotten(h: Heap, ext: multiset<Ref>, f: E.Muggery, x: Addr, left: bool, r: Ref, i: nat, k: Heap)
    requires E.Exact(h, ext, f) && x in h.objs && h.objs[x].CellObj?
    requires E.RefersTo(Field(h.objs[x], left), i) && UseOf(h, i) == 1 && !E.RefersTo(r, i)
    requires E.Exact(k, ext, f) && E.Fewer(h.objs[x := WithField(h.objs[x], left, r)], k.objs)
    ensures Normal(i) !in k.objs
  {
    hide E.Hashed, Denotes, E.Fewer;
    var b := h.objs[x := WithField(h.objs[x], left, r)];
    FieldLive(h, ext, f, x, left);
    assert x.Normal?;
    OthersNone(h, ext, f, x, left, i);
    E.RefsSwap(h.objs, b, 0, h.next, i, x.i);
    forall y | y in b ensures RefsIn(b, y, i) == 0 { if y.Normal? { E.RefsZero(b, 0, h.next, i, y.i); } else { assert RefsIn(h.objs, y, i) == 0; } }
    NoneLeft(b, k, ext, f, i);
  }

  // All there is to an object with one use.
  lemma OthersNone(h: Heap, ext: multiset<Ref>, f: E.Muggery, x: Addr, left: bool, i: nat)
    requires E.Exact(h, ext, f) && x in h.objs && x.Normal? && h.objs[x].CellObj?
    requires E.RefersTo(Field(h.objs[x], left), i) && UseOf(h, i) == 1
    ensures RefsIn(h.objs, x, i) == 1 && Refs(h.objs, 0, h.next, i) == 1 && E.Held(ext, i) == 0
  {
    hide E.Hashed, Denotes;
    var empty := h.objs - {x};
    E.RefsSwap(h.objs, empty, 0, h.next, i, x.i);
  }

  // What no object and no held reference refers to is gone.
  lemma NoneLeft(a: Objs, h: Heap, ext: multiset<Ref>, f: E.Muggery, i: nat)
    requires E.Exact(h, ext, f) && E.Fewer(a, h.objs) && E.Lone(a, i) && E.Held(ext, i) == 0
    ensures Normal(i) !in h.objs
  {
    hide E.Hashed, Denotes;
    NoRefs(h.objs, 0, h.next, i);
  }

  lemma {:induction false} NoRefs(objs: Objs, lo: nat, hi: nat, i: nat)
    requires E.Lone(objs, i)
    ensures Refs(objs, lo, hi, i) == 0
    decreases hi
  {
    if lo < hi { NoRefs(objs, lo, hi - 1, i); }
  }
}
