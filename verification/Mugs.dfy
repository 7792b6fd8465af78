/** Hashing a noun with an explicit stack and memo slots, against plain
    recursion. */
module Mugs {
  import opened Nouns
  import opened Take

  // ---- the hash of a noun ----

  // The 32-bit hash of an atom, and of two hashes, under a seed.
  datatype Murmur = Murmur(atom: (nat, nat) -> nat, both: (nat, nat, nat) -> nat)

  const HALF: nat := 0x8000_0000
  const SEED: nat := 0xcafe_babe
  const SYD: nat := 0xdead_beef

  // (haz >> 31) ^ (haz & 0x7fffffff)
  function Fold(haz: nat): (r: nat)
    ensures r < HALF
  {
    var w := haz % (2 * HALF);
    if w < HALF then w else if w % 2 == 0 then w - HALF + 1 else w - HALF - 1
  }

  // Try eight seeds for a hash that is not zero.
  function Retry(haz: nat -> nat, seed: nat, i: nat, last: nat): (r: nat)
    requires 0 < last < HALF
    ensures 0 < r < HALF
    decreases 8 - i
  {
    if i >= 8 then last
    else if Fold(haz(seed)) == 0 then Retry(haz, seed + 1, i + 1, last)
    else Fold(haz(seed))
  }

  function AtomUnder(mm: Murmur, v: nat): nat -> nat { (syd: nat) => mm.atom(syd, v) }

  function MugAtom(mm: Murmur, v: nat): (r: nat)
    ensures 0 < r < HALF
  {
    Retry(AtomUnder(mm, v), SEED, 0, 0x7fff)
  }

  function BothUnder(mm: Murmur, lef: nat, rit: nat): nat -> nat { (syd: nat) => mm.both(syd, lef, rit) }

  function MugBoth(mm: Murmur, lef: nat, rit: nat): (r: nat)
    ensures 0 < r < HALF
  {
    Retry(BothUnder(mm, lef, rit), SYD, 0, 0xfffe)
  }

  function MugOf(mm: Murmur, n: Noun): (r: nat)
    ensures 0 < r < HALF
  {
    match n
    case Atom(v) => MugAtom(mm, v)
    case Cell(h, t) => MugBoth(mm, MugOf(mm, h), MugOf(mm, t))
  }

  /** The top bit is folded into the lowest: a raw hash below 2^31 is kept, and
      with the top bit set it differs from the same without it in the lowest
      bit alone. */
  lemma FoldLaw(w: nat)
    requires w < HALF
    ensures Fold(w) == w && Fold(HALF + w) / 2 == w / 2 && Fold(HALF + w) % 2 != w % 2
    ensures HALF == 0x8000_0000
  {
    var x := HALF + w;
    assert w % (2 * HALF) == w && x % (2 * HALF) == x && x % 2 == w % 2;
    assert Fold(x) == if w % 2 == 0 then w + 1 else w - 1;
    hide Fold;
  }

  /** The first of eight raw hashes that does not fold to zero, folded; or
      `last`. */
  ghost predicate FirstOf(raws: seq<nat>, last: nat, r: nat) {
    && |raws| == 8
    && if forall i :: 0 <= i < 8 ==> Fold(raws[i]) == 0 then r == last
       else exists i :: 0 <= i < 8 && Fold(raws[i]) == r != 0 && forall j :: 0 <= j < i ==> Fold(raws[j]) == 0
  }

  lemma {:induction false} RetryFirst(haz: nat -> nat, seed: nat, i: nat, last: nat, raws: seq<nat>)
    requires 0 < last < HALF && i <= 8 == |raws| && (forall j :: 0 <= j < 8 ==> raws[j] == haz(seed + j))
    requires forall j :: 0 <= j < i ==> Fold(raws[j]) == 0
    ensures FirstOf(raws, last, Retry(haz, seed + i, i, last))
    decreases 8 - i
  {
    hide Fold;
    if i < 8 && Fold(raws[i]) == 0 { RetryFirst(haz, seed, i + 1, last, raws); }
  }

  /** The hash of an atom comes from eight seeds from 0xcafebabe on. */
  lemma MugAtomLaw(mm: Murmur, v: nat, raws: seq<nat>)
    requires |raws| == 8 && forall i :: 0 <= i < 8 ==> raws[i] == mm.atom(0xcafe_babe + i, v)
    ensures FirstOf(raws, 0x7fff, MugOf(mm, Atom(v)))
  {
    hide Retry, Fold, FirstOf;
    RetryFirst(AtomUnder(mm, v), SEED, 0, 0x7fff, raws);
  }

  /** That of a cell comes from the hashes of its head and its tail, under
      eight seeds from 0xdeadbeef on. */
  lemma MugCellLaw(mm: Murmur, h: Noun, t: Noun, raws: seq<nat>)
    requires |raws| == 8 && forall i :: 0 <= i < 8 ==> raws[i] == mm.both(0xdead_beef + i, MugOf(mm, h), MugOf(mm, t))
    ensures FirstOf(raws, 0xfffe, MugOf(mm, Cell(h, t)))
  {
    hide Retry, Fold, FirstOf;
    RetryFirst(BothUnder(mm, MugOf(mm, h), MugOf(mm, t)), SYD, 0, 0xfffe, raws);
  }

  // The loop over seeds.
  method Join(mm: Murmur, lef: nat, rit: nat) returns (ham: nat)
    ensures ham == MugBoth(mm, lef, rit)
  {
    var syd, i := SYD, 0;
    while i < 8
      invariant i <= 8 && Retry(BothUnder(mm, lef, rit), syd, i, 0xfffe) == MugBoth(mm, lef, rit)
    {
      ham := Fold(mm.both(syd, lef, rit));
      if ham != 0 { return; }
      syd, i := syd + 1, i + 1;
    }
    ham := 0xfffe;
  }

  // ---- memo slots ----

  function RefAt(objs: Objs, x: Addr): Ref
    requires x in objs
  {
    if objs[x].AtomObj? then Pug(x) else Pom(x)
  }

  // Every object denotes a noun, and keeps its hash or zero.
  ghost predicate Memoised(objs: Objs, den: map<Addr, Noun>, mm: Murmur) {
    forall x :: x in objs ==> x in den && Denotes(objs, RefAt(objs, x), den[x]) && (objs[x].mug == Hash(0) || objs[x].mug == Hash(MugOf(mm, den[x])))
  }

  // What a reference denotes is what its object does.
  lemma DenIs(objs: Objs, den: map<Addr, Noun>, mm: Murmur, r: Ref, n: Noun)
    requires Memoised(objs, den, mm) && Denotes(objs, r, n) && !r.Cat?
    ensures r.a in objs && r.a in den && den[r.a] == n && r == RefAt(objs, r.a)
    ensures objs[r.a].mug == Hash(0) || objs[r.a].mug == Hash(MugOf(mm, n))
    ensures r.Pom? ==> n.Cell? && Denotes(objs, objs[r.a].hed, n.head) && Denotes(objs, objs[r.a].tel, n.tail)
    ensures r.Pug? ==> n == Atom(objs[r.a].val)
  {
    DenotesOne(objs, r, n, den[r.a]);
  }

  // A hash stored where it belongs.
  lemma Stored(objs: Objs, den: map<Addr, Noun>, mm: Murmur, x: Addr)
    requires Memoised(objs, den, mm) && x in objs
    ensures x in den && var b := objs[x := WithMug(objs[x], Hash(MugOf(mm, den[x])))];
            Memoised(b, den, mm) && Extends(objs, b) && Extends(b, objs)
  {
    hide MugOf, Denotes;
    var b := objs[x := WithMug(objs[x], Hash(MugOf(mm, den[x])))];
    assert Extends(objs, b);
    forall y | y in b ensures y in den && Denotes(b, RefAt(b, y), den[y]) { DenotesStill(objs, b, RefAt(objs, y), den[y]); }
  }

  // ---- the loop ----

  // A cell on the way; the hash is zero until that of its head is known.
  datatype Frame = Frame(mug: nat, cel: Ref)

  // The noun the frame on top is waiting for.
  function Wanted(stack: seq<Frame>, xs: seq<Noun>, n: Noun): Noun
    requires |xs| == |stack| && forall k :: 0 <= k < |xs| ==> xs[k].Cell?
  {
    if stack == [] then n else if stack[0].mug == 0 then xs[0].head else xs[0].tail
  }

  // Each frame's cell is what the one below waits for.
  ghost predicate Chain(objs: Objs, mm: Murmur, stack: seq<Frame>, xs: seq<Noun>, n: Noun)
    decreases |stack|
  {
    && |xs| == |stack| && (forall k :: 0 <= k < |xs| ==> xs[k].Cell?)
    && (stack != [] ==>
        && stack[0].cel.Pom? && Denotes(objs, stack[0].cel, xs[0])
        && (stack[0].mug == 0 || stack[0].mug == MugOf(mm, xs[0].head))
        && xs[0] == Wanted(stack[1..], xs[1..], n)
        && Chain(objs, mm, stack[1..], xs[1..], n))
  }

  lemma {:induction false} ChainStill(a: Objs, b: Objs, mm: Murmur, stack: seq<Frame>, xs: seq<Noun>, n: Noun)
    requires Chain(a, mm, stack, xs, n) && Extends(a, b)
    ensures Chain(b, mm, stack, xs, n)
    decreases |stack|
  {
    hide MugOf, Denotes;
    if stack != [] {
      DenotesStill(a, b, stack[0].cel, xs[0]);
      ChainStill(a, b, mm, stack[1..], xs[1..], n);
    }
  }

  lemma ChainPush(objs: Objs, mm: Murmur, f: Frame, x: Noun, stack: seq<Frame>, xs: seq<Noun>, n: Noun)
    requires Chain(objs, mm, stack, xs, n) && x.Cell? && f.cel.Pom? && Denotes(objs, f.cel, x)
    requires (f.mug == 0 || f.mug == MugOf(mm, x.head)) && x == Wanted(stack, xs, n)
    ensures Chain(objs, mm, [f] + stack, [x] + xs, n)
  {
    hide MugOf, Denotes;
    assert ([f] + stack)[1..] == stack && ([x] + xs)[1..] == xs;
  }

  ghost function Weights(stack: seq<Frame>, xs: seq<Noun>): nat
    requires |xs| == |stack| && forall k :: 0 <= k < |xs| ==> xs[k].Cell?
    decreases |stack|
  {
    if stack == [] then 0 else
    Weights(stack[1..], xs[1..]) + if stack[0].mug == 0 then 3 * Size(xs[0].tail) + 2 else 1
  }

  lemma WeightsPush(f: Frame, x: Noun, stack: seq<Frame>, xs: seq<Noun>)
    requires |xs| == |stack| && x.Cell? && forall k :: 0 <= k < |xs| ==> xs[k].Cell?
    ensures Weights([f] + stack, [x] + xs) == Weights(stack, xs) + if f.mug == 0 then 3 * Size(x.tail) + 2 else 1
  {
    hide Size;
    assert ([f] + stack)[1..] == stack && ([x] + xs)[1..] == xs;
  }

  // ---- what is stored on the way ----

  // A reference whose hash is at hand.
  predicate Stocked(objs: Objs, r: Ref) { !r.Cat? ==> r.a in objs && objs[r.a].mug != Hash(0) }

  /** Hashes are added: those that were there stay, and a cell that has got its
      own has both parts' there too. */
  ghost predicate Fills(a: Objs, b: Objs) {
    forall x :: x in a ==>
      && x in b && Same(a[x], b[x]) && (a[x].mug != Hash(0) ==> b[x].mug == a[x].mug)
      && (a[x].mug == Hash(0) && b[x].mug != Hash(0) && b[x].CellObj? ==> Stocked(b, b[x].hed) && Stocked(b, b[x].tel))
  }

  lemma FillsSame(a: Objs)
    ensures Fills(a, a)
  {
  }

  lemma FillsStocked(a: Objs, b: Objs, r: Ref)
    requires Fills(a, b) && Stocked(a, r)
    ensures Stocked(b, r)
  {
  }

  lemma FillsTrans(a: Objs, b: Objs, c: Objs)
    requires Fills(a, b) && Fills(b, c)
    ensures Fills(a, c)
  {
    forall x | x in a && a[x].mug == Hash(0) && c[x].mug != Hash(0) && c[x].CellObj? ensures Stocked(c, c[x].hed) && Stocked(c, c[x].tel) {
      if b[x].mug != Hash(0) {
        FillsStocked(b, c, b[x].hed);
        FillsStocked(b, c, b[x].tel);
      }
    }
  }

  lemma FillsOne(a: Objs, x: Addr, mug: nat)
    requires x in a && mug > 0 && (a[x].mug == Hash(0) || a[x].mug == Hash(mug)) && (a[x].CellObj? ==> Stocked(a, a[x].hed) && Stocked(a, a[x].tel))
    ensures var b := a[x := WithMug(a[x], Hash(mug))]; Fills(a, b) && b[x].mug != Hash(0)
  {
  }

  // What the frame at `k` waits for; below the last, the whole noun.
  function Waits(objs: Objs, stack: seq<Frame>, k: nat, root: Ref): Ref
    requires k < |stack| ==> stack[k].cel.Pom? && stack[k].cel.a in objs && objs[stack[k].cel.a].CellObj?
  {
    if k >= |stack| then root else if stack[k].mug == 0 then objs[stack[k].cel.a].hed else objs[stack[k].cel.a].tel
  }

  predicate IsCell(objs: Objs, r: Ref) { r.Pom? && r.a in objs && objs[r.a].CellObj? }

  // Each frame's cell is what the next waits for, and has its head's hash when
  // the frame has.
  ghost predicate Waiting(objs: Objs, stack: seq<Frame>, root: Ref) {
    && (forall k :: 0 <= k < |stack| ==> IsCell(objs, stack[k].cel) && (stack[k].mug != 0 ==> Stocked(objs, objs[stack[k].cel.a].hed)))
    && forall k: nat {:trigger stack[k]} :: k < |stack| ==> stack[k].cel == Waits(objs, stack, k + 1, root)
  }

  lemma WaitingStill(a: Objs, b: Objs, stack: seq<Frame>, root: Ref)
    requires Waiting(a, stack, root) && Fills(a, b)
    ensures Waiting(b, stack, root)
  {
    forall k | 0 <= k < |stack| ensures IsCell(b, stack[k].cel) && (stack[k].mug != 0 ==> Stocked(b, b[stack[k].cel.a].hed)) {
      var x := stack[k].cel.a;
      assert Same(a[x], b[x]);
      if stack[k].mug != 0 { FillsStocked(a, b, a[x].hed); }
    }
    forall k: nat | k < |stack| ensures stack[k].cel == Waits(b, stack, k + 1, root) {
      if k + 1 < |stack| { assert Same(a[stack[k + 1].cel.a], b[stack[k + 1].cel.a]); }
    }
  }

  lemma WaitingNone(objs: Objs, root: Ref)
    ensures Waiting(objs, [], root)
  {
  }

  lemma WaitingTop(objs: Objs, stack: seq<Frame>, root: Ref)
    requires Waiting(objs, stack, root)
    ensures stack != [] ==> IsCell(objs, stack[0].cel)
  {
  }

  lemma WaitsStill(a: Objs, b: Objs, stack: seq<Frame>, root: Ref)
    requires (stack != [] ==> IsCell(a, stack[0].cel)) && Fills(a, b)
    ensures (stack != [] ==> IsCell(b, stack[0].cel)) && Waits(b, stack, 0, root) == Waits(a, stack, 0, root)
  {
    if stack != [] { assert Same(a[stack[0].cel.a], b[stack[0].cel.a]); }
  }

  lemma WaitingPush(objs: Objs, f: Frame, stack: seq<Frame>, root: Ref)
    requires Waiting(objs, stack, root) && IsCell(objs, f.cel) && f.cel == Waits(objs, stack, 0, root)
    requires f.mug != 0 ==> Stocked(objs, objs[f.cel.a].hed)
    ensures Waiting(objs, [f] + stack, root)
  {
    var more := [f] + stack;
    forall k: nat | k < |more| ensures more[k].cel == Waits(objs, more, k + 1, root) {
      if k > 0 { assert more[k] == stack[k - 1]; }
    }
  }

  lemma WaitingPop(objs: Objs, stack: seq<Frame>, root: Ref)
    requires Waiting(objs, stack, root) && stack != []
    ensures Waiting(objs, stack[1..], root) && IsCell(objs, stack[0].cel) && stack[0].cel == Waits(objs, stack[1..], 0, root)
    ensures stack[0].mug != 0 ==> Stocked(objs, objs[stack[0].cel.a].hed)
  {
    var rest := stack[1..];
    forall k: nat | k < |rest| ensures rest[k].cel == Waits(objs, rest, k + 1, root) { assert rest[k] == stack[k + 1]; }
  }

  class Mugger {
    var objs: Objs

    constructor (o: Objs)
      ensures objs == o
    {
      objs := o;
    }

    // Down the heads to something whose hash is at hand.
    method Next(mm: Murmur, veb: Ref, under: seq<Frame>, ghost n: Noun, ghost x: Noun, ghost below: seq<Noun>, ghost den: map<Addr, Noun>, ghost root: Ref)
        returns (mug: nat, stack: seq<Frame>, ghost xs: seq<Noun>)
      requires Memoised(objs, den, mm) && Denotes(objs, veb, x) && Chain(objs, mm, under, below, n) && x == Wanted(under, below, n)
      requires Waiting(objs, under, root) && veb == Waits(objs, under, 0, root)
      modifies this
      ensures Memoised(objs, den, mm) && Extends(old(objs), objs) && Extends(objs, old(objs))
      ensures Chain(objs, mm, stack, xs, n) && mug == MugOf(mm, Wanted(stack, xs, n))
      ensures Fills(old(objs), objs) && Waiting(objs, stack, root) && Stocked(objs, Waits(objs, stack, 0, root))
      ensures Weights(stack, xs) <= Weights(under, below) + 3 * Size(x)
    {
      hide Memoised, Denotes, Chain, MugOf, Size, Weights, Fills, Waiting;
      stack, xs := under, below;
      var r := veb;
      ghost var m := x;
      ChainSize(objs, mm, stack, xs, n);
      WaitingTop(objs, stack, root);
      ExtendsSame(objs);
      FillsSame(objs);
      while true
        invariant objs == old(objs) && Denotes(objs, r, m) && Chain(objs, mm, stack, xs, n)
        invariant |xs| == |stack| && (forall k :: 0 <= k < |xs| ==> xs[k].Cell?) && m == Wanted(stack, xs, n)
        invariant Weights(stack, xs) + 3 * Size(m) <= Weights(under, below) + 3 * Size(x)
        invariant Waiting(objs, stack, root) && (stack != [] ==> IsCell(objs, stack[0].cel)) && r == Waits(objs, stack, 0, root)
        decreases m
      {
        if r.Cat? {
          CatMug(objs, mm, r, m);
          return MugAtom(mm, r.v), stack, xs;
        }
        DenIs(objs, den, mm, r, m);
        var o := objs[r.a];
        if o.mug != Hash(0) {
          return o.mug.mug, stack, xs;
        }
        if r.Pug? {
          mug := MugAtom(mm, o.val);
          AtomMug(mm, m, o.val);
          Stored(objs, den, mm, r.a);
          ghost var was := objs;
          objs := objs[r.a := WithMug(o, Hash(mug))];
          ChainStill(was, objs, mm, stack, xs, n);
          FillsOne(was, r.a, mug);
          WaitingStill(was, objs, stack, root);
          WaitsStill(was, objs, stack, root);
          return;
        }
        ChainPush(objs, mm, Frame(0, r), m, stack, xs, n);
        WeightsPush(Frame(0, r), m, stack, xs);
        SizeIs(m);
        WaitingPush(objs, Frame(0, r), stack, root);
        stack, xs := [Frame(0, r)] + stack, [m] + xs;
        r, m := o.hed, m.head;
      }
    }

    /** The hash of a noun, with the hashes of its parts left in their slots. */
    method Mug(mm: Murmur, veb: Ref, ghost n: Noun, ghost den: map<Addr, Noun>) returns (mug: nat)
      requires Memoised(objs, den, mm) && Denotes(objs, veb, n)
      modifies this
      ensures mug == MugOf(mm, n) && Memoised(objs, den, mm) && Extends(old(objs), objs) && Extends(objs, old(objs))
      ensures Fills(old(objs), objs) && Stocked(objs, veb)
    {
      hide Memoised, Denotes, MugOf, Size, Weights, Extends, Fills, Waiting;
      var stack: seq<Frame>;
      ghost var xs: seq<Noun>;
      WaitingNone(objs, veb);
      mug, stack, xs := Next(mm, veb, [], n, n, [], den, veb);
      hide Chain;
      ChainSize(objs, mm, stack, xs, n);
      WaitingTop(objs, stack, veb);
      while stack != []
        invariant |xs| == |stack| && (forall k :: 0 <= k < |xs| ==> xs[k].Cell?)
        invariant Memoised(objs, den, mm) && Extends(old(objs), objs) && Extends(objs, old(objs))
        invariant Chain(objs, mm, stack, xs, n) && mug == MugOf(mm, Wanted(stack, xs, n))
        invariant Fills(old(objs), objs) && Waiting(objs, stack, veb) && (stack != [] ==> IsCell(objs, stack[0].cel)) && Stocked(objs, Waits(objs, stack, 0, veb))
        decreases Weights(stack, xs)
      {
        var f, rest := stack[0], stack[1..];
        ghost var x, ms := xs[0], xs[1..];
        assert stack == [f] + rest && xs == [x] + ms;
        ChainTop(objs, mm, stack, xs, n);
        WeightsPush(f, x, rest, ms);
        DenIs(objs, den, mm, f.cel, x);
        ghost var was := objs;
        WaitingPop(objs, stack, veb);
        if f.mug == 0 {
          ChainPush(objs, mm, Frame(mug, f.cel), x, rest, ms, n);
          WeightsPush(Frame(mug, f.cel), x, rest, ms);
          WaitingPush(objs, Frame(mug, f.cel), rest, veb);
          mug, stack, xs := Next(mm, objs[f.cel.a].tel, [Frame(mug, f.cel)] + rest, n, x.tail, [x] + ms, den, veb);
          WaitingTop(objs, stack, veb);
          ChainSize(objs, mm, stack, xs, n);
        } else {
          mug := Join(mm, f.mug, mug);
          CellMug(mm, x);
          Stored(objs, den, mm, f.cel.a);
          objs := objs[f.cel.a := WithMug(objs[f.cel.a], Hash(mug))];
          ChainStill(was, objs, mm, rest, ms, n);
          FillsOne(was, f.cel.a, mug);
          WaitingStill(was, objs, rest, veb);
          WaitingTop(was, rest, veb);
          WaitsStill(was, objs, rest, veb);
          WaitingTop(objs, rest, veb);
          stack, xs := rest, ms;
          ChainSize(objs, mm, stack, xs, n);
        }
        FillsTrans(old(objs), was, objs);
        ExtendsTrans(old(objs), was, objs);
        ExtendsTrans(objs, was, old(objs));
      }
    }
  }

  lemma ExtendsSame(a: Objs)
    ensures Extends(a, a)
  {
  }

  lemma ChainSize(objs: Objs, mm: Murmur, stack: seq<Frame>, xs: seq<Noun>, n: Noun)
    requires Chain(objs, mm, stack, xs, n)
    ensures |xs| == |stack| && (forall k :: 0 <= k < |xs| ==> xs[k].Cell?)
  {
  }

  lemma ChainTop(objs: Objs, mm: Murmur, stack: seq<Frame>, xs: seq<Noun>, n: Noun)
    requires Chain(objs, mm, stack, xs, n) && stack != []
    ensures |xs| == |stack| && (forall k :: 0 <= k < |xs| ==> xs[k].Cell?)
    ensures stack[0].cel.Pom? && Denotes(objs, stack[0].cel, xs[0]) && xs[0] == Wanted(stack[1..], xs[1..], n)
    ensures (stack[0].mug == 0 || stack[0].mug == MugOf(mm, xs[0].head)) && Chain(objs, mm, stack[1..], xs[1..], n)
  {
    hide MugOf, Denotes;
  }

  lemma CatMug(objs: Objs, mm: Murmur, r: Ref, m: Noun)
    requires r.Cat? && Denotes(objs, r, m)
    ensures MugAtom(mm, r.v) == MugOf(mm, m)
  {
  }

  lemma AtomMug(mm: Murmur, m: Noun, v: nat)
    requires m == Atom(v)
    ensures MugOf(mm, m) == MugAtom(mm, v)
  {
  }

  lemma CellMug(mm: Murmur, x: Noun)
    requires x.Cell?
    ensures MugOf(mm, x) == MugBoth(mm, MugOf(mm, x.head), MugOf(mm, x.tail))
  {
  }
}
