/** Copying a noun off the stack: objects of the junior road are copied once
    each, with forwarding references left in their hash slots. */
module Take {
  import opened Nouns

  // Where an object is: on a road above, on this road's heap, or on the road
  // below, which is about to be popped.
  datatype Addr = Senior(i: nat) | Normal(i: nat) | Junior(i: nat)

  datatype Ref = Cat(v: nat) | Pug(a: Addr) | Pom(a: Addr)

  // The hash slot: a hash, or the object's new reference.
  datatype Slot = Hash(mug: nat) | Gone(to: Ref)

  datatype Obj = AtomObj(mug: Slot, val: nat) | CellObj(mug: Slot, hed: Ref, tel: Ref)

  type Objs = map<Addr, Obj>

  // The objects, the use counts of this road's, and where the next one goes.
  datatype Heap = Heap(objs: Objs, use: map<nat, nat>, next: nat)

  const MAX: nat := 0x7fff_ffff

  ghost predicate Denotes(objs: Objs, r: Ref, n: Noun)
    decreases n
  {
    match r
    case Cat(v) => n == Atom(v)
    case Pug(a) => a in objs && objs[a].AtomObj? && n == Atom(objs[a].val)
    case Pom(a) =>
      && a in objs && objs[a].CellObj? && n.Cell?
      && Denotes(objs, objs[a].hed, n.head) && Denotes(objs, objs[a].tel, n.tail)
  }

  lemma {:induction false} DenotesOne(objs: Objs, r: Ref, n: Noun, o: Noun)
    requires Denotes(objs, r, n) && Denotes(objs, r, o)
    ensures n == o
    decreases n
  {
    if r.Pom? {
      DenotesOne(objs, objs[r.a].hed, n.head, o.head);
      DenotesOne(objs, objs[r.a].tel, n.tail, o.tail);
    }
  }

  // ---- taking, by recursion ----

  // A road and a reference; a use count that overflows; or a reference to
  // nothing, which a heap in order does not have.
  datatype Taken = Done(h: Heap, r: Ref) | Bail | Stuck

  function UseOf(h: Heap, i: nat): nat { if i in h.use then h.use[i] else 0 }

  // Count one reference more.
  function Gain(h: Heap, r: Ref): Taken {
    if !r.Pug? && !r.Pom? then Stuck
    else if !r.a.Normal? then Stuck
    else if UseOf(h, r.a.i) == MAX then Bail
    else if UseOf(h, r.a.i) == 0 then Stuck
    else Done(h.(use := h.use[r.a.i := UseOf(h, r.a.i) + 1]), r)
  }

  function WithMug(o: Obj, m: Slot): Obj {
    match o
    case AtomObj(_, v) => AtomObj(m, v)
    case CellObj(_, hed, tel) => CellObj(m, hed, tel)
  }

  // A new object, and a forwarding reference in the old one.
  function Copy(h: Heap, src: Addr, o: Obj): Taken
    requires src in h.objs
  {
    var r := if o.AtomObj? then Pug(Normal(h.next)) else Pom(Normal(h.next));
    Done(Heap(h.objs[Normal(h.next) := o][src := WithMug(h.objs[src], Gone(r))], h.use[h.next := 1], h.next + 1), r)
  }

  // The copy of a cell whose head and tail have been taken.
  function CopyCell(t: Taken, src: Addr, hed: Ref): Taken {
    if !t.Done? then t
    else if src !in t.h.objs || !t.h.objs[src].CellObj? then Stuck
    else Copy(t.h, src, CellObj(t.h.objs[src].mug, hed, t.r))
  }

  /** Take a reference that denotes `n`. */
  function TakeRec(h: Heap, r: Ref, n: Noun): Taken
    decreases n
  {
    if r.Cat? || r.a.Senior? then Done(h, r)
    else if r.a.Normal? then Gain(h, r)
    else if r.a !in h.objs then Stuck
    else if h.objs[r.a].mug.Gone? then Gain(h, h.objs[r.a].mug.to)
    else if r.Pug? then Copy(h, r.a, h.objs[r.a])
    else if !h.objs[r.a].CellObj? || n.Atom? then Stuck else
    var t := TakeRec(h, h.objs[r.a].hed, n.head);
    if !t.Done? then t
    else if r.a !in t.h.objs || !t.h.objs[r.a].CellObj? then Stuck
    else CopyCell(TakeRec(t.h, t.h.objs[r.a].tel, n.tail), r.a, t.r)
  }

  // ---- what taking keeps ----

  // The same object but for its hash slot.
  predicate Same(o: Obj, p: Obj) { WithMug(o, Hash(0)) == WithMug(p, Hash(0)) }

  ghost predicate Extends(a: Objs, b: Objs) {
    forall x :: x in a ==> x in b && Same(a[x], b[x])
  }

  lemma {:induction false} DenotesStill(a: Objs, b: Objs, r: Ref, n: Noun)
    requires Extends(a, b) && Denotes(a, r, n)
    ensures Denotes(b, r, n)
    decreases n
  {
    if r.Pom? {
      assert Same(a[r.a], b[r.a]);
      DenotesStill(a, b, a[r.a].hed, n.head);
      DenotesStill(a, b, a[r.a].tel, n.tail);
    } else if r.Pug? {
      assert Same(a[r.a], b[r.a]);
    }
  }

  predicate NotJunior(r: Ref) { r.Cat? || !r.a.Junior? }

  // A forwarding reference: to an object of this road with the same noun.
  ghost predicate Forwards(h: Heap, den: map<nat, Noun>, i: nat) {
    && Junior(i) in h.objs && h.objs[Junior(i)].mug.Gone? && i in den
    && var to := h.objs[Junior(i)].mug.to;
    && (to.Pug? || to.Pom?) && to.a.Normal? && to.a.i < h.next && UseOf(h, to.a.i) > 0
    && Denotes(h.objs, to, den[i])
  }

  // No object of this road refers to the junior one.
  ghost predicate Clean(o: Obj) { o.CellObj? ==> NotJunior(o.hed) && NotJunior(o.tel) }

  // References to counted objects only.
  ghost predicate Counted(h: Heap, r: Ref) { !r.Cat? && r.a.Normal? ==> r.a.i < h.next && UseOf(h, r.a.i) > 0 }

  /** The heap in order, where `den` says what junior objects denote. */
  ghost predicate Sound(h: Heap, den: map<nat, Noun>) {
    && (forall x :: x in h.objs && x.Normal? ==> x.i < h.next && Clean(h.objs[x]))
    && (forall i :: i in h.use ==> i < h.next)
    && (forall i: nat :: Junior(i) in h.objs ==> i in den && Fine(h, den, i))
    && OneEach(h)
  }

  ghost predicate Fine(h: Heap, den: map<nat, Noun>, i: nat)
    requires Junior(i) in h.objs && i in den
  {
    var o := h.objs[Junior(i)];
    && Denotes(h.objs, if o.AtomObj? then Pug(Junior(i)) else Pom(Junior(i)), den[i])
    && (o.CellObj? ==> Counted(h, o.hed) && Counted(h, o.tel))
    && (o.mug.Gone? ==> Forwards(h, den, i))
  }

  // Junior objects copied so far, and where they went.
  ghost function Moved(h: Heap): set<Addr> { set x | x in h.objs && x.Junior? && h.objs[x].mug.Gone? }

  ghost predicate OneEach(h: Heap) {
    forall x, y :: x in Moved(h) && y in Moved(h) && h.objs[x].mug.to == h.objs[y].mug.to ==> x == y
  }

  // References to object `i` from the objects `lo` to `hi` of this road.
  function RefTo(r: Ref, i: nat): nat { if !r.Cat? && r.a == Normal(i) then 1 else 0 }

  function RefsIn(objs: Objs, x: Addr, i: nat): nat {
    if x in objs && objs[x].CellObj? then RefTo(objs[x].hed, i) + RefTo(objs[x].tel, i) else 0
  }

  function Refs(objs: Objs, lo: nat, hi: nat, i: nat): nat
    decreases hi
  {
    if hi <= lo then 0 else Refs(objs, lo, hi - 1, i) + RefsIn(objs, Normal(hi - 1), i)
  }

  /** What one take does: the same noun with no junior reference in sight, one
      copy for each object newly moved, and one count for each reference from
      the new copies and for the result. */
  ghost predicate Took(h: Heap, den: map<nat, Noun>, r: Ref, n: Noun, t: Taken) {
    && t.Done? && Extends(h.objs, t.h.objs) && h.next <= t.h.next && Sound(t.h, den)
    && NotJunior(t.r) && Denotes(t.h.objs, t.r, n) && Counted(t.h, t.r)
    && Kept(h, t.h)
    && |Moved(t.h)| - |Moved(h)| == t.h.next - h.next && Smaller(h, t.h, den, Size(n))
    && forall i: nat :: Balance(h, t.h, t.r, i)
  }

  // What was there before on this road is still there, and still counted.
  ghost predicate Kept(h: Heap, k: Heap) {
    && (forall x :: x in h.objs && x.Normal? ==> x in k.objs && k.objs[x] == h.objs[x])
    && (forall x :: x in k.objs && x.Normal? && x.i < h.next ==> x in h.objs)
    && (forall i: nat :: UseOf(h, i) > 0 ==> UseOf(k, i) > 0)
    && Moved(h) <= Moved(k)
  }

  // Objects newly moved denote nouns no larger than what is taken.
  ghost predicate Smaller(h: Heap, k: Heap, den: map<nat, Noun>, size: nat) {
    forall x :: x in Moved(k) && x !in Moved(h) ==> x.i in den && Size(den[x.i]) <= size
  }

  ghost predicate Balance(h: Heap, k: Heap, r: Ref, i: nat) {
    UseOf(k, i) == UseOf(h, i) + Refs(k.objs, h.next, k.next, i) + RefTo(r, i)
  }

  // ---- counting one more ----

  lemma GainTook(h: Heap, den: map<nat, Noun>, r: Ref, n: Noun)
    requires Sound(h, den) && !r.Cat? && r.a.Normal? && Counted(h, r) && Denotes(h.objs, r, n)
    ensures var t := Gain(h, r); !t.Stuck? && (t.Done? ==> Took(h, den, r, n, t))
  {
    var t := Gain(h, r);
    if t.Done? {
      assert t.h.objs == h.objs && Moved(t.h) == Moved(h);
      forall i: nat | Junior(i) in h.objs ensures i in den && Fine(t.h, den, i) { assert Fine(h, den, i); }
      forall i: nat ensures Balance(h, t.h, r, i) { }
    }
  }

  lemma StayTook(h: Heap, den: map<nat, Noun>, r: Ref, n: Noun)
    requires Sound(h, den) && (r.Cat? || r.a.Senior?) && Denotes(h.objs, r, n)
    ensures Took(h, den, r, n, Done(h, r))
  {
    forall i: nat ensures Balance(h, h, r, i) { }
  }

  // ---- copying one object ----

  // What may be copied for junior object `i`.
  ghost predicate Copies(h: Heap, den: map<nat, Noun>, i: nat, o: Obj) {
    && Junior(i) in h.objs && i in den && !h.objs[Junior(i)].mug.Gone?
    && (o.AtomObj? <==> h.objs[Junior(i)].AtomObj?)
    && (o.AtomObj? ==> den[i] == Atom(o.val))
    && (o.CellObj? ==>
          && den[i].Cell? && Denotes(h.objs, o.hed, den[i].head) && Denotes(h.objs, o.tel, den[i].tail)
          && NotJunior(o.hed) && NotJunior(o.tel) && Counted(h, o.hed) && Counted(h, o.tel))
  }

  lemma CopyExtends(h: Heap, den: map<nat, Noun>, i: nat, o: Obj)
    requires Sound(h, den) && Copies(h, den, i, o)
    ensures var t := Copy(h, Junior(i), o);
            && Extends(h.objs, t.h.objs) && Kept(h, t.h) && Normal(h.next) !in h.objs
            && Moved(t.h) == Moved(h) + {Junior(i)} && Junior(i) !in Moved(h)
            && (forall j: nat :: UseOf(t.h, j) == if j == h.next then 1 else UseOf(h, j)) && UseOf(h, h.next) == 0
            && t.h.objs[Normal(h.next)] == o && t.h.objs[Junior(i)] == WithMug(h.objs[Junior(i)], Gone(t.r))
  {
    hide Denotes, Fine;
  }

  lemma CopyDenotes(h: Heap, den: map<nat, Noun>, i: nat, o: Obj)
    requires Sound(h, den) && Copies(h, den, i, o)
    ensures var t := Copy(h, Junior(i), o); Denotes(t.h.objs, t.r, den[i])
  {
    CopyExtends(h, den, i, o);
    var t := Copy(h, Junior(i), o);
    if o.CellObj? {
      DenotesStill(h.objs, t.h.objs, o.hed, den[i].head);
      DenotesStill(h.objs, t.h.objs, o.tel, den[i].tail);
    }
  }

  lemma CopyFine(h: Heap, den: map<nat, Noun>, i: nat, o: Obj, j: nat)
    requires Sound(h, den) && Copies(h, den, i, o) && Junior(j) in h.objs && j in den
    ensures var t := Copy(h, Junior(i), o); Junior(j) in t.h.objs && Fine(t.h, den, j)
  {
    hide Denotes;
    CopyExtends(h, den, i, o);
    CopyDenotes(h, den, i, o);
    var t, x := Copy(h, Junior(i), o), h.objs[Junior(j)];
    assert Fine(h, den, j);
    assert Same(x, t.h.objs[Junior(j)]);
    DenotesStill(h.objs, t.h.objs, if x.AtomObj? then Pug(Junior(j)) else Pom(Junior(j)), den[j]);
    if j != i && x.mug.Gone? { DenotesStill(h.objs, t.h.objs, x.mug.to, den[j]); }
  }

  lemma CopySound(h: Heap, den: map<nat, Noun>, i: nat, o: Obj)
    requires Sound(h, den) && Copies(h, den, i, o)
    ensures Sound(Copy(h, Junior(i), o).h, den)
  {
    hide Denotes, Fine, Copies;
    CopyShape(h, den, i, o);
    CopyOneEach(h, den, i, o);
    var t := Copy(h, Junior(i), o);
    forall j: nat | Junior(j) in t.h.objs ensures j in den && Fine(t.h, den, j) { CopyFine(h, den, i, o, j); }
  }

  lemma CopyShape(h: Heap, den: map<nat, Noun>, i: nat, o: Obj)
    requires Sound(h, den) && Copies(h, den, i, o)
    ensures Junior(i) in h.objs && var t := Copy(h, Junior(i), o);
            && (forall x :: x in t.h.objs && x.Normal? ==> x.i < t.h.next && Clean(t.h.objs[x]))
            && (forall i :: i in t.h.use ==> i < t.h.next)
  {
    hide Denotes, Fine;
  }

  lemma CopyOneEach(h: Heap, den: map<nat, Noun>, i: nat, o: Obj)
    requires Sound(h, den) && Copies(h, den, i, o)
    ensures Junior(i) in h.objs && OneEach(Copy(h, Junior(i), o).h)
  {
    hide Denotes;
    CopyExtends(h, den, i, o);
    var t := Copy(h, Junior(i), o);
    forall x, y | x in Moved(t.h) && y in Moved(t.h) && t.h.objs[x].mug.to == t.h.objs[y].mug.to ensures x == y {
      if x != Junior(i) { assert Fine(h, den, x.i); }
      if y != Junior(i) { assert Fine(h, den, y.i); }
    }
  }

  // ---- the references of the copies ----

  lemma {:induction false} RefsSame(a: Objs, b: Objs, lo: nat, hi: nat, i: nat)
    requires forall j: nat :: lo <= j < hi ==> RefsIn(a, Normal(j), i) == RefsIn(b, Normal(j), i)
    ensures Refs(a, lo, hi, i) == Refs(b, lo, hi, i)
    decreases hi
  {
    if lo < hi { RefsSame(a, b, lo, hi - 1, i); }
  }

  lemma {:induction false} RefsSplit(a: Objs, lo: nat, mid: nat, hi: nat, i: nat)
    requires lo <= mid <= hi
    ensures Refs(a, lo, hi, i) == Refs(a, lo, mid, i) + Refs(a, mid, hi, i)
    decreases hi
  {
    if mid < hi { RefsSplit(a, lo, mid, hi - 1, i); }
  }

  lemma RefsKept(h: Heap, k: Heap, lo: nat, i: nat)
    requires Kept(h, k)
    ensures Refs(k.objs, lo, h.next, i) == Refs(h.objs, lo, h.next, i)
  {
    RefsSame(h.objs, k.objs, lo, h.next, i);
  }

  // ---- one thing after another ----

  lemma ExtendsTrans(a: Objs, b: Objs, c: Objs)
    requires Extends(a, b) && Extends(b, c)
    ensures Extends(a, c)
  {
    forall x | x in a ensures x in c && Same(a[x], c[x]) { assert Same(a[x], b[x]) && Same(b[x], c[x]); }
  }

  lemma KeptTrans(a: Heap, b: Heap, c: Heap)
    requires Kept(a, b) && Kept(b, c) && a.next <= b.next
    ensures Kept(a, c)
  {
    hide Moved;
  }

  // The parts of a take, for use one by one.
  lemma TookParts(h: Heap, den: map<nat, Noun>, r: Ref, n: Noun, t: Taken)
    requires Took(h, den, r, n, t)
    ensures t.Done? && Extends(h.objs, t.h.objs) && h.next <= t.h.next && Sound(t.h, den) && NotJunior(t.r)
    ensures Denotes(t.h.objs, t.r, n) && Counted(t.h, t.r) && Kept(h, t.h) && Smaller(h, t.h, den, Size(n))
    ensures |Moved(t.h)| - |Moved(h)| == t.h.next - h.next && forall i: nat :: Balance(h, t.h, t.r, i)
  {
    hide Extends, Sound, Denotes, Kept, Smaller, Balance, Size;
  }

  // A cell larger than what has been taken has not been moved.
  lemma NotMoved(h: Heap, k: Heap, den: map<nat, Noun>, i: nat, size: nat)
    requires Smaller(h, k, den, size) && Junior(i) in h.objs && !h.objs[Junior(i)].mug.Gone? && i in den && size < Size(den[i])
    requires Extends(h.objs, k.objs)
    ensures Junior(i) in k.objs && !k.objs[Junior(i)].mug.Gone?
  {
    hide Size;
    assert Junior(i) in Moved(k) <==> k.objs[Junior(i)].mug.Gone?;
  }

  lemma BalanceCell(h: Heap, a: Heap, ra: Ref, b: Heap, rb: Ref, c: Heap, i: nat)
    requires Balance(h, a, ra, i) && Balance(a, b, rb, i) && Kept(a, b) && Kept(b, c)
    requires h.next <= a.next <= b.next && c.next == b.next + 1
    requires Normal(b.next) in c.objs && c.objs[Normal(b.next)].CellObj? && c.objs[Normal(b.next)].hed == ra && c.objs[Normal(b.next)].tel == rb
    requires UseOf(c, i) == if i == b.next then 1 else UseOf(b, i)
    requires UseOf(b, b.next) == 0
    ensures Balance(h, c, Pom(Normal(b.next)), i)
  {
    hide Kept;
    RefsKept(b, c, h.next, i);
    RefsSplit(b.objs, h.next, a.next, b.next, i);
    RefsKept(a, b, h.next, i);
    assert Refs(c.objs, h.next, c.next, i) == Refs(c.objs, h.next, b.next, i) + RefTo(ra, i) + RefTo(rb, i);
  }

  /** A cell is taken when its head and then its tail have been. */
  lemma CellTook(h: Heap, den: map<nat, Noun>, i: nat, n: Noun, t1: Taken, t2: Taken)
    requires Sound(h, den) && n.Cell? && Denotes(h.objs, Pom(Junior(i)), n) && !h.objs[Junior(i)].mug.Gone?
    requires Took(h, den, h.objs[Junior(i)].hed, n.head, t1) && Took(t1.h, den, h.objs[Junior(i)].tel, n.tail, t2)
    ensures Took(h, den, Pom(Junior(i)), n, CopyCell(t2, Junior(i), t1.r))
  {
    hide Took, Sound, Extends, Kept, Smaller, Balance, Size, Copies;
    TookParts(h, den, h.objs[Junior(i)].hed, n.head, t1);
    TookParts(t1.h, den, h.objs[Junior(i)].tel, n.tail, t2);
    CellCopies(h, den, i, n, t1, t2);
    var src, k := Junior(i), t2.h;
    var o := CellObj(k.objs[src].mug, t1.r, t2.r);
    var t := Copy(k, src, o);
    CopyExtends(k, den, i, o);
    CopyDenotes(k, den, i, o);
    CopySound(k, den, i, o);
    ExtendsTrans(h.objs, t1.h.objs, k.objs);
    ExtendsTrans(h.objs, k.objs, t.h.objs);
    KeptTrans(h, t1.h, k);
    KeptTrans(h, k, t.h);
    CellSmaller(h, den, i, n, t1.h, k, t.h);
    forall j: nat ensures Balance(h, t.h, t.r, j) { BalanceCell(h, t1.h, t1.r, k, t2.r, t.h, j); }
    CellAll(h, den, Pom(src), n, t);
  }

  // Putting the parts back together.
  lemma CellAll(h: Heap, den: map<nat, Noun>, r: Ref, n: Noun, t: Taken)
    requires t.Done? && Extends(h.objs, t.h.objs) && h.next <= t.h.next && Sound(t.h, den) && NotJunior(t.r)
    requires Denotes(t.h.objs, t.r, n) && Counted(t.h, t.r) && Kept(h, t.h) && Smaller(h, t.h, den, Size(n))
    requires |Moved(t.h)| - |Moved(h)| == t.h.next - h.next && forall i: nat :: Balance(h, t.h, t.r, i)
    ensures Took(h, den, r, n, t)
  {
    hide Extends, Sound, Denotes, Kept, Smaller, Balance, Size;
  }

  lemma CellSmaller(h: Heap, den: map<nat, Noun>, i: nat, n: Noun, a: Heap, b: Heap, c: Heap)
    requires n.Cell? && i in den && den[i] == n && Smaller(h, a, den, Size(n.head)) && Smaller(a, b, den, Size(n.tail))
    requires Moved(c) == Moved(b) + {Junior(i)}
    ensures Smaller(h, c, den, Size(n))
  {
    hide Moved;
  }

  // The taken head and tail make a copy of the cell.
  lemma CellCopies(h: Heap, den: map<nat, Noun>, i: nat, n: Noun, t1: Taken, t2: Taken)
    requires Sound(h, den) && n.Cell? && Denotes(h.objs, Pom(Junior(i)), n) && !h.objs[Junior(i)].mug.Gone?
    requires Took(h, den, h.objs[Junior(i)].hed, n.head, t1) && Took(t1.h, den, h.objs[Junior(i)].tel, n.tail, t2)
    ensures i in den && den[i] == n && Junior(i) in t2.h.objs && t2.h.objs[Junior(i)].CellObj?
    ensures Copies(t2.h, den, i, CellObj(t2.h.objs[Junior(i)].mug, t1.r, t2.r))
  {
    IsDen(h, den, i, n);
    hide Sound, Kept, Balance, Moved;
    SizeCell(n);
    assert Same(h.objs[Junior(i)], t1.h.objs[Junior(i)]) && Same(t1.h.objs[Junior(i)], t2.h.objs[Junior(i)]);
    NotMoved(h, t1.h, den, i, Size(n.head));
    NotMoved(t1.h, t2.h, den, i, Size(n.tail));
    DenotesStill(t1.h.objs, t2.h.objs, t1.r, n.head);
    CountedStill(t1.h, t2.h, t1.r);
  }

  lemma IsDen(h: Heap, den: map<nat, Noun>, i: nat, n: Noun)
    requires Sound(h, den) && Denotes(h.objs, Pom(Junior(i)), n)
    ensures i in den && den[i] == n
  {
    assert Fine(h, den, i);
    DenotesOne(h.objs, Pom(Junior(i)), n, den[i]);
  }

  lemma SizeCell(n: Noun)
    requires n.Cell?
    ensures Size(n.head) < Size(n) && Size(n.tail) < Size(n)
  {
  }

  lemma CountedStill(h: Heap, k: Heap, r: Ref)
    requires Counted(h, r) && Kept(h, k) && h.next <= k.next
    ensures Counted(k, r)
  {
  }

  lemma AtomTook(h: Heap, den: map<nat, Noun>, i: nat, n: Noun)
    requires Sound(h, den) && Denotes(h.objs, Pug(Junior(i)), n) && !h.objs[Junior(i)].mug.Gone?
    ensures Took(h, den, Pug(Junior(i)), n, Copy(h, Junior(i), h.objs[Junior(i)]))
  {
    var o := h.objs[Junior(i)];
    assert Fine(h, den, i);
    hide Sound, Extends, Kept, Fine;
    CopyExtends(h, den, i, o);
    CopyDenotes(h, den, i, o);
    CopySound(h, den, i, o);
    var t := Copy(h, Junior(i), o);
    forall j: nat ensures Balance(h, t.h, t.r, j) { assert Refs(t.h.objs, h.next, t.h.next, j) == 0; }
    hide Moved;
    CellAll(h, den, Pug(Junior(i)), n, t);
  }

  // What an old reference to a moved object is worth.
  lemma GoneTook(h: Heap, den: map<nat, Noun>, r: Ref, n: Noun)
    requires Sound(h, den) && !r.Cat? && r.a.Junior? && Denotes(h.objs, r, n) && h.objs[r.a].mug.Gone?
    ensures var t := Gain(h, h.objs[r.a].mug.to); !t.Stuck? && (t.Done? ==> Took(h, den, r, n, t))
  {
    var to := h.objs[r.a].mug.to;
    assert Fine(h, den, r.a.i);
    DenotesOne(h.objs, r, n, den[r.a.i]);
    hide Sound, Fine, Denotes;
    GainTook(h, den, to, n);
    TookAny(h, den, to, r, n, Gain(h, to));
  }

  lemma TookAny(h: Heap, den: map<nat, Noun>, r: Ref, q: Ref, n: Noun, t: Taken)
    ensures Took(h, den, r, n, t) == Took(h, den, q, n, t)
  {
    hide Extends, Sound, Denotes, Kept, Smaller, Balance, Size;
  }

  /** Taking is a faithful copy, unless a use count overflows. */
  lemma {:induction false} TakeOk(h: Heap, den: map<nat, Noun>, r: Ref, n: Noun)
    requires Sound(h, den) && Denotes(h.objs, r, n) && Counted(h, r)
    ensures var t := TakeRec(h, r, n); !t.Stuck? && (t.Done? ==> Took(h, den, r, n, t))
    decreases n
  {
    hide Took, Sound, Gain;
    if r.Cat? || r.a.Senior? {
      StayTook(h, den, r, n);
    } else if r.a.Normal? {
      GainTook(h, den, r, n);
    } else if h.objs[r.a].mug.Gone? {
      GoneTook(h, den, r, n);
    } else if r.Pug? {
      AtomTook(h, den, r.a.i, n);
    } else {
      CellCounted(h, den, r.a.i, n);
      var o := h.objs[r.a];
      TakeOk(h, den, o.hed, n.head);
      var t := TakeRec(h, o.hed, n.head);
      if t.Done? {
        TookParts(h, den, o.hed, n.head, t);
        assert Same(o, t.h.objs[r.a]);
        DenotesStill(h.objs, t.h.objs, o.tel, n.tail);
        CountedStill(h, t.h, o.tel);
        TakeOk(t.h, den, o.tel, n.tail);
        var u := TakeRec(t.h, o.tel, n.tail);
        if u.Done? {
          CellTook(h, den, r.a.i, n, t, u);
          TookParts(h, den, r, n, CopyCell(u, r.a, t.r));
        }
      }
    }
  }

  lemma CellCounted(h: Heap, den: map<nat, Noun>, i: nat, n: Noun)
    requires Sound(h, den) && Denotes(h.objs, Pom(Junior(i)), n)
    ensures Counted(h, h.objs[Junior(i)].hed) && Counted(h, h.objs[Junior(i)].tel)
  {
    assert Fine(h, den, i);
  }

  // ---- the hashes of the copies ----

  /** Junior object `x` is as it was, or it now forwards to an object of this
      road that was not there before and has the hash that `x` had. */
  ghost predicate Stamp(h: Heap, k: Heap, x: Addr)
    requires x in h.objs
  {
    x in k.objs &&
    (k.objs[x] == h.objs[x] ||
     (&& !h.objs[x].mug.Gone? && k.objs[x].mug.Gone?
      && var to := k.objs[x].mug.to;
         (to.Pug? || to.Pom?) && to.a.Normal? && h.next <= to.a.i < k.next && to.a in k.objs && k.objs[to.a].mug == h.objs[x].mug))
  }

  ghost predicate Stamped(h: Heap, k: Heap) {
    && h.next <= k.next && (forall x :: x in h.objs && x.Junior? ==> Stamp(h, k, x))
    && (forall x :: x in h.objs && x.Normal? ==> x in k.objs && k.objs[x] == h.objs[x])
  }

  lemma StampedSame(h: Heap, k: Heap)
    requires k.objs == h.objs && k.next == h.next
    ensures Stamped(h, k)
  {
  }

  lemma StampedTrans(h: Heap, k: Heap, m: Heap)
    requires Stamped(h, k) && Stamped(k, m)
    ensures Stamped(h, m)
  {
    forall x | x in h.objs && x.Junior? ensures Stamp(h, m, x) {
      assert Stamp(h, k, x) && Stamp(k, m, x);
    }
  }

  lemma CopyStamped(h: Heap, src: Addr, o: Obj)
    requires src in h.objs && src.Junior? && !h.objs[src].mug.Gone? && o.mug == h.objs[src].mug
    requires forall x :: x in h.objs && x.Normal? ==> x.i < h.next
    ensures Stamped(h, Copy(h, src, o).h)
  {
    var k := Copy(h, src, o).h;
    forall x | x in h.objs && x.Junior? ensures Stamp(h, k, x) { }
  }

  lemma SoundBelow(h: Heap, den: map<nat, Noun>)
    requires Sound(h, den)
    ensures forall x :: x in h.objs && x.Normal? ==> x.i < h.next
  {
  }

  /** Each copy has the hash that the object it is a copy of had, and what is
      not copied keeps its own. */
  lemma {:induction false} TakeStamped(h: Heap, den: map<nat, Noun>, r: Ref, n: Noun)
    requires Sound(h, den) && Denotes(h.objs, r, n) && Counted(h, r) && TakeRec(h, r, n).Done?
    ensures Stamped(h, TakeRec(h, r, n).h)
    decreases n
  {
    hide Took, Sound, Stamped;
    SoundBelow(h, den);
    if r.Cat? || r.a.Senior? || r.a.Normal? || h.objs[r.a].mug.Gone? {
      StampedSame(h, TakeRec(h, r, n).h);
    } else if r.Pug? {
      CopyStamped(h, r.a, h.objs[r.a]);
    } else {
      CellCounted(h, den, r.a.i, n);
      var o := h.objs[r.a];
      TakeOk(h, den, o.hed, n.head);
      var t := TakeRec(h, o.hed, n.head);
      TookParts(h, den, o.hed, n.head, t);
      assert Same(o, t.h.objs[r.a]);
      DenotesStill(h.objs, t.h.objs, o.tel, n.tail);
      CountedStill(h, t.h, o.tel);
      TakeOk(t.h, den, o.tel, n.tail);
      var u := TakeRec(t.h, o.tel, n.tail);
      TakeStamped(h, den, o.hed, n.head);
      TakeStamped(t.h, den, o.tel, n.tail);
      StampedTrans(h, t.h, u.h);
      CellStamped(h, den, r.a.i, n, t, u);
    }
  }

  lemma CellStamped(h: Heap, den: map<nat, Noun>, i: nat, n: Noun, t: Taken, u: Taken)
    requires Sound(h, den) && n.Cell? && Denotes(h.objs, Pom(Junior(i)), n) && !h.objs[Junior(i)].mug.Gone?
    requires Took(h, den, h.objs[Junior(i)].hed, n.head, t) && Took(t.h, den, h.objs[Junior(i)].tel, n.tail, u) && Stamped(h, u.h)
    ensures CopyCell(u, Junior(i), t.r).Done? && Stamped(h, CopyCell(u, Junior(i), t.r).h)
  {
    CellCopies(h, den, i, n, t, u);
    TookParts(t.h, den, h.objs[Junior(i)].tel, n.tail, u);
    SoundBelow(u.h, den);
    hide Took, Sound, Stamped, Denotes;
    CopyStamped(u.h, Junior(i), CellObj(u.h.objs[Junior(i)].mug, t.r, u.r));
    StampedTrans(h, u.h, CopyCell(u, Junior(i), t.r).h);
  }

  // Some object has as many references as can be counted.
  ghost predicate Overflowing(h: Heap) { exists i: nat :: UseOf(h, i) == MAX }

  // ---- taking, by a loop ----

  // A cell on the way: its head is still to come, or has been taken.
  datatype Frame = HeadFrame(src: Addr) | TailFrame(src: Addr, hed: Ref)

  // What one frame makes of a result; `m` is the tail still to come.
  ghost function Continue(f: Frame, m: Noun, t: Taken): Taken
    requires t.Done?
  {
    if f.TailFrame? then CopyCell(t, f.src, f.hed)
    else if f.src !in t.h.objs || !t.h.objs[f.src].CellObj? then Stuck
    else CopyCell(TakeRec(t.h, t.h.objs[f.src].tel, m), f.src, t.r)
  }

  /** What the frames make of the result for the reference on top; `ns` are the
      tails still to come. */
  ghost function Resume(stack: seq<Frame>, ns: seq<Noun>, t: Taken): Taken
    requires |ns| == |stack|
    decreases |stack|
  {
    if stack == [] || !t.Done? then t else
    Resume(stack[1..], ns[1..], Continue(stack[0], ns[0], t))
  }

  // A cell is its head with a frame pushed.
  lemma ResumeCell(h: Heap, r: Ref, n: Noun, stack: seq<Frame>, ns: seq<Noun>)
    requires |ns| == |stack| && r.Pom? && r.a.Junior? && r.a in h.objs && h.objs[r.a].CellObj? && !h.objs[r.a].mug.Gone? && n.Cell?
    ensures Resume(stack, ns, TakeRec(h, r, n)) == Resume([HeadFrame(r.a)] + stack, [n.tail] + ns, TakeRec(h, h.objs[r.a].hed, n.head))
  {
    TakeCell(h, r, n);
    hide TakeRec, Continue;
    var t := TakeRec(h, h.objs[r.a].hed, n.head);
    var more, ms := [HeadFrame(r.a)] + stack, [n.tail] + ns;
    assert more[1..] == stack && ms[1..] == ns;
    if !t.Done? { ResumeNot(stack, ns, t); ResumeNot(more, ms, t); }
  }

  // Taking a fresh junior cell is taking its head and going on.
  lemma TakeCell(h: Heap, r: Ref, n: Noun)
    requires r.Pom? && r.a.Junior? && r.a in h.objs && h.objs[r.a].CellObj? && !h.objs[r.a].mug.Gone? && n.Cell?
    ensures var t := TakeRec(h, h.objs[r.a].hed, n.head);
            TakeRec(h, r, n) == if t.Done? then Continue(HeadFrame(r.a), n.tail, t) else t
  {
    hide CopyCell, Gain, Copy;
  }

  lemma ResumeNot(stack: seq<Frame>, ns: seq<Noun>, t: Taken)
    requires |ns| == |stack| && !t.Done?
    ensures Resume(stack, ns, t) == t
  {
  }

  lemma ResumeNone(t: Taken)
    ensures Resume([], [], t) == t
  {
  }

  lemma ResumeStep(stack: seq<Frame>, ns: seq<Noun>, t: Taken)
    requires |ns| == |stack| > 0 && t.Done?
    ensures Resume(stack, ns, t) ==
            Resume(stack[1..], ns[1..], Continue(stack[0], ns[0], t))
  {
    hide Continue;
  }

  // A tail frame is what a head frame becomes.
  lemma ResumeTail(stack: seq<Frame>, ns: seq<Noun>, src: Addr, hed: Ref, m: Noun, t: Taken)
    requires |ns| == |stack|
    ensures Resume([TailFrame(src, hed)] + stack, [m] + ns, t) == Resume(stack, ns, CopyCell(t, src, hed))
  {
    hide TakeRec;
    assert ([TailFrame(src, hed)] + stack)[1..] == stack && ([m] + ns)[1..] == ns;
    if !t.Done? { ResumeNot(stack, ns, t); }
  }

  // What is left to do.
  function Weight(stack: seq<Frame>, ns: seq<Noun>): nat
    requires |ns| == |stack|
    decreases |stack|
  {
    if stack == [] then 0 else
    Weight(stack[1..], ns[1..]) + if stack[0].HeadFrame? then 3 * Size(ns[0]) + 2 else 1
  }

  lemma WeightPush(f: Frame, stack: seq<Frame>, m: Noun, ns: seq<Noun>)
    requires |ns| == |stack|
    ensures Weight([f] + stack, [m] + ns) == Weight(stack, ns) + if f.HeadFrame? then 3 * Size(m) + 2 else 1
  {
    hide Size;
    assert ([f] + stack)[1..] == stack && ([m] + ns)[1..] == ns;
  }

  lemma SizeIs(n: Noun)
    ensures n.Cell? ==> Size(n) == 1 + Size(n.head) + Size(n.tail)
    ensures Size(n) >= 1
  {
  }

  /** A road that takes. */
  class Road {
    var objs: Objs
    var use: map<nat, nat>
    var next: nat

    constructor (h: Heap)
      ensures Now() == h
    {
      objs, use, next := h.objs, h.use, h.next;
    }

    function Now(): Heap
      reads this
    {
      Heap(objs, use, next)
    }

    // The outcome so far.
    ghost function Outcome(ok: bool, pro: Ref): Taken
      reads this
    {
      if ok then Done(Now(), pro) else Bail
    }

    // Count one reference more, or bail.
    method Count(r: Ref) returns (ok: bool)
      requires !Gain(Now(), r).Stuck?
      modifies this`use
      ensures Outcome(ok, r) == Gain(old(Now()), r) && (!ok ==> Overflowing(Now()))
    {
      var i := r.a.i;
      if UseOf(Now(), i) == MAX { return false; }
      use := use[i := UseOf(Now(), i) + 1];
      ok := true;
    }

    // Copy an object and leave its new reference behind.
    method Place(src: Addr, o: Obj) returns (r: Ref)
      requires src in objs
      modifies this
      ensures Done(Now(), r) == Copy(old(Now()), src, o)
    {
      r := if o.AtomObj? then Pug(Normal(next)) else Pom(Normal(next));
      objs := objs[Normal(next) := o][src := WithMug(objs[src], Gone(r))];
      use := use[next := 1];
      next := next + 1;
    }

    // Take what is not a fresh junior cell; push those and go on to the head.
    method Next(veb: Ref, ghost n: Noun, under: seq<Frame>, ghost below: seq<Noun>)
        returns (ok: bool, pro: Ref, stack: seq<Frame>, ghost ns: seq<Noun>)
      requires |below| == |under| && !Resume(under, below, TakeRec(Now(), veb, n)).Stuck?
      modifies this
      ensures |ns| == |stack| && Weight(stack, ns) <= Weight(under, below) + 3 * Size(n)
      ensures Resume(stack, ns, Outcome(ok, pro)) == Resume(under, below, TakeRec(old(Now()), veb, n))
      ensures !ok ==> Overflowing(Now())
    {
      hide Resume, Weight, Size, Gain, Copy, Overflowing;
      pro, stack, ns := veb, under, below;
      ghost var m := n;
      while true
        invariant |ns| == |stack| && Now() == old(Now())
        invariant Weight(stack, ns) + 3 * Size(m) <= Weight(under, below) + 3 * Size(n)
        invariant Resume(stack, ns, TakeRec(Now(), pro, m)) == Resume(under, below, TakeRec(old(Now()), veb, n))
        decreases m
      {
        ghost var t := TakeRec(Now(), pro, m);
        if t.Stuck? { ResumeNot(stack, ns, t); }
        if pro.Cat? || pro.a.Senior? { ok := true; return; }
        if pro.a.Normal? { ok := Count(pro); return; }
        if objs[pro.a].mug.Gone? {
          pro := objs[pro.a].mug.to;
          ok := Count(pro);
          return;
        }
        if pro.Pug? {
          pro := Place(pro.a, objs[pro.a]);
          ok := true;
          return;
        }
        ResumeCell(Now(), pro, m, stack, ns);
        WeightPush(HeadFrame(pro.a), stack, m.tail, ns);
        SizeIs(m);
        stack, ns := [HeadFrame(pro.a)] + stack, [m.tail] + ns;
        m := m.head;
        pro := objs[pro.a].hed;
      }
    }

    /** Take a reference with a stack of cells on the way. */
    method TakeLoop(veb: Ref, ghost n: Noun) returns (ok: bool, pro: Ref)
      requires !TakeRec(Now(), veb, n).Stuck?
      modifies this
      ensures Outcome(ok, pro) == TakeRec(old(Now()), veb, n) && (!ok ==> Overflowing(Now()))
    {
      hide Weight, Size, TakeRec, Copy, Resume, Overflowing;
      ghost var want := TakeRec(Now(), veb, n);
      var stack: seq<Frame>;
      ghost var ns: seq<Noun>;
      ResumeNone(want);
      ok, pro, stack, ns := Next(veb, n, [], []);
      while ok && stack != []
        invariant |ns| == |stack| && Resume(stack, ns, Outcome(ok, pro)) == want && (!ok ==> Overflowing(Now()))
        decreases Weight(stack, ns)
      {
        ResumeStep(stack, ns, Done(Now(), pro));
        var f, rest := stack[0], stack[1..];
        ghost var m, ms := ns[0], ns[1..];
        assert stack == [f] + rest && ns == [m] + ms;
        WeightPush(f, rest, m, ms);
        var src := f.src;
        if Continue(f, m, Done(Now(), pro)).Stuck? { ResumeNot(rest, ms, Stuck); }
        if f.HeadFrame? {
          var hed := pro;
          WeightPush(TailFrame(src, hed), rest, m, ms);
          ResumeTail(rest, ms, src, hed, m, TakeRec(Now(), objs[src].tel, m));
          ok, pro, stack, ns := Next(objs[src].tel, m, [TailFrame(src, hed)] + rest, [m] + ms);
        } else {
          pro := Place(src, CellObj(objs[src].mug, f.hed, pro));
          stack, ns := rest, ms;
        }
      }
      if !ok { ResumeNot(stack, ns, Bail); } else { ResumeNone(Done(Now(), pro)); }
    }

    /** The whole promise of a take on a heap in order. */
    method TakeNoun(veb: Ref, ghost n: Noun, ghost den: map<nat, Noun>) returns (ok: bool, pro: Ref)
      requires Sound(Now(), den) && Denotes(objs, veb, n) && Counted(Now(), veb)
      modifies this
      ensures ok ==> Took(old(Now()), den, veb, n, Done(Now(), pro)) && Stamped(old(Now()), Now())
      ensures !ok ==> Overflowing(Now())
    {
      hide Took, Sound, Denotes, Counted, TakeRec, Overflowing, Stamped;
      TakeOk(Now(), den, veb, n);
      if TakeRec(Now(), veb, n).Done? { TakeStamped(Now(), den, veb, n); }
      ok, pro := TakeLoop(veb, n);
    }

    /** Take the product and then everything the caches hold, one after
        another, through the same forwarding references. */
    method TakeAll(vebs: seq<Ref>, ghost ns: seq<Noun>, ghost den: map<nat, Noun>) returns (ok: bool, pros: seq<Ref>)
      requires Sound(Now(), den) && |ns| == |vebs|
      requires forall q :: 0 <= q < |vebs| ==> Denotes(objs, vebs[q], ns[q]) && Counted(Now(), vebs[q])
      modifies this
      ensures ok ==> TookAll(old(Now()), den, ns, Now(), pros) && Stamped(old(Now()), Now())
      ensures !ok ==> Overflowing(Now())
    {
      hide Took, TookAll, Sound, Denotes, Counted, Overflowing, Kept, Extends, Stamped;
      ghost var h := Now();
      ok, pros := true, [];
      NoneTook(h, den);
      StampedSame(h, h);
      var q := 0;
      while ok && q < |vebs|
        invariant q <= |vebs| && (ok ==> TookAll(h, den, ns[..q], Now(), pros) && Stamped(h, Now())) && (!ok ==> Overflowing(Now()))
      {
        ghost var k := Now();
        TookAllParts(h, den, ns[..q], k, pros);
        DenotesStill(h.objs, k.objs, vebs[q], ns[q]);
        CountedStill(h, k, vebs[q]);
        var r;
        ok, r := TakeNoun(vebs[q], ns[q], den);
        if ok {
          StampedTrans(h, k, Now());
          OneMoreTook(h, den, ns[..q], k, pros, vebs[q], ns[q], Done(Now(), r));
          assert ns[..q + 1] == ns[..q] + [ns[q]];
          pros := pros + [r];
        }
        q := q + 1;
      }
      assert ok ==> ns[..q] == ns;
    }
  }

  // References to object `i` among several.
  function RefsTo(rs: seq<Ref>, i: nat): nat { if rs == [] then 0 else RefsTo(rs[..|rs| - 1], i) + RefTo(rs[|rs| - 1], i) }

  ghost predicate BalanceAll(h: Heap, k: Heap, rs: seq<Ref>, i: nat) {
    UseOf(k, i) == UseOf(h, i) + Refs(k.objs, h.next, k.next, i) + RefsTo(rs, i)
  }

  // A reference as it is on this road, for a noun.
  ghost predicate Ours(k: Heap, r: Ref, n: Noun) { NotJunior(r) && Denotes(k.objs, r, n) && Counted(k, r) }

  /** What taking several does: the same nouns, one copy for each object newly
      moved, whichever of them led to it, and one count for each reference. */
  ghost predicate TookAll(h: Heap, den: map<nat, Noun>, ns: seq<Noun>, k: Heap, rs: seq<Ref>) {
    && Extends(h.objs, k.objs) && h.next <= k.next && Sound(k, den) && Kept(h, k)
    && |rs| == |ns| && (forall q :: 0 <= q < |rs| ==> Ours(k, rs[q], ns[q]))
    && |Moved(k)| - |Moved(h)| == k.next - h.next
    && forall i: nat :: BalanceAll(h, k, rs, i)
  }

  lemma TookAllParts(h: Heap, den: map<nat, Noun>, ns: seq<Noun>, k: Heap, rs: seq<Ref>)
    requires TookAll(h, den, ns, k, rs)
    ensures Extends(h.objs, k.objs) && h.next <= k.next && Sound(k, den) && Kept(h, k) && |rs| == |ns|
    ensures forall q :: 0 <= q < |rs| ==> Ours(k, rs[q], ns[q])
    ensures |Moved(k)| - |Moved(h)| == k.next - h.next && forall i: nat :: BalanceAll(h, k, rs, i)
  {
    hide Extends, Sound, Kept, Ours, BalanceAll, Moved;
  }

  lemma NoneTook(h: Heap, den: map<nat, Noun>)
    requires Sound(h, den)
    ensures TookAll(h, den, [], h, [])
  {
    hide Sound;
  }

  lemma BalanceMore(h: Heap, k: Heap, rs: seq<Ref>, m: Heap, r: Ref, i: nat)
    requires BalanceAll(h, k, rs, i) && Balance(k, m, r, i) && Kept(k, m) && h.next <= k.next <= m.next
    ensures BalanceAll(h, m, rs + [r], i)
  {
    hide Kept;
    RefsKept(k, m, h.next, i);
    RefsSplit(m.objs, h.next, k.next, m.next, i);
    assert (rs + [r])[..|rs|] == rs;
  }

  lemma OneMoreTook(h: Heap, den: map<nat, Noun>, ns: seq<Noun>, k: Heap, rs: seq<Ref>, r: Ref, n: Noun, t: Taken)
    requires TookAll(h, den, ns, k, rs) && Took(k, den, r, n, t)
    ensures t.Done? && TookAll(h, den, ns + [n], t.h, rs + [t.r])
  {
    TookAllParts(h, den, ns, k, rs);
    TookParts(k, den, r, n, t);
    hide Took, Sound, Kept, Extends, Balance, BalanceAll, Denotes, Moved, Smaller, Size;
    ExtendsTrans(h.objs, k.objs, t.h.objs);
    KeptTrans(h, k, t.h);
    forall q | 0 <= q < |rs| ensures Ours(t.h, rs[q], ns[q]) {
      DenotesStill(k.objs, t.h.objs, rs[q], ns[q]);
      CountedStill(k, t.h, rs[q]);
    }
    forall i: nat ensures BalanceAll(h, t.h, rs + [t.r], i) { BalanceMore(h, k, rs, t.h, t.r, i); }
  }
}
