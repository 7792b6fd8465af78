/** Editing a noun in place where nobody else can see it, and by copying
    where somebody might: cells, use counts and stored hashes. */
module InPlace {
  import opened Nouns
  import opened Take

  // ---- who refers to what ----

  // References to object `i` among those held outside the heap.
  function Held(ext: multiset<Ref>, i: nat): nat { ext[Pug(Normal(i))] + ext[Pom(Normal(i))] }

  // No object refers to object `i` of this road.
  ghost predicate Lone(objs: Objs, i: nat) {
    forall x :: x in objs ==> RefsIn(objs, x, i) == 0
  }

  type Muggery = Noun -> nat

  // A stored hash is the hash of the noun, or zero.
  ghost predicate Hashed(objs: Objs, f: Muggery) {
    forall x, n :: x in objs && objs[x].CellObj? && Denotes(objs, Pom(x), n) ==> objs[x].mug == Hash(0) || objs[x].mug == Hash(f(n))
  }

  /** Every object of this road is counted: once for each reference from an
      object, once for each held outside. */
  ghost predicate Exact(h: Heap, ext: multiset<Ref>, f: Muggery) {
    && (forall x :: x in h.objs ==> !x.Junior? && (x.Normal? ==> x.i < h.next))
    && (forall x, i :: x in h.objs && x.Senior? ==> RefsIn(h.objs, x, i) == 0)
    && (forall i: nat :: Normal(i) in h.objs <==> UseOf(h, i) > 0)
    && (forall i: nat :: UseOf(h, i) == Refs(h.objs, 0, h.next, i) + Held(ext, i))
    && Hashed(h.objs, f)
  }

  // Two heaps that differ in one object that nothing refers to.
  ghost predicate But(a: Objs, b: Objs, i: nat) {
    && Lone(a, i) && Lone(b, i)
    && forall x :: x != Normal(i) ==> (x in a <==> x in b) && (x in a ==> a[x] == b[x])
  }

  predicate RefersTo(r: Ref, i: nat) { !r.Cat? && r.a == Normal(i) }

  // Other references do not notice.
  lemma {:induction false} Elsewhere(a: Objs, b: Objs, i: nat, r: Ref, n: Noun)
    requires But(a, b, i) && !RefersTo(r, i) && Denotes(a, r, n)
    ensures Denotes(b, r, n)
    decreases n
  {
    if r.Pom? {
      assert RefsIn(a, r.a, i) == 0;
      Elsewhere(a, b, i, a[r.a].hed, n.head);
      Elsewhere(a, b, i, a[r.a].tel, n.tail);
    }
  }

  lemma ButBack(a: Objs, b: Objs, i: nat)
    requires But(a, b, i)
    ensures But(b, a, i)
  {
  }

  // References held outside denote what they did.
  ghost predicate Unseen(a: Objs, b: Objs, ext: multiset<Ref>) {
    forall r, n :: r in ext && Denotes(a, r, n) ==> Denotes(b, r, n)
  }

  lemma ButUnseen(a: Objs, b: Objs, i: nat, ext: multiset<Ref>)
    requires But(a, b, i) && Held(ext, i) == 0
    ensures Unseen(a, b, ext)
  {
    forall r, n | r in ext && Denotes(a, r, n) ensures Denotes(b, r, n) {
      assert !RefersTo(r, i);
      Elsewhere(a, b, i, r, n);
    }
  }

  lemma ButHashed(a: Objs, b: Objs, i: nat, f: Muggery)
    requires But(a, b, i) && Hashed(a, f) && (Normal(i) in b && b[Normal(i)].CellObj? ==> b[Normal(i)].mug == Hash(0))
    ensures Hashed(b, f)
  {
    forall x, n | x in b && b[x].CellObj? && Denotes(b, Pom(x), n) ensures b[x].mug == Hash(0) || b[x].mug == Hash(f(n)) {
      if x != Normal(i) {
        ButBack(a, b, i);
        Elsewhere(b, a, i, Pom(x), n);
      }
    }
  }

  lemma UnseenTrans(a: Objs, b: Objs, c: Objs, ext: multiset<Ref>)
    requires Unseen(a, b, ext) && Unseen(b, c, ext)
    ensures Unseen(a, c, ext)
  {
  }

  // ---- counting references ----

  lemma {:induction false} RefsZero(objs: Objs, lo: nat, hi: nat, i: nat, j: nat)
    requires Refs(objs, lo, hi, i) == 0 && lo <= j < hi
    ensures RefsIn(objs, Normal(j), i) == 0
    decreases hi
  {
    if j < hi - 1 { RefsZero(objs, lo, hi - 1, i, j); }
  }

  // One object changed.
  lemma {:induction false} RefsSwap(a: Objs, b: Objs, lo: nat, hi: nat, i: nat, j: nat)
    requires lo <= j < hi && forall k: nat :: lo <= k < hi && k != j ==> RefsIn(a, Normal(k), i) == RefsIn(b, Normal(k), i)
    ensures Refs(b, lo, hi, i) + RefsIn(a, Normal(j), i) == Refs(a, lo, hi, i) + RefsIn(b, Normal(j), i)
    decreases hi
  {
    if j < hi - 1 {
      RefsSwap(a, b, lo, hi - 1, i, j);
    } else {
      RefsSame(a, b, lo, hi - 1, i);
    }
  }

  // An object with one use that is held outside has no other reference.
  lemma OneUse(h: Heap, ext: multiset<Ref>, r: Ref, f: Muggery)
    requires Exact(h, ext + multiset{r}, f) && !r.Cat? && r.a.Normal? && UseOf(h, r.a.i) == 1
    ensures Lone(h.objs, r.a.i) && Held(ext, r.a.i) == 0
  {
    hide Hashed, Denotes;
    var i := r.a.i;
    assert Held(ext + multiset{r}, i) >= 1 + Held(ext, i);
    forall x | x in h.objs ensures RefsIn(h.objs, x, i) == 0 {
      if x.Normal? { RefsZero(h.objs, 0, h.next, i, x.i); }
    }
  }

  // The counts after an object that nothing refers to is changed or removed:
  // what it held is now held outside.
  ghost predicate Shifts(a: Objs, b: Objs, j: nat, ext: multiset<Ref>, ext': multiset<Ref>, h: Heap, k: Heap) {
    forall i: nat :: UseOf(k, i) + RefsIn(a, Normal(j), i) + Held(ext, i) == UseOf(h, i) + RefsIn(b, Normal(j), i) + Held(ext', i)
  }

  lemma ExactBut(h: Heap, ext: multiset<Ref>, k: Heap, ext': multiset<Ref>, j: nat, f: Muggery)
    requires Exact(h, ext, f) && But(h.objs, k.objs, j) && k.next == h.next && j < h.next
    requires Shifts(h.objs, k.objs, j, ext, ext', h, k)
    requires forall i: nat :: Normal(i) in k.objs <==> UseOf(k, i) > 0
    requires Normal(j) in k.objs && k.objs[Normal(j)].CellObj? ==> k.objs[Normal(j)].mug == Hash(0)
    ensures Exact(k, ext', f)
  {
    ButHashed(h.objs, k.objs, j, f);
    hide Hashed, Denotes;
    forall i: nat ensures UseOf(k, i) == Refs(k.objs, 0, k.next, i) + Held(ext', i) {
      RefsSwap(h.objs, k.objs, 0, h.next, i, j);
    }
    forall x, i | x in k.objs && x.Senior? ensures RefsIn(k.objs, x, i) == 0 { assert RefsIn(h.objs, x, i) == 0; }
  }

  // ---- the editor ----

  // A reference; no such address; or a use count that overflows.
  datatype Edited = Ok(r: Ref) | Exit | Fail

  // What a held reference denotes is there, and on this road or above.
  lemma HeldIs(h: Heap, ext: multiset<Ref>, f: Muggery, r: Ref, n: Noun)
    requires Exact(h, ext, f) && Denotes(h.objs, r, n)
    ensures NotJunior(r) && (!r.Cat? && r.a.Normal? ==> r.a.i < h.next && UseOf(h, r.a.i) > 0)
  {
  }

  // References that are not counted may come and go.
  lemma Uncounted(h: Heap, ext: multiset<Ref>, f: Muggery, r: Ref)
    requires r.Cat? || !r.a.Normal?
    ensures Exact(h, ext + multiset{r}, f) <==> Exact(h, ext, f)
  {
    hide Hashed, Denotes;
    assert forall i: nat :: Held(ext + multiset{r}, i) == Held(ext, i);
  }

  lemma HeldMore(ext: multiset<Ref>, r: Ref)
    ensures forall i: nat :: Held(ext + multiset{r}, i) == Held(ext, i) + RefTo(r, i)
  {
  }

  // One use more, or one less of several.
  lemma ExactCount(h: Heap, ext: multiset<Ref>, ext': multiset<Ref>, f: Muggery, i: nat, u: nat)
    requires Exact(h, ext, f) && UseOf(h, i) > 0 && u > 0
    requires forall j: nat :: Held(ext', j) + (if j == i then UseOf(h, i) else 0) == Held(ext, j) + if j == i then u else 0
    ensures Exact(h.(use := h.use[i := u]), ext', f)
  {
    hide Hashed, Denotes;
  }

  // Room for one more object.
  lemma ExactBump(h: Heap, ext: multiset<Ref>, f: Muggery)
    requires Exact(h, ext, f)
    ensures Exact(h.(next := h.next + 1), ext, f) && Lone(h.objs, h.next) && Normal(h.next) !in h.objs && Held(ext, h.next) == 0
  {
    hide Hashed, Denotes;
    var i := h.next;
    assert UseOf(h, i) == 0;
    forall x | x in h.objs ensures RefsIn(h.objs, x, i) == 0 {
      if x.Normal? { RefsZero(h.objs, 0, h.next, i, x.i); }
    }
  }

  // ---- objects that an operation has no way to reach ----

  // An object that no object and none of some references refer to.
  ghost predicate Bystander(h: Heap, i: nat, refs: set<Ref>) {
    Normal(i) in h.objs && Lone(h.objs, i) && forall q :: q in refs ==> !RefersTo(q, i)
  }

  // Bystanders of what comes in are left alone, and are bystanders of what
  // comes out.
  ghost predicate Spared(h: Heap, k: Heap, refs: set<Ref>, out: set<Ref>) {
    forall i: nat :: Bystander(h, i, refs) ==> Left(h, k, i) && Bystander(k, i, out)
  }

  ghost predicate Left(h: Heap, k: Heap, i: nat) {
    Normal(i) in h.objs && Normal(i) in k.objs && k.objs[Normal(i)] == h.objs[Normal(i)] && UseOf(k, i) == UseOf(h, i)
  }

  // The counts of a reference's own object only.
  lemma SparedCount(h: Heap, r: Ref, u: nat)
    requires !r.Cat? && r.a.Normal?
    ensures Spared(h, h.(use := h.use[r.a.i := u]), {r}, {r}) && Spared(h, h.(use := h.use[r.a.i := u]), {r}, {})
  {
  }

  lemma SparedSame(h: Heap, refs: set<Ref>, out: set<Ref>)
    requires out <= refs
    ensures Spared(h, h, refs, out)
  {
  }

  lemma SparedTrans(a: Heap, b: Heap, c: Heap, refs: set<Ref>, mid: set<Ref>, out: set<Ref>)
    requires Spared(a, b, refs, mid) && Spared(b, c, mid, out)
    ensures Spared(a, c, refs, out)
  {
    hide Bystander;
  }

  // First with one reference, then with the other.
  lemma SparedBoth(a: Heap, b: Heap, c: Heap, r: Ref, q: Ref)
    requires Spared(a, b, {r}, {}) && Spared(b, c, {q}, {})
    ensures Spared(a, c, {r, q}, {})
  {
    forall i: nat | Bystander(a, i, {r, q}) ensures Left(a, c, i) && Bystander(c, i, {}) {
      assert Bystander(a, i, {r});
      assert Bystander(b, i, {q});
    }
  }

  lemma SparedRemoved(h: Heap, r: Ref)
    requires !r.Cat? && r.a.Normal? && r.a in h.objs
    ensures var o, k := h.objs[r.a], h.(objs := h.objs - {r.a}, use := h.use - {r.a.i});
            Spared(h, k, {r}, if o.CellObj? then {o.hed, o.tel} else {})
  {
    var o, k := h.objs[r.a], h.(objs := h.objs - {r.a}, use := h.use - {r.a.i});
    forall i: nat | Bystander(h, i, {r}) ensures Left(h, k, i) && Bystander(k, i, if o.CellObj? then {o.hed, o.tel} else {}) {
      assert RefsIn(h.objs, r.a, i) == 0;
      forall x | x in k.objs ensures RefsIn(k.objs, x, i) == 0 { assert RefsIn(h.objs, x, i) == 0; }
    }
  }

  // An object put in a place of this road.
  lemma SparedPut(h: Heap, k: Heap, j: nat, o: Obj, refs: set<Ref>)
    requires o.CellObj? && k.objs == h.objs[Normal(j) := o] && forall i: nat :: i != j ==> UseOf(k, i) == UseOf(h, i)
    requires {o.hed, o.tel} <= refs && (Normal(j) in h.objs ==> Pom(Normal(j)) in refs)
    ensures Spared(h, k, refs, {Pom(Normal(j))})
  {
    forall i: nat | Bystander(h, i, refs) ensures Left(h, k, i) && Bystander(k, i, {Pom(Normal(j))}) {
      forall x | x in k.objs ensures RefsIn(k.objs, x, i) == 0 { if x != Normal(j) { assert RefsIn(h.objs, x, i) == 0; } }
    }
  }

  // Objects of this road removed, and nothing else.
  ghost predicate Fewer(a: Objs, b: Objs) {
    (forall x :: x in b ==> x in a && b[x] == a[x]) && forall x :: x in a && !x.Normal? ==> x in b
  }

  lemma FewerSame(a: Objs)
    ensures Fewer(a, a)
  {
  }

  lemma FewerOne(a: Objs, x: Addr)
    requires x.Normal?
    ensures Fewer(a, a - {x})
  {
  }

  lemma FewerTrans(a: Objs, b: Objs, c: Objs)
    requires Fewer(a, b) && Fewer(b, c)
    ensures Fewer(a, c)
  {
  }

  // One step of an edit.
  lemma EditStep(n: Noun, axe: nat, s: Noun)
    requires axe >= 2
    ensures n.Atom? ==> Edit(n, axe, s) == None
    ensures n.Cell? && axe < 4 ==> Edit(n, axe, s) == Some(if Cap(axe) == 2 then Cell(s, n.tail) else Cell(n.head, s))
    ensures n.Cell? && axe >= 4 ==>
              var e := Edit(if Cap(axe) == 2 then n.head else n.tail, Mas(axe), s);
              Edit(n, axe, s) == if e.None? then None else Some(if Cap(axe) == 2 then Cell(e.value, n.tail) else Cell(n.head, e.value))
    ensures 1 <= Mas(axe) < axe && (axe >= 4 ==> Mas(axe) >= 2)
  {
    if n.Cell? && axe < 4 { assert Edit(n.head, 1, s) == Some(s) == Edit(n.tail, 1, s); }
  }

  // ---- how many cells are copied ----

  // A cell of this road that only one reference leads to.
  predicate Alone(h: Heap, r: Ref) { r.Pom? && r.a.Normal? && UseOf(h, r.a.i) == 1 }

  // Steps of an address.
  function Steps(axe: nat): nat { if axe < 2 then 0 else 1 + Steps(Mas(axe)) }

  /** Cells on the way to an address from the first that others may see on. */
  function Seen(h: Heap, r: Ref, axe: nat): nat
    decreases axe
  {
    if axe < 2 then 0
    else if !Alone(h, r) then Steps(axe)
    else if axe < 4 || r.a !in h.objs || !h.objs[r.a].CellObj? then 0
    else Seen(h, if Cap(axe) == 2 then h.objs[r.a].hed else h.objs[r.a].tel, Mas(axe))
  }

  // Changing an object that nothing else leads to does not matter.
  lemma {:induction false} SeenBut(h: Heap, k: Heap, i: nat, r: Ref, axe: nat)
    requires But(h.objs, k.objs, i) && k.use == h.use && !RefersTo(r, i)
    ensures Seen(k, r, axe) == Seen(h, r, axe)
    decreases axe
  {
    if axe >= 4 && Alone(h, r) && r.a in h.objs && h.objs[r.a].CellObj? {
      assert RefsIn(h.objs, r.a, i) == 0;
      SeenBut(h, k, i, if Cap(axe) == 2 then h.objs[r.a].hed else h.objs[r.a].tel, Mas(axe));
    }
  }

  lemma StepsIs(axe: nat)
    ensures axe >= 2 ==> Steps(axe) == 1 + Steps(Mas(axe))
    ensures 2 <= axe < 4 ==> Steps(axe) == 1
  {
  }

  lemma SeenTop(h: Heap, r: Ref, axe: nat)
    requires axe >= 2 && !Alone(h, r)
    ensures Seen(h, r, axe) == Steps(axe)
  {
  }

  lemma SeenNear(h: Heap, r: Ref, axe: nat)
    requires 2 <= axe < 4 && r.Pom? && r.a.Normal? && UseOf(h, r.a.i) == 1
    ensures Seen(h, r, axe) == 0
  {
  }

  // After the cell itself has been changed.
  lemma SeenKid(h: Heap, k: Heap, r: Ref, kid: Ref, axe: nat)
    requires axe >= 4 && r.Pom? && r.a.Normal? && UseOf(h, r.a.i) == 1 && r.a in h.objs && h.objs[r.a].CellObj?
    requires kid == if Cap(axe) == 2 then h.objs[r.a].hed else h.objs[r.a].tel
    requires But(h.objs, k.objs, r.a.i) && k.use == h.use && !RefersTo(kid, r.a.i)
    ensures Seen(h, r, axe) == Seen(k, kid, Mas(axe))
  {
    hide But;
    SeenDown(h, r, axe);
    SeenBut(h, k, r.a.i, kid, Mas(axe));
  }

  lemma SeenDown(h: Heap, r: Ref, axe: nat)
    requires axe >= 4 && Alone(h, r) && r.a in h.objs && h.objs[r.a].CellObj?
    ensures Seen(h, r, axe) == Seen(h, if Cap(axe) == 2 then h.objs[r.a].hed else h.objs[r.a].tel, Mas(axe))
  {
  }

  // A cell of this road that was not there before.
  predicate NewIn(h: Heap, r: Ref) { r.Pom? && r.a.Normal? && r.a.i >= h.next }

  class Editor {
    var objs: Objs
    var use: map<nat, nat>
    var next: nat

    constructor (h: Heap)
      ensures Now() == h
    {
      objs, use, next := h.objs, h.use, h.next;
    }

    function Now(): Heap
      reads this
    {
      Heap(objs, use, next)
    }

    // Hold one reference more.
    method Keep(r: Ref, ghost n: Noun, ghost ext: multiset<Ref>, ghost f: Muggery) returns (ok: bool)
      requires Exact(Now(), ext, f) && Denotes(objs, r, n)
      modifies this`use
      ensures ok ==> Exact(Now(), ext + multiset{r}, f) && Spared(old(Now()), Now(), {r}, {r})
      ensures !ok ==> Overflowing(Now())
    {
      hide Exact, Denotes, Held, Spared;
      SparedSame(Now(), {r}, {r});
      HeldIs(Now(), ext, f, r, n);
      HeldMore(ext, r);
      if r.Cat? || !r.a.Normal? {
        Uncounted(Now(), ext, f, r);
        return true;
      }
      var i := r.a.i;
      if UseOf(Now(), i) == MAX { return false; }
      ExactCount(Now(), ext, ext + multiset{r}, f, i, UseOf(Now(), i) + 1);
      SparedCount(Now(), r, UseOf(Now(), i) + 1);
      use := use[i := UseOf(Now(), i) + 1];
      ok := true;
    }

    // Give one reference up; the last one takes the object with it, and then
    // what the object held.
    method Lose(r: Ref, ghost n: Noun, ghost ext: multiset<Ref>, ghost f: Muggery)
      requires Exact(Now(), ext + multiset{r}, f) && Denotes(objs, r, n)
      modifies this`objs, this`use
      ensures Exact(Now(), ext, f) && Unseen(old(objs), objs, ext) && Spared(old(Now()), Now(), {r}, {}) && Fewer(old(objs), objs)
      decreases n
    {
      hide Exact, Held, Unseen, Denotes, Spared, Fewer;
      SparedSame(Now(), {r}, {});
      FewerSame(objs);
      HeldIs(Now(), ext + multiset{r}, f, r, n);
      HeldMore(ext, r);
      UnseenSame(objs, ext);
      if r.Cat? || !r.a.Normal? {
        Uncounted(Now(), ext, f, r);
        return;
      }
      var i := r.a.i;
      if UseOf(Now(), i) > 1 {
        ExactCount(Now(), ext + multiset{r}, ext, f, i, UseOf(Now(), i) - 1);
        SparedCount(Now(), r, UseOf(Now(), i) - 1);
        use := use[i := UseOf(Now(), i) - 1];
        return;
      }
      ghost var h := Now();
      DenotesIn(objs, r, n);
      var o := objs[r.a];
      Removed(h, ext, r, n, f);
      SparedRemoved(h, r);
      FewerOne(objs, r.a);
      objs, use := objs - {r.a}, use - {i};
      if o.CellObj? {
        ghost var gone := Now();
        Lose(o.hed, n.head, ext + multiset{o.tel}, f);
        UnseenOne(gone.objs, objs, ext, o.tel, n.tail);
        ghost var half := Now();
        Lose(o.tel, n.tail, ext, f);
        FewerTrans(gone.objs, half.objs, objs);
        FewerTrans(h.objs, gone.objs, objs);
        UnseenTrans(gone.objs, half.objs, objs, ext);
        UnseenTrans(h.objs, gone.objs, objs, ext);
        SparedBoth(gone, half, Now(), o.hed, o.tel);
        SparedTrans(h, gone, Now(), {r}, {o.hed, o.tel}, {});
      }
    }

    // A new cell.
    method Cons(hed: Ref, tel: Ref, ghost a: Noun, ghost b: Noun, ghost ext: multiset<Ref>, ghost f: Muggery) returns (r: Ref)
      requires Exact(Now(), ext + multiset{hed} + multiset{tel}, f) && Denotes(objs, hed, a) && Denotes(objs, tel, b)
      modifies this
      ensures Exact(Now(), ext + multiset{r}, f) && Denotes(objs, r, Cell(a, b)) && Unseen(old(objs), objs, ext)
      ensures Spared(old(Now()), Now(), {hed, tel}, {r}) && NewIn(old(Now()), r) && next == old(next) + 1
    {
      hide Exact, Held, Unseen, Denotes, Spared;
      ghost var h := Now();
      ExactBump(h, ext + multiset{hed} + multiset{tel}, f);
      Consed(h, hed, tel, a, b, ext, f);
      r := Pom(Normal(next));
      objs := objs[Normal(next) := CellObj(Hash(0), hed, tel)];
      use := use[next := 1];
      next := next + 1;
      SparedPut(h, Now(), h.next, CellObj(Hash(0), hed, tel), {hed, tel});
    }

    // A copy of a cell with one side replaced; the cell itself is given up.
    method Replace(big: Ref, left: bool, x: Ref, ghost n: Noun, ghost m: Noun, ghost ext: multiset<Ref>, ghost f: Muggery)
        returns (ok: bool, r: Ref)
      requires Exact(Now(), ext + multiset{big} + multiset{x}, f) && big.Pom? && Denotes(objs, big, n) && Denotes(objs, x, m)
      modifies this
      ensures ok ==> Edits(old(Now()), Now(), big, x, if left then Cell(m, n.tail) else Cell(n.head, m), ext, f, r)
      ensures ok ==> NewIn(old(Now()), r) && next == old(next) + 1
      ensures !ok ==> Overflowing(Now()) && objs == old(objs)
    {
      hide Exact, Held, Unseen, Denotes, Spared, Overflowing;
      ghost var h := Now();
      DenotesIn(objs, big, n);
      var other := if left then objs[big.a].tel else objs[big.a].hed;
      ghost var o := if left then n.tail else n.head;
      r := big;
      ok := Keep(other, o, ext + multiset{big} + multiset{x}, f);
      if !ok { return; }
      ghost var h1 := Now();
      if left {
        r := Cons(x, other, m, o, ext + multiset{big}, f);
      } else {
        assert ext + multiset{big} + multiset{x} + multiset{other} == ext + multiset{big} + multiset{other} + multiset{x};
        r := Cons(other, x, o, m, ext + multiset{big}, f);
      }
      ghost var h2, out := Now(), if left then Cell(m, o) else Cell(o, m);
      UnseenOne(h1.objs, objs, ext, big, n);
      assert ext + multiset{big} + multiset{r} == ext + multiset{r} + multiset{big};
      Lose(big, n, ext + multiset{r}, f);
      UnseenOne(h2.objs, objs, ext, r, out);
      UnseenTrans(h1.objs, h2.objs, objs, ext);
      assert {x, other} == {other, x};
      SparedReplace(h, h1, h2, Now(), big, x, other, r);
    }

    /** Edit by copying the cells on the way. */
    method Copying(big: Ref, axe: nat, som: Ref, ghost n: Noun, ghost s: Noun, ghost ext: multiset<Ref>, ghost f: Muggery)
        returns (e: Edited)
      requires axe >= 2 && Exact(Now(), ext + multiset{big} + multiset{som}, f) && Denotes(objs, big, n) && Denotes(objs, som, s)
      modifies this
      ensures EditedAs(old(Now()), Now(), big, axe, som, n, s, ext, f, e)
      ensures e.Ok? ==> NewIn(old(Now()), e.r) && next == old(next) + Steps(axe)
      decreases axe
    {
      hide Exact, Held, Unseen, Denotes, Edit, Mas, Spared, Edits, Overflowing, Steps;
      UnseenSame(objs, ext);
      EditStep(n, axe, s);
      if !big.Pom? { NotCell(objs, big, n); return Exit; }
      DenotesIn(objs, big, n);
      ghost var h := Now();
      var left := Cap(axe) == 2;
      StepsIs(axe);
      if axe < 4 {
        var ok, r := Replace(big, left, som, n, s, ext, f);
        if !ok { return Fail; }
        EditsParts(h, Now(), big, som, Edit(n, axe, s).value, ext, f, r);
        return Ok(r);
      }
      var kid := if left then objs[big.a].hed else objs[big.a].tel;
      ghost var k := if left then n.head else n.tail;
      var ok := Keep(kid, k, ext + multiset{big} + multiset{som}, f);
      if !ok { return Fail; }
      ghost var h1 := Now();
      assert ext + multiset{big} + multiset{som} + multiset{kid} == ext + multiset{big} + multiset{kid} + multiset{som};
      e := Copying(kid, Mas(axe), som, k, s, ext + multiset{big}, f);
      UnseenOne(h1.objs, objs, ext, big, n);
      if !e.Ok? { return; }
      ghost var h2 := Now();
      EditsParts(h1, h2, kid, som, Edit(k, Mas(axe), s).value, ext + multiset{big}, f, e.r);
      var r;
      ok, r := Replace(big, left, e.r, n, Edit(k, Mas(axe), s).value, ext, f);
      if !ok { return Fail; }
      EditsParts(h2, Now(), big, e.r, Edit(n, axe, s).value, ext, f, r);
      UnseenTrans(h.objs, h2.objs, objs, ext);
      SparedCopy(h, h1, h2, Now(), big, som, kid, e.r, r);
      EditsAll(h, Now(), big, som, Edit(n, axe, s).value, ext, f, r);
      e := Ok(r);
    }

    // Only this reference leads to the cell.
    predicate Mutable(r: Ref)
      reads this
    {
      r.Pom? && r.a.Normal? && UseOf(Now(), r.a.i) == 1
    }

    // Overwrite the fields of a cell that only `big` leads to, and clear its
    // stored hash.
    method Write(big: Ref, hed: Ref, tel: Ref, ghost n: Noun, ghost rest: multiset<Ref>, ghost rest': multiset<Ref>, ghost f: Muggery)
      requires Exact(Now(), rest + multiset{big}, f) && Mutable(big) && Denotes(objs, big, n)
      requires forall i: nat :: RefsIn(objs, big.a, i) + Held(rest, i) == RefTo(hed, i) + RefTo(tel, i) + Held(rest', i)
      modifies this`objs
      ensures Exact(Now(), rest' + multiset{big}, f) && Mutable(big)
      ensures objs == old(objs)[big.a := CellObj(Hash(0), hed, tel)] && But(old(objs), objs, big.a.i)
      ensures Held(rest, big.a.i) == 0 && Held(rest', big.a.i) == 0
    {
      hide Exact, Denotes, Held, Lone;
      Overwritten(Now(), big, hed, tel, n, rest, rest', f);
      objs := objs[big.a := CellObj(Hash(0), hed, tel)];
    }

    // Overwrite one side of a cell that only `big` leads to.
    method Plant(big: Ref, left: bool, som: Ref, ghost n: Noun, ghost s: Noun, ghost ext: multiset<Ref>, ghost f: Muggery)
      requires Exact(Now(), ext + multiset{big} + multiset{som}, f) && Mutable(big)
      requires Denotes(objs, big, n) && Denotes(objs, som, s) && n.Cell?
      modifies this`objs, this`use
      ensures Edits(old(Now()), Now(), big, som, if left then Cell(s, n.tail) else Cell(n.head, s), ext, f, big)
    {
      hide Exact, Held, Unseen, Denotes, Spared, Lone, But;
      DenotesIn(objs, big, n);
      ghost var h := Now();
      var kid := if left then objs[big.a].hed else objs[big.a].tel;
      var other := if left then objs[big.a].tel else objs[big.a].hed;
      ghost var k, o := if left then n.head else n.tail, if left then n.tail else n.head;
      assert ext + multiset{big} + multiset{som} == ext + multiset{som} + multiset{big};
      HeldMore(ext, som);
      HeldMore(ext, kid);
      Write(big, if left then som else other, if left then other else som, n, ext + multiset{som}, ext + multiset{kid}, f);
      ghost var h1 := Now();
      Swapped(h, h1, big, left, som, other, kid, s, o, k, ext);
      assert ext + multiset{kid} + multiset{big} == ext + multiset{big} + multiset{kid};
      Lose(kid, k, ext + multiset{big}, f);
      UnseenOne(h1.objs, objs, ext, big, if left then Cell(s, o) else Cell(o, s));
      UnseenTrans(h.objs, h1.objs, objs, ext);
      SparedMutate(h, h1, Now(), big, som, kid);
    }

    // Edit a cell in place: overwrite one side, or edit it where it is. Its
    // old content leaves the cell before it is edited or given up.
    method Mutating(big: Ref, axe: nat, som: Ref, ghost n: Noun, ghost s: Noun, ghost ext: multiset<Ref>, ghost f: Muggery)
        returns (e: Edited)
      requires axe >= 2 && Exact(Now(), ext + multiset{big} + multiset{som}, f) && Mutable(big)
      requires Denotes(objs, big, n) && Denotes(objs, som, s)
      modifies this
      ensures EditedAs(old(Now()), Now(), big, axe, som, n, s, ext, f, e) && (e.Ok? ==> e.r == big)
      ensures e.Ok? ==> next == old(next) + Seen(old(Now()), big, axe)
      decreases axe, 0
    {
      hide Exact, Held, Unseen, Denotes, Edit, Mas, Spared, Edits, Lone, But, Overflowing, Seen, Steps, Alone;
      DenotesIn(objs, big, n);
      ghost var h := Now();
      var left := Cap(axe) == 2;
      EditStep(n, axe, s);
      if axe < 4 {
        SeenNear(h, big, axe);
        Plant(big, left, som, n, s, ext, f);
        EditsParts(h, Now(), big, som, Edit(n, axe, s).value, ext, f, big);
        return Ok(big);
      }
      var kid := if left then objs[big.a].hed else objs[big.a].tel;
      var other := if left then objs[big.a].tel else objs[big.a].hed;
      ghost var k, o := if left then n.head else n.tail, if left then n.tail else n.head;
      ghost var hollow := if left then Cell(Atom(0), o) else Cell(o, Atom(0));
      assert ext + multiset{big} + multiset{som} == ext + multiset{som} + multiset{big};
      HeldMore(ext + multiset{som}, kid);
      Write(big, if left then Cat(0) else other, if left then other else Cat(0), n, ext + multiset{som}, ext + multiset{som} + multiset{kid}, f);
      ghost var h1 := Now();
      NotHeld(ext + multiset{som} + multiset{kid}, kid, big.a.i);
      SeenKid(h, h1, big, kid, axe);
      Hollow(h, h1, big, left, som, other, kid, s, o, k, ext);
      assert ext + multiset{som} + multiset{kid} + multiset{big} == ext + multiset{big} + multiset{kid} + multiset{som};
      e := EditOrMutate(kid, Mas(axe), som, k, s, ext + multiset{big}, f);
      UnseenOne(h1.objs, objs, ext, big, hollow);
      UnseenTrans(h.objs, h1.objs, objs, ext);
      if !e.Ok? { return; }
      ghost var h2, m := Now(), Edit(k, Mas(axe), s).value;
      EditsParts(h1, h2, kid, som, m, ext + multiset{big}, f, e.r);
      StillHollow(h1, h2, big, kid, som, e.r);
      HeldMore(ext, e.r);
      assert ext + multiset{big} + multiset{e.r} == ext + multiset{e.r} + multiset{big};
      Write(big, if left then e.r else other, if left then other else e.r, hollow, ext + multiset{e.r}, ext, f);
      Filled(h2, Now(), big, left, e.r, other, m, o, ext);
      UnseenTrans(h.objs, h2.objs, objs, ext);
      SparedFill(h, h1, h2, Now(), big, som, kid, other, e.r);
      EditsAll(h, Now(), big, som, Edit(n, axe, s).value, ext, f, big);
      e := Ok(big);
    }

    // In place if nobody else can see it, by copying otherwise.
    method EditOrMutate(big: Ref, axe: nat, som: Ref, ghost n: Noun, ghost s: Noun, ghost ext: multiset<Ref>, ghost f: Muggery)
        returns (e: Edited)
      requires axe >= 2 && Exact(Now(), ext + multiset{big} + multiset{som}, f) && Denotes(objs, big, n) && Denotes(objs, som, s)
      modifies this
      ensures EditedAs(old(Now()), Now(), big, axe, som, n, s, ext, f, e)
      ensures e.Ok? ==> next == old(next) + Seen(old(Now()), big, axe) && if Alone(old(Now()), big) then e.r == big else NewIn(old(Now()), e.r)
      decreases axe, 1
    {
      hide Exact, Denotes, EditedAs;
      if !Alone(Now(), big) { SeenTop(Now(), big, axe); }
      if Mutable(big) {
        e := Mutating(big, axe, som, n, s, ext, f);
      } else {
        e := Copying(big, axe, som, n, s, ext, f);
      }
    }

    /** Replace what is at an address of a noun. References held elsewhere
        denote what they did, whatever comes of it, and with a result every
        stored hash is right or zero. */
    method EditAt(big: Ref, axe: nat, som: Ref, ghost n: Noun, ghost s: Noun, ghost ext: multiset<Ref>, ghost f: Muggery)
        returns (e: Edited)
      requires Exact(Now(), ext + multiset{big} + multiset{som}, f) && Denotes(objs, big, n) && Denotes(objs, som, s)
      modifies this
      ensures (e.Exit? ==> Edit(n, axe, s).None?) && (e.Fail? ==> Overflowing(Now()))
      ensures e.Ok? ==> Edit(n, axe, s).Some? && Denotes(objs, e.r, Edit(n, axe, s).value)
      ensures e.Ok? ==> Exact(Now(), ext + multiset{e.r}, f)
      ensures Unseen(old(objs), objs, ext)
      ensures e.Ok? ==> next == old(next) + Seen(old(Now()), big, axe)
      ensures e.Ok? && axe >= 2 ==> if Alone(old(Now()), big) then e.r == big else NewIn(old(Now()), e.r)
    {
      hide Exact, Denotes, Unseen, Spared, Alone;
      UnseenSame(objs, ext);
      if axe == 0 { return Exit; }
      if axe == 1 {
        ghost var a := objs;
        assert ext + multiset{big} + multiset{som} == ext + multiset{som} + multiset{big};
        Lose(big, n, ext + multiset{som}, f);
        UnseenOne(a, objs, ext, som, s);
        return Ok(som);
      }
      e := EditOrMutate(big, axe, som, n, s, ext, f);
    }
  }

  lemma Overwritten(h: Heap, big: Ref, hed: Ref, tel: Ref, n: Noun, rest: multiset<Ref>, rest': multiset<Ref>, f: Muggery)
    requires Exact(h, rest + multiset{big}, f) && big.Pom? && big.a.Normal? && UseOf(h, big.a.i) == 1 && Denotes(h.objs, big, n)
    requires forall i: nat :: RefsIn(h.objs, big.a, i) + Held(rest, i) == RefTo(hed, i) + RefTo(tel, i) + Held(rest', i)
    ensures var k := h.(objs := h.objs[big.a := CellObj(Hash(0), hed, tel)]);
            && Exact(k, rest' + multiset{big}, f) && But(h.objs, k.objs, big.a.i)
            && Held(rest, big.a.i) == 0 && Held(rest', big.a.i) == 0
  {
    var i, o := big.a.i, CellObj(Hash(0), hed, tel);
    var k := h.(objs := h.objs[big.a := o]);
    OneUse(h, rest, big, f);
    HeldIs(h, rest + multiset{big}, f, big, n);
    assert RefsIn(h.objs, big.a, i) == 0;
    WrittenBut(h.objs, i, o);
    HeldMore(rest, big);
    HeldMore(rest', big);
    assert Shifts(h.objs, k.objs, i, rest + multiset{big}, rest' + multiset{big}, h, k) by { hide Exact; }
    ExactBut(h, rest + multiset{big}, k, rest' + multiset{big}, i, f);
  }

  lemma WrittenBut(objs: Objs, i: nat, o: Obj)
    requires Lone(objs, i) && o.CellObj? && !RefersTo(o.hed, i) && !RefersTo(o.tel, i)
    ensures But(objs, objs[Normal(i) := o], i)
  {
    var b := objs[Normal(i) := o];
    forall x | x in b ensures RefsIn(b, x, i) == 0 { if x != Normal(i) { assert RefsIn(objs, x, i) == 0; } }
  }

  // A cell's two sides, and others, after it is overwritten.
  lemma Sides(a: Objs, b: Objs, big: Ref, p: Ref, q: Ref, x: Noun, y: Noun)
    requires big.Pom? && big.a.Normal? && But(a, b, big.a.i) && big.a in b && b[big.a] == CellObj(Hash(0), p, q)
    requires Denotes(a, p, x) && Denotes(a, q, y)
    ensures Denotes(b, big, Cell(x, y))
  {
    assert RefsIn(b, big.a, big.a.i) == 0;
    Elsewhere(a, b, big.a.i, p, x);
    Elsewhere(a, b, big.a.i, q, y);
  }

  lemma NotHeld(ext: multiset<Ref>, r: Ref, i: nat)
    requires r in ext && Held(ext, i) == 0
    ensures !RefersTo(r, i)
  {
  }

  // One side replaced by a reference that was held.
  lemma Swapped(h: Heap, k: Heap, big: Ref, left: bool, som: Ref, other: Ref, kid: Ref, s: Noun, o: Noun, c: Noun, ext: multiset<Ref>)
    requires big.Pom? && big.a.Normal? && But(h.objs, k.objs, big.a.i) && Held(ext + multiset{som}, big.a.i) == 0 && Held(ext + multiset{kid}, big.a.i) == 0
    requires k == h.(objs := h.objs[big.a := if left then CellObj(Hash(0), som, other) else CellObj(Hash(0), other, som)])
    requires Denotes(h.objs, som, s) && Denotes(h.objs, other, o) && Denotes(h.objs, kid, c)
    requires big.a in h.objs && h.objs[big.a].CellObj? && {h.objs[big.a].hed, h.objs[big.a].tel} == {kid, other}
    ensures Denotes(k.objs, big, if left then Cell(s, o) else Cell(o, s)) && Denotes(k.objs, kid, c)
    ensures Unseen(h.objs, k.objs, ext) && Spared(h, k, {big, som}, {big})
  {
    var i := big.a.i;
    Sides(h.objs, k.objs, big, if left then som else other, if left then other else som, if left then s else o, if left then o else s);
    NotHeld(ext + multiset{kid}, kid, i);
    Elsewhere(h.objs, k.objs, i, kid, c);
    assert Held(ext, i) == 0;
    ButUnseen(h.objs, k.objs, i, ext);
    hide Denotes, Unseen;
    SparedPut(h, k, i, k.objs[big.a], {big, som, other});
    SparedField(h, k, big, som, other, {big});
  }

  // What a held cell holds needs no mention.
  lemma SparedField(h: Heap, k: Heap, big: Ref, som: Ref, field: Ref, out: set<Ref>)
    requires !big.Cat? && big.a in h.objs && h.objs[big.a].CellObj? && (field == h.objs[big.a].hed || field == h.objs[big.a].tel || field.Cat?)
    requires Spared(h, k, {big, som, field}, out)
    ensures Spared(h, k, {big, som}, out)
  {
    forall i: nat | Bystander(h, i, {big, som}) ensures Left(h, k, i) && Bystander(k, i, out) {
      assert RefsIn(h.objs, big.a, i) == 0;
      assert Bystander(h, i, {big, som, field});
    }
  }

  lemma SparedMutate(h: Heap, h1: Heap, h2: Heap, big: Ref, som: Ref, kid: Ref)
    requires !big.Cat? && big.a in h.objs && h.objs[big.a].CellObj? && (kid == h.objs[big.a].hed || kid == h.objs[big.a].tel)
    requires Spared(h, h1, {big, som}, {big}) && Spared(h1, h2, {kid}, {})
    ensures Spared(h, h2, {big, som}, {big})
  {
    forall i: nat | Bystander(h, i, {big, som}) ensures Left(h, h2, i) && Bystander(h2, i, {big}) {
      assert RefsIn(h.objs, big.a, i) == 0;
      assert Bystander(h1, i, {kid});
    }
  }

  // One side taken out.
  lemma Hollow(h: Heap, k: Heap, big: Ref, left: bool, som: Ref, other: Ref, kid: Ref, s: Noun, o: Noun, c: Noun, ext: multiset<Ref>)
    requires big.Pom? && big.a.Normal? && But(h.objs, k.objs, big.a.i) && Held(ext + multiset{som} + multiset{kid}, big.a.i) == 0
    requires k == h.(objs := h.objs[big.a := if left then CellObj(Hash(0), Cat(0), other) else CellObj(Hash(0), other, Cat(0))])
    requires Denotes(h.objs, som, s) && Denotes(h.objs, other, o) && Denotes(h.objs, kid, c)
    requires big.a in h.objs && h.objs[big.a].CellObj? && {h.objs[big.a].hed, h.objs[big.a].tel} == {kid, other}
    ensures Denotes(k.objs, big, if left then Cell(Atom(0), o) else Cell(o, Atom(0))) && Denotes(k.objs, kid, c) && Denotes(k.objs, som, s)
    ensures Unseen(h.objs, k.objs, ext) && Spared(h, k, {big, som}, {big}) && Bystander(k, big.a.i, {kid, som})
  {
    var i := big.a.i;
    Sides(h.objs, k.objs, big, if left then Cat(0) else other, if left then other else Cat(0), if left then Atom(0) else o, if left then o else Atom(0));
    NotHeld(ext + multiset{som} + multiset{kid}, kid, i);
    NotHeld(ext + multiset{som} + multiset{kid}, som, i);
    Elsewhere(h.objs, k.objs, i, kid, c);
    Elsewhere(h.objs, k.objs, i, som, s);
    assert Held(ext, i) == 0;
    ButUnseen(h.objs, k.objs, i, ext);
    hide Denotes, Unseen;
    SparedPut(h, k, i, k.objs[big.a], {big, other, Cat(0)});
    SparedHollow(h, k, big, som, other);
  }

  lemma SparedHollow(h: Heap, k: Heap, big: Ref, som: Ref, other: Ref)
    requires !big.Cat? && big.a in h.objs && h.objs[big.a].CellObj? && (other == h.objs[big.a].hed || other == h.objs[big.a].tel)
    requires Spared(h, k, {big, other, Cat(0)}, {big})
    ensures Spared(h, k, {big, som}, {big})
  {
    forall i: nat | Bystander(h, i, {big, som}) ensures Left(h, k, i) && Bystander(k, i, {big}) {
      assert RefsIn(h.objs, big.a, i) == 0;
      assert Bystander(h, i, {big, other, Cat(0)});
    }
  }

  lemma StillHollow(h: Heap, k: Heap, big: Ref, kid: Ref, som: Ref, x: Ref)
    requires big.Pom? && big.a.Normal? && Bystander(h, big.a.i, {kid, som}) && Spared(h, k, {kid, som}, {x})
    ensures big.a in h.objs && big.a in k.objs && k.objs[big.a] == h.objs[big.a] && UseOf(k, big.a.i) == UseOf(h, big.a.i)
  {
  }

  // The side put back.
  lemma Filled(h: Heap, k: Heap, big: Ref, left: bool, x: Ref, other: Ref, m: Noun, o: Noun, ext: multiset<Ref>)
    requires big.Pom? && big.a.Normal? && But(h.objs, k.objs, big.a.i) && Held(ext, big.a.i) == 0
    requires k == h.(objs := h.objs[big.a := if left then CellObj(Hash(0), x, other) else CellObj(Hash(0), other, x)])
    requires Denotes(h.objs, x, m) && Denotes(h.objs, other, o)
    ensures Denotes(k.objs, big, if left then Cell(m, o) else Cell(o, m)) && Unseen(h.objs, k.objs, ext)
  {
    Sides(h.objs, k.objs, big, if left then x else other, if left then other else x, if left then m else o, if left then o else m);
    ButUnseen(h.objs, k.objs, big.a.i, ext);
  }

  lemma SparedFill(h: Heap, h1: Heap, h2: Heap, h3: Heap, big: Ref, som: Ref, kid: Ref, other: Ref, x: Ref)
    requires big.Pom? && big.a.Normal? && big.a in h.objs && h.objs[big.a].CellObj? && {h.objs[big.a].hed, h.objs[big.a].tel} == {kid, other}
    requires Spared(h, h1, {big, som}, {big}) && Spared(h1, h2, {kid, som}, {x})
    requires big.a in h3.objs && h3.objs[big.a].CellObj? && {h3.objs[big.a].hed, h3.objs[big.a].tel} <= {x, other}
    requires h3 == h2.(objs := h2.objs[big.a := h3.objs[big.a]])
    ensures Spared(h, h3, {big, som}, {big})
  {
    SparedPut(h2, h3, big.a.i, h3.objs[big.a], {x, other, big});
    forall i: nat | Bystander(h, i, {big, som}) ensures Left(h, h3, i) && Bystander(h3, i, {big}) {
      assert RefsIn(h.objs, big.a, i) == 0;
      assert Bystander(h1, i, {kid, som});
      assert Bystander(h2, i, {x, other, big});
    }
  }

  // What a finished edit leaves: its result in place of what came in, other
  // references and objects out of reach as they were.
  ghost predicate Edits(h: Heap, k: Heap, big: Ref, som: Ref, out: Noun, ext: multiset<Ref>, f: Muggery, r: Ref) {
    && Exact(k, ext + multiset{r}, f) && Denotes(k.objs, r, out)
    && Unseen(h.objs, k.objs, ext) && Spared(h, k, {big, som}, {r})
  }

  ghost predicate EditedAs(h: Heap, k: Heap, big: Ref, axe: nat, som: Ref, n: Noun, s: Noun, ext: multiset<Ref>, f: Muggery, e: Edited) {
    && (e.Ok? ==> Edit(n, axe, s).Some? && Edits(h, k, big, som, Edit(n, axe, s).value, ext, f, e.r))
    && (e.Exit? ==> Edit(n, axe, s).None?)
    && (e.Fail? ==> Overflowing(k)) && Unseen(h.objs, k.objs, ext)
  }

  lemma EditsParts(h: Heap, k: Heap, big: Ref, som: Ref, out: Noun, ext: multiset<Ref>, f: Muggery, r: Ref)
    requires Edits(h, k, big, som, out, ext, f, r)
    ensures Exact(k, ext + multiset{r}, f) && Denotes(k.objs, r, out)
    ensures Unseen(h.objs, k.objs, ext) && Spared(h, k, {big, som}, {r})
  {
  }

  lemma EditsAll(h: Heap, k: Heap, big: Ref, som: Ref, out: Noun, ext: multiset<Ref>, f: Muggery, r: Ref)
    requires Exact(k, ext + multiset{r}, f) && Denotes(k.objs, r, out)
    requires Unseen(h.objs, k.objs, ext) && Spared(h, k, {big, som}, {r})
    ensures Edits(h, k, big, som, out, ext, f, r)
  {
  }

  lemma NotCell(objs: Objs, r: Ref, n: Noun)
    requires Denotes(objs, r, n) && !r.Pom?
    ensures n.Atom?
  {
  }

  lemma SparedReplace(h: Heap, h1: Heap, h2: Heap, h3: Heap, big: Ref, x: Ref, other: Ref, r: Ref)
    requires !big.Cat? && big.a in h.objs && h.objs[big.a].CellObj? && (other == h.objs[big.a].hed || other == h.objs[big.a].tel)
    requires Spared(h, h1, {other}, {other}) && Spared(h1, h2, {x, other}, {r}) && Spared(h2, h3, {big}, {})
    ensures Spared(h, h3, {big, x}, {r})
  {
    forall i: nat | Bystander(h, i, {big, x}) ensures Left(h, h3, i) && Bystander(h3, i, {r}) {
      assert RefsIn(h.objs, big.a, i) == 0;
      assert Bystander(h, i, {other});
      assert Bystander(h1, i, {x, other});
      assert Bystander(h2, i, {big});
    }
  }

  lemma SparedCopy(h: Heap, h1: Heap, h2: Heap, h3: Heap, big: Ref, som: Ref, kid: Ref, x: Ref, r: Ref)
    requires !big.Cat? && big.a in h.objs && h.objs[big.a].CellObj? && (kid == h.objs[big.a].hed || kid == h.objs[big.a].tel)
    requires Spared(h, h1, {kid}, {kid}) && Spared(h1, h2, {kid, som}, {x}) && Spared(h2, h3, {big, x}, {r})
    ensures Spared(h, h3, {big, som}, {r})
  {
    forall i: nat | Bystander(h, i, {big, som}) ensures Left(h, h3, i) && Bystander(h3, i, {r}) {
      assert RefsIn(h.objs, big.a, i) == 0;
      assert Bystander(h, i, {kid});
      assert Bystander(h1, i, {kid, som});
      assert Bystander(h2, i, {big, x});
    }
  }

  lemma UnseenSame(a: Objs, ext: multiset<Ref>)
    ensures Unseen(a, a, ext)
  {
  }

  lemma UnseenOne(a: Objs, b: Objs, ext: multiset<Ref>, r: Ref, n: Noun)
    requires Unseen(a, b, ext + multiset{r}) && Denotes(a, r, n)
    ensures Unseen(a, b, ext) && Denotes(b, r, n)
  {
    assert r in ext + multiset{r};
    forall q, m | q in ext && Denotes(a, q, m) ensures Denotes(b, q, m) { assert q in ext + multiset{r}; }
  }

  lemma DenotesIn(objs: Objs, r: Ref, n: Noun)
    requires Denotes(objs, r, n) && !r.Cat?
    ensures r.a in objs && (r.Pom? <==> objs[r.a].CellObj?) && (r.Pom? <==> n.Cell?)
    ensures r.Pom? ==> Denotes(objs, objs[r.a].hed, n.head) && Denotes(objs, objs[r.a].tel, n.tail)
  {
  }

  // An object removed with its last reference.
  lemma Removed(h: Heap, ext: multiset<Ref>, r: Ref, n: Noun, f: Muggery)
    requires Exact(h, ext + multiset{r}, f) && Denotes(h.objs, r, n) && !r.Cat? && r.a.Normal? && UseOf(h, r.a.i) == 1
    ensures r.a in h.objs && var o, k := h.objs[r.a], h.(objs := h.objs - {r.a}, use := h.use - {r.a.i});
            && Unseen(h.objs, k.objs, ext)
            && (o.AtomObj? ==> Exact(k, ext, f))
            && (o.CellObj? ==> n.Cell? && Exact(k, ext + multiset{o.tel} + multiset{o.hed}, f) && Denotes(k.objs, o.hed, n.head) && Denotes(k.objs, o.tel, n.tail))
  {
    OneUse(h, ext, r, f);
    DenotesIn(h.objs, r, n);
    var o, k, i := h.objs[r.a], h.(objs := h.objs - {r.a}, use := h.use - {r.a.i}), r.a.i;
    RemovedBut(h.objs, i);
    ButUnseen(h.objs, k.objs, i, ext);
    var ext' := if o.CellObj? then ext + multiset{o.tel} + multiset{o.hed} else ext;
    RemovedCounts(h, ext, r, f, ext');
    ExactBut(h, ext + multiset{r}, k, ext', i, f);
    hide Exact;
    if o.CellObj? {
      assert RefsIn(h.objs, r.a, i) == 0;
      Elsewhere(h.objs, k.objs, i, o.hed, n.head);
      Elsewhere(h.objs, k.objs, i, o.tel, n.tail);
    }
  }

  lemma RemovedBut(objs: Objs, i: nat)
    requires Lone(objs, i)
    ensures But(objs, objs - {Normal(i)}, i)
  {
    var b := objs - {Normal(i)};
    forall x | x in b ensures RefsIn(b, x, i) == 0 { assert RefsIn(objs, x, i) == 0; }
  }

  lemma RemovedCounts(h: Heap, ext: multiset<Ref>, r: Ref, f: Muggery, ext': multiset<Ref>)
    requires Exact(h, ext + multiset{r}, f) && !r.Cat? && r.a.Normal? && UseOf(h, r.a.i) == 1 && r.a in h.objs
    requires ext' == if h.objs[r.a].CellObj? then ext + multiset{h.objs[r.a].tel} + multiset{h.objs[r.a].hed} else ext
    ensures var k := h.(objs := h.objs - {r.a}, use := h.use - {r.a.i});
            && Shifts(h.objs, k.objs, r.a.i, ext + multiset{r}, ext', h, k)
            && r.a.i < h.next && forall i: nat :: Normal(i) in k.objs <==> UseOf(k, i) > 0
  {
    hide Hashed, Denotes, Held;
    HeldMore(ext, r);
    if h.objs[r.a].CellObj? {
      HeldMore(ext, h.objs[r.a].tel);
      HeldMore(ext + multiset{h.objs[r.a].tel}, h.objs[r.a].hed);
    }
  }

  lemma Consed(h: Heap, hed: Ref, tel: Ref, a: Noun, b: Noun, ext: multiset<Ref>, f: Muggery)
    requires Exact(h, ext + multiset{hed} + multiset{tel}, f) && Denotes(h.objs, hed, a) && Denotes(h.objs, tel, b)
    ensures var r := Pom(Normal(h.next));
            var k := Heap(h.objs[Normal(h.next) := CellObj(Hash(0), hed, tel)], h.use[h.next := 1], h.next + 1);
            Exact(k, ext + multiset{r}, f) && Denotes(k.objs, r, Cell(a, b)) && Unseen(h.objs, k.objs, ext)
  {
    hide Exact, Held, Denotes, Unseen, Shifts, But, Lone;
    var i, o := h.next, CellObj(Hash(0), hed, tel);
    var all := ext + multiset{hed} + multiset{tel};
    var k := Heap(h.objs[Normal(i) := o], h.use[i := 1], i + 1);
    ExactBump(h, all, f);
    HeldIs(h, all, f, hed, a);
    HeldIs(h, all, f, tel, b);
    var g := h.(next := i + 1);
    ConsedBut(h.objs, i, o);
    HeldMore(ext, hed);
    HeldMore(ext + multiset{hed}, tel);
    HeldMore(ext, Pom(Normal(i)));
    ConsedCounts(g, k, all, ext + multiset{Pom(Normal(i))}, i, o, f);
    ExactBut(g, all, k, ext + multiset{Pom(Normal(i))}, i, f);
    ButUnseen(h.objs, k.objs, i, ext);
    Sides(h.objs, k.objs, Pom(Normal(i)), hed, tel, a, b);
  }

  lemma ConsedBut(objs: Objs, i: nat, o: Obj)
    requires Lone(objs, i) && Normal(i) !in objs && o.CellObj? && !RefersTo(o.hed, i) && !RefersTo(o.tel, i)
    ensures But(objs, objs[Normal(i) := o], i)
  {
    var b := objs[Normal(i) := o];
    forall x | x in b ensures RefsIn(b, x, i) == 0 { if x != Normal(i) { assert RefsIn(objs, x, i) == 0; } }
  }

  lemma ConsedCounts(g: Heap, k: Heap, all: multiset<Ref>, ext': multiset<Ref>, i: nat, o: Obj, f: Muggery)
    requires Exact(g, all, f) && Normal(i) !in g.objs && o.CellObj? && k.objs == g.objs[Normal(i) := o] && k.use == g.use[i := 1]
    requires forall j: nat :: Held(all, j) + RefTo(Pom(Normal(i)), j) == Held(ext', j) + RefTo(o.hed, j) + RefTo(o.tel, j)
    ensures Shifts(g.objs, k.objs, i, all, ext', g, k) && forall j: nat :: Normal(j) in k.objs <==> UseOf(k, j) > 0
  {
    hide Hashed, Denotes, Held;
  }
}
