/** The off-loom arena: atoms and cells entered once each, found again by hash
    through buckets that grow. */
module Hashcons {
  import opened Nouns
  import opened Mugs
  import opened HeldNouns
  import opened Dictionary

  // ---- the arena ----

  datatype Store = Store(atoms: seq<nat>, heads: seq<NRef>, tails: seq<NRef>)

  // A reference to something already there; cells before `i` only.
  predicate Known(s: Store, r: NRef, i: nat) {
    match r
    case Direct(v) => v < DIRECT
    case IAtom(k) => k < |s.atoms|
    case ICell(j) => j < i
  }

  // Cells refer to earlier cells.
  ghost predicate Ordered(s: Store) {
    |s.tails| == |s.heads| && forall i: nat :: i < |s.heads| ==> Known(s, s.heads[i], i) && Known(s, s.tails[i], i)
  }

  // What a reference denotes.
  function Val(s: Store, r: NRef): Noun
    requires Ordered(s) && Known(s, r, |s.heads|)
    decreases if r.ICell? then r.i + 1 else 0
  {
    match r
    case Direct(v) => Atom(v)
    case IAtom(k) => Atom(s.atoms[k])
    case ICell(i) => Cell(Val(s, s.heads[i]), Val(s, s.tails[i]))
  }

  // No two atoms and no two cells alike, and no atom that could be direct.
  ghost predicate Unique(s: Store) {
    && |s.tails| == |s.heads|
    && (forall i, j :: 0 <= i < |s.atoms| && 0 <= j < |s.atoms| && s.atoms[i] == s.atoms[j] ==> i == j)
    && (forall i, j :: 0 <= i < |s.heads| && 0 <= j < |s.heads| && s.heads[i] == s.heads[j] && s.tails[i] == s.tails[j] ==> i == j)
  }

  ghost predicate Canonical(s: Store) { forall i :: 0 <= i < |s.atoms| ==> s.atoms[i] >= DIRECT }

  // The same, with how its atoms are held.
  function Form(s: Store, r: NRef): Held
    requires Ordered(s) && Known(s, r, |s.heads|)
    decreases if r.ICell? then r.i + 1 else 0
  {
    match r
    case Direct(v) => Word(v)
    case IAtom(k) => Bytes(s.atoms[k])
    case ICell(i) => Pair(Form(s, s.heads[i]), Form(s, s.tails[i]))
  }

  lemma {:induction false} FormVal(s: Store, r: NRef)
    requires Ordered(s) && Known(s, r, |s.heads|)
    ensures Bare(Form(s, r)) == Val(s, r)
    decreases if r.ICell? then r.i + 1 else 0
  {
    if r.ICell? {
      FormVal(s, s.heads[r.i]);
      FormVal(s, s.tails[r.i]);
    }
  }

  /** References are the same if and only if their nouns, and how the atoms of
      these are held, are. */
  lemma {:induction false} SameForm(s: Store, r: NRef, q: NRef)
    requires Ordered(s) && Unique(s) && Known(s, r, |s.heads|) && Known(s, q, |s.heads|)
    ensures r == q <==> Form(s, r) == Form(s, q)
    decreases if r.ICell? then r.i + 1 else 0
  {
    if r.ICell? && q.ICell? && Form(s, r) == Form(s, q) {
      SameForm(s, s.heads[r.i], s.heads[q.i]);
      SameForm(s, s.tails[r.i], s.tails[q.i]);
    }
  }

  // Where no atom could be direct that is not, all nouns are held naturally.
  lemma {:induction false} FormNatural(s: Store, r: NRef)
    requires Ordered(s) && Canonical(s) && Known(s, r, |s.heads|)
    ensures Form(s, r) == Natural(Val(s, r))
    decreases if r.ICell? then r.i + 1 else 0
  {
    if r.ICell? {
      FormNatural(s, s.heads[r.i]);
      FormNatural(s, s.tails[r.i]);
    }
  }

  /** References are the same if and only if their nouns are. */
  lemma SameRef(s: Store, r: NRef, q: NRef)
    requires Ordered(s) && Unique(s) && Canonical(s) && Known(s, r, |s.heads|) && Known(s, q, |s.heads|)
    ensures r == q <==> Val(s, r) == Val(s, q)
  {
    SameForm(s, r, q);
    FormNatural(s, r);
    FormNatural(s, q);
  }

  /** An atom entered as bytes that could have been direct is one noun under
      two references. */
  lemma TwoRefs(s: Store, k: nat)
    requires Ordered(s) && k < |s.atoms| && s.atoms[k] < DIRECT
    ensures Val(s, IAtom(k)) == Val(s, Direct(s.atoms[k])) && IAtom(k) != Direct(s.atoms[k])
  {
  }

  // Two references to a noun are the same.
  ghost predicate OneRef(s: Store, r: NRef, q: NRef)
    requires Ordered(s)
  {
    Known(s, r, |s.heads|) && Known(s, q, |s.heads|) && Val(s, r) == Val(s, q) ==> r == q
  }

  /** Every noun has one reference if and only if no atom held as bytes could
      be direct. */
  lemma CanonicalIff(s: Store)
    requires Ordered(s) && Unique(s)
    ensures Canonical(s) <==> forall r, q :: OneRef(s, r, q)
  {
    if Canonical(s) {
      forall r, q ensures OneRef(s, r, q) {
        if Known(s, r, |s.heads|) && Known(s, q, |s.heads|) { SameRef(s, r, q); }
      }
    } else {
      var k :| 0 <= k < |s.atoms| && s.atoms[k] < DIRECT;
      TwoRefs(s, k);
      assert !OneRef(s, IAtom(k), Direct(s.atoms[k]));
    }
  }

  // More atoms or cells do not change what is there.
  ghost predicate Grows(s: Store, t: Store) { s.atoms <= t.atoms && s.heads <= t.heads && s.tails <= t.tails }

  lemma {:induction false} ValStill(s: Store, t: Store, r: NRef)
    requires Ordered(s) && Ordered(t) && Grows(s, t) && Known(s, r, |s.heads|)
    ensures Known(t, r, |t.heads|) && Val(t, r) == Val(s, r) && Form(t, r) == Form(s, r)
    decreases if r.ICell? then r.i + 1 else 0
  {
    if r.ICell? {
      ValStill(s, t, s.heads[r.i]);
      ValStill(s, t, s.tails[r.i]);
    }
  }

  // The stored hashes are those of the nouns' parts.
  ghost predicate Hashed(s: Store, m: Hashes) {
    && |m.atoms| == |s.atoms| && |m.cells| == |s.heads| == |s.tails|
    && (forall i :: 0 <= i < |s.atoms| ==> m.atoms[i] == MugAtom(m.mm, s.atoms[i]))
    && (forall i :: 0 <= i < |s.heads| ==> m.cells[i] == MugBoth(m.mm, RefMug(m, s.heads[i]), RefMug(m, s.tails[i])))
  }

  lemma {:induction false} MugIs(s: Store, m: Hashes, r: NRef)
    requires Ordered(s) && Hashed(s, m) && Known(s, r, |s.heads|)
    ensures RefMug(m, r) == MugOf(m.mm, Val(s, r))
    decreases if r.ICell? then r.i + 1 else 0
  {
    hide MugAtom, MugBoth;
    if r.ICell? {
      MugIs(s, m, s.heads[r.i]);
      MugIs(s, m, s.tails[r.i]);
    }
  }

  // All references of one kind.
  ghost function AllOf(n: nat, cells: bool): map<NRef, ()> {
    if cells then map i | 0 <= i < n :: ICell(i) := () else map i | 0 <= i < n :: IAtom(i) := ()
  }

  lemma AllOfIs(n: nat, cells: bool, r: NRef)
    ensures r in AllOf(n, cells) <==> if cells then r.ICell? && r.i < n else r.IAtom? && r.i < n
    ensures r in AllOf(n, cells) ==> AllOf(n, cells)[r] == ()
  {
  }

  // A dictionary that holds them.
  ghost predicate Holds(d: Dict<()>, m: Hashes, n: nat, cells: bool) { Means(d, m, AllOf(n, cells)) }

  // How many of one kind have a hash.
  ghost function Sharing(m: Hashes, n: nat, cells: bool, mug: nat): nat { |Sharers(AllOf(n, cells), m, mug)| }

  lemma HeldInBucket(d: Dict<()>, m: Hashes, n: nat, cells: bool, r: NRef)
    requires Holds(d, m, n, cells) && (if cells then r.ICell? && r.i < n else r.IAtom? && r.i < n)
    ensures |d.buckets| > 0 && Entry(r, ()) in d.buckets[RefMug(m, r) % |d.buckets|]
  {
    AllOfIs(n, cells, r);
    hide RefMug, AllOf, Means;
    MeansSize(d, m, AllOf(n, cells));
    HomeHas(d, m, AllOf(n, cells), r);
  }

  lemma BucketHeld(d: Dict<()>, m: Hashes, n: nat, cells: bool, b: nat, k: nat)
    requires Holds(d, m, n, cells) && b < |d.buckets| && k < |d.buckets[b]|
    ensures var r := d.buckets[b][k].ref; if cells then r.ICell? && r.i < n else r.IAtom? && r.i < n
  {
    AllOfIs(n, cells, d.buckets[b][k].ref);
    hide RefMug, AllOf, Means;
    BucketIn(d, m, AllOf(n, cells), b, k);
  }

  // A new reference put in its bucket.
  lemma HoldsMore(d: Dict<()>, m: Hashes, m': Hashes, n: nat, cells: bool, idx: nat)
    requires Holds(d, m, n, cells) && m'.mm == m.mm && m.atoms <= m'.atoms && m.cells <= m'.cells
    requires (if cells then n == |m.cells| < |m'.cells| else n == |m.atoms| < |m'.atoms|)
    requires |d.buckets| > 0 && var r := if cells then ICell(n) else IAtom(n); idx == RefMug(m', r) % |d.buckets| && |d.buckets[idx]| < PAIL
    ensures var r := if cells then ICell(n) else IAtom(n);
            Holds(Dict(d.prev, d.buckets[idx := d.buckets[idx] + [Entry(r, ())]]), m', n + 1, cells)
  {
    var r := if cells then ICell(n) else IAtom(n);
    HoldsStill(d, m, m', n, cells);
    AllOfIs(n, cells, r);
    assert AllOf(n + 1, cells) == AllOf(n, cells)[r := ()];
    hide RefMug, AllOf, Means;
    Appended(d, m', AllOf(n, cells), r, ());
  }

  // Dictionaries of the other kind do not notice.
  lemma HoldsStill(d: Dict<()>, m: Hashes, m': Hashes, n: nat, cells: bool)
    requires Holds(d, m, n, cells) && m'.mm == m.mm && m.atoms <= m'.atoms && m.cells <= m'.cells
    requires n <= if cells then |m.cells| else |m.atoms|
    ensures Holds(d, m', n, cells)
  {
    hide RefMug, Means;
    forall q | q in AllOf(n, cells) ensures RefMug(m', q) == RefMug(m, q) {
      AllOfIs(n, cells, q);
      MugStill(m, m', q);
    }
    MeansStill(d, m, m', AllOf(n, cells));
  }

  // Stored hashes have 31 bits.
  lemma HashedShort(s: Store, m: Hashes)
    requires Hashed(s, m)
    ensures Short(m)
  {
    hide MugAtom, MugBoth;
    forall r ensures RefMug(m, r) < HALF { assert MugAtom(m.mm, if r.Direct? then r.v else 0) < HALF; }
  }

  lemma MugStill(m: Hashes, m': Hashes, q: NRef)
    requires m'.mm == m.mm && m.atoms <= m'.atoms && m.cells <= m'.cells
    requires (q.IAtom? ==> q.i < |m.atoms|) && (q.ICell? ==> q.i < |m.cells|)
    ensures RefMug(m', q) == RefMug(m, q)
  {
  }

  // What cells and atoms do to the whole.
  lemma StoreCons(s: Store, m: Hashes, hed: NRef, tal: NRef)
    requires Ordered(s) && Unique(s) && Hashed(s, m) && Known(s, hed, |s.heads|) && Known(s, tal, |s.heads|) && !HasCell(s, hed, tal)
    ensures var t := WithCell(s, hed, tal);
            var m' := m.(cells := m.cells + [MugBoth(m.mm, RefMug(m, hed), RefMug(m, tal))]);
            && Ordered(t) && Unique(t) && Hashed(t, m') && Grows(s, t) && (Canonical(s) ==> Canonical(t))
            && Known(t, ICell(|s.heads|), |t.heads|) && Val(t, ICell(|s.heads|)) == Cell(Val(s, hed), Val(s, tal))
            && Form(t, ICell(|s.heads|)) == Pair(Form(s, hed), Form(s, tal))
  {
    ConsOrdered(s, hed, tal);
    ConsUnique(s, hed, tal);
    hide Unique, Val, Form, HasCell;
    ConsHashed(s, m, hed, tal);
    hide Hashed, RefMug;
  }

  lemma ConsUnique(s: Store, hed: NRef, tal: NRef)
    requires Unique(s) && !HasCell(s, hed, tal)
    ensures Unique(WithCell(s, hed, tal))
  {
  }

  lemma ConsOrdered(s: Store, hed: NRef, tal: NRef)
    requires Ordered(s) && Known(s, hed, |s.heads|) && Known(s, tal, |s.heads|)
    ensures var t := WithCell(s, hed, tal);
            && Ordered(t) && Grows(s, t) && (Canonical(s) ==> Canonical(t))
            && Known(t, ICell(|s.heads|), |t.heads|) && Val(t, ICell(|s.heads|)) == Cell(Val(s, hed), Val(s, tal))
            && Form(t, ICell(|s.heads|)) == Pair(Form(s, hed), Form(s, tal))
  {
    var t := WithCell(s, hed, tal);
    forall i: nat | i < |t.heads| ensures Known(t, t.heads[i], i) && Known(t, t.tails[i], i) {
      if i < |s.heads| { assert Known(s, s.heads[i], i); }
    }
    ValStill(s, t, hed);
    ValStill(s, t, tal);
  }

  lemma ConsHashed(s: Store, m: Hashes, hed: NRef, tal: NRef)
    requires Ordered(s) && Hashed(s, m) && Known(s, hed, |s.heads|) && Known(s, tal, |s.heads|)
    ensures Hashed(WithCell(s, hed, tal), m.(cells := m.cells + [MugBoth(m.mm, RefMug(m, hed), RefMug(m, tal))]))
  {
    hide MugBoth, MugAtom;
    var t := WithCell(s, hed, tal);
    var m' := m.(cells := m.cells + [MugBoth(m.mm, RefMug(m, hed), RefMug(m, tal))]);
    forall i | 0 <= i < |t.heads| ensures m'.cells[i] == MugBoth(m'.mm, RefMug(m', t.heads[i]), RefMug(m', t.tails[i])) {
      if i < |s.heads| { assert Known(s, s.heads[i], i); }
      MugStill(m, m', t.heads[i]);
      MugStill(m, m', t.tails[i]);
    }
  }

  lemma StoreCoin(s: Store, m: Hashes, v: nat)
    requires Ordered(s) && Unique(s) && Hashed(s, m) && v !in s.atoms
    ensures var t := WithAtom(s, v);
            var m' := m.(atoms := m.atoms + [MugAtom(m.mm, v)]);
            && Ordered(t) && Unique(t) && Hashed(t, m') && Grows(s, t) && (Canonical(s) && v >= DIRECT ==> Canonical(t))
  {
    hide MugBoth, MugAtom;
    var t := WithAtom(s, v);
    var m' := m.(atoms := m.atoms + [MugAtom(m.mm, v)]);
    forall i: nat | i < |t.heads| ensures Known(t, t.heads[i], i) && Known(t, t.tails[i], i) { assert Known(s, s.heads[i], i); }
    forall i | 0 <= i < |t.heads| ensures m'.cells[i] == MugBoth(m'.mm, RefMug(m', t.heads[i]), RefMug(m', t.tails[i])) {
      assert Known(s, s.heads[i], i) && Known(s, s.tails[i], i);
      MugStill(m, m', t.heads[i]);
      MugStill(m, m', t.tails[i]);
    }
  }

  // A cell that is there, or whose hash fewer than ten cells have.
  ghost predicate HasCell(s: Store, hed: NRef, tal: NRef) {
    |s.tails| == |s.heads| && exists i :: 0 <= i < |s.heads| && s.heads[i] == hed && s.tails[i] == tal
  }

  ghost predicate CellFits(s: Store, m: Hashes, hed: NRef, tal: NRef) {
    HasCell(s, hed, tal) || Sharing(m, |s.heads|, true, MugBoth(m.mm, RefMug(m, hed), RefMug(m, tal))) < PAIL
  }

  // An atom likewise.
  ghost predicate AtomFits(s: Store, m: Hashes, v: nat) {
    v in s.atoms || Sharing(m, |s.atoms|, false, MugAtom(m.mm, v)) < PAIL
  }

  function WithCell(s: Store, hed: NRef, tal: NRef): Store { s.(heads := s.heads + [hed], tails := s.tails + [tal]) }
  function WithAtom(s: Store, v: nat): Store { s.(atoms := s.atoms + [v]) }

  type Bin = seq<Entry<()>>

  ghost predicate AllCells(bucket: Bin, n: nat) { forall k :: 0 <= k < |bucket| ==> bucket[k].ref.ICell? && bucket[k].ref.i < n }
  ghost predicate AllAtoms(bucket: Bin, n: nat) { forall k :: 0 <= k < |bucket| ==> bucket[k].ref.IAtom? && bucket[k].ref.i < n }

  class Root {
    var store: Store
    var mugs: Hashes
    var atomDict: Dict<()>
    var cellDict: Dict<()>

    ghost predicate Valid()
      reads this
    {
      && Ordered(store) && Unique(store) && Hashed(store, mugs)
      && Holds(atomDict, mugs, |store.atoms|, false) && Holds(cellDict, mugs, |store.heads|, true)
    }

    // An empty arena.
    constructor (mm: Murmur)
      ensures Valid() && Canonical(store) && store == Store([], [], []) && mugs.mm == mm
    {
      store, mugs := Store([], [], []), Hashes(mm, [], []);
      atomDict, cellDict := Fresh(144, 233), Fresh(144, 233);
      new;
      FreshMeans<()>(144, 233, mugs);
      assert AllOf(0, false) == map[] && AllOf(0, true) == map[];
    }

    // Look a cell up in one bucket.
    method FindCell(bucket: Bin, hed: NRef, tal: NRef) returns (r: Option<NRef>)
      requires |store.heads| == |store.tails| && AllCells(bucket, |store.heads|)
      ensures r.Some? ==> r.value.ICell? && r.value.i < |store.heads| && store.heads[r.value.i] == hed && store.tails[r.value.i] == tal
      ensures r.None? ==> forall k :: 0 <= k < |bucket| ==> !(store.heads[bucket[k].ref.i] == hed && store.tails[bucket[k].ref.i] == tal)
    {
      var i := 0;
      while i < |bucket|
        invariant i <= |bucket|
        invariant forall k :: 0 <= k < i ==> !(store.heads[bucket[k].ref.i] == hed && store.tails[bucket[k].ref.i] == tal)
      {
        var cel := bucket[i].ref;
        if store.heads[cel.i] == hed && store.tails[cel.i] == tal { return Some(cel); }
        i := i + 1;
      }
      r := None;
    }

    /** The reference of a cell: the one it has, or a new one.  With `fuel`
        enough it returns if and only if the cell is there or fewer than ten
        others have its hash. */
    method Cons(hed: NRef, tal: NRef, fuel: nat) returns (r: Option<NRef>)
      requires Valid() && Known(store, hed, |store.heads|) && Known(store, tal, |store.heads|)
      modifies this
      ensures Valid() && Grows(old(store), store) && mugs.mm == old(mugs.mm) && (Canonical(old(store)) ==> Canonical(store))
      ensures r.Some? ==> r.value.ICell? && Known(store, r.value, |store.heads|) && Val(store, r.value) == Cell(Val(old(store), hed), Val(old(store), tal))
      ensures r.Some? ==> Form(store, r.value) == Pair(Form(old(store), hed), Form(old(store), tal))
      ensures r.Some? ==> CellFits(old(store), old(mugs), hed, tal)
      ensures Enough(fuel, old(cellDict)) && CellFits(old(store), old(mugs), hed, tal) ==> r.Some?
      ensures store == if r.None? || HasCell(old(store), hed, tal) then old(store) else WithCell(old(store), hed, tal)
      ensures r.None? ==> mugs == old(mugs)
      ensures |atomDict.buckets| >= |old(atomDict).buckets| && |cellDict.buckets| >= |old(cellDict).buckets|
      decreases fuel
    {
      hide Ordered, Unique, Hashed, Holds, Known, Val, Form, Grows, Canonical, RefMug, MugBoth, Sharing, Enough, Short;
      var mug := MugBoth(mugs.mm, RefMug(mugs, hed), RefMug(mugs, tal));
      CellBuckets(store, mugs, cellDict);
      var idx := mug % |cellDict.buckets|;
      var bucket := cellDict.buckets[idx];
      var found := FindCell(bucket, hed, tal);
      GrowsSame(store);
      if found.Some? {
        FoundVal(store, hed, tal, found.value);
        return found;
      }
      AbsentCell(store, mugs, cellDict, hed, tal, mug, idx);
      HashedShort(store, mugs);
      if |bucket| == PAIL {
        FullBin(cellDict, mugs, |store.heads|, true, mug);
        EnoughMore(fuel, cellDict);
        if fuel == 0 { return None; }
        var d := GrowBins(cellDict, mugs, |store.heads|, true, fuel);
        if d.None? { return None; }
        EnoughGrown(fuel, cellDict, d.value);
        cellDict := d.value;
        r := Cons(hed, tal, fuel - 1);
        return;
      }
      RoomBin(cellDict, mugs, |store.heads|, true, mug);
      ghost var s, m := store, mugs;
      StoreCons(store, mugs, hed, tal);
      var cel := ICell(|store.heads|);
      mugs := mugs.(cells := mugs.cells + [mug]);
      store := WithCell(store, hed, tal);
      NewCell(s, m, mugs, cellDict, atomDict, mug, idx);
      cellDict := Dict(cellDict.prev, cellDict.buckets[idx := bucket + [Entry(cel, ())]]);
      r := Some(cel);
    }

    // Look an atom up in one bucket.
    method FindAtom(bucket: Bin, v: nat) returns (r: Option<NRef>)
      requires AllAtoms(bucket, |store.atoms|)
      ensures r.Some? ==> r.value.IAtom? && r.value.i < |store.atoms| && store.atoms[r.value.i] == v
      ensures r.None? ==> forall k :: 0 <= k < |bucket| ==> store.atoms[bucket[k].ref.i] != v
    {
      var i := 0;
      while i < |bucket|
        invariant i <= |bucket| && forall k :: 0 <= k < i ==> store.atoms[bucket[k].ref.i] != v
      {
        if store.atoms[bucket[i].ref.i] == v { return Some(bucket[i].ref); }
        i := i + 1;
      }
      r := None;
    }

    /** The reference of an atom entered as bytes, whatever its size; it
        returns under the same condition. */
    method CoinBytes(v: nat, fuel: nat) returns (r: Option<NRef>)
      requires Valid()
      modifies this
      ensures Valid() && Grows(old(store), store) && mugs.mm == old(mugs.mm) && (Canonical(old(store)) && v >= DIRECT ==> Canonical(store))
      ensures r.Some? ==> r.value.IAtom? && Known(store, r.value, |store.heads|) && Val(store, r.value) == Atom(v) && Form(store, r.value) == Bytes(v)
      ensures r.Some? ==> AtomFits(old(store), old(mugs), v)
      ensures Enough(fuel, old(atomDict)) && AtomFits(old(store), old(mugs), v) ==> r.Some?
      ensures store == if r.None? || v in old(store).atoms then old(store) else WithAtom(old(store), v)
      ensures r.None? ==> mugs == old(mugs)
      ensures |atomDict.buckets| >= |old(atomDict).buckets| && |cellDict.buckets| >= |old(cellDict).buckets|
      decreases fuel
    {
      hide Ordered, Unique, Hashed, Holds, Grows, Canonical, RefMug, MugAtom, Sharing, Enough, Short;
      var mug := MugAtom(mugs.mm, v);
      AtomBuckets(store, mugs, atomDict);
      var idx := mug % |atomDict.buckets|;
      var bucket := atomDict.buckets[idx];
      var found := FindAtom(bucket, v);
      GrowsSame(store);
      if found.Some? { return found; }
      AbsentAtom(store, mugs, atomDict, v, mug, idx);
      HashedShort(store, mugs);
      if |bucket| == PAIL {
        FullBin(atomDict, mugs, |store.atoms|, false, mug);
        EnoughMore(fuel, atomDict);
        if fuel == 0 { return None; }
        var d := GrowBins(atomDict, mugs, |store.atoms|, false, fuel);
        if d.None? { return None; }
        EnoughGrown(fuel, atomDict, d.value);
        atomDict := d.value;
        r := CoinBytes(v, fuel - 1);
        return;
      }
      RoomBin(atomDict, mugs, |store.atoms|, false, mug);
      ghost var s, m := store, mugs;
      StoreCoin(store, mugs, v);
      var tom := IAtom(|store.atoms|);
      mugs := mugs.(atoms := mugs.atoms + [mug]);
      store := WithAtom(store, v);
      NewAtom(s, m, mugs, cellDict, atomDict, mug, idx);
      atomDict := Dict(atomDict.prev, atomDict.buckets[idx := bucket + [Entry(tom, ())]]);
      r := Some(tom);
    }

    // Direct when it fits in 62 bits.
    method Coin(v: nat, fuel: nat) returns (r: Option<NRef>)
      requires Valid()
      modifies this
      ensures Valid() && Grows(old(store), store) && mugs.mm == old(mugs.mm) && (Canonical(old(store)) ==> Canonical(store))
      ensures r.Some? ==> Known(store, r.value, |store.heads|) && Val(store, r.value) == Atom(v) && Form(store, r.value) == Natural(Atom(v))
      ensures r.Some? ==> v < DIRECT || AtomFits(old(store), old(mugs), v)
      ensures v < DIRECT || (Enough(fuel, old(atomDict)) && AtomFits(old(store), old(mugs), v)) ==> r.Some?
      ensures store == if r.None? || v < DIRECT || v in old(store).atoms then old(store) else WithAtom(old(store), v)
      ensures r.None? ==> mugs == old(mugs)
      ensures |atomDict.buckets| >= |old(atomDict).buckets| && |cellDict.buckets| >= |old(cellDict).buckets|
    {
      hide Ordered, Unique, Hashed, Holds, Grows, Canonical, RefMug, MugAtom, Sharing, Enough;
      if v < DIRECT {
        GrowsSame(store);
        return Some(Direct(v));
      }
      r := CoinBytes(v, fuel);
    }
  }

  lemma GrowsSame(s: Store)
    ensures Grows(s, s)
  {
  }

  // A larger dictionary of the same references.
  method GrowBins(d: Dict<()>, m: Hashes, n: nat, cells: bool, fuel: nat) returns (r: Option<Dict<()>>)
    requires Holds(d, m, n, cells) && Short(m)
    ensures r.Some? ==> Holds(r.value, m, n, cells) && |r.value.buckets| > |d.buckets|
    ensures Enough(fuel, d) ==> r.Some?
  {
    hide Means, Short;
    MeansSize(d, m, AllOf(n, cells));
    r := Grow(d, d.prev, |d.buckets|, m, fuel, AllOf(n, cells));
  }

  lemma EnoughMore(fuel: nat, d: Dict<()>)
    ensures fuel == 0 && Enough(fuel, d) ==> |d.buckets| >= HALF
  {
  }

  lemma EnoughGrown(fuel: nat, d: Dict<()>, e: Dict<()>)
    requires |e.buckets| > |d.buckets| && fuel > 0
    ensures Enough(fuel, d) ==> Enough(fuel - 1, e)
  {
  }

  // A full bucket of one hash has ten that share it; one with room has fewer.
  lemma FullBin(d: Dict<()>, m: Hashes, n: nat, cells: bool, mug: nat)
    requires Holds(d, m, n, cells) && Short(m) && mug < HALF && |d.buckets| > 0 && |d.buckets[mug % |d.buckets|]| == PAIL
    ensures |d.buckets| >= HALF ==> Sharing(m, n, cells, mug) >= PAIL
  {
    hide RefMug, Means, AllOf;
    if |d.buckets| >= HALF {
      MeansSize(d, m, AllOf(n, cells));
      assert mug % |d.buckets| == mug;
      HomeAlone(d, m, AllOf(n, cells), mug);
      RefsSize(d.buckets[mug]);
      SubsetSize(Refs(d.buckets[mug]), Sharers(AllOf(n, cells), m, mug));
    }
  }

  lemma RoomBin(d: Dict<()>, m: Hashes, n: nat, cells: bool, mug: nat)
    requires Holds(d, m, n, cells) && |d.buckets| > 0
    ensures var b := d.buckets[mug % |d.buckets|]; Sharing(m, n, cells, mug) <= |b| <= PAIL
  {
    hide RefMug, Means, AllOf;
    MeansSize(d, m, AllOf(n, cells));
    SharersHome(d, m, AllOf(n, cells), mug);
    var b := d.buckets[mug % |d.buckets|];
    RefsSize(b);
    SubsetSize(Sharers(AllOf(n, cells), m, mug), Refs(b));
  }

  lemma HoldsSize(d: Dict<()>, m: Hashes, n: nat, cells: bool)
    requires Holds(d, m, n, cells)
    ensures |d.buckets| > 0 && d.prev > 0
  {
  }

  lemma CellBuckets(s: Store, m: Hashes, d: Dict<()>)
    requires Holds(d, m, |s.heads|, true) && Unique(s)
    ensures |d.buckets| > 0 && d.prev > 0 && |s.heads| == |s.tails|
    ensures forall b :: 0 <= b < |d.buckets| ==> AllCells(d.buckets[b], |s.heads|) && |d.buckets[b]| <= PAIL
  {
    hide RefMug, AllOf, Means, Holds;
    HoldsSize(d, m, |s.heads|, true);
    forall b | 0 <= b < |d.buckets| ensures AllCells(d.buckets[b], |s.heads|) && |d.buckets[b]| <= PAIL {
      forall k | 0 <= k < |d.buckets[b]| ensures d.buckets[b][k].ref.ICell? && d.buckets[b][k].ref.i < |s.heads| {
        BucketHeld(d, m, |s.heads|, true, b, k);
      }
      RoomBin(d, m, |s.heads|, true, b);
    }
  }

  lemma FoundVal(s: Store, hed: NRef, tal: NRef, r: NRef)
    requires Ordered(s) && r.ICell? && r.i < |s.heads| && s.heads[r.i] == hed && s.tails[r.i] == tal
    ensures Known(s, r, |s.heads|) && Known(s, hed, |s.heads|) && Known(s, tal, |s.heads|) && Val(s, r) == Cell(Val(s, hed), Val(s, tal))
    ensures Form(s, r) == Pair(Form(s, hed), Form(s, tal)) && HasCell(s, hed, tal)
  {
    assert Known(s, s.heads[r.i], r.i) && Known(s, s.tails[r.i], r.i);
  }

  // A cell that its bucket does not have is nowhere.
  lemma AbsentCell(s: Store, m: Hashes, d: Dict<()>, hed: NRef, tal: NRef, mug: nat, idx: nat)
    requires Ordered(s) && Hashed(s, m) && Holds(d, m, |s.heads|, true) && |d.buckets| > 0 && |s.heads| == |s.tails|
    requires mug == MugBoth(m.mm, RefMug(m, hed), RefMug(m, tal)) && idx == mug % |d.buckets| && AllCells(d.buckets[idx], |s.heads|)
    requires forall k :: 0 <= k < |d.buckets[idx]| ==> !(s.heads[d.buckets[idx][k].ref.i] == hed && s.tails[d.buckets[idx][k].ref.i] == tal)
    ensures !HasCell(s, hed, tal)
  {
    hide MugBoth, MugAtom, Holds;
    forall i: nat | i < |s.heads| ensures !(s.heads[i] == hed && s.tails[i] == tal) {
      HeldInBucket(d, m, |s.heads|, true, ICell(i));
    }
  }

  lemma NewCell(s: Store, m: Hashes, m': Hashes, d: Dict<()>, a: Dict<()>, mug: nat, idx: nat)
    requires Hashed(s, m) && Holds(d, m, |s.heads|, true) && Holds(a, m, |s.atoms|, false)
    requires m' == m.(cells := m.cells + [mug]) && |d.buckets| > 0 && idx == mug % |d.buckets| && |d.buckets[idx]| < PAIL
    ensures Holds(Dict(d.prev, d.buckets[idx := d.buckets[idx] + [Entry(ICell(|s.heads|), ())]]), m', |s.heads| + 1, true)
    ensures Holds(a, m', |s.atoms|, false)
  {
    assert RefMug(m', ICell(|s.heads|)) == mug;
    hide RefMug, Holds;
    HoldsMore(d, m, m', |s.heads|, true, idx);
    HoldsStill(a, m, m', |s.atoms|, false);
  }

  lemma AtomBuckets(s: Store, m: Hashes, d: Dict<()>)
    requires Holds(d, m, |s.atoms|, false)
    ensures |d.buckets| > 0 && d.prev > 0
    ensures forall b :: 0 <= b < |d.buckets| ==> AllAtoms(d.buckets[b], |s.atoms|) && |d.buckets[b]| <= PAIL
  {
    hide RefMug, AllOf, Means, Holds;
    HoldsSize(d, m, |s.atoms|, false);
    forall b | 0 <= b < |d.buckets| ensures AllAtoms(d.buckets[b], |s.atoms|) && |d.buckets[b]| <= PAIL {
      forall k | 0 <= k < |d.buckets[b]| ensures d.buckets[b][k].ref.IAtom? && d.buckets[b][k].ref.i < |s.atoms| {
        BucketHeld(d, m, |s.atoms|, false, b, k);
      }
      RoomBin(d, m, |s.atoms|, false, b);
    }
  }

  lemma AbsentAtom(s: Store, m: Hashes, d: Dict<()>, v: nat, mug: nat, idx: nat)
    requires Hashed(s, m) && Holds(d, m, |s.atoms|, false) && |d.buckets| > 0
    requires mug == MugAtom(m.mm, v) && idx == mug % |d.buckets| && AllAtoms(d.buckets[idx], |s.atoms|)
    requires forall k :: 0 <= k < |d.buckets[idx]| ==> s.atoms[d.buckets[idx][k].ref.i] != v
    ensures v !in s.atoms
  {
    hide MugBoth, MugAtom, Holds;
    forall i: nat | i < |s.atoms| ensures s.atoms[i] != v {
      HeldInBucket(d, m, |s.atoms|, false, IAtom(i));
    }
  }

  lemma NewAtom(s: Store, m: Hashes, m': Hashes, d: Dict<()>, a: Dict<()>, mug: nat, idx: nat)
    requires Hashed(s, m) && Holds(d, m, |s.heads|, true) && Holds(a, m, |s.atoms|, false)
    requires m' == m.(atoms := m.atoms + [mug]) && |a.buckets| > 0 && idx == mug % |a.buckets| && |a.buckets[idx]| < PAIL
    ensures Holds(Dict(a.prev, a.buckets[idx := a.buckets[idx] + [Entry(IAtom(|s.atoms|), ())]]), m', |s.atoms| + 1, false)
    ensures Holds(d, m', |s.heads|, true)
  {
    assert RefMug(m', IAtom(|s.atoms|)) == mug;
    hide RefMug, Holds;
    HoldsMore(a, m, m', |s.atoms|, false, idx);
    HoldsStill(d, m, m', |s.heads|, true);
  }
}
