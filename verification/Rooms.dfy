/** When an arena has room: no more than ten atoms and no more than ten cells
    may share a hash, because a dictionary grows until none do. */
module Rooms {
  import opened Nouns
  import opened Mugs
  import opened HeldNouns
  import opened Dictionary
  import opened Hashcons

  // The atoms, or the cells, among some nouns.
  ghost function Kind(hs: set<Held>, cells: bool): set<Held> { set h | h in hs && if cells then h.Pair? else h.Bytes? }

  /** An arena with all these would have room. */
  ghost predicate Accommodates(mm: Murmur, hs: set<Held>) { Roomy(mm, Kind(hs, false)) && Roomy(mm, Kind(hs, true)) }

  function Count(s: Store, cells: bool): nat { if cells then |s.heads| else |s.atoms| }

  function At(i: nat, cells: bool): NRef { if cells then ICell(i) else IAtom(i) }

  // What an arena has.
  ghost function Forms(s: Store, cells: bool): set<Held>
    requires Ordered(s)
  {
    set i | 0 <= i < Count(s, cells) :: Form(s, At(i, cells))
  }

  ghost function AllForms(s: Store): set<Held>
    requires Ordered(s)
  {
    Forms(s, false) + Forms(s, true)
  }

  lemma FormsKind(s: Store, cells: bool)
    requires Ordered(s)
    ensures Kind(AllForms(s), cells) == Forms(s, cells)
  {
  }

  lemma InForms(s: Store, r: NRef)
    requires Ordered(s) && Known(s, r, |s.heads|) && !r.Direct?
    ensures Form(s, r) in AllForms(s) && Form(s, r) in Forms(s, r.ICell?)
  {
    assert r == At(r.i, r.ICell?);
  }

  // As many share a hash as nouns do.
  lemma SharingForms(s: Store, m: Hashes, cells: bool, mug: nat)
    requires Ordered(s) && Unique(s) && Hashed(s, m)
    ensures Sharing(m, Count(s, cells), cells, mug) == |Crowd(m.mm, Forms(s, cells), mug)|
  {
    hide RefMug, Unique, Hashed, Ordered, AllOf, Sharers, Crowd, Forms, FormMap, Form;
    var f, all := FormMap(s, cells), AllOf(Count(s, cells), cells);
    var xs, ys := Sharers(all, m, mug), Crowd(m.mm, Forms(s, cells), mug);
    forall x | x in xs ensures x in f && f[x] in ys { SharerFormed(s, m, cells, mug, x); }
    forall x, y | x in xs && y in xs && f[x] == f[y] ensures x == y {
      SharerFormed(s, m, cells, mug, x);
      SharerFormed(s, m, cells, mug, y);
      SameForm(s, x, y);
    }
    ImageSize(xs, f, ys);
    forall y | y in ys ensures exists x :: x in xs && f[x] == y {
      var x := FormShared(s, m, cells, mug, y);
    }
    CoverSize(xs, f, ys);
  }

  lemma SharerFormed(s: Store, m: Hashes, cells: bool, mug: nat, x: NRef)
    requires Ordered(s) && Hashed(s, m) && x in Sharers(AllOf(Count(s, cells), cells), m, mug)
    ensures Known(s, x, |s.heads|) && x in FormMap(s, cells) && FormMap(s, cells)[x] == Form(s, x)
    ensures Form(s, x) in Crowd(m.mm, Forms(s, cells), mug)
  {
    hide RefMug, Hashed, HeldMug, AllOf, Form, FormMap;
    AllOfIs(Count(s, cells), cells, x);
    FormMug(s, m, x);
    FormMapIs(s, cells);
    assert x == At(x.i, cells);
  }

  lemma FormShared(s: Store, m: Hashes, cells: bool, mug: nat, y: Held) returns (x: NRef)
    requires Ordered(s) && Hashed(s, m) && y in Crowd(m.mm, Forms(s, cells), mug)
    ensures x in Sharers(AllOf(Count(s, cells), cells), m, mug) && x in FormMap(s, cells) && FormMap(s, cells)[x] == y
  {
    hide RefMug, Hashed, HeldMug, AllOf, Form, FormMap;
    var i :| 0 <= i < Count(s, cells) && y == Form(s, At(i, cells));
    x := At(i, cells);
    AllOfIs(Count(s, cells), cells, x);
    FormMug(s, m, x);
    FormMapIs(s, cells);
  }

  ghost function FormMap(s: Store, cells: bool): map<NRef, Held>
    requires Ordered(s)
  {
    map i | 0 <= i < Count(s, cells) :: At(i, cells) := Form(s, At(i, cells))
  }

  lemma FormMapIs(s: Store, cells: bool)
    requires Ordered(s)
    ensures FormMap(s, cells).Keys == AllOf(Count(s, cells), cells).Keys
    ensures forall i :: 0 <= i < Count(s, cells) ==> At(i, cells) in FormMap(s, cells) && FormMap(s, cells)[At(i, cells)] == Form(s, At(i, cells))
  {
    var f, n := FormMap(s, cells), Count(s, cells);
    forall r ensures r in f <==> r in AllOf(n, cells) {
      AllOfIs(n, cells, r);
      if r in AllOf(n, cells) { assert r == At(r.i, cells); }
    }
  }

  lemma FormMug(s: Store, m: Hashes, r: NRef)
    requires Ordered(s) && Hashed(s, m) && Known(s, r, |s.heads|)
    ensures RefMug(m, r) == HeldMug(m.mm, Form(s, r))
  {
    hide Ordered, Hashed, RefMug, MugOf;
    MugIs(s, m, r);
    FormVal(s, r);
  }

  // An arena has room for what it has.
  lemma {:induction false} HasRoom(s: Store, m: Hashes, a: Dict<()>, d: Dict<()>)
    requires Ordered(s) && Unique(s) && Hashed(s, m) && Holds(a, m, |s.atoms|, false) && Holds(d, m, |s.heads|, true)
    ensures Accommodates(m.mm, AllForms(s))
  {
    hide Ordered, Unique, Hashed, Holds, Forms, Crowd, Sharing;
    HoldsSize(a, m, |s.atoms|, false);
    HoldsSize(d, m, |s.heads|, true);
    FormsKind(s, false);
    FormsKind(s, true);
    forall mug: nat ensures |Crowd(m.mm, Forms(s, false), mug)| <= PAIL && |Crowd(m.mm, Forms(s, true), mug)| <= PAIL {
      SharingForms(s, m, false, mug);
      SharingForms(s, m, true, mug);
      RoomBin(a, m, |s.atoms|, false, mug);
      RoomBin(d, m, |s.heads|, true, mug);
    }
  }

  // Where ten have the hash of a cell that is not there, all in `hs`, there
  // is no room for it in `hs`.
  lemma NoCell(s: Store, m: Hashes, hed: NRef, tal: NRef, hs: set<Held>)
    requires Ordered(s) && Unique(s) && Hashed(s, m) && Known(s, hed, |s.heads|) && Known(s, tal, |s.heads|)
    requires !CellFits(s, m, hed, tal) && AllForms(s) <= hs && Pair(Form(s, hed), Form(s, tal)) in hs
    ensures !Accommodates(m.mm, hs)
  {
    hide Ordered, Unique, Hashed, Sharing, Crowd, Forms;
    var h, mug := Pair(Form(s, hed), Form(s, tal)), MugBoth(m.mm, RefMug(m, hed), RefMug(m, tal));
    FormMug(s, m, hed);
    FormMug(s, m, tal);
    PairMug(m.mm, h);
    SharingForms(s, m, true, mug);
    if h in Forms(s, true) { CellThere(s, hed, tal); }
    InCrowd(m.mm, Forms(s, true), h, mug);
    CrowdLess(m.mm, s, hs, true, mug);
    NotRoomy(m.mm, Crowd(m.mm, Forms(s, true), mug), h, Kind(hs, true));
  }

  lemma InCrowd(mm: Murmur, hs: set<Held>, h: Held, mug: nat)
    ensures h in Crowd(mm, hs, mug) ==> h in hs
  {
  }

  lemma CrowdLess(mm: Murmur, s: Store, hs: set<Held>, cells: bool, mug: nat)
    requires Ordered(s) && AllForms(s) <= hs
    ensures Crowd(mm, Forms(s, cells), mug) <= Crowd(mm, Kind(hs, cells), mug)
  {
    hide Ordered, HeldMug;
    FormsKind(s, cells);
    hide Forms;
  }

  lemma PairMug(mm: Murmur, h: Held)
    requires h.Pair?
    ensures HeldMug(mm, h) == MugBoth(mm, HeldMug(mm, h.head), HeldMug(mm, h.tail))
  {
  }

  lemma CellThere(s: Store, hed: NRef, tal: NRef)
    requires Ordered(s) && Unique(s) && Known(s, hed, |s.heads|) && Known(s, tal, |s.heads|)
    requires Pair(Form(s, hed), Form(s, tal)) in Forms(s, true)
    ensures HasCell(s, hed, tal)
  {
    hide Unique;
    var i :| 0 <= i < |s.heads| && Pair(Form(s, hed), Form(s, tal)) == Form(s, At(i, true));
    assert Known(s, s.heads[i], i) && Known(s, s.tails[i], i);
    SameForm(s, s.heads[i], hed);
    SameForm(s, s.tails[i], tal);
  }

  // An atom likewise.
  lemma NoAtom(s: Store, m: Hashes, v: nat, hs: set<Held>)
    requires Ordered(s) && Unique(s) && Hashed(s, m)
    requires !AtomFits(s, m, v) && AllForms(s) <= hs && Bytes(v) in hs
    ensures !Accommodates(m.mm, hs)
  {
    hide Ordered, Unique, Hashed, Sharing, Crowd;
    var h, mug := Bytes(v), MugAtom(m.mm, v);
    assert HeldMug(m.mm, h) == mug;
    SharingForms(s, m, false, mug);
    assert h !in Forms(s, false);
    hide Forms;
    InCrowd(m.mm, Forms(s, false), h, mug);
    CrowdLess(m.mm, s, hs, false, mug);
    NotRoomy(m.mm, Crowd(m.mm, Forms(s, false), mug), h, Kind(hs, false));
  }

  // Everything in what is there is there.
  lemma {:induction false} PartsThere(s: Store, r: NRef)
    requires Ordered(s) && Known(s, r, |s.heads|)
    ensures forall h :: h in Parts(Form(s, r)) && !h.Word? ==> h in AllForms(s)
    decreases if r.ICell? then r.i + 1 else 0
  {
    if !r.Direct? { InForms(s, r); }
    if r.ICell? {
      PartsThere(s, s.heads[r.i]);
      PartsThere(s, s.tails[r.i]);
    }
  }

  // What one more adds.
  lemma FormsCell(s: Store, hed: NRef, tal: NRef)
    requires Ordered(s) && Known(s, hed, |s.heads|) && Known(s, tal, |s.heads|) && Ordered(WithCell(s, hed, tal))
    ensures AllForms(WithCell(s, hed, tal)) == AllForms(s) + {Pair(Form(s, hed), Form(s, tal))}
  {
    var t := WithCell(s, hed, tal);
    assert Grows(s, t);
    hide Ordered;
    FormsStill(s, t);
    ValStill(s, t, hed);
    ValStill(s, t, tal);
    NewForm(s, t, hed, tal);
    hide Grows, Form;
    forall h | h in Forms(t, true) ensures h in Forms(s, true) || h == Form(t, ICell(|s.heads|)) {
      var i :| 0 <= i < |t.heads| && h == Form(t, At(i, true));
      if i < |s.heads| { ValStill(s, t, At(i, true)); }
    }
    forall h | h in Forms(t, false) ensures h in Forms(s, false) {
      var i :| 0 <= i < |t.atoms| && h == Form(t, At(i, false));
      ValStill(s, t, At(i, false));
    }
    InForms(t, ICell(|s.heads|));
  }

  lemma NewForm(s: Store, t: Store, hed: NRef, tal: NRef)
    requires t == WithCell(s, hed, tal) && Ordered(s) && Ordered(t)
    ensures Known(t, hed, |t.heads|) && Known(t, tal, |t.heads|) && Form(t, ICell(|s.heads|)) == Pair(Form(t, hed), Form(t, tal))
  {
    var i := |s.heads|;
    assert Known(t, t.heads[i], i) && Known(t, t.tails[i], i);
  }

  lemma FormsAtom(s: Store, v: nat)
    requires Ordered(s) && Ordered(WithAtom(s, v))
    ensures AllForms(WithAtom(s, v)) == AllForms(s) + {Bytes(v)}
  {
    var t := WithAtom(s, v);
    assert Grows(s, t);
    hide Ordered;
    FormsStill(s, t);
    assert Form(t, IAtom(|s.atoms|)) == Bytes(v);
    hide Grows, Form;
    forall h | h in Forms(t, false) ensures h in Forms(s, false) || h == Bytes(v) {
      var i :| 0 <= i < |t.atoms| && h == Form(t, At(i, false));
      if i < |s.atoms| { ValStill(s, t, At(i, false)); }
    }
    forall h | h in Forms(t, true) ensures h in Forms(s, true) {
      var i :| 0 <= i < |t.heads| && h == Form(t, At(i, true));
      ValStill(s, t, At(i, true));
    }
    InForms(t, IAtom(|s.atoms|));
  }

  lemma FormsStill(s: Store, t: Store)
    requires Ordered(s) && Ordered(t) && Grows(s, t)
    ensures AllForms(s) <= AllForms(t)
  {
    hide Ordered, Form;
    forall h | h in AllForms(s) ensures h in AllForms(t) {
      var cells := h in Forms(s, true);
      var i :| 0 <= i < Count(s, cells) && h == Form(s, At(i, cells));
      ValStill(s, t, At(i, cells));
      InForms(t, At(i, cells));
    }
  }
}
