/** Nouns together with how their atoms are held off the loom: in a word, or
    as a string of bytes. */
module HeldNouns {
  import opened Nouns
  import opened Mugs

  datatype Held = Word(v: nat) | Bytes(v: nat) | Pair(head: Held, tail: Held)

  // Atoms of at most 62 bits fit in a reference.
  const DIRECT: nat := 0x4000_0000_0000_0000

  function Bare(h: Held): Noun {
    match h
    case Word(v) => Atom(v)
    case Bytes(v) => Atom(v)
    case Pair(a, b) => Cell(Bare(a), Bare(b))
  }

  // Each atom in a word if it fits.
  function Natural(n: Noun): Held {
    match n
    case Atom(v) => if v < DIRECT then Word(v) else Bytes(v)
    case Cell(a, b) => Pair(Natural(a), Natural(b))
  }

  lemma {:induction false} BareNatural(n: Noun)
    ensures Bare(Natural(n)) == n
  {
    if n.Cell? {
      BareNatural(n.head);
      BareNatural(n.tail);
    }
  }

  function Bulk(h: Held): (r: nat)
    ensures r >= 1
  {
    if h.Pair? then 1 + Bulk(h.head) + Bulk(h.tail) else 1
  }

  // The hash does not depend on how atoms are held.
  function HeldMug(mm: Murmur, h: Held): (r: nat) { MugOf(mm, Bare(h)) }

  // A noun and everything in it.
  function Parts(h: Held): set<Held> {
    {h} + if h.Pair? then Parts(h.head) + Parts(h.tail) else {}
  }

  lemma {:induction false} PartsTrans(h: Held, g: Held)
    requires h in Parts(g)
    ensures Parts(h) <= Parts(g)
    decreases g
  {
    if h != g {
      if h in Parts(g.head) { PartsTrans(h, g.head); } else { PartsTrans(h, g.tail); }
    }
  }

  // ---- how many share a hash ----

  ghost function Crowd(mm: Murmur, hs: set<Held>, mug: nat): set<Held> { set h | h in hs && HeldMug(mm, h) == mug }

  const PAIL: nat := 10

  /** No more than ten share a hash. */
  ghost predicate Roomy(mm: Murmur, hs: set<Held>) { forall mug :: |Crowd(mm, hs, mug)| <= PAIL }

  lemma {:induction false} SubsetSize<T>(a: set<T>, b: set<T>)
    requires a <= b
    ensures |a| <= |b|
  {
    assert b == a + (b - a);
  }

  lemma RoomyLess(mm: Murmur, a: set<Held>, b: set<Held>)
    requires a <= b && Roomy(mm, b)
    ensures Roomy(mm, a)
  {
    hide HeldMug;
    forall mug ensures |Crowd(mm, a, mug)| <= PAIL { SubsetSize(Crowd(mm, a, mug), Crowd(mm, b, mug)); }
  }

  // One more than ten with a hash are too many.
  lemma NotRoomy(mm: Murmur, some: set<Held>, h: Held, all: set<Held>)
    requires some <= Crowd(mm, all, HeldMug(mm, h)) && |some| >= PAIL && h !in some && h in all
    ensures !Roomy(mm, all)
  {
    hide HeldMug;
    SubsetSize(some + {h}, Crowd(mm, all, HeldMug(mm, h)));
  }

  // Sets under a map that tells their elements apart.
  ghost predicate OneToOne<A(!new), B(!new)>(xs: set<A>, f: map<A, B>) {
    xs <= f.Keys && forall x, y :: x in xs && y in xs && f[x] == f[y] ==> x == y
  }

  lemma {:induction false} ImageSize<A(!new), B(!new)>(xs: set<A>, f: map<A, B>, ys: set<B>)
    requires OneToOne(xs, f) && forall x :: x in xs ==> f[x] in ys
    ensures |xs| <= |ys|
    decreases |xs|
  {
    if xs != {} {
      var x :| x in xs;
      ImageSize(xs - {x}, f, ys - {f[x]});
    }
  }

  lemma {:induction false} CoverSize<A(!new), B(!new)>(xs: set<A>, f: map<A, B>, ys: set<B>)
    requires xs <= f.Keys && forall y :: y in ys ==> exists x :: x in xs && f[x] == y
    ensures |ys| <= |xs|
    decreases |xs|
  {
    if xs == {} {
      assert ys == {};
    } else {
      var x :| x in xs;
      forall y | y in ys - {f[x]} ensures exists z :: z in xs - {x} && f[z] == y {
        var z :| z in xs && f[z] == y;
        assert z != x;
      }
      CoverSize(xs - {x}, f, ys - {f[x]});
    }
  }
}
