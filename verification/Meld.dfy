/** Melding: the nouns of the loom are entered in an arena by a walk with a
    stack, which leaves in each object the reference it got, and are built
    again from the arena in one pass in index order. */
module Meld {
  import opened Nouns
  import Mugs
  import Take
  import opened HeldNouns
  import opened Hashcons
  import opened Rooms
  import D = Dictionary

  type NRef = D.NRef
  type Objs = Take.Objs
  type Addr = Take.Addr
  type Ref = Take.Ref

  /** A reference that stands for a noun, its atoms held naturally. */
  ghost predicate Entered(s: Store, r: NRef, n: Noun) {
    Ordered(s) && Known(s, r, |s.heads|) && Form(s, r) == Natural(n)
  }

  lemma EnteredVal(s: Store, r: NRef, n: Noun)
    requires Entered(s, r, n)
    ensures Ordered(s) && Known(s, r, |s.heads|) && Val(s, r) == n
  {
    FormVal(s, r);
    BareNatural(n);
  }

  lemma EnteredStill(s: Store, t: Store, r: NRef, n: Noun)
    requires Entered(s, r, n) && Ordered(t) && Grows(s, t)
    ensures Entered(t, r, n)
  {
    ValStill(s, t, r);
  }

  /** References to what was entered are the same if and only if the nouns
      are. */
  lemma EnteredSame(s: Store, r: NRef, n: Noun, q: NRef, m: Noun)
    requires Unique(s) && Entered(s, r, n) && Entered(s, q, m)
    ensures r == q <==> n == m
  {
    SameForm(s, r, q);
    EnteredVal(s, r, n);
    EnteredVal(s, q, m);
  }

  // ---- the loom ----

  ghost predicate CatFits(r: Ref) { r.Cat? ==> r.v < 0x8000_0000 }

  // Every object denotes a noun, and direct atoms have 31 bits.
  ghost predicate Sound(objs: Objs, den: map<Addr, Noun>) {
    forall x :: x in objs ==>
      && x in den && Take.Denotes(objs, Mugs.RefAt(objs, x), den[x])
      && (objs[x].CellObj? ==> CatFits(objs[x].hed) && CatFits(objs[x].tel))
  }

  lemma SoundAt(objs: Objs, den: map<Addr, Noun>, r: Ref, n: Noun)
    requires Sound(objs, den) && Take.Denotes(objs, r, n) && !r.Cat?
    ensures r.a in objs && r.a in den && den[r.a] == n && (r.Pom? <==> n.Cell?) && (r.Pug? ==> objs[r.a].AtomObj? && n == Atom(objs[r.a].val))
    ensures r.Pom? ==> var o := objs[r.a];
            o.CellObj? && Take.Denotes(objs, o.hed, n.head) && Take.Denotes(objs, o.tel, n.tail) && CatFits(o.hed) && CatFits(o.tel)
  {
    Take.DenotesOne(objs, r, n, den[r.a]);
  }

  lemma CatIs(objs: Objs, r: Ref, n: Noun)
    requires r.Cat? && Take.Denotes(objs, r, n)
    ensures n == Atom(r.v)
  {
  }

  // A stashed reference is that of the object's noun.
  ghost predicate Stashed(s: Store, stash: map<Addr, NRef>, den: map<Addr, Noun>) {
    forall x :: x in stash ==> x in den && Entered(s, stash[x], den[x])
  }

  lemma StashedStill(s: Store, t: Store, stash: map<Addr, NRef>, den: map<Addr, Noun>)
    requires Stashed(s, stash, den) && Ordered(t) && Grows(s, t)
    ensures Stashed(t, stash, den)
  {
    hide Entered, Ordered, Grows;
    forall x | x in stash ensures x in den && Entered(t, stash[x], den[x]) { EnteredStill(s, t, stash[x], den[x]); }
  }

  lemma StashMore(s: Store, stash: map<Addr, NRef>, den: map<Addr, Noun>, x: Addr, r: NRef)
    requires Stashed(s, stash, den) && x in den && Entered(s, r, den[x])
    ensures Stashed(s, stash[x := r], den)
  {
    hide Entered;
  }

  // ---- the stack ----

  // A cell on the way; its head's reference once that is known.
  datatype Frame = Frame(ref: Option<NRef>, cel: Addr)

  // The noun that is wanted next.
  function Wanted(stack: seq<Frame>, xs: seq<Noun>, n: Noun): Noun
    requires |xs| == |stack| && forall k :: 0 <= k < |xs| ==> xs[k].Cell?
  {
    if stack == [] then n else if stack[0].ref.None? then xs[0].head else xs[0].tail
  }

  // Each cell is what the frame below wants, and heads are entered.
  ghost predicate Chain(s: Store, objs: Objs, stack: seq<Frame>, xs: seq<Noun>, n: Noun)
    decreases |stack|
  {
    && |xs| == |stack| && (forall k :: 0 <= k < |xs| ==> xs[k].Cell?)
    && (stack != [] ==>
        && Take.Denotes(objs, Take.Pom(stack[0].cel), xs[0])
        && (stack[0].ref.Some? ==> Entered(s, stack[0].ref.value, xs[0].head))
        && xs[0] == Wanted(stack[1..], xs[1..], n)
        && Chain(s, objs, stack[1..], xs[1..], n))
  }

  lemma {:induction false} ChainStill(s: Store, t: Store, objs: Objs, stack: seq<Frame>, xs: seq<Noun>, n: Noun)
    requires Chain(s, objs, stack, xs, n) && Ordered(t) && Grows(s, t)
    ensures Chain(t, objs, stack, xs, n)
    decreases |stack|
  {
    hide Ordered, Grows, Entered, Take.Denotes;
    if stack != [] {
      ChainStill(s, t, objs, stack[1..], xs[1..], n);
      if stack[0].ref.Some? { EnteredStill(s, t, stack[0].ref.value, xs[0].head); }
    }
  }

  lemma ChainPush(s: Store, objs: Objs, f: Frame, x: Noun, stack: seq<Frame>, xs: seq<Noun>, n: Noun)
    requires Chain(s, objs, stack, xs, n) && x.Cell? && Take.Denotes(objs, Take.Pom(f.cel), x) && x == Wanted(stack, xs, n)
    requires f.ref.Some? ==> Entered(s, f.ref.value, x.head)
    ensures Chain(s, objs, [f] + stack, [x] + xs, n)
  {
    hide Entered, Take.Denotes;
    assert ([f] + stack)[1..] == stack && ([x] + xs)[1..] == xs;
  }

  lemma ChainSize(s: Store, objs: Objs, stack: seq<Frame>, xs: seq<Noun>, n: Noun)
    requires Chain(s, objs, stack, xs, n)
    ensures |xs| == |stack| && forall k :: 0 <= k < |xs| ==> xs[k].Cell?
  {
  }

  lemma ChainTop(s: Store, objs: Objs, stack: seq<Frame>, xs: seq<Noun>, n: Noun)
    requires Chain(s, objs, stack, xs, n) && stack != []
    ensures |xs| == |stack| && forall k :: 0 <= k < |xs| ==> xs[k].Cell?
    ensures Take.Denotes(objs, Take.Pom(stack[0].cel), xs[0]) && xs[0] == Wanted(stack[1..], xs[1..], n)
    ensures (stack[0].ref.Some? ==> Entered(s, stack[0].ref.value, xs[0].head)) && Chain(s, objs, stack[1..], xs[1..], n)
  {
    hide Entered, Take.Denotes;
  }

  ghost function Weights(stack: seq<Frame>, xs: seq<Noun>): nat
    requires |xs| == |stack| && forall k :: 0 <= k < |xs| ==> xs[k].Cell?
    decreases |stack|
  {
    if stack == [] then 0 else
    Weights(stack[1..], xs[1..]) + if stack[0].ref.None? then 3 * Size(xs[0].tail) + 2 else 1
  }

  lemma WeightsPush(f: Frame, x: Noun, stack: seq<Frame>, xs: seq<Noun>)
    requires |xs| == |stack| && x.Cell? && forall k :: 0 <= k < |xs| ==> xs[k].Cell?
    ensures Weights([f] + stack, [x] + xs) == Weights(stack, xs) + if f.ref.None? then 3 * Size(x.tail) + 2 else 1
  {
    hide Size;
    assert ([f] + stack)[1..] == stack && ([x] + xs)[1..] == xs;
  }

  lemma SizeIs(n: Noun)
    ensures Size(n) >= 1 && (n.Cell? ==> Size(n) == 1 + Size(n.head) + Size(n.tail))
  {
  }

  // ---- parts ----

  lemma CellParts(x: Noun)
    requires x.Cell?
    ensures Natural(x) == Pair(Natural(x.head), Natural(x.tail))
    ensures Natural(x) in Parts(Natural(x))
    ensures Parts(Natural(x.head)) <= Parts(Natural(x)) && Parts(Natural(x.tail)) <= Parts(Natural(x))
  {
  }

  // Whatever is wanted is in the noun being entered.
  lemma {:induction false} WantedPart(s: Store, objs: Objs, stack: seq<Frame>, xs: seq<Noun>, n: Noun)
    requires Chain(s, objs, stack, xs, n)
    ensures Parts(Natural(Wanted(stack, xs, n))) <= Parts(Natural(n))
    decreases |stack|
  {
    hide Entered, Take.Denotes, Parts, Natural;
    if stack != [] {
      WantedPart(s, objs, stack[1..], xs[1..], n);
      CellParts(xs[0]);
    }
  }

  // ---- what the arena gains ----

  // Nothing but what is in `all` has been entered.
  ghost predicate Within(s: Store, all: set<Held>) { Ordered(s) && AllForms(s) <= all }

  // What every step keeps.
  ghost predicate Kept(s: Store, t: Store) { Grows(s, t) && (Canonical(s) ==> Canonical(t)) }

  lemma KeptTrans(s: Store, t: Store, u: Store)
    requires Kept(s, t) && Kept(t, u)
    ensures Kept(s, u)
  {
  }

  lemma KeptSame(s: Store)
    ensures Kept(s, s)
  {
  }

  lemma KeptGrows(s: Store, t: Store)
    ensures Kept(s, t) ==> Grows(s, t)
    ensures Grows(s, t) && (Canonical(s) ==> Canonical(t)) ==> Kept(s, t)
  {
  }

  lemma FuelEnough(fuel: nat, d: D.Dict<()>)
    ensures fuel >= Mugs.HALF ==> D.Enough(fuel, d)
  {
  }

  // The reference of an atom, or no room for it.
  method EnterAtom(root: Root, v: nat, fuel: nat, ghost all: set<Held>) returns (r: Option<NRef>)
    requires root.Valid() && Within(root.store, all) && Natural(Atom(v)) in all
    modifies root
    ensures root.Valid() && Kept(old(root.store), root.store) && root.mugs.mm == old(root.mugs.mm) && Within(root.store, all)
    ensures r.Some? ==> Entered(root.store, r.value, Atom(v))
    ensures r.None? ==> fuel < Mugs.HALF || !Accommodates(root.mugs.mm, all)
  {
    hide Ordered, Unique, Hashed, Holds, Grows, Canonical, Known, Val, Form, AtomFits, D.Enough, Accommodates, AllForms;
    ghost var s, m := root.store, root.mugs;
    FuelEnough(fuel, root.atomDict);
    r := root.Coin(v, fuel);
    KeptGrows(s, root.store);
    if root.store != s { FormsAtom(s, v); }
    if r.None? && fuel >= Mugs.HALF { NoAtom(s, m, v, all); }
  }

  // The reference of a cell, or no room for it.
  method EnterCell(root: Root, hed: NRef, tal: NRef, ghost x: Noun, fuel: nat, ghost all: set<Held>) returns (r: Option<NRef>)
    requires root.Valid() && Within(root.store, all) && x.Cell? && Natural(x) in all
    requires Entered(root.store, hed, x.head) && Entered(root.store, tal, x.tail)
    modifies root
    ensures root.Valid() && Kept(old(root.store), root.store) && root.mugs.mm == old(root.mugs.mm) && Within(root.store, all)
    ensures r.Some? ==> Entered(root.store, r.value, x)
    ensures r.None? ==> fuel < Mugs.HALF || !Accommodates(root.mugs.mm, all)
  {
    hide Ordered, Unique, Hashed, Holds, Grows, Canonical, Known, Val, Form, CellFits, D.Enough, Accommodates, AllForms, HasCell;
    ghost var s, m := root.store, root.mugs;
    FuelEnough(fuel, root.cellDict);
    r := root.Cons(hed, tal, fuel);
    KeptGrows(s, root.store);
    if root.store != s { FormsCell(s, hed, tal); }
    if r.None? && fuel >= Mugs.HALF { NoCell(s, m, hed, tal, all); }
  }

  class Melder {
    const objs: Objs
    var stash: map<Addr, NRef>

    constructor (o: Objs)
      ensures objs == o && stash == map[]
    {
      objs, stash := o, map[];
    }

    // Down the heads to something whose reference is at hand.
    method Next(root: Root, veb: Ref, under: seq<Frame>, fuel: nat,
                ghost n: Noun, ghost x: Noun, ghost below: seq<Noun>, ghost den: map<Addr, Noun>, ghost all: set<Held>)
        returns (r: Option<NRef>, stack: seq<Frame>, ghost xs: seq<Noun>)
      requires root.Valid() && Within(root.store, all) && Parts(Natural(n)) <= all
      requires Sound(objs, den) && Stashed(root.store, stash, den) && Take.Denotes(objs, veb, x) && CatFits(veb)
      requires Chain(root.store, objs, under, below, n) && x == Wanted(under, below, n)
      modifies root, this
      ensures root.Valid() && Kept(old(root.store), root.store) && root.mugs.mm == old(root.mugs.mm) && Within(root.store, all)
      ensures Stashed(root.store, stash, den) && Chain(root.store, objs, stack, xs, n)
      ensures r.Some? ==> Entered(root.store, r.value, Wanted(stack, xs, n))
      ensures r.None? ==> fuel < Mugs.HALF || !Accommodates(root.mugs.mm, all)
      ensures Weights(stack, xs) <= Weights(under, below) + 3 * Size(x)
    {
      hide Chain, Size, Weights, Unique, Hashed, Holds, Grows, Canonical, Known, Val, Form, Take.Denotes, Sound, Stashed, Entered, Kept, Within,
        Accommodates, Parts, Natural, Ordered;
      stack, xs := under, below;
      var a := veb;
      ghost var m := x;
      ChainSize(root.store, objs, stack, xs, n);
      KeptSame(root.store);
      while true
        invariant root.Valid() && root.store == old(root.store) && root.mugs == old(root.mugs) && stash == old(stash)
        invariant Take.Denotes(objs, a, m) && CatFits(a) && Chain(root.store, objs, stack, xs, n)
        invariant |xs| == |stack| && (forall k :: 0 <= k < |xs| ==> xs[k].Cell?) && m == Wanted(stack, xs, n)
        invariant Weights(stack, xs) + 3 * Size(m) <= Weights(under, below) + 3 * Size(x)
        decreases m
      {
        SizeIs(m);
        if a.Cat? {
          CatIs(objs, a, m);
          CatEntered(root.store, a.v);
          return Some(D.Direct(a.v)), stack, xs;
        }
        SoundAt(objs, den, a, m);
        if a.a in stash {
          StashIs(root.store, stash, den, a.a);
          return Some(stash[a.a]), stack, xs;
        }
        ghost var s := root.store;
        if a.Pug? {
          WantedPart(s, objs, stack, xs, n);
          SelfPart(Natural(m));
          r := EnterAtom(root, objs[a.a].val, fuel, all);
          KeptGrows(s, root.store);
          ChainStill(s, root.store, objs, stack, xs, n);
          StashedStill(s, root.store, stash, den);
          if r.Some? {
            StashMore(root.store, stash, den, a.a, r.value);
            stash := stash[a.a := r.value];
          }
          return;
        }
        ChainPush(s, objs, Frame(None, a.a), m, stack, xs, n);
        WeightsPush(Frame(None, a.a), m, stack, xs);
        stack, xs := [Frame(None, a.a)] + stack, [m] + xs;
        a, m := objs[a.a].hed, m.head;
      }
    }

    /** Enter the noun of a reference.  With `fuel` enough it returns if and
        only if no more than ten atoms, and no more than ten cells, of those
        in the arena and in the noun would share a hash. */
    method FromLoom(root: Root, veb: Ref, fuel: nat, ghost n: Noun, ghost den: map<Addr, Noun>) returns (r: Option<NRef>)
      requires root.Valid() && Sound(objs, den) && Stashed(root.store, stash, den) && Take.Denotes(objs, veb, n) && CatFits(veb)
      modifies root, this
      ensures root.Valid() && Kept(old(root.store), root.store) && root.mugs.mm == old(root.mugs.mm) && Stashed(root.store, stash, den)
      ensures Within(root.store, AllForms(old(root.store)) + Parts(Natural(n)))
      ensures r.Some? ==> Entered(root.store, r.value, n)
      ensures r.Some? ==> Accommodates(root.mugs.mm, AllForms(old(root.store)) + Parts(Natural(n)))
      ensures fuel >= Mugs.HALF && Accommodates(root.mugs.mm, AllForms(old(root.store)) + Parts(Natural(n))) ==> r.Some?
    {
      hide Chain, Size, Weights, Unique, Hashed, Holds, Grows, Canonical, Known, Val, Form, Take.Denotes, Sound, Stashed, Entered, Kept,
        Accommodates, Parts, Natural, Ordered, AllForms;
      ghost var all := AllForms(root.store) + Parts(Natural(n));
      var stack: seq<Frame>;
      ghost var xs: seq<Noun>;
      ChainNone(root.store, objs, n);
      r, stack, xs := Next(root, veb, [], fuel, n, n, [], den, all);
      hide Within;
      ChainSize(root.store, objs, stack, xs, n);
      while r.Some? && stack != []
        invariant |xs| == |stack| && (forall k :: 0 <= k < |xs| ==> xs[k].Cell?)
        invariant root.Valid() && Kept(old(root.store), root.store) && root.mugs.mm == old(root.mugs.mm) && Within(root.store, all)
        invariant Stashed(root.store, stash, den) && Chain(root.store, objs, stack, xs, n)
        invariant r.Some? ==> Entered(root.store, r.value, Wanted(stack, xs, n))
        invariant r.None? ==> fuel < Mugs.HALF || !Accommodates(root.mugs.mm, all)
        decreases Weights(stack, xs)
      {
        var f, rest := stack[0], stack[1..];
        ghost var x, ms := xs[0], xs[1..];
        assert stack == [f] + rest && xs == [x] + ms;
        ghost var s := root.store;
        ChainTop(s, objs, stack, xs, n);
        WeightsPush(f, x, rest, ms);
        SoundAt(objs, den, Take.Pom(f.cel), x);
        if f.ref.None? {
          ChainPush(s, objs, Frame(r, f.cel), x, rest, ms, n);
          WeightsPush(Frame(r, f.cel), x, rest, ms);
          r, stack, xs := Next(root, objs[f.cel].tel, [Frame(r, f.cel)] + rest, fuel, n, x.tail, [x] + ms, den, all);
        } else {
          WantedPart(s, objs, rest, ms, n);
          SelfPart(Natural(x));
          r := EnterCell(root, f.ref.value, r.value, x, fuel, all);
          KeptGrows(s, root.store);
          ChainStill(s, root.store, objs, rest, ms, n);
          StashedStill(s, root.store, stash, den);
          if r.Some? {
            StashMore(root.store, stash, den, f.cel, r.value);
            stash := stash[f.cel := r.value];
          }
          stack, xs := rest, ms;
        }
        ChainSize(root.store, objs, stack, xs, n);
        KeptTrans(old(root.store), s, root.store);
      }
      if r.Some? {
        KeptGrows(old(root.store), root.store);
        EnteredRoom(old(root.store), root.store, root.mugs, root.atomDict, root.cellDict, r.value, n);
      }
    }

    /** Enter several nouns: references are the same exactly where the nouns
        are, and each stands for its noun. */
    method MeldAll(root: Root, vebs: seq<Ref>, fuel: nat, ghost ns: seq<Noun>, ghost den: map<Addr, Noun>) returns (refs: Option<seq<NRef>>)
      requires root.Valid() && Sound(objs, den) && Stashed(root.store, stash, den)
      requires |ns| == |vebs| && forall i :: 0 <= i < |vebs| ==> Take.Denotes(objs, vebs[i], ns[i]) && CatFits(vebs[i])
      modifies root, this
      ensures root.Valid() && Kept(old(root.store), root.store) && root.mugs.mm == old(root.mugs.mm)
      ensures refs.Some? ==> EnteredAll(root.store, refs.value, ns)
      ensures refs.Some? ==> forall i, j :: 0 <= i < |ns| && 0 <= j < |ns| ==> (refs.value[i] == refs.value[j] <==> ns[i] == ns[j])
      ensures refs.Some? ==> Accommodates(root.mugs.mm, AllForms(old(root.store)) + AllParts(ns))
      ensures fuel >= Mugs.HALF && Accommodates(root.mugs.mm, AllForms(old(root.store)) + AllParts(ns)) ==> refs.Some?
    {
      hide Unique, Hashed, Holds, Grows, Canonical, Known, Val, Form, Take.Denotes, Sound, Stashed, Entered, Kept, Within,
        Accommodates, Parts, Natural, Ordered, AllForms;
      ghost var s0, all := root.store, AllForms(root.store) + AllParts(ns);
      var out: seq<NRef> := [];
      KeptSame(root.store);
      WithinSelf(root.store, AllParts(ns));
      var i := 0;
      while i < |vebs|
        invariant i <= |vebs| && |out| == i && root.Valid() && Kept(s0, root.store) && root.mugs.mm == old(root.mugs.mm)
        invariant Stashed(root.store, stash, den) && Within(root.store, all)
        invariant EnteredAll(root.store, out, ns[..i])
      {
        ghost var s := root.store;
        var r := FromLoom(root, vebs[i], fuel, ns[i], den);
        KeptTrans(s0, s, root.store);
        KeptGrows(s, root.store);
        KeptGrows(s0, root.store);
        PartsAmong(ns, i);
        if r.None? {
          TooTight(root.mugs.mm, s, all, Parts(Natural(ns[i])));
          return None;
        }
        WithinMore(s, root.store, all, Parts(Natural(ns[i])));
        EnteredOne(s, root.store, out, ns, i, r.value);
        out := out + [r.value];
        i := i + 1;
      }
      assert ns[..i] == ns;
      KeptGrows(s0, root.store);
      AllSame(root.store, out, ns);
      AllRoom(s0, root.store, root.mugs, root.atomDict, root.cellDict, out, ns);
      refs := Some(out);
    }
  }

  ghost predicate EnteredAll(s: Store, refs: seq<NRef>, ns: seq<Noun>) {
    |refs| == |ns| && forall i :: 0 <= i < |ns| ==> Entered(s, refs[i], ns[i])
  }

  // Everything in some nouns.
  ghost function AllParts(ns: seq<Noun>): set<Held> { set i, h | 0 <= i < |ns| && h in Parts(Natural(ns[i])) :: h }

  lemma PartsAmong(ns: seq<Noun>, i: nat)
    requires i < |ns|
    ensures Parts(Natural(ns[i])) <= AllParts(ns)
  {
  }

  lemma WithinSelf(s: Store, more: set<Held>)
    requires Ordered(s)
    ensures Within(s, AllForms(s) + more)
  {
  }

  lemma WithinMore(s: Store, t: Store, all: set<Held>, parts: set<Held>)
    requires Within(s, all) && parts <= all && Within(t, AllForms(s) + parts)
    ensures Within(t, all)
  {
  }

  lemma AccommodatesLess(mm: Mugs.Murmur, few: set<Held>, all: set<Held>)
    requires few <= all && Accommodates(mm, all)
    ensures Accommodates(mm, few)
  {
    RoomyLess(mm, Kind(few, false), Kind(all, false));
    RoomyLess(mm, Kind(few, true), Kind(all, true));
  }

  lemma TooTight(mm: Mugs.Murmur, s: Store, all: set<Held>, parts: set<Held>)
    requires Within(s, all) && parts <= all
    ensures Accommodates(mm, all) ==> Accommodates(mm, AllForms(s) + parts)
  {
    if Accommodates(mm, all) { AccommodatesLess(mm, AllForms(s) + parts, all); }
  }

  lemma EnteredOne(s: Store, t: Store, out: seq<NRef>, ns: seq<Noun>, i: nat, r: NRef)
    requires i < |ns| && EnteredAll(s, out, ns[..i]) && Ordered(t) && Grows(s, t) && Entered(t, r, ns[i])
    ensures EnteredAll(t, out + [r], ns[..i + 1])
  {
    hide Entered, Ordered, Grows;
    forall k | 0 <= k < i ensures Entered(t, out[k], ns[k]) {
      assert ns[..i][k] == ns[k];
      EnteredStill(s, t, out[k], ns[k]);
    }
  }

  lemma AllSame(s: Store, out: seq<NRef>, ns: seq<Noun>)
    requires Unique(s) && EnteredAll(s, out, ns)
    ensures forall i, j :: 0 <= i < |ns| && 0 <= j < |ns| ==> (out[i] == out[j] <==> ns[i] == ns[j])
  {
    hide Unique, Entered;
    forall i, j | 0 <= i < |ns| && 0 <= j < |ns| ensures out[i] == out[j] <==> ns[i] == ns[j] {
      EnteredSame(s, out[i], ns[i], out[j], ns[j]);
    }
  }

  // An arena that has all this has room for it.
  lemma AllRoom(s: Store, t: Store, m: D.Hashes, a: D.Dict<()>, d: D.Dict<()>, out: seq<NRef>, ns: seq<Noun>)
    requires Ordered(s) && Grows(s, t) && EnteredAll(t, out, ns)
    requires Ordered(t) && Unique(t) && Hashed(t, m) && Holds(a, m, |t.atoms|, false) && Holds(d, m, |t.heads|, true)
    ensures Accommodates(m.mm, AllForms(s) + AllParts(ns))
  {
    hide Ordered, Grows, Unique, Hashed, Holds, Form, Parts, Natural, Known;
    HasRoom(t, m, a, d);
    FormsStill(s, t);
    var few := AllForms(s) + AllParts(ns);
    forall h | h in few && !h.Word? ensures h in AllForms(t) {
      if h in AllParts(ns) {
        var i :| 0 <= i < |ns| && h in Parts(Natural(ns[i]));
        PartsThere(t, out[i]);
      }
    }
    hide AllForms, AllParts;
    forall cells ensures Kind(few, cells) <= Kind(AllForms(t), cells) {}
    assert Kind(few, true) <= Kind(AllForms(t), true) && Kind(few, false) <= Kind(AllForms(t), false);
    RoomyLess(m.mm, Kind(few, false), Kind(AllForms(t), false));
    RoomyLess(m.mm, Kind(few, true), Kind(AllForms(t), true));
  }

  lemma EnteredRoom(s: Store, t: Store, m: D.Hashes, a: D.Dict<()>, d: D.Dict<()>, r: NRef, n: Noun)
    requires Ordered(s) && Grows(s, t) && Entered(t, r, n)
    requires Ordered(t) && Unique(t) && Hashed(t, m) && Holds(a, m, |t.atoms|, false) && Holds(d, m, |t.heads|, true)
    ensures Accommodates(m.mm, AllForms(s) + Parts(Natural(n)))
  {
    hide Ordered, Grows, Unique, Hashed, Holds, Entered, Accommodates, AllForms, Parts, Natural;
    assert AllParts([n]) == Parts(Natural(n)) by {
      PartsAmong([n], 0);
      forall h | h in AllParts([n]) ensures h in Parts(Natural(n)) {
        var i :| 0 <= i < |[n]| && h in Parts(Natural([n][i]));
      }
    }
    AllRoom(s, t, m, a, d, [r], [n]);
  }

  lemma ChainNone(s: Store, objs: Objs, n: Noun)
    ensures Chain(s, objs, [], [], n)
  {
  }

  lemma SelfPart(h: Held)
    ensures h in Parts(h)
  {
  }

  lemma CatEntered(s: Store, v: nat)
    requires Ordered(s) && v < 0x8000_0000
    ensures Entered(s, D.Direct(v), Atom(v))
  {
  }

  lemma StashIs(s: Store, stash: map<Addr, NRef>, den: map<Addr, Noun>, x: Addr)
    requires Stashed(s, stash, den) && x in stash
    ensures x in den && Entered(s, stash[x], den[x])
  {
  }

  // ---- back on the loom ----

  // What an object of the new loom was made for.
  type Origin = map<Addr, NRef>

  /** The loom so far: each object was made for one arena reference, which it
      denotes, and no two for the same one. */
  ghost predicate Rebuilt(s: Store, objs: Objs, next: nat, from: Origin) {
    && Ordered(s) && from.Keys == objs.Keys
    && (forall x :: x in objs ==> x.Normal? && x.i < next && Known(s, from[x], |s.heads|) && Take.Denotes(objs, Mugs.RefAt(objs, x), Val(s, from[x])))
    && forall x, y :: x in objs && y in objs && from[x] == from[y] ==> x == y
  }

  // A loom reference for an arena reference.
  ghost predicate Stands(s: Store, objs: Objs, r: Ref, q: NRef) {
    Ordered(s) && Known(s, q, |s.heads|) && Take.Denotes(objs, r, Val(s, q))
  }

  lemma CatStands(s: Store, objs: Objs, k: nat)
    requires Ordered(s) && k < |s.atoms| && s.atoms[k] < Mugs.HALF
    ensures Stands(s, objs, Take.Cat(s.atoms[k]), D.IAtom(k))
  {
  }

  lemma StandsStill(s: Store, a: Objs, b: Objs, r: Ref, q: NRef)
    requires Stands(s, a, r, q) && Take.Extends(a, b)
    ensures Stands(s, b, r, q)
  {
    Take.DenotesStill(a, b, r, Val(s, q));
  }

  // One object more.
  lemma RebuiltMore(s: Store, objs: Objs, next: nat, from: Origin, o: Take.Obj, q: NRef)
    requires Rebuilt(s, objs, next, from) && q !in from.Values && Known(s, q, |s.heads|)
    requires if o.AtomObj? then Val(s, q) == Atom(o.val)
             else Val(s, q).Cell? && Take.Denotes(objs, o.hed, Val(s, q).head) && Take.Denotes(objs, o.tel, Val(s, q).tail)
    ensures var x := Take.Normal(next);
            var b := objs[x := o];
            Rebuilt(s, b, next + 1, from[x := q]) && Take.Extends(objs, b) && Stands(s, b, Mugs.RefAt(b, x), q)
  {
    var x := Take.Normal(next);
    var b := objs[x := o];
    assert Take.Extends(objs, b);
    NewDenotes(objs, x, o, Val(s, q));
    hide Take.Denotes, Take.Extends, Known, Val, Ordered;
    forall y | y in objs ensures Take.Denotes(b, Mugs.RefAt(b, y), Val(s, from[y])) { Take.DenotesStill(objs, b, Mugs.RefAt(objs, y), Val(s, from[y])); }
  }

  lemma NewDenotes(objs: Objs, x: Addr, o: Take.Obj, n: Noun)
    requires Take.Extends(objs, objs[x := o])
    requires if o.AtomObj? then n == Atom(o.val) else n.Cell? && Take.Denotes(objs, o.hed, n.head) && Take.Denotes(objs, o.tel, n.tail)
    ensures var b := objs[x := o]; Take.Denotes(b, Mugs.RefAt(b, x), n)
  {
    var b := objs[x := o];
    if o.CellObj? {
      Take.DenotesStill(objs, b, o.hed, n.head);
      Take.DenotesStill(objs, b, o.tel, n.tail);
    }
  }

  // References for the first of the atoms, or of the cells.
  ghost predicate Ready(s: Store, objs: Objs, refs: seq<Ref>, cells: bool) {
    |refs| <= Count(s, cells) && forall k :: 0 <= k < |refs| ==> Stands(s, objs, refs[k], At(k, cells))
  }

  lemma ReadyStill(s: Store, a: Objs, b: Objs, refs: seq<Ref>, cells: bool)
    requires Ready(s, a, refs, cells) && Take.Extends(a, b)
    ensures Ready(s, b, refs, cells)
  {
    hide Stands;
    forall k | 0 <= k < |refs| ensures Stands(s, b, refs[k], At(k, cells)) { StandsStill(s, a, b, refs[k], At(k, cells)); }
  }

  // Nothing has been made for atoms or cells from `n` on.
  ghost predicate Unmade(from: Origin, n: nat, cells: bool) {
    forall x :: x in from ==> if cells then from[x].ICell? ==> from[x].i < n else from[x].IAtom? ==> from[x].i < n
  }

  // Objects for direct atoms that do not fit in 31 bits.
  ghost predicate Dealt(s: Store, objs: Objs, from: Origin, dealt: map<nat, Ref>) {
    && (forall v :: v in dealt ==> Stands(s, objs, dealt[v], D.Direct(v)))
    && forall x :: x in from && from[x].Direct? ==> from[x].v in dealt
  }

  class Rebuilder {
    var objs: Objs
    var next: nat
    var dealt: map<nat, Ref>
    ghost var from: Origin

    constructor ()
      ensures objs == map[] && next == 0 && dealt == map[] && from == map[]
    {
      objs, next, dealt, from := map[], 0, map[], map[];
    }

    ghost predicate Valid(s: Store)
      reads this
    {
      Rebuilt(s, objs, next, from) && Dealt(s, objs, from, dealt)
    }

    // A new object for an arena reference.
    method Make(s: Store, o: Take.Obj, ghost q: NRef) returns (r: Ref)
      requires Rebuilt(s, objs, next, from) && q !in from.Values && Known(s, q, |s.heads|)
      requires if o.AtomObj? then Val(s, q) == Atom(o.val)
               else Val(s, q).Cell? && Take.Denotes(objs, o.hed, Val(s, q).head) && Take.Denotes(objs, o.tel, Val(s, q).tail)
      modifies this
      ensures Rebuilt(s, objs, next, from) && Take.Extends(old(objs), objs) && Stands(s, objs, r, q) && dealt == old(dealt)
      ensures from == old(from)[Take.Normal(old(next)) := q] && Take.Normal(old(next)) !in old(from)
      ensures r == if o.AtomObj? then Take.Pug(Take.Normal(old(next))) else Take.Pom(Take.Normal(old(next)))
    {
      hide Val, Known, Stands, Take.Denotes;
      RebuiltMore(s, objs, next, from, o, q);
      var x := Take.Normal(next);
      r := if o.AtomObj? then Take.Pug(x) else Take.Pom(x);
      objs, from, next := objs[x := o], from[x := q], next + 1;
    }

    // An atom held as bytes, on the loom.
    method AtomFor(s: Store, k: nat) returns (r: Ref)
      requires Valid(s) && k < |s.atoms| && Unmade(from, k, false) && Unmade(from, 0, true)
      modifies this
      ensures Valid(s) && Unmade(from, k + 1, false) && Unmade(from, 0, true) && Take.Extends(old(objs), objs) && Stands(s, objs, r, D.IAtom(k))
    {
      hide Dealt, Stands, Take.Denotes;
      Take.ExtendsTrans(objs, objs, objs);
      if s.atoms[k] < Mugs.HALF { CatStands(s, objs, k); return Take.Cat(s.atoms[k]); }
      ghost var a := objs;
      r := Make(s, Take.AtomObj(Take.Hash(0), s.atoms[k]), D.IAtom(k));
      DealtStill(s, a, objs, old(from), from, dealt);
    }

    // The loom reference of an arena reference whose parts are there.
    method NounFor(s: Store, r: NRef, vat: seq<Ref>, cel: seq<Ref>) returns (q: Ref)
      requires Valid(s) && Ready(s, objs, vat, false) && Ready(s, objs, cel, true) && |vat| == |s.atoms| && Known(s, r, |cel|)
      modifies this
      ensures Valid(s) && Take.Extends(old(objs), objs) && Stands(s, objs, q, r)
      ensures forall n :: Unmade(old(from), n, true) ==> Unmade(from, n, true)
    {
      Take.ExtendsTrans(objs, objs, objs);
      match r {
        case IAtom(k) => assert r == At(k, false); return vat[k];
        case ICell(i) => assert r == At(i, true); return cel[i];
        case Direct(v) =>
          if v < Mugs.HALF { return Take.Cat(v); }
          if v in dealt { return dealt[v]; }
          ghost var a := objs;
          q := Make(s, Take.AtomObj(Take.Hash(0), v), r);
          DealtStill(s, a, objs, old(from), from, dealt);
          dealt := dealt[v := q];
      }
    }

    /** Build everything of an arena: the atoms, and then every cell in one
        pass in index order, each from what has been built.  Each reference
        denotes what it did in the arena, and in a canonical arena no two
        objects are the same noun. */
    method ToLoom(s: Store) returns (cel: seq<Ref>)
      requires Ordered(s) && objs == map[] && next == 0 && dealt == map[] && from == map[]
      modifies this
      ensures |cel| == |s.heads| && forall i: nat :: i < |cel| ==> cel[i].Pom? && Take.Denotes(objs, cel[i], Val(s, D.ICell(i)))
      ensures Canonical(s) && Unique(s) ==> NoTwins(objs)
    {
      hide Val, Known, Stands, Take.Denotes, Rebuilt, Dealt, Ready, Canonical, Unique, Unmade, NoTwins, Take.Extends;
      NothingYet(s);
      var vat: seq<Ref> := [];
      cel := [];
      var k := 0;
      while k < |s.atoms|
        invariant k == |vat| <= |s.atoms| && Valid(s) && Ready(s, objs, vat, false) && Unmade(from, k, false) && Unmade(from, 0, true)
      {
        ghost var a := objs;
        var r := AtomFor(s, k);
        ReadyStill(s, a, objs, vat, false);
        ReadyMore(s, objs, vat, false, r);
        vat, k := vat + [r], k + 1;
      }
      ReadyNone(s, objs);
      var i := 0;
      while i < |s.heads|
        invariant i == |cel| <= |s.heads| && |vat| == |s.atoms| && Valid(s) && Ready(s, objs, vat, false) && Ready(s, objs, cel, true) && Unmade(from, i, true)
        invariant forall j :: 0 <= j < i ==> cel[j].Pom?
      {
        assert Known(s, s.heads[i], i) && Known(s, s.tails[i], i);
        CellVal(s, i);
        ghost var a := objs;
        var hed := NounFor(s, s.heads[i], vat, cel);
        ReadyStill(s, a, objs, vat, false);
        ReadyStill(s, a, objs, cel, true);
        ghost var b := objs;
        var tel := NounFor(s, s.tails[i], vat, cel);
        ReadyStill(s, b, objs, vat, false);
        ReadyStill(s, b, objs, cel, true);
        StandsStill(s, b, objs, hed, s.heads[i]);
        ghost var c, f, at := objs, from, next;
        CellMakes(s, objs, i, hed, tel, from);
        var r := Make(s, Take.CellObj(Take.Hash(0), hed, tel), D.ICell(i));
        DealtStill(s, c, objs, f, from, dealt);
        UnmadeMore(f, i, at);
        ReadyStill(s, c, objs, vat, false);
        ReadyStill(s, c, objs, cel, true);
        ReadyMore(s, objs, cel, true, r);
        cel, i := cel + [r], i + 1;
      }
      ReadyDenotes(s, objs, cel);
      if Canonical(s) && Unique(s) { Twinless(s, objs, next, from); }
    }
  }

  // No two objects are the same noun.
  ghost predicate NoTwins(objs: Objs) {
    forall x, y, n :: x in objs && y in objs && Take.Denotes(objs, Mugs.RefAt(objs, x), n) && Take.Denotes(objs, Mugs.RefAt(objs, y), n) ==> x == y
  }

  lemma Twinless(s: Store, objs: Objs, next: nat, from: Origin)
    requires Rebuilt(s, objs, next, from) && Canonical(s) && Unique(s)
    ensures NoTwins(objs)
  {
    hide Canonical, Unique, Val, Known, Take.Denotes, Ordered;
    forall x, y, n | x in objs && y in objs && Take.Denotes(objs, Mugs.RefAt(objs, x), n) && Take.Denotes(objs, Mugs.RefAt(objs, y), n) ensures x == y {
      Take.DenotesOne(objs, Mugs.RefAt(objs, x), n, Val(s, from[x]));
      Take.DenotesOne(objs, Mugs.RefAt(objs, y), n, Val(s, from[y]));
      SameRef(s, from[x], from[y]);
    }
  }

  lemma NothingYet(s: Store)
    requires Ordered(s)
    ensures Rebuilt(s, map[], 0, map[]) && Dealt(s, map[], map[], map[]) && Unmade(map[], 0, false) && Unmade(map[], 0, true) && Ready(s, map[], [], false)
  {
  }

  lemma ReadyNone(s: Store, objs: Objs)
    ensures Ready(s, objs, [], true)
  {
  }

  lemma ReadyMore(s: Store, objs: Objs, refs: seq<Ref>, cells: bool, r: Ref)
    requires Ready(s, objs, refs, cells) && |refs| < Count(s, cells) && Stands(s, objs, r, At(|refs|, cells))
    ensures Ready(s, objs, refs + [r], cells)
  {
    hide Stands;
  }

  lemma ReadyDenotes(s: Store, objs: Objs, cel: seq<Ref>)
    requires Ready(s, objs, cel, true) && Ordered(s) && |cel| == |s.heads|
    ensures forall i: nat :: i < |cel| ==> Take.Denotes(objs, cel[i], Val(s, D.ICell(i)))
  {
    hide Take.Denotes, Val;
    forall i: nat | i < |cel| ensures Take.Denotes(objs, cel[i], Val(s, D.ICell(i))) { assert At(i, true) == D.ICell(i); }
  }

  lemma DealtStill(s: Store, a: Objs, b: Objs, from: Origin, from': Origin, dealt: map<nat, Ref>)
    requires Dealt(s, a, from, dealt) && Take.Extends(a, b)
    ensures forall v :: v in dealt ==> Stands(s, b, dealt[v], D.Direct(v))
    ensures (forall x :: x in from' && from'[x].Direct? ==> x in from && from'[x] == from[x]) ==> Dealt(s, b, from', dealt)
  {
    hide Stands, Take.Extends;
    forall v | v in dealt ensures Stands(s, b, dealt[v], D.Direct(v)) { StandsStill(s, a, b, dealt[v], D.Direct(v)); }
  }

  lemma UnmadeMore(from: Origin, i: nat, at: nat)
    requires Unmade(from, i, true)
    ensures Unmade(from[Take.Normal(at) := D.ICell(i)], i + 1, true)
  {
  }

  // A cell may be made of the references for its parts.
  lemma CellMakes(s: Store, objs: Objs, i: nat, hed: Ref, tel: Ref, from: Origin)
    requires Ordered(s) && i < |s.heads| && Stands(s, objs, hed, s.heads[i]) && Stands(s, objs, tel, s.tails[i]) && Unmade(from, i, true)
    ensures D.ICell(i) !in from.Values && Known(s, D.ICell(i), |s.heads|) && Val(s, D.ICell(i)).Cell?
    ensures Take.Denotes(objs, hed, Val(s, D.ICell(i)).head) && Take.Denotes(objs, tel, Val(s, D.ICell(i)).tail)
  {
    CellVal(s, i);
  }

  lemma CellVal(s: Store, i: nat)
    requires Ordered(s) && i < |s.heads|
    ensures Known(s, s.heads[i], |s.heads|) && Known(s, s.tails[i], |s.heads|)
    ensures Val(s, D.ICell(i)) == Cell(Val(s, s.heads[i]), Val(s, s.tails[i]))
  {
    assert Known(s, s.heads[i], i) && Known(s, s.tails[i], i);
  }

  /** Meld: every root, a cell, is entered and built again on a new loom, and
      is the noun it was; equal roots come back as the same object, and from a
      canonical arena no noun comes back twice. */
  method Uniq(melder: Melder, root: Root, vebs: seq<Ref>, fuel: nat, ghost ns: seq<Noun>, ghost den: map<Addr, Noun>)
      returns (loom: Rebuilder, vebs': Option<seq<Ref>>)
    requires root.Valid() && Sound(melder.objs, den) && melder.stash == map[]
    requires |ns| == |vebs| && forall i :: 0 <= i < |vebs| ==> vebs[i].Pom? && Take.Denotes(melder.objs, vebs[i], ns[i])
    modifies root, melder
    ensures fresh(loom) && (Canonical(old(root.store)) ==> NoTwins(loom.objs))
    ensures vebs'.Some? ==> |vebs'.value| == |ns| && forall i :: 0 <= i < |ns| ==> Take.Denotes(loom.objs, vebs'.value[i], ns[i])
    ensures vebs'.Some? ==> forall i, j :: 0 <= i < |ns| && 0 <= j < |ns| && ns[i] == ns[j] ==> vebs'.value[i] == vebs'.value[j]
    ensures fuel >= Mugs.HALF && Accommodates(old(root.mugs.mm), AllForms(old(root.store)) + AllParts(ns)) ==> vebs'.Some?
  {
    hide Hashed, Holds, Grows, Known, Val, Canonical, Unique, Sound, Stashed, Accommodates, AllForms, AllParts, EnteredAll, NoTwins;
    EmptyStash(root.store, den);
    var refs := melder.MeldAll(root, vebs, fuel, ns, den);
    loom := new Rebuilder();
    var cel := loom.ToLoom(root.store);
    vebs' := None;
    if refs.Some? {
      AllBack(root.store, melder.objs, loom.objs, vebs, refs.value, ns, cel);
      vebs' := Some(seq(|refs.value|, i requires 0 <= i < |refs.value| => cel[refs.value[i].i]));
    }
  }

  lemma EmptyStash(s: Store, den: map<Addr, Noun>)
    ensures Stashed(s, map[], den)
  {
  }

  lemma AllBack(s: Store, objs: Objs, loom: Objs, vebs: seq<Ref>, refs: seq<NRef>, ns: seq<Noun>, cel: seq<Ref>)
    requires EnteredAll(s, refs, ns) && Ordered(s) && |cel| == |s.heads| && forall i: nat :: i < |cel| ==> Take.Denotes(loom, cel[i], Val(s, D.ICell(i)))
    requires |ns| == |vebs| && forall i :: 0 <= i < |vebs| ==> vebs[i].Pom? && Take.Denotes(objs, vebs[i], ns[i])
    ensures |refs| == |ns| && forall i :: 0 <= i < |ns| ==> refs[i].ICell? && refs[i].i < |cel| && Take.Denotes(loom, cel[refs[i].i], ns[i])
  {
    hide Entered, Ordered, Val;
    forall i | 0 <= i < |ns| ensures refs[i].ICell? && refs[i].i < |cel| && Take.Denotes(loom, cel[refs[i].i], ns[i]) {
      EnteredVal(s, refs[i], ns[i]);
      IsCell(s, refs[i], ns[i]);
    }
  }

  lemma IsCell(s: Store, r: NRef, n: Noun)
    requires Entered(s, r, n) && n.Cell?
    ensures r.ICell? && r.i < |s.heads| && Val(s, D.ICell(r.i)) == n
  {
    EnteredVal(s, r, n);
  }
}
