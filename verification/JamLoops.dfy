/** jam as the runtime runs it: a walk over references with a stack, a
    dictionary that grows, and a writer that fills a byte buffer. */
module JamLoops {
  import opened Nouns
  import opened Mugs
  import opened HeldNouns
  import opened JamCue
  import opened Bitstream
  import opened Rooms
  import D = Dictionary
  import H = Hashcons

  type NRef = D.NRef

  // Print the nouns on a stack, top first.
  function JamAll(stack: seq<Held>, dict: Places, pos: nat): Printed
    decreases |stack|
  {
    if stack == [] then Printed([], dict) else
    var p := JamAt(stack[0], dict, pos);
    var q := JamAll(stack[1..], p.dict, pos + |p.bits|);
    Printed(p.bits + q.bits, q.dict)
  }

  function Bulks(stack: seq<Held>): nat {
    if stack == [] then 0 else Bulk(stack[0]) + Bulks(stack[1..])
  }

  // Printing a cell is printing its tag and then its head and its tail.
  lemma JamAllPair(stack: seq<Held>, dict: Places, pos: nat)
    requires stack != [] && stack[0].Pair? && stack[0] !in dict
    ensures var n, rest := stack[0], stack[1..];
            var p := JamAll([n.head, n.tail] + rest, dict[n := pos], pos + 2);
            JamAll(stack, dict, pos) == Printed(CELL + p.bits, p.dict)
  {
    hide JamAt, JamAll;
    var n, rest := stack[0], stack[1..];
    var two := [n.head, n.tail] + rest;
    assert two[1..] == [n.tail] + rest && two[1..][1..] == rest;
    var p := JamAt(n.head, dict[n := pos], pos + 2);
    var q := JamAt(n.tail, p.dict, pos + 2 + |p.bits|);
    JamCell(n, dict, pos);
    var r := JamAll(rest, q.dict, pos + 2 + |p.bits| + |q.bits|);
    JamAllTop(stack, dict, pos);
    JamAllTop(two, dict[n := pos], pos + 2);
    JamAllTop(two[1..], p.dict, pos + 2 + |p.bits|);
    assert CELL + (p.bits + (q.bits + r.bits)) == CELL + p.bits + q.bits + r.bits;
  }

  // Printing the top of the stack when it is a single item.
  lemma JamAllTop(stack: seq<Held>, dict: Places, pos: nat)
    requires stack != []
    ensures var p := JamAt(stack[0], dict, pos);
            var q := JamAll(stack[1..], p.dict, pos + |p.bits|);
            JamAll(stack, dict, pos) == Printed(p.bits + q.bits, q.dict)
  {
    hide JamAt;
  }

  lemma BulksPair(n: Held, rest: seq<Held>)
    ensures Bulk(n) >= 1
    ensures n.Pair? ==> Bulks([n.head, n.tail] + rest) < Bulk(n) + Bulks(rest)
  {
    if n.Pair? {
      var two := [n.head, n.tail] + rest;
      assert two[1..] == [n.tail] + rest && two[1..][1..] == rest;
      assert Bulks(two) == Bulk(n.head) + (Bulk(n.tail) + Bulks(rest));
    }
  }

  // A large atom as bytes, least significant first.
  function BytesOf(v: nat): (r: seq<Byte>)
  {
    if v == 0 then [] else [Low(v, 8)] + BytesOf(v / 256)
  }

  lemma {:induction false} BytesOfLow(v: nat)
    ensures Flat(BytesOf(v)) == Low(v, 8 * |BytesOf(v)|)
  {
    if v > 0 {
      BytesOfLow(v / 256);
      var rest := BytesOf(v / 256);
      FlatCons(Low(v, 8), rest);
      LowSplit(v, 8, 8 * |rest|);
      Shift8(v);
    }
  }

  lemma FlatCons(b: Byte, rest: seq<Byte>)
    ensures Flat([b] + rest) == b + Flat(rest)
  {
    var all := [b] + rest;
    forall i | 0 <= i < 8 * |all| ensures Flat(all)[i] == (b + Flat(rest))[i] {
      FlatAt(all, i / 8, i % 8);
      if i >= 8 { FlatAt(rest, i / 8 - 1, i % 8); }
    }
  }

  lemma {:induction false} LowSplit(v: nat, n: nat, m: nat)
    ensures Low(v, n + m) == Low(v, n) + Low(Half(v, n), m)
    decreases n
  {
    if n > 0 { LowSplit(v / 2, n - 1, m); }
  }

  lemma Shift8(v: nat)
    ensures Half(v, 8) == v / 256
  {
    Half4(v, 4);
    Half4(v / 16, 0);
  }

  lemma Half4(v: nat, n: nat)
    ensures Half(v, n + 4) == Half(v / 16, n)
  {
    assert Half(v, n + 4) == Half(v / 2, n + 3) == Half(v / 2 / 2, n + 2) == Half(v / 2 / 2 / 2, n + 1);
    assert v / 2 / 2 / 2 / 2 == v / 16;
  }

  lemma {:induction false} BytesOfLong(v: nat)
    ensures Met(v) <= 8 * |BytesOf(v)|
  {
    if v > 0 {
      BytesOfLong(v / 256);
      MetHalf(v, 8);
      Shift8(v);
    }
  }

  lemma {:induction false} MetHalf(v: nat, n: nat)
    ensures Met(v) <= n + Met(Half(v, n))
    decreases n
  {
    if n > 0 { MetHalf(v / 2, n - 1); }
  }

  // An atom: as a word when it is direct, as a byte string when it is not.
  method PrintAtom(w: Writer, root: H.Root, top: NRef, beyond: Byte)
    requires w.Valid() && root.Valid() && H.Known(root.store, top, |root.store.heads|) && !top.ICell?
    requires Met(Met(H.Form(root.store, top).v)) <= 62
    modifies w
    ensures w.Valid() && w.Contents() == old(w.Contents()) + AtomBits(H.Form(root.store, top).v)
  {
    hide Low, MatOf, Met, Flat, Prefix, Clear, H.Unique, H.Ordered, H.Hashed, H.Holds;
    if top.Direct? {
      MetDirect(top.v);
      w.WriteAtom64(Met(top.v), top.v);
    } else {
      var v := root.store.atoms[top.i];
      var byt := BytesOf(v);
      BytesOfLow(v);
      BytesOfLong(v);
      LowLow(v, 8 * |byt|, Met(v));
      w.WriteAtomBytes(Met(v), byt, beyond);
    }
  }

  method PrintBack(w: Writer, bak: nat)
    requires w.Valid() && Met(bak) <= 62
    modifies w
    ensures w.Valid() && w.Contents() == old(w.Contents()) + BackBits(bak)
  {
    hide Low, MatOf, Met, Prefix, Clear;
    w.WriteBack64(Met(bak), bak);
  }

  // Every position the printer knows is behind the cursor.
  ghost predicate Behind(dict: Places, pos: nat) { forall m :: m in dict ==> dict[m] <= pos }

  lemma MetAtom(v: nat)
    ensures |AtomBits(v)| <= 8 * MAX_BYTES ==> Met(Met(v)) <= 62
  {
    MatLong(v);
    hide Met, Mat;
    if |AtomBits(v)| <= 8 * MAX_BYTES { CursorSmall(Met(v)); }
  }

  // ---- the dictionary by reference and by noun ----

  // Keys are references of the arena, and what is known of a reference is what
  // is known of its noun.
  ghost predicate Mirror(s: H.Store, mp: map<NRef, nat>, dict: Places) {
    && H.Ordered(s) && (forall r :: r in mp ==> H.Known(s, r, |s.heads|))
    && forall r :: H.Known(s, r, |s.heads|) ==>
         (r in mp <==> H.Form(s, r) in dict) && (r in mp ==> mp[r] == dict[H.Form(s, r)])
  }

  lemma MirrorAt(s: H.Store, mp: map<NRef, nat>, dict: Places, r: NRef)
    requires Mirror(s, mp, dict) && H.Known(s, r, |s.heads|)
    ensures (r in mp <==> H.Form(s, r) in dict) && (r in mp ==> mp[r] == dict[H.Form(s, r)])
  {
  }

  lemma MirrorPut(s: H.Store, mp: map<NRef, nat>, dict: Places, r: NRef, at: nat)
    requires Mirror(s, mp, dict) && H.Unique(s) && H.Known(s, r, |s.heads|)
    ensures Mirror(s, mp[r := at], dict[H.Form(s, r) := at])
  {
    hide H.Unique, H.Ordered, H.Known, H.Form;
    forall q | H.Known(s, q, |s.heads|)
      ensures (q in mp[r := at] <==> H.Form(s, q) in dict[H.Form(s, r) := at]) && (q in mp[r := at] ==> mp[r := at][q] == dict[H.Form(s, r) := at][H.Form(s, q)])
    {
      H.SameForm(s, r, q);
    }
  }

  // A part of what a reference stands for has a reference.
  lemma {:induction false} PartRef(s: H.Store, r: NRef, y: Held) returns (q: NRef)
    requires H.Ordered(s) && H.Known(s, r, |s.heads|) && y in Parts(H.Form(s, r))
    ensures H.Known(s, q, |s.heads|) && H.Form(s, q) == y
    decreases if r.ICell? then r.i + 1 else 0
  {
    if H.Form(s, r) == y {
      q := r;
    } else if y in Parts(H.Form(s, s.heads[r.i])) {
      q := PartRef(s, s.heads[r.i], y);
    } else {
      q := PartRef(s, s.tails[r.i], y);
    }
  }

  ghost function FormsOf(s: H.Store, refs: set<NRef>): map<NRef, Held>
    requires H.Ordered(s) && forall r :: r in refs ==> H.Known(s, r, |s.heads|)
  {
    map r | r in refs :: H.Form(s, r)
  }

  // Ten printed already, and another, share a hash.
  lemma NoPlace(s: H.Store, m: D.Hashes, mp: map<NRef, nat>, dict: Places, r: NRef, all: set<Held>)
    requires Mirror(s, mp, dict) && H.Unique(s) && H.Hashed(s, m) && H.Known(s, r, |s.heads|) && r !in mp
    requires dict.Keys <= all && H.Form(s, r) in all && |D.Sharers(mp, m, D.RefMug(m, r))| >= PAIL
    ensures !Roomy(m.mm, all)
  {
    hide H.Ordered, H.Unique, H.Hashed, H.Form, H.Known, D.RefMug, HeldMug;
    var was, mug := D.Sharers(mp, m, D.RefMug(m, r)), D.RefMug(m, r);
    var xs := was + {r};
    forall x | x in xs ensures H.Known(s, x, |s.heads|) && H.Form(s, x) in Crowd(m.mm, all, mug) {
      MirrorAt(s, mp, dict, x);
      FormMug(s, m, x);
    }
    var f := FormsOf(s, xs);
    forall x, y | x in xs && y in xs && f[x] == f[y] ensures x == y { H.SameForm(s, x, y); }
    ImageSize(xs, f, Crowd(m.mm, all, mug));
  }

  // What has been printed had room.
  lemma HadPlace(s: H.Store, m: D.Hashes, d: D.Dict<nat>, mp: map<NRef, nat>, dict: Places, r: NRef)
    requires Mirror(s, mp, dict) && H.Hashed(s, m) && H.Known(s, r, |s.heads|) && D.Means(d, m, mp)
    requires Parts(H.Form(s, r)) <= dict.Keys
    ensures Roomy(m.mm, Parts(H.Form(s, r)))
  {
    hide H.Ordered, H.Hashed, H.Form, H.Known, D.RefMug, HeldMug, D.Means, Parts;
    forall mug: nat ensures |Crowd(m.mm, Parts(H.Form(s, r)), mug)| <= PAIL {
      var ys, xs := Crowd(m.mm, Parts(H.Form(s, r)), mug), D.Sharers(mp, m, mug);
      forall x | x in xs ensures H.Known(s, x, |s.heads|) {}
      var f := FormsOf(s, xs);
      forall y | y in ys ensures exists x :: x in xs && f[x] == y {
        var q := PartRef(s, r, y);
        MirrorAt(s, mp, dict, q);
        FormMug(s, m, q);
        assert q in xs && f[q] == y;
      }
      CoverSize(xs, f, ys);
      D.MeansSize(d, m, mp);
      D.SharersHome(d, m, mp, mug);
      D.RefsSize(d.buckets[mug % |d.buckets|]);
      SubsetSize(xs, D.Refs(d.buckets[mug % |d.buckets|]));
    }
  }

  // What the printer knows of something small, it knows of all its parts.
  ghost predicate Closed(dict: Places, bulk: nat) {
    forall m :: m in dict && Bulk(m) <= bulk ==> Parts(m) <= dict.Keys
  }

  // Printing something is learning all its parts.
  lemma {:induction false} JamKeys(n: Held, dict: Places, pos: nat)
    requires Closed(dict, Bulk(n))
    ensures JamAt(n, dict, pos).dict.Keys == dict.Keys + Parts(n)
  {
    hide Bulk, JamAt, Closed, Parts;
    PartsAre(n);
    if n.Pair? && n !in dict {
      BulkParts(n);
      var p := JamAt(n.head, dict[n := pos], pos + 2);
      JamCell(n, dict, pos);
      ClosedHead(n, dict, pos);
      JamKeys(n.head, dict[n := pos], pos + 2);
      ClosedTail(n, dict, pos, p.dict);
      JamKeys(n.tail, p.dict, pos + 2 + |p.bits|);
    } else {
      JamOne(n, dict, pos);
      if n in dict { ClosedAt(n, dict); }
    }
  }

  lemma PartsAre(n: Held)
    ensures Parts(n) == {n} + if n.Pair? then Parts(n.head) + Parts(n.tail) else {}
  {
  }

  lemma ClosedAt(n: Held, dict: Places)
    requires Closed(dict, Bulk(n)) && n in dict
    ensures Parts(n) <= dict.Keys
  {
  }

  lemma ClosedHead(n: Held, dict: Places, pos: nat)
    requires n.Pair? && Closed(dict, Bulk(n))
    ensures Closed(dict[n := pos], Bulk(n.head))
  {
    BulkParts(n);
    hide Bulk, Parts;
    forall m | m in dict[n := pos] && Bulk(m) <= Bulk(n.head) ensures Parts(m) <= dict[n := pos].Keys { assert m in dict; }
  }

  lemma ClosedTail(n: Held, dict: Places, pos: nat, mid: Places)
    requires n.Pair? && Closed(dict, Bulk(n)) && mid.Keys == dict.Keys + {n} + Parts(n.head)
    ensures Closed(mid, Bulk(n.tail))
  {
    BulkParts(n);
    hide Bulk, Parts;
    forall m | m in mid && Bulk(m) <= Bulk(n.tail) ensures Parts(m) <= mid.Keys {
      if m in Parts(n.head) { PartsTrans(m, n.head); } else { assert m in dict; }
    }
  }

  // ---- the walk ----

  // The nouns of the references on the stack.
  ghost predicate Standing(s: H.Store, stack: seq<NRef>, hs: seq<Held>) {
    && H.Ordered(s) && |hs| == |stack|
    && forall k :: 0 <= k < |hs| ==> H.Known(s, stack[k], |s.heads|) && H.Form(s, stack[k]) == hs[k]
  }

  ghost predicate AllIn(hs: seq<Held>, all: set<Held>) { forall k :: 0 <= k < |hs| ==> Parts(hs[k]) <= all }

  // Put a reference in the dictionary, or find no room.
  method Place(root: H.Root, d: D.Dict<nat>, top: NRef, at: nat, fuel: nat, ghost mp: map<NRef, nat>, ghost dict: Places, ghost all: set<Held>)
      returns (r: Option<D.Dict<nat>>)
    requires root.Valid() && H.Known(root.store, top, |root.store.heads|) && D.Means(d, root.mugs, mp) && Mirror(root.store, mp, dict)
    requires top !in mp && dict.Keys <= all && H.Form(root.store, top) in all
    ensures r.Some? ==> D.Means(r.value, root.mugs, mp[top := at]) && Mirror(root.store, mp[top := at], dict[H.Form(root.store, top) := at])
    ensures r.None? ==> fuel < HALF || !Roomy(root.mugs.mm, all)
  {
    hide H.Ordered, H.Unique, H.Hashed, H.Holds, H.Form, H.Known, D.RefMug, D.Means, D.Sharers, Mirror, Roomy, D.Short;
    H.HashedShort(root.store, root.mugs);
    r := D.Put(d, top, at, root.mugs, fuel, mp);
    MirrorPut(root.store, mp, dict, top, at);
    if r.None? && fuel >= HALF {
      assert D.Enough(fuel, d);
      NoPlace(root.store, root.mugs, mp, dict, top, all);
    }
  }

  // Visit an atom.
  method VisitAtom(root: H.Root, w: Writer, d: D.Dict<nat>, top: NRef, beyond: Byte, fuel: nat, ghost mp: map<NRef, nat>, ghost dict: Places, ghost all: set<Held>)
      returns (r: Option<D.Dict<nat>>, ghost mp': map<NRef, nat>, ghost p: Printed)
    requires root.Valid() && H.Known(root.store, top, |root.store.heads|) && D.Means(d, root.mugs, mp) && Mirror(root.store, mp, dict)
    requires !top.ICell? && w.Valid() && Behind(dict, w.bits) && dict.Keys <= all && H.Form(root.store, top) in all
    requires w.bits + |JamAt(H.Form(root.store, top), dict, w.bits).bits| <= 8 * MAX_BYTES
    modifies w
    ensures p == JamAt(H.Form(root.store, top), dict, old(w.bits))
    ensures r.Some? ==> w.Valid() && w.Contents() == old(w.Contents()) + p.bits && Behind(p.dict, w.bits)
    ensures r.Some? ==> D.Means(r.value, root.mugs, mp') && Mirror(root.store, mp', p.dict) && p.dict.Keys <= all
    ensures r.None? ==> fuel < HALF || !Roomy(root.mugs.mm, all)
  {
    hide JamAt, Met, BackBits, AtomBits, Prefix, Clear, Mirror, D.Means, H.Ordered, H.Unique, H.Hashed, H.Holds, Roomy;
    ghost var h := H.Form(root.store, top);
    p := JamAt(h, dict, w.bits);
    JamOne(h, dict, w.bits);
    MirrorAt(root.store, mp, dict, top);
    MetAtom(h.v);
    r, mp' := Some(d), mp;
    var bak := D.Get(d, top, root.mugs, mp);
    if bak.None? {
      r := Place(root, d, top, w.bits, fuel, mp, dict, all);
      if r.None? { return; }
      mp' := mp[top := w.bits];
      PrintAtom(w, root, top, beyond);
    } else {
      CursorSmall(bak.value);
      if MetOf(root, top) <= Met(bak.value) {
        PrintAtom(w, root, top, beyond);
      } else {
        PrintBack(w, bak.value);
      }
    }
  }

  // The bit length of an atom.
  function MetOf(root: H.Root, r: NRef): nat
    reads root
    requires H.Known(root.store, r, |root.store.heads|) && !r.ICell?
  {
    if r.Direct? then Met(r.v) else Met(root.store.atoms[r.i])
  }

  // Visit a cell: its tag the first time, and then its parts; afterwards where
  // it is.
  method VisitCell(root: H.Root, w: Writer, d: D.Dict<nat>, top: NRef, fuel: nat, ghost mp: map<NRef, nat>, ghost dict: Places, ghost all: set<Held>)
      returns (r: Option<D.Dict<nat>>, into: bool, ghost mp': map<NRef, nat>, ghost dict': Places)
    requires root.Valid() && H.Known(root.store, top, |root.store.heads|) && D.Means(d, root.mugs, mp) && Mirror(root.store, mp, dict)
    requires top.ICell? && w.Valid() && Behind(dict, w.bits) && dict.Keys <= all && H.Form(root.store, top) in all
    requires w.bits <= 8 * MAX_BYTES
    modifies w
    ensures var h := H.Form(root.store, top); into <==> h !in dict
    ensures var h := H.Form(root.store, top);
            r.Some? ==> w.Valid() && w.Contents() == old(w.Contents()) + if into then CELL else BackBits(dict[h])
    ensures r.Some? ==> dict' == if into then dict[H.Form(root.store, top) := old(w.bits)] else dict
    ensures r.Some? ==> D.Means(r.value, root.mugs, mp') && Mirror(root.store, mp', dict') && dict'.Keys <= all && Behind(dict', w.bits)
    ensures r.None? ==> fuel < HALF || !Roomy(root.mugs.mm, all)
  {
    hide Met, BackBits, Prefix, Clear, Mirror, D.Means, H.Ordered, H.Unique, H.Hashed, H.Holds, H.Form, Roomy;
    r, into, mp', dict' := Some(d), false, mp, dict;
    MirrorAt(root.store, mp, dict, top);
    var bak := D.Get(d, top, root.mugs, mp);
    if bak.None? {
      into := true;
      r := Place(root, d, top, w.bits, fuel, mp, dict, all);
      if r.None? { return; }
      mp', dict' := mp[top := w.bits], dict[H.Form(root.store, top) := w.bits];
      w.WriteCell();
    } else {
      CursorSmall(bak.value);
      PrintBack(w, bak.value);
    }
  }

  // What is written and what the stack will make of it.
  ghost predicate Rest(bits: Bits, hs: seq<Held>, dict: Places, end: Printed) {
    var p := JamAll(hs, dict, |bits|);
    bits + p.bits == end.bits && p.dict == end.dict
  }

  lemma RestPair(bits: Bits, hs: seq<Held>, dict: Places, end: Printed)
    requires Rest(bits, hs, dict, end) && hs != [] && hs[0].Pair? && hs[0] !in dict
    ensures Rest(bits + CELL, [hs[0].head, hs[0].tail] + hs[1..], dict[hs[0] := |bits|], end)
  {
    hide JamAll;
    JamAllPair(hs, dict, |bits|);
    var p := JamAll([hs[0].head, hs[0].tail] + hs[1..], dict[hs[0] := |bits|], |bits| + 2);
    assert bits + CELL + p.bits == bits + (CELL + p.bits);
  }

  lemma RestOne(bits: Bits, hs: seq<Held>, dict: Places, end: Printed)
    requires Rest(bits, hs, dict, end) && hs != []
    ensures var p := JamAt(hs[0], dict, |bits|); Rest(bits + p.bits, hs[1..], p.dict, end) && |bits| + |p.bits| <= |end.bits|
  {
    hide JamAll, JamAt;
    JamAllTop(hs, dict, |bits|);
    var p := JamAt(hs[0], dict, |bits|);
    var q := JamAll(hs[1..], p.dict, |bits| + |p.bits|);
    assert bits + p.bits + q.bits == bits + (p.bits + q.bits);
  }

  lemma RestStart(n: Held)
    ensures Rest([], [n], map[], JamAt(n, map[], 0))
  {
    var p, none: Bits := JamAt(n, map[], 0), [];
    hide JamAt;
    JamAllTop([n], map[], |none|);
    assert [n][1..] == [] && JamAll([], p.dict, |p.bits|) == Printed([], p.dict);
    assert none + (p.bits + []) == p.bits;
  }

  lemma RestEnd(bits: Bits, dict: Places, end: Printed)
    ensures Rest(bits, [], dict, end) ==> end == Printed(bits, dict)
  {
    assert bits + [] == bits;
  }

  /** Print what a reference stands for, by walking it with a stack of
      references still to visit.  With `fuel` enough it returns if and only if
      no more than ten of its parts share a hash. */
  method JamLoop(root: H.Root, q: NRef, beyond: Byte, fuel: nat) returns (out: Option<seq<Byte>>)
    requires root.Valid() && H.Known(root.store, q, |root.store.heads|) && |Jam(H.Form(root.store, q))| <= 8 * MAX_BYTES
    ensures out.Some? ==> Flat(out.value) == Jam(H.Form(root.store, q)) && Roomy(root.mugs.mm, Parts(H.Form(root.store, q)))
    ensures fuel >= HALF && Roomy(root.mugs.mm, Parts(H.Form(root.store, q))) ==> out.Some?
  {
    hide JamAt, Bulk, Bulks, Prefix, Clear, Flat, Mirror, D.Means, H.Ordered, H.Unique, H.Hashed, H.Holds, H.Form, H.Known, Roomy, Parts,
      Standing, Rest, BackBits, Behind, AllIn;
    ghost var n := H.Form(root.store, q);
    ghost var all, end := Parts(n), JamAt(n, map[], 0);
    var w := new Writer(89, 144);
    var d: D.Dict<nat> := D.Fresh(144, 233);
    D.FreshMeans<nat>(144, 233, root.mugs);
    ghost var mp: map<NRef, nat> := map[];
    ghost var dict: Places := map[];
    var stack := [q];
    ghost var hs := [n];
    StartsOff(root.store, q);
    RestStart(n);
    while stack != []
      invariant fresh(w) && w.Valid() && Behind(dict, w.bits)
      invariant Standing(root.store, stack, hs) && AllIn(hs, all) && dict.Keys <= all && |hs| == |stack|
      invariant D.Means(d, root.mugs, mp) && Mirror(root.store, mp, dict)
      invariant Rest(w.Contents(), hs, dict, end)
      decreases Bulks(hs)
    {
      var top, rest := stack[0], stack[1..];
      ghost var h, gs := hs[0], hs[1..];
      StandingTop(root.store, stack, hs);
      BulksPop(hs);
      BulksPair(h, gs);
      AllInTop(hs, all);
      ContentsSize(w);
      RestOne(w.Contents(), hs, dict, end);
      var r;
      ghost var mp';
      if top.ICell? {
        if h in dict { JamOne(h, dict, w.bits); } else { RestPair(w.Contents(), hs, dict, end); }
        StandingPair(root.store, top, rest, gs);
        var into;
        ghost var dict';
        r, into, mp', dict' := VisitCell(root, w, d, top, fuel, mp, dict, all);
        if r.None? { return None; }
        dict := dict';
        stack, hs := rest, gs;
        if into { stack, hs := [root.store.heads[top.i], root.store.tails[top.i]] + rest, [h.head, h.tail] + gs; }
      } else {
        ghost var p;
        r, mp', p := VisitAtom(root, w, d, top, beyond, fuel, mp, dict, all);
        if r.None? { return None; }
        dict := p.dict;
        stack, hs := rest, gs;
      }
      d, mp := r.value, mp';
    }
    RestEnd(w.Contents(), dict, end);
    JamKeys(n, map[], 0);
    HadPlace(root.store, root.mugs, d, mp, dict, q);
    var byt := w.Done();
    out := Some(byt);
  }

  lemma StartsOff(s: H.Store, q: NRef)
    requires H.Ordered(s) && H.Known(s, q, |s.heads|)
    ensures Standing(s, [q], [H.Form(s, q)]) && AllIn([H.Form(s, q)], Parts(H.Form(s, q))) && Mirror(s, map[], map[]) && Behind(map[], 0)
    ensures Closed(map[], Bulk(H.Form(s, q)))
  {
  }

  lemma AllInTop(hs: seq<Held>, all: set<Held>)
    requires AllIn(hs, all) && hs != []
    ensures hs[0] in all && AllIn(hs[1..], all) && (hs[0].Pair? ==> AllIn([hs[0].head, hs[0].tail] + hs[1..], all))
  {
    hide Parts;
    PartsSelf(hs[0]);
  }

  lemma PartsSelf(h: Held)
    ensures h in Parts(h) && (h.Pair? ==> Parts(h.head) <= Parts(h) && Parts(h.tail) <= Parts(h))
  {
  }

  lemma StandingTop(s: H.Store, stack: seq<NRef>, hs: seq<Held>)
    requires Standing(s, stack, hs) && stack != []
    ensures |hs| == |stack| && H.Known(s, stack[0], |s.heads|) && H.Form(s, stack[0]) == hs[0] && (hs[0].Pair? <==> stack[0].ICell?)
    ensures Standing(s, stack[1..], hs[1..]) && (stack[0].ICell? ==> stack[0].i < |s.heads| == |s.tails|)
  {
  }

  lemma StandingPair(s: H.Store, top: NRef, rest: seq<NRef>, gs: seq<Held>)
    requires Standing(s, rest, gs) && top.ICell? && H.Known(s, top, |s.heads|)
    ensures |s.tails| == |s.heads| > top.i && var h := H.Form(s, top);
            h.Pair? && Standing(s, [s.heads[top.i], s.tails[top.i]] + rest, [h.head, h.tail] + gs)
  {
    assert H.Known(s, s.heads[top.i], top.i) && H.Known(s, s.tails[top.i], top.i);
  }

  lemma ContentsSize(w: Writer)
    ensures |w.Contents()| == w.bits
  {
  }

  lemma JamOne(n: Held, dict: Places, pos: nat)
    requires !n.Pair? || n in dict
    ensures JamAt(n, dict, pos) == if !n.Pair? then JamAtom(n, dict, pos) else Printed(BackBits(dict[n]), dict)
  {
    hide JamAtom, BackBits;
  }

  lemma BulksPop(stack: seq<Held>)
    requires stack != []
    ensures Bulks(stack) == Bulk(stack[0]) + Bulks(stack[1..])
  {
  }
}
