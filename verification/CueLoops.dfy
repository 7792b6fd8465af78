/** cue as the runtime runs it: a reader, a stack of cells being read, and an
    arena that the parts are entered in as they are finished. */
module CueLoops {
  import opened Nouns
  import opened Mugs
  import opened HeldNouns
  import opened JamCue
  import opened Bitstream
  import opened BitReader
  import opened Rooms
  import D = Dictionary
  import H = Hashcons
  import JamLoops

  type NRef = D.NRef

  // ---- the plan: what is still to be read, on nouns ----

  // A cell being read: its head is not known yet, or it is.
  datatype Frame = HeadFrame(at: nat) | TailFrame(hed: Held, at: nat)

  // A finished tail makes a finished cell.
  function Close(hed: Held, at: nat, t: Parsed): Parsed {
    if t.Bad? then t else Good(Pair(hed, t.n), t.pos, t.skew, t.seen[at := Pair(hed, t.n)])
  }

  /** What the frames on the stack make of the result `r` of the noun on top. */
  function Resume(s: Bits, stack: seq<Frame>, r: Parsed): Parsed
    decreases |stack|
  {
    if stack == [] || r.Bad? then r else
    match stack[0]
    case HeadFrame(at) => Resume(s, stack[1..], Close(r.n, at, CueAt(s, r.pos, r.skew, r.seen)))
    case TailFrame(hed, at) => Resume(s, stack[1..], Close(hed, at, r))
  }

  lemma ResumeBad(s: Bits, stack: seq<Frame>, e: Error)
    ensures Resume(s, stack, Bad(e)) == Bad(e)
  {
  }

  // What is made of it is no shorter, and its count no nearer.
  lemma {:induction false} ResumeOn(s: Bits, stack: seq<Frame>, r: Parsed)
    ensures var t := Resume(s, stack, r); t.Good? ==> r.Good? && r.pos <= t.pos && r.skew <= t.skew
    decreases |stack|
  {
    hide CueAt;
    if stack != [] && r.Good? {
      match stack[0]
      case HeadFrame(at) => ResumeOn(s, stack[1..], Close(r.n, at, CueAt(s, r.pos, r.skew, r.seen)));
      case TailFrame(hed, at) => ResumeOn(s, stack[1..], Close(hed, at, r));
    }
  }

  // Reading a cell tag is pushing a frame.
  lemma ResumeCell(s: Bits, stack: seq<Frame>, at: nat, skew: nat, seen: Seen)
    requires at + 1 < |s| && s[at] && !s[at + 1]
    ensures Resume(s, stack, CueAt(s, at, skew, seen)) == Resume(s, [HeadFrame(at + skew)] + stack, CueAt(s, at + 2, skew, seen))
  {
    var h := CueAt(s, at + 2, skew, seen);
    assert Stands(s, at, CELL);
    CueCell(s, at, skew, seen);
    assert ([HeadFrame(at + skew)] + stack)[1..] == stack;
    if h.Bad? { ResumeBad(s, stack, h.e); }
  }

  // Where the reader is, and what it counts.
  ghost predicate Tracks(rd: Reader, s: Bits, pos: nat, skew: nat)
    reads rd
  {
    rd.Valid() && Flat(rd.buf) == s && rd.Rest() == Drop(s, pos) && rd.bits == pos + skew
  }

  // A run length at the cursor, and how many bits it takes.
  method NextLen(rd: Reader, ghost s: Bits, ghost pos: nat, ghost skew: nat) returns (c: Counted)
    requires Tracks(rd, s, pos, skew)
    modifies rd
    ensures rd.Valid() && RubLen(s, pos) == match c case Count(n, k) => Count(n, pos + k) case Short(e) => Short(e)
    ensures c.Count? ==> Tracks(rd, s, pos + c.pos, skew)
  {
    hide RubLen, Drop, Ahead, Sits, Flat;
    c := rd.ReadLen();
    RubDrop(s, pos);
    if c.Count? { DropDrop(s, pos, c.pos); }
  }

  // At most 62 bits at the cursor, as a number.
  method NextWord(rd: Reader, ghost s: Bits, len: nat, ghost pos: nat, ghost skew: nat) returns (v: nat)
    requires Tracks(rd, s, pos, skew) && len <= 62
    modifies rd
    ensures Tracks(rd, s, pos + len, skew) && v == Num(JamCue.Take(s, pos, len))
  {
    hide Drop, Ahead, Sits, Flat, Num, JamCue.Take;
    var word := rd.Read64(len);
    TakeDrop(s, pos, 0, len);
    NumPad(JamCue.Take(s, pos, len), 64 - len);
    DropDrop(s, pos, len);
    v := Num(word);
  }

  // Any number of bits at the cursor, as a number; past the end the count may
  // wrap.
  method NextBytes(rd: Reader, ghost s: Bits, len: nat, ghost pos: nat, ghost skew: nat) returns (v: nat)
    requires Tracks(rd, s, pos, skew) && len > 62
    modifies rd
    ensures var n := Real(s, pos, len); Tracks(rd, s, pos + n, skew + (len - n)) && v == Num(JamCue.Take(s, pos, n))
  {
    hide Drop, Ahead, Sits, Flat, Num, JamCue.Take, Zeros, Really, Real;
    ghost var n := Real(s, pos, len);
    ReallyHere(rd.buf, rd.at, rd.left, rd.off, pos, len);
    var byt := rd.ReadBytes(len);
    TakeDrop(s, pos, 0, n);
    NumPad(JamCue.Take(s, pos, n), 8 * |byt| - n);
    DropDrop(s, pos, n);
    v := Num(Flat(byt));
  }

  // Where the reader stands decides how much a bulk read takes.
  lemma ReallyHere(buf: seq<Byte>, at: nat, left: nat, off: nat, pos: nat, len: nat)
    requires Sits(buf, at, left, off) && Ahead(buf, at, left, off) == Drop(Flat(buf), pos) && len > 62
    ensures Really(left, off, len) == Real(Flat(buf), pos, len)
  {
    AheadSize(buf, at, left, off);
    hide Ahead, Flat;
    if left > 0 {
      assert 8 * left - off == 8 * |buf| - pos;
      assert pos == 8 * at + off;
      assert |buf| - pos / 8 == left && pos % 8 == off;
    }
  }

  // A tag at the cursor.
  method NextTag(rd: Reader, ghost s: Bits, ghost pos: nat, ghost skew: nat) returns (t: Tagged)
    requires Tracks(rd, s, pos, skew)
    modifies rd
    ensures rd.Valid() && t == TagOf(Drop(s, pos))
    ensures t.Tagged? ==> Tracks(rd, s, pos + t.len, skew) && t.len <= Left(s, pos)
  {
    hide Ahead, Sits, Flat;
    t := rd.ReadTag();
    if t.Tagged? { DropDrop(s, pos, t.len); }
  }

  // What a tag says about what follows.
  lemma Leaf(s: Bits, at: nat, skew: nat, seen: Seen, t: Tagged)
    requires t == TagOf(Drop(s, at))
    ensures t.NoTag? ==> CueAt(s, at, skew, seen) == Bad(Gone)
    ensures t.Tagged? && t.tag.AtomTag? ==> t.len == 1 && CueAt(s, at, skew, seen) == CueAtom(s, at, skew, seen)
    ensures t.Tagged? && t.tag.BackTag? ==> t.len == 2 && CueAt(s, at, skew, seen) == CueBack(s, at, skew, seen)
    ensures t.Tagged? && t.tag.CellTag? ==> t.len == 2 && at + 1 < |s| && s[at] && !s[at + 1]
  {
    hide CueAtom, CueBack;
  }

  lemma ResumeNone(s: Bits, r: Parsed)
    ensures Resume(s, [], r) == r
  {
  }

  lemma ResumeStep(s: Bits, stack: seq<Frame>, r: Parsed)
    requires stack != [] && r.Good?
    ensures Resume(s, stack, r) ==
            match stack[0]
            case HeadFrame(at) => Resume(s, stack[1..], Close(r.n, at, CueAt(s, r.pos, r.skew, r.seen)))
            case TailFrame(hed, at) => Resume(s, stack[1..], Close(hed, at, r))
  {
    hide CueAt;
  }

  lemma ResumeTail(s: Bits, under: seq<Frame>, hed: Held, at: nat, t: Parsed)
    ensures Resume(s, [TailFrame(hed, at)] + under, t) == Resume(s, under, Close(hed, at, t))
  {
    hide CueAt;
    assert ([TailFrame(hed, at)] + under)[1..] == under;
    if t.Bad? { ResumeBad(s, under, t.e); }
  }

  // ---- references for what has been read ----

  // A reference, an error, or no room after counting so many bits.
  datatype Cued = RGood(ref: NRef) | RBad(e: Error) | RStuck(bits: nat)

  // A cell being read, with a reference for its head.
  datatype RefFrame = RefHead(at: nat) | RefTail(hed: NRef, at: nat)

  // The reference stands for this.
  ghost predicate Formed(s: H.Store, r: NRef, h: Held) {
    H.Ordered(s) && H.Known(s, r, |s.heads|) && H.Form(s, r) == h
  }

  lemma FormedStill(s: H.Store, t: H.Store, r: NRef, h: Held)
    requires Formed(s, r, h) && H.Ordered(t) && H.Grows(s, t)
    ensures Formed(t, r, h)
  {
    H.ValStill(s, t, r);
  }

  ghost predicate Stacked(s: H.Store, rs: seq<RefFrame>, fs: seq<Frame>) {
    && |rs| == |fs|
    && forall k :: 0 <= k < |rs| ==>
         && rs[k].at == fs[k].at && (rs[k].RefHead? <==> fs[k].HeadFrame?)
         && (rs[k].RefTail? ==> Formed(s, rs[k].hed, fs[k].hed))
  }

  lemma StackedStill(s: H.Store, t: H.Store, rs: seq<RefFrame>, fs: seq<Frame>)
    requires Stacked(s, rs, fs) && H.Ordered(t) && H.Grows(s, t)
    ensures Stacked(t, rs, fs)
  {
    hide Formed, H.Ordered, H.Grows;
    forall k | 0 <= k < |rs| && rs[k].RefTail? ensures Formed(t, rs[k].hed, fs[k].hed) { FormedStill(s, t, rs[k].hed, fs[k].hed); }
  }

  lemma StackedPush(s: H.Store, r: RefFrame, f: Frame, rs: seq<RefFrame>, fs: seq<Frame>)
    requires Stacked(s, rs, fs) && r.at == f.at && (r.RefHead? <==> f.HeadFrame?) && (r.RefTail? ==> Formed(s, r.hed, f.hed))
    ensures Stacked(s, [r] + rs, [f] + fs)
  {
    hide Formed;
  }

  lemma StackedTop(s: H.Store, rs: seq<RefFrame>, fs: seq<Frame>)
    requires Stacked(s, rs, fs) && rs != []
    ensures fs != [] && rs[0].at == fs[0].at && (rs[0].RefHead? <==> fs[0].HeadFrame?) && (rs[0].RefTail? ==> Formed(s, rs[0].hed, fs[0].hed))
    ensures Stacked(s, rs[1..], fs[1..])
  {
    hide Formed;
  }

  // The dictionary has a reference for what was read at each position.
  ghost predicate Booked(s: H.Store, mp: map<NRef, NRef>, seen: Seen) {
    && (forall c :: c in seen ==> D.Direct(c) in mp && Formed(s, mp[D.Direct(c)], seen[c]))
    && (forall k :: k in mp ==> k.Direct? && k.v in seen)
  }

  lemma BookedAt(s: H.Store, mp: map<NRef, NRef>, seen: Seen, c: nat)
    requires Booked(s, mp, seen)
    ensures D.Direct(c) in mp <==> c in seen
    ensures c in seen ==> Formed(s, mp[D.Direct(c)], seen[c])
  {
  }

  lemma BookedPut(s: H.Store, mp: map<NRef, NRef>, seen: Seen, at: nat, r: NRef, h: Held)
    requires Booked(s, mp, seen) && Formed(s, r, h)
    ensures Booked(s, mp[D.Direct(at) := r], seen[at := h])
  {
    hide Formed;
  }

  lemma BookedStill(s: H.Store, t: H.Store, mp: map<NRef, NRef>, seen: Seen)
    requires Booked(s, mp, seen) && H.Ordered(t) && H.Grows(s, t)
    ensures Booked(t, mp, seen)
  {
    hide Formed, H.Ordered, H.Grows;
    forall c | c in seen ensures D.Direct(c) in mp && Formed(t, mp[D.Direct(c)], seen[c]) {
      FormedStill(s, t, mp[D.Direct(c)], seen[c]);
    }
  }

  // Hashes of positions do not depend on the arena.
  lemma MeansStill(d: D.Dict<NRef>, s: H.Store, m: D.Hashes, m': D.Hashes, mp: map<NRef, NRef>, seen: Seen)
    requires D.Means(d, m, mp) && Booked(s, mp, seen) && m'.mm == m.mm
    ensures D.Means(d, m', mp)
  {
    hide D.Means, Formed;
    forall r | r in mp ensures D.RefMug(m', r) == D.RefMug(m, r) { assert r.Direct?; }
    D.MeansStill(d, m, m', mp);
  }

  // ---- no room ----

  // Ten atoms, or ten cells, share a hash.
  ghost predicate Tight(s: H.Store, m: D.Hashes) {
    exists cells, mug :: H.Sharing(m, Rooms.Count(s, cells), cells, mug) >= PAIL
  }

  // The positions in a stream of `n` bits, as dictionary keys.
  ghost function Cursors(n: nat): set<Held> { set c | 0 <= c < n :: Word(c) }

  // Why a dictionary may not have grown.
  ghost predicate NoRoom(s: H.Store, m: D.Hashes, n: nat, fuel: nat) {
    fuel < HALF || Tight(s, m) || !Roomy(m.mm, Cursors(n))
  }

  lemma CellTight(s: H.Store, m: D.Hashes, hed: NRef, tal: NRef)
    requires !H.CellFits(s, m, hed, tal)
    ensures Tight(s, m)
  {
    hide H.Sharing;
    assert Rooms.Count(s, true) == |s.heads|;
  }

  lemma AtomTight(s: H.Store, m: D.Hashes, v: nat)
    requires !H.AtomFits(s, m, v)
    ensures Tight(s, m)
  {
    hide H.Sharing;
    assert Rooms.Count(s, false) == |s.atoms|;
  }

  lemma WordMug(m: D.Hashes, v: nat)
    ensures HeldMug(m.mm, Word(v)) == D.RefMug(m, D.Direct(v))
  {
  }

  lemma CursorsFull(s: H.Store, m: D.Hashes, mp: map<NRef, NRef>, seen: Seen, n: nat, at: nat)
    requires Booked(s, mp, seen) && Below(seen, n) && at < n && at !in seen
    requires |D.Sharers(mp, m, D.RefMug(m, D.Direct(at)))| >= PAIL
    ensures !Roomy(m.mm, Cursors(n))
  {
    hide Formed, HeldMug, D.RefMug;
    var mug := D.RefMug(m, D.Direct(at));
    var xs := D.Sharers(mp, m, mug) + {D.Direct(at)};
    var f := map r | r in xs :: Word(r.v);
    forall x | x in xs ensures x.Direct? && x.v < n && Word(x.v) in Crowd(m.mm, Cursors(n), mug) {
      WordMug(m, x.v);
    }
    ImageSize(xs, f, Crowd(m.mm, Cursors(n), mug));
  }

  // ---- entering what was read ----

  // What the arena has is what it had and what has been read.
  ghost predicate Within(s: H.Store, base: set<Held>, seen: Seen) { H.Ordered(s) && AllForms(s) <= base + seen.Values }

  lemma WithinPut(s: H.Store, base: set<Held>, seen: Seen, at: nat, h: Held)
    requires H.Ordered(s) && AllForms(s) <= base + seen.Values + {h} && at !in seen
    ensures Within(s, base, seen[at := h])
  {
    hide AllForms, H.Ordered;
    var more := seen[at := h];
    forall x | x in seen.Values ensures x in more.Values {
      var i :| i in seen && seen[i] == x;
      assert more[i] == x;
    }
    assert more[at] == h;
  }

  lemma MetNum(s: Bits)
    ensures Met(Num(s)) <= |s|
  {
    NumPow(s);
    MetBound(Num(s), |s|);
  }

  lemma {:induction false} NumPow(s: Bits)
    ensures Num(s) < Pow2(|s|)
  {
    if s != [] { NumPow(s[1..]); }
  }

  // An atom of `len` bits: direct up to 62 of them, as bytes past that.
  method EnterAtom(root: H.Root, len: nat, v: nat, fuel: nat, ghost n: nat) returns (r: Option<NRef>)
    requires root.Valid() && (len <= 62 ==> v < DIRECT)
    modifies root
    ensures root.Valid() && H.Grows(old(root.store), root.store) && root.mugs.mm == old(root.mugs.mm)
    ensures AllForms(root.store) <= AllForms(old(root.store)) + {Atomic(len, v)}
    ensures r.Some? ==> Formed(root.store, r.value, Atomic(len, v))
    ensures r.None? ==> NoRoom(root.store, root.mugs, n, fuel)
  {
    hide H.Ordered, H.Unique, H.Hashed, H.Holds, H.Grows, H.Canonical, H.AtomFits, D.Enough, AllForms, Tight, Roomy;
    ghost var s, m := root.store, root.mugs;
    if len <= 62 {
      H.GrowsSame(s);
      return Some(D.Direct(v));
    }
    FuelEnough(fuel, root.atomDict);
    r := root.CoinBytes(v, fuel);
    if root.store != s { FormsAtom(s, v); }
    if r.None? && fuel >= HALF { AtomTight(s, m, v); }
  }

  method EnterCell(root: H.Root, hed: NRef, tal: NRef, fuel: nat, ghost h: Held, ghost n: nat) returns (r: Option<NRef>)
    requires root.Valid() && h.Pair? && Formed(root.store, hed, h.head) && Formed(root.store, tal, h.tail)
    modifies root
    ensures root.Valid() && H.Grows(old(root.store), root.store) && root.mugs.mm == old(root.mugs.mm)
    ensures AllForms(root.store) <= AllForms(old(root.store)) + {h}
    ensures r.Some? ==> Formed(root.store, r.value, h)
    ensures r.None? ==> NoRoom(root.store, root.mugs, n, fuel)
  {
    hide H.Ordered, H.Unique, H.Hashed, H.Holds, H.Grows, H.Canonical, H.CellFits, H.HasCell, D.Enough, AllForms, Tight, Roomy, H.Form, H.Known;
    ghost var s, m := root.store, root.mugs;
    FuelEnough(fuel, root.cellDict);
    r := root.Cons(hed, tal, fuel);
    if root.store != s { FormsCell(s, hed, tal); }
    if r.None? && fuel >= HALF { CellTight(s, m, hed, tal); }
  }

  lemma FuelEnough<V>(fuel: nat, d: D.Dict<V>)
    ensures fuel >= HALF ==> D.Enough(fuel, d)
  {
  }

  // Everything that is kept from one step to the next.
  ghost predicate Sane(s: H.Store, m: D.Hashes, d: D.Dict<NRef>, mp: map<NRef, NRef>, seen: Seen, base: set<Held>) {
    D.Means(d, m, mp) && Booked(s, mp, seen) && Within(s, base, seen)
  }

  // Remember the reference of what was read at a position.
  method Remember(root: H.Root, d: D.Dict<NRef>, at: nat, ref: NRef, fuel: nat,
                  ghost mp: map<NRef, NRef>, ghost seen: Seen, ghost n: nat, ghost h: Held, ghost base: set<Held>)
      returns (r: Option<D.Dict<NRef>>)
    requires root.Valid() && D.Means(d, root.mugs, mp) && Booked(root.store, mp, seen)
    requires at < n && at !in seen && Below(seen, n) && Formed(root.store, ref, h) && AllForms(root.store) <= base + seen.Values + {h}
    ensures r.Some? ==> Sane(root.store, root.mugs, r.value, mp[D.Direct(at) := ref], seen[at := h], base)
    ensures r.None? ==> NoRoom(root.store, root.mugs, n, fuel)
  {
    hide H.Ordered, H.Unique, H.Hashed, H.Holds, D.Enough, AllForms, Tight, Roomy, D.Means, D.RefMug, D.Sharers, Booked, Within, Formed, D.Short;
    H.HashedShort(root.store, root.mugs);
    FuelEnough(fuel, d);
    BookedAt(root.store, mp, seen, at);
    r := D.Put(d, D.Direct(at), ref, root.mugs, fuel, mp);
    BookedPut(root.store, mp, seen, at, ref, h);
    WithinPut(root.store, base, seen, at, h);
    if r.None? && fuel >= HALF { CursorsFull(root.store, root.mugs, mp, seen, n, at); }
  }

  // What a step makes of its noun.
  ghost predicate Made(s: H.Store, m: D.Hashes, r: Cued, p: Parsed, d: D.Dict<NRef>, mp: map<NRef, NRef>, base: set<Held>, fuel: nat) {
    match r
    case RGood(ref) => p.Good? && Formed(s, ref, p.n) && Sane(s, m, d, mp, p.seen, base)
    case RBad(e) => p == Bad(e)
    case RStuck(bits) => p.Good? && bits == p.pos + p.skew && NoRoom(s, m, bits, fuel)
  }

  ghost predicate Onward(s: H.Store, m: D.Hashes, t: H.Store, m': D.Hashes) { H.Grows(s, t) && m'.mm == m.mm }

  lemma GoodStill(s: H.Store, m: D.Hashes, t: H.Store, m': D.Hashes, d: D.Dict<NRef>, mp: map<NRef, NRef>, seen: Seen, base: set<Held>)
    requires Sane(s, m, d, mp, seen, base) && Onward(s, m, t, m') && H.Ordered(t)
    ensures D.Means(d, m', mp) && Booked(t, mp, seen)
  {
    hide D.Means, Booked, H.Grows, H.Ordered;
    MeansStill(d, s, m, m', mp, seen);
    BookedStill(s, t, mp, seen);
  }

  // An atom after its tag, at bit `at` of the stream.
  method NextAtom(root: H.Root, rd: Reader, d: D.Dict<NRef>, key: nat, fuel: nat,
                  ghost s: Bits, ghost at: nat, ghost skew: nat, ghost mp: map<NRef, NRef>, ghost seen: Seen, ghost base: set<Held>)
      returns (r: Cued, d': D.Dict<NRef>, ghost mp': map<NRef, NRef>)
    requires root.Valid() && Tracks(rd, s, at + 1, skew) && key == at + skew && Below(seen, key)
    requires Sane(root.store, root.mugs, d, mp, seen, base)
    modifies rd, root
    ensures root.Valid() && Onward(old(root.store), old(root.mugs), root.store, root.mugs)
    ensures var p := CueAtom(s, at, skew, seen);
            && Made(root.store, root.mugs, r, p, d', mp', base, fuel)
            && rd.Valid() && (r.RGood? ==> Tracks(rd, s, p.pos, p.skew))
  {
    hide RubLen, Drop, Ahead, Sits, Flat, Num, JamCue.Take, Overrun, Real, H.Ordered, H.Unique, H.Hashed, H.Holds, H.Grows, Formed, Booked, D.Means,
      NoRoom, AllForms, Met;
    d', mp' := d, mp;
    H.GrowsSame(root.store);
    RubForward(s, at + 1);
    var c := NextLen(rd, s, at + 1, skew);
    if c.Short? { return RBad(c.e), d, mp; }
    ghost var from := at + 1 + c.pos;
    var v: nat;
    if c.n <= 62 {
      RealShort(s, from, c.n);
      v := NextWord(rd, s, c.n, from, skew);
      MetNum(JamCue.Take(s, from, c.n));
      MetDirect(v);
    } else {
      v := NextBytes(rd, s, c.n, from, skew);
    }
    ghost var st, m, p := root.store, root.mugs, CueAtom(s, at, skew, seen);
    assert rd.bits == p.pos + p.skew > key;
    var ref := EnterAtom(root, c.n, v, fuel, rd.bits);
    if ref.None? { return RStuck(rd.bits), d, mp; }
    GoodStill(st, m, root.store, root.mugs, d, mp, seen, base);
    BelowMore(seen, key, rd.bits);
    var e := Remember(root, d, key, ref.value, fuel, mp, seen, rd.bits, Atomic(c.n, v), base);
    if e.None? { return RStuck(rd.bits), d, mp; }
    r, d', mp' := RGood(ref.value), e.value, mp[D.Direct(key) := ref.value];
  }

  lemma RealShort(s: Bits, pos: nat, len: nat)
    requires len <= 62
    ensures Real(s, pos, len) == len
  {
  }

  // A back-reference after its tag.
  method NextBack(root: H.Root, rd: Reader, d: D.Dict<NRef>,
                  ghost s: Bits, ghost at: nat, ghost skew: nat, ghost mp: map<NRef, NRef>, ghost seen: Seen, ghost base: set<Held>, ghost fuel: nat)
      returns (r: Cued)
    requires root.Valid() && Tracks(rd, s, at + 2, skew) && Sane(root.store, root.mugs, d, mp, seen, base)
    modifies rd
    ensures var p := CueBack(s, at, skew, seen);
            && Made(root.store, root.mugs, r, p, d, mp, base, fuel) && !r.RStuck?
            && rd.Valid() && (r.RGood? ==> Tracks(rd, s, p.pos, p.skew))
  {
    hide RubLen, Drop, Ahead, Sits, Flat, Num, JamCue.Take, H.Ordered, H.Unique, H.Hashed, H.Holds, Formed, Booked, D.Means, NoRoom, Within;
    var c := NextLen(rd, s, at + 2, skew);
    if c.Short? { return RBad(c.e); }
    if c.n > 62 { return RBad(Meme); }
    var bak := NextWord(rd, s, c.n, at + 2 + c.pos, skew);
    BookedAt(root.store, mp, seen, bak);
    var val := D.Get(d, D.Direct(bak), root.mugs, mp);
    r := if val.Some? then RGood(val.value) else RBad(Back);
  }

  // Nothing is known of the positions of cells being read, and they differ.
  ghost predicate Orderly(fs: seq<Frame>, seen: Seen, key: nat) {
    && Below(seen, key)
    && (forall k :: 0 <= k < |fs| ==> fs[k].at < key && fs[k].at !in seen)
    && forall j, k :: 0 <= j < k < |fs| ==> fs[j].at > fs[k].at
  }

  lemma OrderlyPush(f: Frame, fs: seq<Frame>, seen: Seen, key: nat)
    requires Orderly(fs, seen, key) && f.at == key
    ensures Orderly([f] + fs, seen, key + 2)
  {
  }

  // A frame's head is known.
  lemma OrderlyTail(f: Frame, fs: seq<Frame>, seen: Seen, key: nat)
    requires Orderly(fs, seen, key) && fs != [] && f.at == fs[0].at
    ensures Orderly([f] + fs[1..], seen, key)
  {
  }

  lemma OrderlyPop(fs: seq<Frame>, seen: Seen, key: nat, h: Held)
    requires Orderly(fs, seen, key) && fs != []
    ensures fs[0].at < key && fs[0].at !in seen && Below(seen, key) && Orderly(fs[1..], seen[fs[0].at := h], key)
  {
  }

  // One leaf more.
  lemma OrderlyLeaf(fs: seq<Frame>, seen: Seen, key: nat, h: Held, seen': Seen, key': nat)
    requires Orderly(fs, seen, key) && key' > key && (seen' == seen || seen' == seen[key := h])
    ensures Orderly(fs, seen', key')
  {
  }

  // What reading an atom or a back-reference adds.
  lemma LeafSeen(s: Bits, at: nat, skew: nat, seen: Seen)
    ensures var p := CueAtom(s, at, skew, seen); p.Good? ==> p.pos > at && p.skew >= skew && p.seen == seen[at + skew := p.n]
    ensures var p := CueBack(s, at, skew, seen); p.Good? ==> p.pos > at && p.skew == skew && p.seen == seen
  {
    RubForward(s, at + 1);
    RubForward(s, at + 2);
    hide RubLen;
  }

  // Read down the heads to the first noun that is not a cell.
  method Next(root: H.Root, rd: Reader, d: D.Dict<NRef>, under: seq<RefFrame>, fuel: nat,
              ghost s: Bits, ghost from: nat, ghost skew: nat, ghost mp: map<NRef, NRef>, ghost seen: Seen, ghost below: seq<Frame>, ghost base: set<Held>)
      returns (r: Cued, d': D.Dict<NRef>, stack: seq<RefFrame>, ghost mp': map<NRef, NRef>, ghost p: Parsed, ghost fs: seq<Frame>)
    requires root.Valid() && Tracks(rd, s, from, skew) && Sane(root.store, root.mugs, d, mp, seen, base)
    requires Stacked(root.store, under, below) && Orderly(below, seen, from + skew)
    modifies rd, root
    ensures root.Valid() && Onward(old(root.store), old(root.mugs), root.store, root.mugs)
    ensures Made(root.store, root.mugs, r, p, d', mp', base, fuel) && rd.Valid()
    ensures Resume(s, fs, p) == Resume(s, below, CueAt(s, from, skew, seen))
    ensures r.RGood? ==> Tracks(rd, s, p.pos, p.skew) && from < |s| && p.pos > from
    ensures r.RGood? ==> Stacked(root.store, stack, fs) && Orderly(fs, p.seen, p.pos + p.skew)
  {
    hide CueAt, CueAtom, CueBack, Resume, Ahead, Sits, Flat, Drop, TagOf, Sane, Stacked, Orderly, H.Ordered, H.Unique, H.Hashed, H.Holds, H.Grows, NoRoom, Formed;
    stack, fs, d', mp', p := under, below, d, mp, Parsed.Bad(Gone);
    H.GrowsSame(root.store);
    ghost var at: nat := from;
    while true
      invariant root.Valid() && root.store == old(root.store) && root.mugs == old(root.mugs) && Tracks(rd, s, at, skew) && at >= from
      invariant Stacked(root.store, stack, fs) && Orderly(fs, seen, at + skew)
      invariant Resume(s, fs, CueAt(s, at, skew, seen)) == Resume(s, below, CueAt(s, from, skew, seen))
      decreases Left(s, at)
    {
      var key := rd.bits;
      var t := NextTag(rd, s, at, skew);
      Leaf(s, at, skew, seen, t);
      LeafSeen(s, at, skew, seen);
      FreeHere(fs, seen, key);
      match t {
        case NoTag => return RBad(Gone), d, stack, mp, Parsed.Bad(Gone), fs;
        case Tagged(AtomTag, _) =>
          p := CueAtom(s, at, skew, seen);
          r, d', mp' := NextAtom(root, rd, d, key, fuel, s, at, skew, mp, seen, base);
          StackedStill(old(root.store), root.store, stack, fs);
          if r.RGood? { OrderlyLeaf(fs, seen, key, p.n, p.seen, p.pos + p.skew); }
          return;
        case Tagged(BackTag, _) =>
          p := CueBack(s, at, skew, seen);
          r := NextBack(root, rd, d, s, at, skew, mp, seen, base, fuel);
          if r.RGood? { OrderlyLeaf(fs, seen, key, p.n, p.seen, p.pos + p.skew); }
          return;
        case Tagged(CellTag, _) =>
          ResumeCell(s, fs, at, skew, seen);
          StackedPush(root.store, RefHead(key), HeadFrame(key), stack, fs);
          OrderlyPush(HeadFrame(key), fs, seen, key);
          stack, fs, at := [RefHead(key)] + stack, [HeadFrame(key)] + fs, at + 2;
      }
    }
  }

  lemma FreeHere(fs: seq<Frame>, seen: Seen, key: nat)
    requires Orderly(fs, seen, key)
    ensures key !in seen && Below(seen, key)
  {
  }

  // A finished noun: the head of the cell on top, whose tail is next, or its
  // tail.
  method Unwind(root: H.Root, rd: Reader, d: D.Dict<NRef>, ref: NRef, stack: seq<RefFrame>, fuel: nat,
                ghost s: Bits, ghost mp: map<NRef, NRef>, ghost p: Parsed, ghost fs: seq<Frame>, ghost base: set<Held>)
      returns (r: Cued, d': D.Dict<NRef>, stack': seq<RefFrame>, ghost mp': map<NRef, NRef>, ghost p': Parsed, ghost fs': seq<Frame>)
    requires root.Valid() && stack != [] && p.Good? && Made(root.store, root.mugs, RGood(ref), p, d, mp, base, fuel)
    requires Tracks(rd, s, p.pos, p.skew) && Stacked(root.store, stack, fs) && Orderly(fs, p.seen, p.pos + p.skew)
    modifies rd, root
    ensures root.Valid() && Onward(old(root.store), old(root.mugs), root.store, root.mugs)
    ensures Made(root.store, root.mugs, r, p', d', mp', base, fuel) && Resume(s, fs', p') == Resume(s, fs, p)
    ensures r.RGood? ==> Tracks(rd, s, p'.pos, p'.skew) && Stacked(root.store, stack', fs') && Orderly(fs', p'.seen, p'.pos + p'.skew)
    ensures r.RGood? ==> Left(s, p'.pos) < Left(s, p.pos) || (p'.pos == p.pos && |stack'| < |stack|)
  {
    hide CueAt, Resume, Ahead, Sits, Flat, Stacked, Orderly, H.Ordered, H.Unique, H.Hashed, H.Holds, H.Grows, NoRoom, Formed, Sane;
    var f, under := stack[0], stack[1..];
    StackedTop(root.store, stack, fs);
    ghost var st, below := root.store, fs[1..];
    ResumeStep(s, fs, p);
    match f {
      case RefHead(at) =>
        ghost var tail := TailFrame(p.n, at);
        ResumeTail(s, below, p.n, at, CueAt(s, p.pos, p.skew, p.seen));
        StackedPush(st, RefTail(ref, at), tail, under, below);
        OrderlyTail(tail, fs, p.seen, p.pos + p.skew);
        r, d', stack', mp', p', fs' := Next(root, rd, d, [RefTail(ref, at)] + under, fuel, s, p.pos, p.skew, mp, p.seen, [tail] + below, base);
      case RefTail(hed, at) =>
        OrderlyPop(fs, p.seen, p.pos + p.skew, Pair(fs[0].hed, p.n));
        r, d', mp' := CloseCell(root, d, hed, ref, at, rd.bits, fuel, mp, fs[0].hed, p, base);
        StackedStill(st, root.store, under, below);
        p' := Close(fs[0].hed, at, p);
        stack', fs' := under, below;
    }
  }

  /** Parse a byte string, whatever byte is beyond it: a reference for the noun
      that is parsed, entered with all its parts, or the same error.  It gets
      stuck only for want of fuel, or where ten atoms or ten cells of the arena
      share a hash, or more than ten positions it has passed do. */
  method CueLoop(root: H.Root, buf: seq<Byte>, beyond: Byte, fuel: nat) returns (r: Cued)
    requires root.Valid()
    modifies root
    ensures root.Valid() && H.Grows(old(root.store), root.store) && root.mugs.mm == old(root.mugs.mm)
    ensures r.RGood? ==> Cue(Flat(buf)).Good? && Formed(root.store, r.ref, Cue(Flat(buf)).n)
    ensures r.RGood? ==> AllForms(root.store) <= AllForms(old(root.store)) + Cue(Flat(buf)).seen.Values
    ensures r.RBad? ==> Cue(Flat(buf)) == Parsed.Bad(r.e)
    ensures r.RStuck? ==> NoRoom(root.store, root.mugs, r.bits, fuel)
    ensures r.RStuck? && Cue(Flat(buf)).Good? ==> r.bits <= Cue(Flat(buf)).pos + Cue(Flat(buf)).skew
  {
    hide CueAt, Resume, Ahead, Sits, Flat, Stacked, Orderly, H.Ordered, H.Unique, H.Hashed, H.Holds, H.Grows, NoRoom, Formed, D.Means, Booked, AllForms;
    H.GrowsSame(root.store);
    if |buf| > MAX_BYTES { return RBad(Meme); }
    var rd := new Reader(buf, beyond);
    ghost var s, base := Flat(buf), AllForms(root.store);
    var d: D.Dict<NRef> := D.Fresh(144, 233);
    D.FreshMeans<NRef>(144, 233, root.mugs);
    ghost var mp: map<NRef, NRef> := map[];
    assert Drop(s, 0) == s;
    StartsOff(root.store);
    var stack: seq<RefFrame>;
    ghost var p: Parsed;
    ghost var fs: seq<Frame>;
    r, d, stack, mp, p, fs := Next(root, rd, d, [], fuel, s, 0, 0, mp, map[], [], base);
    ghost var want := CueAt(s, 0, 0, map[]);
    ResumeNone(s, want);
    hide Sane;
    while stack != [] && r.RGood?
      invariant fresh(rd) && root.Valid() && Onward(old(root.store), old(root.mugs), root.store, root.mugs)
      invariant Made(root.store, root.mugs, r, p, d, mp, base, fuel)
      invariant Resume(s, fs, p) == want
      invariant r.RGood? ==> Tracks(rd, s, p.pos, p.skew) && Stacked(root.store, stack, fs) && Orderly(fs, p.seen, p.pos + p.skew)
      decreases if r.RGood? then Left(s, p.pos) + 1 else 0, |stack|
    {
      ghost var st, m := root.store, root.mugs;
      r, d, stack, mp, p, fs := Unwind(root, rd, d, r.ref, stack, fuel, s, mp, p, fs, base);
      OnwardTrans(old(root.store), old(root.mugs), st, m, root.store, root.mugs);
    }
    ResumeOn(s, fs, p);
    AtEnd(root.store, root.mugs, r, p, d, mp, s, base, fuel, stack, fs);
  }

  // A finished cell: cons it and remember where it was.
  method CloseCell(root: H.Root, d: D.Dict<NRef>, hed: NRef, tal: NRef, at: nat, bits: nat, fuel: nat,
                   ghost mp: map<NRef, NRef>, ghost h: Held, ghost p: Parsed, ghost base: set<Held>)
      returns (r: Cued, d': D.Dict<NRef>, ghost mp': map<NRef, NRef>)
    requires root.Valid() && p.Good? && Sane(root.store, root.mugs, d, mp, p.seen, base)
    requires at < bits == p.pos + p.skew && at !in p.seen && Below(p.seen, bits) && Formed(root.store, hed, h) && Formed(root.store, tal, p.n)
    modifies root
    ensures root.Valid() && Onward(old(root.store), old(root.mugs), root.store, root.mugs)
    ensures Made(root.store, root.mugs, r, Close(h, at, p), d', mp', base, fuel) && !r.RBad?
  {
    hide H.Ordered, H.Unique, H.Hashed, H.Holds, H.Grows, NoRoom, Formed, D.Means, Booked, AllForms;
    ghost var st, m := root.store, root.mugs;
    var ref := EnterCell(root, hed, tal, fuel, Pair(h, p.n), bits);
    if ref.None? { return RStuck(bits), d, mp; }
    GoodStill(st, m, root.store, root.mugs, d, mp, p.seen, base);
    var e := Remember(root, d, at, ref.value, fuel, mp, p.seen, bits, Pair(h, p.n), base);
    if e.None? { return RStuck(bits), d, mp; }
    r, d', mp' := RGood(ref.value), e.value, mp[D.Direct(at) := ref.value];
  }

  lemma StartsOff(s: H.Store)
    requires H.Ordered(s)
    ensures Stacked(s, [], []) && Orderly([], map[], 0) && Booked(s, map[], map[]) && Within(s, AllForms(s), map[])
  {
  }

  lemma OnwardTrans(s: H.Store, m: D.Hashes, t: H.Store, m': D.Hashes, u: H.Store, m'': D.Hashes)
    requires Onward(s, m, t, m') && Onward(t, m', u, m'')
    ensures Onward(s, m, u, m'')
  {
  }

  lemma AtEnd(st: H.Store, m: D.Hashes, r: Cued, p: Parsed, d: D.Dict<NRef>, mp: map<NRef, NRef>, s: Bits, base: set<Held>, fuel: nat, stack: seq<RefFrame>, fs: seq<Frame>)
    requires Made(st, m, r, p, d, mp, base, fuel) && (r.RGood? ==> stack == [] && Stacked(st, stack, fs))
    ensures r.RGood? ==> Resume(s, fs, p) == p && p.Good? && Formed(st, r.ref, p.n) && H.Ordered(st) && AllForms(st) <= base + p.seen.Values
    ensures r.RBad? ==> Resume(s, fs, p) == p == Parsed.Bad(r.e)
    ensures r.RStuck? ==> NoRoom(st, m, r.bits, fuel) && p.Good? && r.bits == p.pos + p.skew
  {
    hide CueAt, NoRoom, Formed, D.Means, Booked, AllForms, H.Ordered;
  }

  /** cue of jam: whenever dictionaries grow as they must, the noun comes back;
      and it comes back under the same reference if and only if its atoms are
      held naturally, as they are throughout a canonical arena, which stays
      one. */
  method CueOfJam(root: H.Root, q: NRef, beyond: Byte, after: Byte, fuel: nat) returns (r: Cued)
    requires root.Valid() && H.Known(root.store, q, |root.store.heads|) && |Jam(H.Form(root.store, q))| <= 8 * MAX_BYTES
    modifies root
    ensures root.Valid() && H.Grows(old(root.store), root.store)
    ensures r.RGood? ==> H.Known(root.store, r.ref, |root.store.heads|) && H.Val(root.store, r.ref) == H.Val(old(root.store), q)
    ensures r.RGood? ==> (r.ref == q <==> H.Form(old(root.store), q) == Natural(H.Val(old(root.store), q)))
    ensures r.RGood? && H.Canonical(old(root.store)) ==> r.ref == q && H.Canonical(root.store)
    ensures !r.RBad?
    ensures r.RStuck? ==>
              || fuel < HALF || !Roomy(root.mugs.mm, HeldNouns.Parts(H.Form(old(root.store), q)))
              || Tight(root.store, root.mugs) || (r.bits <= |Jam(H.Form(old(root.store), q))| && !Roomy(root.mugs.mm, Cursors(r.bits)))
  {
    hide Jam, Cue, H.Ordered, H.Unique, H.Hashed, H.Holds, H.Grows, H.Known, H.Val, H.Form, H.Canonical, AllForms, Roomy, Tight, HeldNouns.Parts, Cursors;
    ghost var s, h := root.store, H.Form(root.store, q);
    H.GrowsSame(s);
    var buf := JamLoops.JamLoop(root, q, beyond, fuel);
    if buf.None? { return RStuck(0); }
    FlatSize(buf.value);
    r := CueLoop(root, buf.value, after, fuel);
    RoundTrip(h);
    if r.RGood? { Returned(s, root.store, q, r.ref, Cue(Jam(h)).seen); }
  }

  /** A small atom printed with a length of more than 62 bits is entered as
      bytes: it then has two references, and the arena is not canonical. */
  method CueOverlong(root: H.Root, buf: seq<Byte>, beyond: Byte, len: nat, v: nat, fuel: nat) returns (r: Cued)
    requires root.Valid() && v < DIRECT && 62 < len && Met(v) <= len && Met(len) <= 62
    requires |buf| <= MAX_BYTES && Flat(buf) == Pad([false] + MatOf(len, Low(v, len)))
    modifies root
    ensures root.Valid() && !r.RBad?
    ensures r.RGood? ==> r.ref.IAtom? && H.Known(root.store, r.ref, |root.store.heads|) && H.Known(root.store, D.Direct(v), |root.store.heads|)
    ensures r.RGood? ==> H.Val(root.store, r.ref) == H.Val(root.store, D.Direct(v)) == Atom(v) && r.ref != D.Direct(v) && !H.Canonical(root.store)
  {
    hide Cue, Pad, MatOf, Met, Low, H.Ordered, H.Unique, H.Hashed, H.Holds, H.Grows, Tight, Roomy, Flat;
    r := CueLoop(root, buf, beyond, fuel);
    FlatSize(buf);
    Overlong(len, v);
    if r.RGood? { HeldAsBytes(root.store, r.ref, Cue(Flat(buf)).n, v); }
  }

  lemma HeldAsBytes(s: H.Store, r: NRef, h: Held, v: nat)
    requires Formed(s, r, h) && Bare(h) == Atom(v) && h != Word(v) && v < DIRECT
    ensures r.IAtom? && s.atoms[r.i] == v && H.Known(s, D.Direct(v), |s.heads|) && H.Val(s, r) == H.Val(s, D.Direct(v)) == Atom(v)
    ensures !H.Canonical(s)
  {
    H.TwoRefs(s, r.i);
  }

  lemma FlatSize(buf: seq<Byte>)
    ensures |Flat(buf)| == 8 * |buf|
  {
  }

  lemma Returned(s: H.Store, t: H.Store, q: NRef, r: NRef, seen: Seen)
    requires H.Ordered(s) && H.Ordered(t) && H.Unique(t) && H.Grows(s, t) && H.Known(s, q, |s.heads|)
    requires Formed(t, r, Natural(Bare(H.Form(s, q)))) && AllNatural(seen) && AllForms(t) <= AllForms(s) + seen.Values
    ensures H.Known(t, r, |t.heads|) && H.Val(t, r) == H.Val(s, q)
    ensures r == q <==> H.Form(s, q) == Natural(H.Val(s, q))
    ensures H.Canonical(s) ==> r == q && H.Canonical(t)
  {
    hide H.Ordered, H.Unique, H.Grows, H.Known, H.Val, H.Form, H.Canonical, AllForms, AllNatural;
    H.ValStill(s, t, q);
    H.FormVal(s, q);
    H.FormVal(t, r);
    BareNatural(H.Val(s, q));
    H.SameForm(t, r, q);
    if H.Canonical(s) {
      H.FormNatural(s, q);
      StillCanonical(s, t, seen);
    }
  }

  lemma StillCanonical(s: H.Store, t: H.Store, seen: Seen)
    requires H.Ordered(s) && H.Ordered(t) && H.Canonical(s) && AllNatural(seen) && AllForms(t) <= AllForms(s) + seen.Values
    ensures H.Canonical(t)
  {
    hide H.Ordered, AllForms;
    forall i | 0 <= i < |t.atoms| ensures t.atoms[i] >= DIRECT {
      InForms(t, D.IAtom(i));
      var h := H.Form(t, D.IAtom(i));
      assert h == Bytes(t.atoms[i]);
      if h in AllForms(s) { AtomIn(s, t.atoms[i]); }
    }
  }

  lemma AtomIn(s: H.Store, v: nat)
    requires H.Ordered(s) && Bytes(v) in AllForms(s)
    ensures v in s.atoms
  {
    hide H.Ordered;
    assert Bytes(v) !in Forms(s, true);
    var i :| 0 <= i < |s.atoms| && H.Form(s, Rooms.At(i, false)) == Bytes(v);
  }
}
