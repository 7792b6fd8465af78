/** Dictionaries from noun references to values: buckets by hash, ten entries
    to a bucket, grown when one is full. */
module Dictionary {
  import opened Nouns
  import opened Mugs
  import opened HeldNouns

  // A small atom, or an index into the arena's atoms or cells.
  datatype NRef = Direct(v: nat) | IAtom(i: nat) | ICell(i: nat)

  // ---- stored hashes ----

  datatype Hashes = Hashes(mm: Murmur, atoms: seq<nat>, cells: seq<nat>)

  function RefMug(m: Hashes, r: NRef): nat {
    match r
    case Direct(v) => MugAtom(m.mm, v)
    case IAtom(i) => if i < |m.atoms| then m.atoms[i] else 0
    case ICell(i) => if i < |m.cells| then m.cells[i] else 0
  }

  // Hashes have 31 bits.
  ghost predicate Short(m: Hashes) { forall r :: RefMug(m, r) < HALF }

  // ---- buckets ----

  datatype Entry<V> = Entry(ref: NRef, val: V)
  type Bucket<V> = seq<Entry<V>>
  datatype Dict<V> = Dict(prev: nat, buckets: seq<Bucket<V>>)

  ghost predicate In<V(!new)>(buckets: seq<Bucket<V>>, e: Entry<V>) {
    exists b :: 0 <= b < |buckets| && e in buckets[b]
  }

  // Every entry is in the bucket its hash names.
  ghost predicate Placed<V(!new)>(buckets: seq<Bucket<V>>, m: Hashes) {
    forall b, e :: 0 <= b < |buckets| && e in buckets[b] ==> RefMug(m, e.ref) % |buckets| == b
  }

  // A bucket holds a reference once, and at most ten.
  ghost predicate Tidy<V>(bucket: Bucket<V>) {
    |bucket| <= PAIL && forall k, l :: 0 <= k < |bucket| && 0 <= l < |bucket| && bucket[k].ref == bucket[l].ref ==> k == l
  }

  ghost predicate Neat<V>(buckets: seq<Bucket<V>>) {
    forall b :: 0 <= b < |buckets| ==> Tidy(buckets[b])
  }

  // The entries are those of a map.
  ghost predicate Lists<V(!new)>(buckets: seq<Bucket<V>>, mp: map<NRef, V>) {
    forall e :: In(buckets, e) <==> e.ref in mp && mp[e.ref] == e.val
  }

  /** A dictionary that stands for the map `mp`. */
  ghost predicate Means<V(!new)>(d: Dict<V>, m: Hashes, mp: map<NRef, V>) {
    d.prev > 0 && |d.buckets| > 0 && Placed(d.buckets, m) && Neat(d.buckets) && Lists(d.buckets, mp)
  }

  // The bucket of a reference.
  function Home<V>(d: Dict<V>, m: Hashes, ref: NRef): nat
    requires |d.buckets| > 0
  {
    RefMug(m, ref) % |d.buckets|
  }

  // Keys with the same hash.
  ghost function Sharers<V>(mp: map<NRef, V>, m: Hashes, mug: nat): set<NRef> { set r | r in mp && RefMug(m, r) == mug }

  ghost function Refs<V>(bucket: Bucket<V>): set<NRef> { set k | 0 <= k < |bucket| :: bucket[k].ref }

  lemma {:induction false} RefsSize<V>(bucket: Bucket<V>)
    requires Tidy(bucket)
    ensures |Refs(bucket)| == |bucket|
    decreases |bucket|
  {
    if bucket != [] {
      var n := |bucket| - 1;
      var rest := bucket[..n];
      RefsSize(rest);
      assert Refs(bucket) == Refs(rest) + {bucket[n].ref} by {
        forall r | r in Refs(bucket) ensures r in Refs(rest) + {bucket[n].ref} {
          var k :| 0 <= k < |bucket| && bucket[k].ref == r;
          if k < n { assert rest[k].ref == r; }
        }
        forall k | 0 <= k < n ensures rest[k].ref in Refs(bucket) { assert bucket[k].ref == rest[k].ref; }
      }
      assert bucket[n].ref !in Refs(rest);
    }
  }

  // A key's entry is in its bucket.
  lemma HomeHas<V(!new)>(d: Dict<V>, m: Hashes, mp: map<NRef, V>, ref: NRef)
    requires Means(d, m, mp) && ref in mp
    ensures Entry(ref, mp[ref]) in d.buckets[Home(d, m, ref)]
  {
    hide RefMug, Neat;
    var e := Entry(ref, mp[ref]);
    assert In(d.buckets, e);
    var b :| 0 <= b < |d.buckets| && e in d.buckets[b];
  }

  lemma BucketIn<V(!new)>(d: Dict<V>, m: Hashes, mp: map<NRef, V>, b: nat, k: nat)
    requires Means(d, m, mp) && b < |d.buckets| && k < |d.buckets[b]|
    ensures var e := d.buckets[b][k]; e.ref in mp && mp[e.ref] == e.val && RefMug(m, e.ref) % |d.buckets| == b
  {
    hide RefMug, Neat;
    assert In(d.buckets, d.buckets[b][k]);
  }

  // All keys with a hash share a bucket; with enough buckets it is theirs alone.
  lemma SharersHome<V(!new)>(d: Dict<V>, m: Hashes, mp: map<NRef, V>, mug: nat)
    requires Means(d, m, mp)
    ensures Sharers(mp, m, mug) <= Refs(d.buckets[mug % |d.buckets|])
  {
    hide RefMug, Means;
    MeansSize(d, m, mp);
    var b := d.buckets[mug % |d.buckets|];
    forall r | r in Sharers(mp, m, mug) ensures r in Refs(b) {
      HomeHas(d, m, mp, r);
      var k :| 0 <= k < |b| && b[k] == Entry(r, mp[r]);
    }
  }

  lemma MeansSize<V(!new)>(d: Dict<V>, m: Hashes, mp: map<NRef, V>)
    requires Means(d, m, mp)
    ensures d.prev > 0 && |d.buckets| > 0 && forall b :: 0 <= b < |d.buckets| ==> Tidy(d.buckets[b])
  {
  }

  lemma HomeAlone<V(!new)>(d: Dict<V>, m: Hashes, mp: map<NRef, V>, mug: nat)
    requires Means(d, m, mp) && Short(m) && mug < HALF <= |d.buckets|
    ensures Refs(d.buckets[mug]) <= Sharers(mp, m, mug)
  {
    hide RefMug, Means;
    MeansSize(d, m, mp);
    var b := d.buckets[mug];
    forall r | r in Refs(b) ensures r in Sharers(mp, m, mug) {
      var k :| 0 <= k < |b| && b[k].ref == r;
      BucketIn(d, m, mp, mug, k);
    }
  }

  // ---- adding an entry ----

  lemma AppendLists<V(!new)>(buckets: seq<Bucket<V>>, idx: nat, e: Entry<V>)
    requires idx < |buckets|
    ensures var b := buckets[idx := buckets[idx] + [e]]; forall x :: In(b, x) <==> In(buckets, x) || x == e
  {
    var b := buckets[idx := buckets[idx] + [e]];
    forall x ensures In(b, x) <==> In(buckets, x) || x == e {
      if In(buckets, x) { var k :| 0 <= k < |buckets| && x in buckets[k]; assert x in b[k]; }
      if x == e { assert x in b[idx]; }
      if In(b, x) && x != e { var k :| 0 <= k < |b| && x in b[k]; assert x in buckets[k]; }
    }
  }

  lemma AppendPlaced<V(!new)>(buckets: seq<Bucket<V>>, idx: nat, e: Entry<V>, m: Hashes)
    requires idx < |buckets| && Placed(buckets, m) && Neat(buckets) && RefMug(m, e.ref) % |buckets| == idx
    requires |buckets[idx]| < PAIL && forall k :: 0 <= k < |buckets[idx]| ==> buckets[idx][k].ref != e.ref
    ensures var b := buckets[idx := buckets[idx] + [e]]; Placed(b, m) && Neat(b)
  {
    hide RefMug;
    var b := buckets[idx := buckets[idx] + [e]];
    forall i | 0 <= i < |b| ensures Tidy(b[i]) { assert Tidy(buckets[i]); }
  }

  lemma Appended<V(!new)>(d: Dict<V>, m: Hashes, mp: map<NRef, V>, ref: NRef, val: V)
    requires Means(d, m, mp) && ref !in mp && |d.buckets[Home(d, m, ref)]| < PAIL
    ensures var i := Home(d, m, ref);
            Means(Dict(d.prev, d.buckets[i := d.buckets[i] + [Entry(ref, val)]]), m, mp[ref := val])
  {
    hide RefMug, In, Placed, Neat;
    var i := Home(d, m, ref);
    forall k | 0 <= k < |d.buckets[i]| ensures d.buckets[i][k].ref != ref { BucketIn(d, m, mp, i, k); }
    AppendPlaced(d.buckets, i, Entry(ref, val), m);
    AppendLists(d.buckets, i, Entry(ref, val));
  }

  // ---- growing ----

  // The entries of the buckets before `i`, and the first `j` of bucket `i`.
  ghost predicate Before<V(!new)>(buckets: seq<Bucket<V>>, i: nat, j: nat, e: Entry<V>) {
    || (exists b :: 0 <= b < i && b < |buckets| && e in buckets[b])
    || (i < |buckets| && j <= |buckets[i]| && e in buckets[i][..j])
  }

  lemma BeforeStep<V(!new)>(buckets: seq<Bucket<V>>, i: nat, j: nat)
    requires i < |buckets| && j < |buckets[i]|
    ensures forall e :: Before(buckets, i, j + 1, e) <==> Before(buckets, i, j, e) || e == buckets[i][j]
  {
    var s, t := buckets[i][..j], buckets[i][..j + 1];
    assert t == s + [buckets[i][j]];
    forall e ensures Before(buckets, i, j + 1, e) <==> Before(buckets, i, j, e) || e == buckets[i][j] {
      assert e in t <==> e in s || e == buckets[i][j];
    }
  }

  lemma BeforeNext<V(!new)>(buckets: seq<Bucket<V>>, i: nat)
    requires i < |buckets|
    ensures forall e :: Before(buckets, i + 1, 0, e) <==> Before(buckets, i, |buckets[i]|, e)
  {
    assert buckets[i][..|buckets[i]|] == buckets[i];
    forall e ensures Before(buckets, i + 1, 0, e) <==> Before(buckets, i, |buckets[i]|, e) {
      if b :| 0 <= b < i + 1 && b < |buckets| && e in buckets[b] {
        assert b == i || (0 <= b < i && e in buckets[b]);
      }
      if e in buckets[i] { assert 0 <= i < i + 1 && e in buckets[i]; }
    }
  }

  lemma BeforeEnds<V(!new)>(buckets: seq<Bucket<V>>)
    ensures forall e :: !Before(buckets, 0, 0, e)
    ensures forall e :: Before(buckets, |buckets|, 0, e) <==> In(buckets, e)
  {
  }

  // An entry's reference has not come up before it does.
  lemma NotBefore<V(!new)>(d: Dict<V>, m: Hashes, mp: map<NRef, V>, i: nat, j: nat, e: Entry<V>)
    requires Means(d, m, mp) && i < |d.buckets| && j < |d.buckets[i]| && Before(d.buckets, i, j, e)
    ensures e.ref != d.buckets[i][j].ref && e.ref in mp && mp[e.ref] == e.val
  {
    hide RefMug;
    assert Tidy(d.buckets[i]);
    BucketIn(d, m, mp, i, j);
    if b :| 0 <= b < i && b < |d.buckets| && e in d.buckets[b] {
      var k :| 0 <= k < |d.buckets[b]| && d.buckets[b][k] == e;
      BucketIn(d, m, mp, b, k);
    } else {
      var k :| 0 <= k < j && d.buckets[i][..j][k] == e;
      assert d.buckets[i][k] == e;
      BucketIn(d, m, mp, i, k);
    }
  }

  // What has been moved so far.
  ghost predicate Moved<V(!new)>(d: Dict<V>, m: Hashes, buckets: seq<Bucket<V>>, i: nat, j: nat) {
    Placed(buckets, m) && Neat(buckets) && forall e :: In(buckets, e) <==> Before(d.buckets, i, j, e)
  }

  lemma MoveOne<V(!new)>(d: Dict<V>, m: Hashes, mp: map<NRef, V>, buckets: seq<Bucket<V>>, i: nat, j: nat, idx: nat)
    requires Means(d, m, mp) && Moved(d, m, buckets, i, j) && i < |d.buckets| && j < |d.buckets[i]|
    requires idx < |buckets| && RefMug(m, d.buckets[i][j].ref) % |buckets| == idx && |buckets[idx]| < PAIL
    ensures Moved(d, m, buckets[idx := buckets[idx] + [d.buckets[i][j]]], i, j + 1)
  {
    hide RefMug, Placed, Neat, Before, Means;
    var e := d.buckets[i][j];
    forall k | 0 <= k < |buckets[idx]| ensures buckets[idx][k].ref != e.ref {
      assert In(buckets, buckets[idx][k]);
      NotBefore(d, m, mp, i, j, buckets[idx][k]);
    }
    AppendPlaced(buckets, idx, e, m);
    AppendLists(buckets, idx, e);
    BeforeStep(d.buckets, i, j);
  }

  // A bucket overflows only while several hashes share it.
  lemma Overflows<V(!new)>(d: Dict<V>, m: Hashes, mp: map<NRef, V>, buckets: seq<Bucket<V>>, i: nat, j: nat, idx: nat)
    requires Means(d, m, mp) && Moved(d, m, buckets, i, j) && i < |d.buckets| && j < |d.buckets[i]| && Short(m)
    requires idx < |buckets| && RefMug(m, d.buckets[i][j].ref) % |buckets| == idx && |buckets[idx]| == PAIL
    ensures |buckets| < HALF
  {
    hide RefMug, Before, Means, Moved;
    if |buckets| >= HALF {
      var e, full := d.buckets[i][j], Refs(buckets[idx]);
      MovedTidy(d, m, buckets, i, j, idx);
      RefsSize(buckets[idx]);
      BucketIn(d, m, mp, i, j);
      assert RefMug(m, e.ref) == idx;
      forall r | r in full ensures r in Sharers(mp, m, idx) && r != e.ref {
        var k :| 0 <= k < |buckets[idx]| && buckets[idx][k].ref == r;
        MovedIn(d, m, mp, buckets, i, j, idx, k);
      }
      TooMany(d, m, mp, full, e.ref, idx);
    }
  }

  lemma MovedTidy<V(!new)>(d: Dict<V>, m: Hashes, buckets: seq<Bucket<V>>, i: nat, j: nat, idx: nat)
    requires Moved(d, m, buckets, i, j) && idx < |buckets|
    ensures Tidy(buckets[idx])
  {
  }

  lemma MovedHome<V(!new)>(d: Dict<V>, m: Hashes, mp: map<NRef, V>, buckets: seq<Bucket<V>>, i: nat, j: nat, idx: nat, k: nat)
    requires Means(d, m, mp) && Moved(d, m, buckets, i, j) && i < |d.buckets| && j < |d.buckets[i]|
    requires idx < |buckets| && k < |buckets[idx]|
    ensures var r := buckets[idx][k].ref; r in mp && RefMug(m, r) % |buckets| == idx && r != d.buckets[i][j].ref
  {
    hide RefMug, Before, Means;
    var e := buckets[idx][k];
    assert In(buckets, e);
    NotBefore(d, m, mp, i, j, e);
  }

  lemma MovedIn<V(!new)>(d: Dict<V>, m: Hashes, mp: map<NRef, V>, buckets: seq<Bucket<V>>, i: nat, j: nat, idx: nat, k: nat)
    requires Means(d, m, mp) && Moved(d, m, buckets, i, j) && i < |d.buckets| && j < |d.buckets[i]|
    requires idx < |buckets| && k < |buckets[idx]| && Short(m) && |buckets| >= HALF
    ensures var r := buckets[idx][k].ref; r in Sharers(mp, m, idx) && r != d.buckets[i][j].ref
  {
    hide RefMug, Before, Means, Moved;
    MovedHome(d, m, mp, buckets, i, j, idx, k);
    assert RefMug(m, buckets[idx][k].ref) < HALF;
  }

  lemma TooMany<V(!new)>(d: Dict<V>, m: Hashes, mp: map<NRef, V>, full: set<NRef>, r: NRef, mug: nat)
    requires Means(d, m, mp) && |full| == PAIL && r !in full
    ensures !(full + {r} <= Sharers(mp, m, mug))
  {
    hide RefMug, Means;
    MeansSize(d, m, mp);
    SharersHome(d, m, mp, mug);
    var home := d.buckets[mug % |d.buckets|];
    RefsSize(home);
    if full + {r} <= Refs(home) { SubsetSize(full + {r}, Refs(home)); }
  }

  // The references that share bucket `idx` of `n`.
  ghost function Mates<V>(mp: map<NRef, V>, m: Hashes, n: nat, idx: nat): set<NRef>
    requires n > 0
  {
    set r | r in mp && RefMug(m, r) % n == idx
  }

  // Of `n` buckets some would have more references than it holds.
  ghost predicate Crammed<V>(mp: map<NRef, V>, m: Hashes, n: nat) { n > 0 && exists idx: nat :: |Mates(mp, m, n, idx)| > PAIL }

  /** Sizes are added up, each the sum of the two before, until the first that
      is not crammed; `p` and `n` are the last two. */
  ghost predicate Paced<V>(mp: map<NRef, V>, m: Hashes, prev: nat, size: nat, p: nat, n: nat, more: nat)
    decreases more
  {
    if more == 0 then p == size && n == prev + size
    else Crammed(mp, m, prev + size) && Paced(mp, m, size, prev + size, p, n, more - 1)
  }

  lemma FullMates<V>(mp: map<NRef, V>, m: Hashes, n: nat, idx: nat, full: set<NRef>, r: NRef)
    requires n > 0 && |full| == PAIL && r !in full && r in mp && RefMug(m, r) % n == idx
    requires forall q :: q in full ==> q in mp && RefMug(m, q) % n == idx
    ensures Crammed(mp, m, n)
  {
    hide RefMug;
    assert full + {r} <= Mates(mp, m, n, idx);
    SubsetSize(full + {r}, Mates(mp, m, n, idx));
  }

  lemma CramsOne<V(!new)>(d: Dict<V>, m: Hashes, mp: map<NRef, V>, buckets: seq<Bucket<V>>, i: nat, j: nat, idx: nat)
    requires Means(d, m, mp) && Moved(d, m, buckets, i, j) && i < |d.buckets| && j < |d.buckets[i]|
    requires idx < |buckets| && RefMug(m, d.buckets[i][j].ref) % |buckets| == idx && |buckets[idx]| == PAIL
    ensures Crammed(mp, m, |buckets|)
  {
    hide RefMug, Before, Means, Moved, Crammed;
    var e, full := d.buckets[i][j], Refs(buckets[idx]);
    MovedTidy(d, m, buckets, i, j, idx);
    RefsSize(buckets[idx]);
    BucketIn(d, m, mp, i, j);
    forall r | r in full ensures r in mp && RefMug(m, r) % |buckets| == idx && r != e.ref {
      var k :| 0 <= k < |buckets[idx]| && buckets[idx][k].ref == r;
      MovedHome(d, m, mp, buckets, i, j, idx, k);
    }
    FullMates(mp, m, |buckets|, idx, full, e.ref);
  }

  /** Move everything to `prev + size` buckets, or more when one overflows.
      That always comes to an end; `fuel` bounds how often it starts over. */
  method Grow<V(!new)>(d: Dict<V>, prev: nat, size: nat, m: Hashes, fuel: nat, ghost mp: map<NRef, V>) returns (r: Option<Dict<V>>)
    requires Means(d, m, mp) && Short(m) && prev > 0 && size >= |d.buckets|
    ensures r.Some? ==> Means(r.value, m, mp) && |r.value.buckets| > |d.buckets|
    ensures r.Some? ==> exists more: nat :: Paced(mp, m, prev, size, r.value.prev, |r.value.buckets|, more)
    ensures fuel + prev + size >= HALF ==> r.Some?
    decreases fuel
  {
    hide RefMug, In, Before, Placed, Neat, Short, Means, Crammed;
    MeansSize(d, m, mp);
    var next := prev + size;
    var buckets: seq<Bucket<V>> := seq(next, _ => []);
    EmptyMoved(d, m, next);
    var i := 0;
    while i < |d.buckets|
      invariant i <= |d.buckets| && |buckets| == next && Moved(d, m, buckets, i, 0)
    {
      var j := 0;
      while j < |d.buckets[i]|
        invariant j <= |d.buckets[i]| && |buckets| == next && Moved(d, m, buckets, i, j)
      {
        var e := d.buckets[i][j];
        var idx := RefMug(m, e.ref) % next;
        if |buckets[idx]| == PAIL {
          Overflows(d, m, mp, buckets, i, j, idx);
          if fuel == 0 { return None; }
          CramsOne(d, m, mp, buckets, i, j, idx);
          r := Grow(d, size, next, m, fuel - 1, mp);
          if r.Some? {
            ghost var more: nat :| Paced(mp, m, size, next, r.value.prev, |r.value.buckets|, more);
            assert Paced(mp, m, prev, size, r.value.prev, |r.value.buckets|, more + 1);
          }
          return;
        }
        NotFull(buckets, idx);
        MoveOne(d, m, mp, buckets, i, j, idx);
        buckets := buckets[idx := buckets[idx] + [e]];
        j := j + 1;
      }
      BeforeNext(d.buckets, i);
      i := i + 1;
    }
    AllMoved(d, m, mp, buckets, size);
    r := Some(Dict(size, buckets));
    assert Paced(mp, m, prev, size, size, next, 0);
  }

  lemma NotFull<V(!new)>(buckets: seq<Bucket<V>>, idx: nat)
    requires Neat(buckets) && idx < |buckets|
    ensures |buckets[idx]| <= PAIL
  {
    assert Tidy(buckets[idx]);
  }

  lemma EmptyMoved<V(!new)>(d: Dict<V>, m: Hashes, n: nat)
    ensures var b: seq<Bucket<V>> := seq(n, _ => []); Moved(d, m, b, 0, 0)
  {
    BeforeEnds(d.buckets);
  }

  lemma AllMoved<V(!new)>(d: Dict<V>, m: Hashes, mp: map<NRef, V>, buckets: seq<Bucket<V>>, size: nat)
    requires Means(d, m, mp) && Moved(d, m, buckets, |d.buckets|, 0) && size > 0 && |buckets| > 0
    ensures Means(Dict(size, buckets), m, mp)
  {
    hide RefMug, In, Before, Placed, Neat;
    BeforeEnds(d.buckets);
  }

  // ---- lookup and update ----

  // Where a reference is in a bucket.
  method Scan<V(!new)>(bucket: Bucket<V>, ref: NRef) returns (k: nat)
    ensures k <= |bucket| && (k < |bucket| ==> bucket[k].ref == ref)
    ensures k == |bucket| ==> forall j :: 0 <= j < |bucket| ==> bucket[j].ref != ref
  {
    k := 0;
    while k < |bucket|
      invariant k <= |bucket| && forall j :: 0 <= j < k ==> bucket[j].ref != ref
    {
      if bucket[k].ref == ref { return; }
      k := k + 1;
    }
  }

  /** Look a reference up. */
  method Get<V(!new)>(d: Dict<V>, ref: NRef, m: Hashes, ghost mp: map<NRef, V>) returns (r: Option<V>)
    requires Means(d, m, mp)
    ensures r == if ref in mp then Some(mp[ref]) else None
  {
    hide Means, RefMug;
    MeansSize(d, m, mp);
    var b := Home(d, m, ref);
    var k := Scan(d.buckets[b], ref);
    if k < |d.buckets[b]| {
      BucketIn(d, m, mp, b, k);
      r := Some(d.buckets[b][k].val);
    } else {
      if ref in mp { HomeHas(d, m, mp, ref); }
      r := None;
    }
  }

  lemma Replaced<V(!new)>(d: Dict<V>, m: Hashes, mp: map<NRef, V>, b: nat, k: nat, val: V)
    requires Means(d, m, mp) && b < |d.buckets| && k < |d.buckets[b]|
    ensures var ref := d.buckets[b][k].ref;
            Means(Dict(d.prev, d.buckets[b := d.buckets[b][k := Entry(ref, val)]]), m, mp[ref := val])
  {
    hide RefMug;
    BucketIn(d, m, mp, b, k);
    var ref := d.buckets[b][k].ref;
    var t := d.buckets[b := d.buckets[b][k := Entry(ref, val)]];
    assert Tidy(d.buckets[b]);
    forall i | 0 <= i < |t| ensures Tidy(t[i]) { assert Tidy(d.buckets[i]); }
    forall i, e: Entry<V> | 0 <= i < |t| && e in t[i] ensures RefMug(m, e.ref) % |t| == i {
      if e != Entry(ref, val) { assert e in d.buckets[i]; }
    }
    ReplacedLists(d, m, mp, b, k, val, t);
  }

  lemma ReplacedLists<V(!new)>(d: Dict<V>, m: Hashes, mp: map<NRef, V>, b: nat, k: nat, val: V, t: seq<Bucket<V>>)
    requires Means(d, m, mp) && b < |d.buckets| && k < |d.buckets[b]|
    requires t == d.buckets[b := d.buckets[b][k := Entry(d.buckets[b][k].ref, val)]]
    ensures Lists(t, mp[d.buckets[b][k].ref := val])
  {
    hide RefMug, Means;
    MeansSize(d, m, mp);
    var ref := d.buckets[b][k].ref;
    var mq := mp[ref := val];
    BucketIn(d, m, mp, b, k);
    forall i, l | 0 <= i < |t| && 0 <= l < |t[i]| ensures t[i][l].ref in mq && mq[t[i][l].ref] == t[i][l].val {
      BucketIn(d, m, mp, i, l);
      if (i, l) != (b, k) { assert t[i][l] == d.buckets[i][l]; }
    }
    forall r | r in mq ensures In(t, Entry(r, mq[r])) {
      if r == ref {
        assert t[b][k] == Entry(r, mq[r]);
      } else {
        HomeHas(d, m, mp, r);
        var i := Home(d, m, r);
        var l :| 0 <= l < |d.buckets[i]| && d.buckets[i][l] == Entry(r, mp[r]);
        assert t[i][l] == Entry(r, mq[r]);
      }
    }
    forall e ensures In(t, e) <==> e.ref in mq && mq[e.ref] == e.val {
      if In(t, e) {
        var i :| 0 <= i < |t| && e in t[i];
        var l :| 0 <= l < |t[i]| && t[i][l] == e;
      }
      assert e.ref in mq && mq[e.ref] == e.val ==> e == Entry(e.ref, mq[e.ref]);
    }
  }

  // Enough buckets, sooner or later, for every hash to have its own.
  predicate Enough<V>(fuel: nat, d: Dict<V>) { fuel + |d.buckets| >= HALF }

  /** Set the value of a reference, growing while its bucket is full.  With
      `fuel` enough it returns if and only if the reference was there or fewer
      than ten others have its hash. */
  method Put<V(!new)>(d: Dict<V>, ref: NRef, val: V, m: Hashes, fuel: nat, ghost mp: map<NRef, V>) returns (r: Option<Dict<V>>)
    requires Means(d, m, mp) && Short(m)
    ensures r.Some? ==> Means(r.value, m, mp[ref := val]) && (ref in mp || |Sharers(mp, m, RefMug(m, ref))| < PAIL)
    ensures Enough(fuel, d) && (ref in mp || |Sharers(mp, m, RefMug(m, ref))| < PAIL) ==> r.Some?
    decreases fuel
  {
    hide Means, RefMug, Short, Sharers;
    MeansSize(d, m, mp);
    var b := Home(d, m, ref);
    var bucket := d.buckets[b];
    var k := Scan(bucket, ref);
    if k < |bucket| {
      BucketIn(d, m, mp, b, k);
      Replaced(d, m, mp, b, k, val);
      return Some(Dict(d.prev, d.buckets[b := bucket[k := Entry(ref, val)]]));
    }
    if ref in mp { HomeHas(d, m, mp, ref); }
    assert ref !in mp;
    if |bucket| == PAIL {
      FullHome(d, m, mp, ref);
      if fuel == 0 { return None; }
      var g := Grow(d, d.prev, |d.buckets|, m, fuel, mp);
      if g.None? { return None; }
      r := Put(g.value, ref, val, m, fuel - 1, mp);
      return;
    }
    assert Tidy(bucket);
    RoomHome(d, m, mp, ref);
    Appended(d, m, mp, ref, val);
    r := Some(Dict(d.prev, d.buckets[b := bucket + [Entry(ref, val)]]));
  }

  // A full bucket of one hash has ten that share it; one with room has fewer.
  lemma FullHome<V(!new)>(d: Dict<V>, m: Hashes, mp: map<NRef, V>, ref: NRef)
    requires Means(d, m, mp) && Short(m) && |d.buckets| > 0 && |d.buckets[Home(d, m, ref)]| == PAIL
    ensures |d.buckets| >= HALF ==> |Sharers(mp, m, RefMug(m, ref))| >= PAIL
  {
    hide RefMug, Means;
    if |d.buckets| >= HALF {
      var mug := RefMug(m, ref);
      MeansSize(d, m, mp);
      assert mug % |d.buckets| == mug;
      HomeAlone(d, m, mp, mug);
      RefsSize(d.buckets[mug]);
      SubsetSize(Refs(d.buckets[mug]), Sharers(mp, m, mug));
    }
  }

  lemma RoomHome<V(!new)>(d: Dict<V>, m: Hashes, mp: map<NRef, V>, ref: NRef)
    requires Means(d, m, mp) && |d.buckets| > 0 && |d.buckets[Home(d, m, ref)]| < PAIL
    ensures |Sharers(mp, m, RefMug(m, ref))| < PAIL
  {
    hide RefMug, Means;
    MeansSize(d, m, mp);
    SharersHome(d, m, mp, RefMug(m, ref));
    RefsSize(d.buckets[Home(d, m, ref)]);
    SubsetSize(Sharers(mp, m, RefMug(m, ref)), Refs(d.buckets[Home(d, m, ref)]));
  }

  // An empty dictionary.
  function Fresh<V>(prev: nat, size: nat): Dict<V> { Dict(prev, seq(size, _ => [])) }

  lemma FreshMeans<V(!new)>(prev: nat, size: nat, m: Hashes)
    requires prev > 0 && size > 0
    ensures Means(Fresh<V>(prev, size), m, map[])
  {
  }

  // More stored hashes change nothing for references that are there.
  lemma MeansStill<V(!new)>(d: Dict<V>, m: Hashes, m': Hashes, mp: map<NRef, V>)
    requires Means(d, m, mp) && forall r :: r in mp ==> RefMug(m', r) == RefMug(m, r)
    ensures Means(d, m', mp)
  {
    hide RefMug, Neat;
    forall b, e | 0 <= b < |d.buckets| && e in d.buckets[b] ensures RefMug(m', e.ref) % |d.buckets| == b {
      assert In(d.buckets, e);
    }
  }
}
