/** The hash array mapped trie: a tree of bitmapped nodes over the bits of a
    31-bit hash, with collision buckets at the bottom, against a plain map. */
module Hamt {
  import opened Nouns

  datatype Line = Line(val: Noun, warm: bool)
  type Lines = map<Noun, Line>

  // Empty (in the root only), an entry, a node, or a bucket.
  datatype Slot =
    | Null
    | Kev(key: Noun, line: Line)
    | Node(bits: seq<bool>, kids: seq<Slot>)
    | Buck(kids: seq<Slot>)

  // ---- the hash, five bits at a time ----

  const TOP: nat := 0x8000_0000

  type Hash = Noun -> nat

  function Mug(h: Hash, key: Noun): (r: nat)
    ensures r < TOP
  {
    h(key) % TOP
  }

  // How many hashes share all but the last `d` groups of five bits.
  function Span(d: nat): (r: nat)
    ensures r >= 1
  {
    if d == 0 then 1 else 32 * Span(d - 1)
  }

  lemma SpanTop()
    ensures Span(0) == 1 && Span(1) == 32 && Span(5) == 0x200_0000 && 64 * Span(5) == TOP
  {
    assert Span(2) == 1024 && Span(3) == 32768 && Span(4) == 1048576;
  }

  // Taking off one group of bits.
  lemma Cut(x: nat, d: nat)
    requires d > 0
    ensures x / Span(d) == x / Span(d - 1) / 32
    ensures x % Span(d) / Span(d - 1) == x / Span(d - 1) % 32
    ensures x % Span(d) % Span(d - 1) == x % Span(d - 1)
    ensures x / Span(d - 1) == x / Span(d) * 32 + x % Span(d) / Span(d - 1)
  {
    var p := Span(d - 1);
    CutBy(x, p);
  }

  lemma CutBy(x: nat, p: nat)
    requires p > 0
    ensures x / (32 * p) == x / p / 32
    ensures x % (32 * p) / p == x / p % 32
    ensures x % (32 * p) % p == x % p
  {
    var a, b := x / p, x % p;
    var q, r := a / 32, a % 32;
    Regroup(x, p, q, r, b);
    MulLess(r, 32, p);
    DivIs(x, 32 * p, q, r * p + b);
    DivIs(r * p + b, p, r, b);
  }

  lemma Regroup(x: nat, p: nat, q: nat, r: nat, b: nat)
    requires x == (q * 32 + r) * p + b
    ensures x == q * (32 * p) + (r * p + b)
  {
  }

  lemma {:induction false} MulLess(a: nat, b: nat, p: nat)
    ensures a < b ==> a * p + p <= b * p
    decreases b
  {
    if a + 1 < b { MulLess(a, b - 1, p); }
  }

  lemma DivIs(x: nat, p: nat, q: nat, r: nat)
    requires p > 0 && x == q * p + r && r < p
    ensures x / p == q && x % p == r
  {
    MulLess(x / p, q, p);
    MulLess(q, x / p, p);
  }

  // ---- bitmaps ----

  // The number of bits set below `n`.
  function Rank(bits: seq<bool>, n: nat): nat
    requires n <= |bits|
  {
    if n == 0 then 0 else Rank(bits, n - 1) + if bits[n - 1] then 1 else 0
  }

  lemma {:induction false} RankLess(bits: seq<bool>, a: nat, b: nat)
    requires a < b <= |bits|
    ensures Rank(bits, a) <= Rank(bits, b) && (bits[a] ==> Rank(bits, a) < Rank(bits, b))
    decreases b
  {
    if a < b - 1 { RankLess(bits, a, b - 1); }
  }

  // The bit that has rank `j`.
  lemma {:induction false} RankInverse(bits: seq<bool>, n: nat, j: nat) returns (b: nat)
    requires n <= |bits| && j < Rank(bits, n)
    ensures b < n && bits[b] && Rank(bits, b) == j
    decreases n
  {
    if bits[n - 1] && Rank(bits, n - 1) == j {
      b := n - 1;
    } else {
      b := RankInverse(bits, n - 1, j);
    }
  }

  // Setting or clearing one bit moves the ranks above it.
  lemma {:induction false} RankFlip(bits: seq<bool>, bit: nat, v: bool, n: nat)
    requires bit < |bits| && n <= |bits| && bits[bit] == !v
    ensures Rank(bits[bit := v], n) == Rank(bits, n) + if n <= bit then 0 else if v then 1 else -1
    decreases n
  {
    if n > 0 { RankFlip(bits, bit, v, n - 1); }
  }

  // ---- disjoint unions of maps ----

  function Union(ms: seq<Lines>): Lines {
    if ms == [] then map[] else Union(ms[..|ms| - 1]) + ms[|ms| - 1]
  }

  ghost predicate Disjoint(ms: seq<Lines>) {
    forall i, j, k :: 0 <= i < |ms| && 0 <= j < |ms| && k in ms[i] && k in ms[j] ==> i == j
  }

  lemma {:induction false} UnionHas(ms: seq<Lines>, i: nat, k: Noun)
    requires Disjoint(ms) && i < |ms| && k in ms[i]
    ensures k in Union(ms) && Union(ms)[k] == ms[i][k]
    decreases |ms|
  {
    var n := |ms| - 1;
    if i < n {
      UnionHas(ms[..n], i, k);
      assert k !in ms[n];
    }
  }

  lemma {:induction false} UnionOwner(ms: seq<Lines>, k: Noun) returns (i: nat)
    requires k in Union(ms)
    ensures i < |ms| && k in ms[i]
    decreases |ms|
  {
    var n := |ms| - 1;
    if k in ms[n] { i := n; } else { i := UnionOwner(ms[..n], k); }
  }

  lemma UnionNot(ms: seq<Lines>, k: Noun)
    requires forall i :: 0 <= i < |ms| ==> k !in ms[i]
    ensures k !in Union(ms)
  {
    if k in Union(ms) { var i := UnionOwner(ms, k); }
  }

  // Two unions agree if they agree part by part, under a renumbering.
  lemma UnionSame(ms: seq<Lines>, u: Lines)
    requires Disjoint(ms)
    requires forall i, k :: 0 <= i < |ms| && k in ms[i] ==> k in u && u[k] == ms[i][k]
    requires forall k :: k in u ==> exists i :: 0 <= i < |ms| && k in ms[i]
    ensures Union(ms) == u
  {
    hide Union;
    forall k | k in u ensures k in Union(ms) && Union(ms)[k] == u[k] {
      var i: nat :| i < |ms| && k in ms[i];
      UnionHas(ms, i, k);
    }
    forall k | k in Union(ms) ensures k in u { var i := UnionOwner(ms, k); }
  }

  // One part changed.
  lemma UnionSwap(ms: seq<Lines>, i: nat, m: Lines)
    requires i < |ms| && Disjoint(ms) && Disjoint(ms[i := m])
    ensures Union(ms[i := m]) == (Union(ms) - ms[i].Keys) + m
  {
    hide Union;
    var ns, u := ms[i := m], (Union(ms) - ms[i].Keys) + m;
    forall j, k | 0 <= j < |ns| && k in ns[j] ensures k in u && u[k] == ns[j][k] {
      if j != i {
        UnionHas(ms, j, k);
        assert k !in ms[i];
        assert ns[i] == m;
      }
    }
    forall k | k in u ensures exists j :: 0 <= j < |ns| && k in ns[j] {
      if k in m {
        assert k in ns[i];
      } else {
        var j := UnionOwner(ms, k);
        assert k in ns[j];
      }
    }
    UnionSame(ns, u);
  }

  // One part put in.
  lemma InsertDisjoint(ms: seq<Lines>, i: nat, m: Lines)
    requires i <= |ms| && Disjoint(ms) && forall j, k :: 0 <= j < |ms| && k in ms[j] ==> k !in m
    ensures Disjoint(ms[..i] + [m] + ms[i..])
  {
    var ns := ms[..i] + [m] + ms[i..];
    forall a, b, k | 0 <= a < |ns| && 0 <= b < |ns| && k in ns[a] && k in ns[b] ensures a == b {
      var a', b' := if a < i then a else a - 1, if b < i then b else b - 1;
      if a != i { assert k in ms[a']; }
      if b != i { assert k in ms[b']; }
    }
  }

  lemma UnionInsert(ms: seq<Lines>, i: nat, m: Lines)
    requires i <= |ms| && Disjoint(ms) && forall k :: k in m ==> k !in Union(ms)
    ensures Disjoint(ms[..i] + [m] + ms[i..]) && Union(ms[..i] + [m] + ms[i..]) == Union(ms) + m
  {
    hide Union, Disjoint;
    var hole := ms[..i] + [map[]] + ms[i..];
    forall j, k | 0 <= j < |ms| && k in ms[j] ensures k in Union(ms) { UnionHas(ms, j, k); }
    InsertDisjoint(ms, i, map[]);
    InsertDisjoint(ms, i, m);
    InsertHole(ms, i, m);
    UnionDrop(hole, i);
    UnionSwap(hole, i, m);
    assert Union(hole) - {} == Union(hole);
  }

  lemma InsertHole(ms: seq<Lines>, i: nat, m: Lines)
    requires i <= |ms|
    ensures var hole := ms[..i] + [map[]] + ms[i..];
            hole[..i] + hole[i + 1..] == ms && hole[i := m] == ms[..i] + [m] + ms[i..] && hole[i].Keys == {}
  {
  }

  // An empty part taken out.
  lemma UnionDrop(ms: seq<Lines>, i: nat)
    requires i < |ms| && Disjoint(ms) && ms[i] == map[]
    ensures Disjoint(ms[..i] + ms[i + 1..]) && Union(ms[..i] + ms[i + 1..]) == Union(ms)
  {
    hide Union;
    var ns := ms[..i] + ms[i + 1..];
    assert Disjoint(ns) by {
      forall a, b, k | 0 <= a < |ns| && 0 <= b < |ns| && k in ns[a] && k in ns[b] ensures a == b {
        var a', b' := if a < i then a else a + 1, if b < i then b else b + 1;
        assert k in ms[a'] && k in ms[b'];
      }
    }
    forall j, k | 0 <= j < |ns| && k in ns[j] ensures k in Union(ms) && Union(ms)[k] == ns[j][k] {
      UnionHas(ms, if j < i then j else j + 1, k);
    }
    forall k | k in Union(ms) ensures exists j :: 0 <= j < |ns| && k in ns[j] {
      var j := UnionOwner(ms, k);
      assert k in ns[if j < i then j else j - 1];
    }
    UnionSame(ns, Union(ms));
  }

  // ---- what a trie holds, and where ----

  function Holds(s: Slot): Lines {
    match s
    case Null => map[]
    case Kev(k, l) => map[k := l]
    case Node(_, kids) => Union(All(kids))
    case Buck(kids) => Union(All(kids))
  }

  function All(kids: seq<Slot>): (r: seq<Lines>)
    ensures |r| == |kids| && forall i :: 0 <= i < |kids| ==> r[i] == Holds(kids[i])
  {
    seq(|kids|, i requires 0 <= i < |kids| => Holds(kids[i]))
  }

  /** A filled slot with `d` groups of bits left below it, all of whose keys
      have hashes that begin with `pre`. */
  ghost predicate Good(h: Hash, s: Slot, d: nat, pre: nat)
    decreases s
  {
    match s
    case Null => false
    case Kev(k, _) => Mug(h, k) / Span(d) == pre
    case Node(bits, kids) =>
      && d > 0 && |bits| == 32 && |kids| == Rank(bits, 32)
      && forall b: nat :: b < 32 && bits[b] ==> Rank(bits, b) < |kids| && Good(h, kids[Rank(bits, b)], d - 1, pre * 32 + b)
    case Buck(kids) =>
      && d == 0 && |kids| >= 2 && Disjoint(All(kids))
      && forall i :: 0 <= i < |kids| ==> kids[i].Kev? && Good(h, kids[i], 0, pre)
  }

  // Every key of a slot is on its path.
  lemma {:induction false} OnPath(h: Hash, s: Slot, d: nat, pre: nat, k: Noun)
    requires Good(h, s, d, pre) && k in Holds(s)
    ensures Mug(h, k) / Span(d) == pre
    decreases s
  {
    match s {
      case Kev(_, _) =>
      case Node(bits, kids) =>
        var b := KidOf(h, s, d, pre, k);
        Cut(Mug(h, k), d);
      case Buck(kids) =>
        var i := UnionOwner(All(kids), k);
        OnPath(h, kids[i], 0, pre, k);
    }
  }

  // The bit of a child, and the path of its keys.
  lemma {:induction false} KidPath(h: Hash, s: Slot, d: nat, pre: nat, i: nat, k: Noun) returns (b: nat)
    requires s.Node? && Good(h, s, d, pre) && i < |s.kids| && k in Holds(s.kids[i])
    ensures b < 32 && |s.bits| == 32 && s.bits[b] && Rank(s.bits, b) == i && d > 0
    ensures Mug(h, k) / Span(d - 1) == pre * 32 + b
    decreases s, 0
  {
    b := RankInverse(s.bits, 32, i);
    OnPath(h, s.kids[i], d - 1, pre * 32 + b, k);
  }

  // The bit of the child that has a key.
  lemma {:induction false} KidOf(h: Hash, s: Slot, d: nat, pre: nat, k: Noun) returns (b: nat)
    requires s.Node? && Good(h, s, d, pre) && k in Holds(s)
    ensures b < 32 && |s.bits| == 32 && s.bits[b] && Rank(s.bits, b) < |s.kids| && d > 0
    ensures k in Holds(s.kids[Rank(s.bits, b)]) && Mug(h, k) / Span(d - 1) == pre * 32 + b
    decreases s, 1
  {
    var i := UnionOwner(All(s.kids), k);
    b := KidPath(h, s, d, pre, i, k);
  }

  lemma KidsApart(h: Hash, s: Slot, d: nat, pre: nat)
    requires s.Node? && Good(h, s, d, pre)
    ensures Disjoint(All(s.kids))
  {
    hide Good, Holds, Rank, Mug;
    var ms := All(s.kids);
    forall i, j, k | 0 <= i < |ms| && 0 <= j < |ms| && k in ms[i] && k in ms[j] ensures i == j {
      var a := KidPath(h, s, d, pre, i, k);
      var b := KidPath(h, s, d, pre, j, k);
    }
  }

  // The child at a bit that is set.
  lemma KidGood(h: Hash, s: Slot, d: nat, pre: nat, bit: nat)
    requires s.Node? && Good(h, s, d, pre) && bit < 32
    ensures d > 0 && |s.bits| == 32
    ensures s.bits[bit] ==> Rank(s.bits, bit) < |s.kids| && Good(h, s.kids[Rank(s.bits, bit)], d - 1, pre * 32 + bit)
  {
    hide Rank, Holds, Mug;
  }

  // A key is in the child its bits name, or nowhere.
  lemma KidHas(h: Hash, s: Slot, d: nat, pre: nat, k: Noun, bit: nat)
    requires s.Node? && Good(h, s, d, pre) && bit < 32 && Mug(h, k) / Span(d - 1) == pre * 32 + bit
    ensures !s.bits[bit] ==> k !in Holds(s)
    ensures s.bits[bit] ==>
              var kid := s.kids[Rank(s.bits, bit)];
              (k in Holds(kid) <==> k in Holds(s)) && (k in Holds(s) ==> Holds(s)[k] == Holds(kid)[k])
  {
    hide Disjoint, Mug, Rank;
    KidsApart(h, s, d, pre);
    if k in Holds(s) { var b := KidOf(h, s, d, pre, k); }
    if s.bits[bit] && k in Holds(s.kids[Rank(s.bits, bit)]) {
      UnionHas(All(s.kids), Rank(s.bits, bit), k);
    }
  }

  // ---- lookup ----

  function Get(m: Lines, k: Noun): Option<Noun> {
    if k in m then Some(m[k].val) else None
  }

  /** Look through a bucket. */
  method BuckGit(kids: seq<Slot>, key: Noun) returns (r: Option<Noun>)
    requires Disjoint(All(kids)) && forall i :: 0 <= i < |kids| ==> kids[i].Kev?
    ensures r == Get(Union(All(kids)), key)
  {
    hide Union, Disjoint;
    var i := 0;
    while i < |kids|
      invariant i <= |kids| && forall j :: 0 <= j < i ==> kids[j].key != key
    {
      if kids[i].key == key {
        UnionHas(All(kids), i, key);
        return Some(kids[i].line.val);
      }
      i := i + 1;
    }
    UnionNot(All(kids), key);
    r := None;
  }

  // What a slot that is not a node holds.
  lemma HoldsFew(h: Hash, s: Slot, d: nat, pre: nat)
    requires Good(h, s, d, pre)
    ensures !s.Null? && (s.Kev? ==> Holds(s) == map[s.key := s.line])
    ensures s.Buck? ==> Holds(s) == Union(All(s.kids)) && Disjoint(All(s.kids)) && d == 0
                        && (forall i :: 0 <= i < |s.kids| ==> s.kids[i].Kev?)
  {
    hide Disjoint, Union;
  }

  /** Look down a node by the bits of the hash. */
  method NodeGit(h: Hash, s: Slot, d: nat, rem: nat, key: Noun, ghost pre: nat) returns (r: Option<Noun>)
    requires s.Node? && Good(h, s, d, pre) && Mug(h, key) / Span(d) == pre && rem == Mug(h, key) % Span(d)
    ensures r == Get(Holds(s), key)
    decreases s
  {
    hide Union, Disjoint, Mug, Good, Holds, Rank;
    KidGood(h, s, d, pre, 0);
    Cut(Mug(h, key), d);
    var bit, rem' := rem / Span(d - 1), rem % Span(d - 1);
    KidGood(h, s, d, pre, bit);
    KidHas(h, s, d, pre, key, bit);
    if !s.bits[bit] { return None; }
    var kid := s.kids[Rank(s.bits, bit)];
    HoldsFew(h, kid, d - 1, pre * 32 + bit);
    if kid.Kev? {
      r := if kid.key == key then Some(kid.line.val) else None;
    } else if kid.Buck? {
      r := BuckGit(kid.kids, key);
    } else {
      r := NodeGit(h, kid, d - 1, rem', key, pre * 32 + bit);
    }
  }

  // ---- insertion ----

  function OneBit(a: int): (r: seq<bool>)
    ensures |r| == 32 && forall i :: 0 <= i < 32 ==> r[i] == (i == a)
  {
    seq(32, i => i == a)
  }

  function TwoBits(a: int, b: int): (r: seq<bool>)
    ensures |r| == 32 && forall i :: 0 <= i < 32 ==> r[i] == (i == a || i == b)
  {
    seq(32, i => i == a || i == b)
  }

  /** A new subtree over two entries whose hashes agree so far. */
  function Two(had: Slot, add: Slot, d: nat, ham: nat, mad: nat): Slot {
    if d == 0 then Buck([had, add]) else
    var hop, tad := ham / Span(d - 1), mad / Span(d - 1);
    if hop == tad then Node(OneBit(hop), [Two(had, add, d - 1, ham % Span(d - 1), mad % Span(d - 1))])
    else Node(TwoBits(hop, tad), if hop < tad then [had, add] else [add, had])
  }

  lemma {:induction false} RankNone(bits: seq<bool>, a: nat, n: nat)
    requires a <= n <= |bits| && forall i :: a <= i < n ==> !bits[i]
    ensures Rank(bits, n) == Rank(bits, a)
    decreases n
  {
    if a < n { RankNone(bits, a, n - 1); }
  }

  lemma OneBitRank(a: nat)
    requires a < 32
    ensures Rank(OneBit(a), a) == 0 && Rank(OneBit(a), 32) == 1
  {
    RankNone(OneBit(a), 0, a);
    RankNone(OneBit(a), a + 1, 32);
  }

  lemma TwoBitsRank(a: nat, b: nat)
    requires a < b < 32
    ensures TwoBits(b, a) == TwoBits(a, b)
    ensures Rank(TwoBits(a, b), a) == 0 && Rank(TwoBits(a, b), b) == 1 && Rank(TwoBits(a, b), 32) == 2
  {
    RankNone(TwoBits(a, b), 0, a);
    RankNone(TwoBits(a, b), a + 1, b);
    RankNone(TwoBits(a, b), b + 1, 32);
  }

  lemma UnionTwo(a: Lines, b: Lines)
    requires forall k :: k in a ==> k !in b
    ensures Union([a]) == a && Union([a, b]) == a + b == b + a && Disjoint([a, b])
  {
    assert [a, b][..1] == [a] && [a][..0] == [];
    assert map[] + a == a;
  }

  lemma AllTwo(a: Slot, b: Slot)
    ensures All([a]) == [Holds(a)] && All([a, b]) == [Holds(a), Holds(b)]
  {
  }

  lemma OneKid(h: Hash, kid: Slot, d: nat, pre: nat, bit: nat)
    requires d > 0 && bit < 32 && Good(h, kid, d - 1, pre * 32 + bit)
    ensures Good(h, Node(OneBit(bit), [kid]), d, pre) && Holds(Node(OneBit(bit), [kid])) == Holds(kid)
  {
    hide Rank, Union;
    OneBitRank(bit);
    AllTwo(kid, kid);
    UnionTwo(Holds(kid), map[]);
  }

  lemma {:induction false} TwoGood(h: Hash, had: Slot, add: Slot, d: nat, pre: nat)
    requires had.Kev? && add.Kev? && had.key != add.key && Good(h, had, d, pre) && Good(h, add, d, pre)
    ensures var s := Two(had, add, d, Mug(h, had.key) % Span(d), Mug(h, add.key) % Span(d));
            Good(h, s, d, pre) && Holds(s) == Holds(had) + Holds(add)
    decreases d
  {
    hide Mug, Rank, Union, Disjoint;
    var a, b := Mug(h, had.key), Mug(h, add.key);
    UnionTwo(Holds(had), Holds(add));
    UnionTwo(Holds(add), Holds(had));
    AllTwo(had, add);
    AllTwo(add, had);
    if d > 0 {
      Cut(a, d);
      Cut(b, d);
      var hop, tad := a % Span(d) / Span(d - 1), b % Span(d) / Span(d - 1);
      if hop == tad {
        TwoGood(h, had, add, d - 1, pre * 32 + hop);
        OneKid(h, Two(had, add, d - 1, a % Span(d - 1), b % Span(d - 1)), d, pre, hop);
      } else if hop < tad {
        TwoBitsRank(hop, tad);
      } else {
        TwoBitsRank(tad, hop);
      }
    }
  }

  // The child at bit `b`, if there is one, is on its path.
  ghost predicate KidAt(h: Hash, bits: seq<bool>, kids: seq<Slot>, d: nat, pre: nat, b: nat)
    requires d > 0 && |bits| == 32 && b < 32
  {
    bits[b] ==> Rank(bits, b) < |kids| && Good(h, kids[Rank(bits, b)], d - 1, pre * 32 + b)
  }

  lemma NodeGood(h: Hash, bits: seq<bool>, kids: seq<Slot>, d: nat, pre: nat)
    requires d > 0 && |bits| == 32 && |kids| == Rank(bits, 32)
    requires forall b: nat :: b < 32 ==> KidAt(h, bits, kids, d, pre, b)
    ensures Good(h, Node(bits, kids), d, pre)
  {
    hide Rank;
    forall b: nat | b < 32 && bits[b] ensures Rank(bits, b) < |kids| && Good(h, kids[Rank(bits, b)], d - 1, pre * 32 + b) {
      assert KidAt(h, bits, kids, d, pre, b);
    }
  }

  lemma NodeSize(h: Hash, s: Slot, d: nat, pre: nat)
    requires s.Node? && Good(h, s, d, pre)
    ensures d > 0 && |s.bits| == 32 && |s.kids| == Rank(s.bits, 32)
  {
    hide Rank;
  }

  lemma SwapGood(h: Hash, s: Slot, d: nat, pre: nat, bit: nat, kid: Slot)
    requires s.Node? && Good(h, s, d, pre) && bit < 32 && |s.bits| == 32 && s.bits[bit] && d > 0
    requires Good(h, kid, d - 1, pre * 32 + bit) && Rank(s.bits, bit) < |s.kids|
    ensures Good(h, Node(s.bits, s.kids[Rank(s.bits, bit) := kid]), d, pre)
  {
    hide Good, Rank;
    NodeSize(h, s, d, pre);
    var t := s.kids[Rank(s.bits, bit) := kid];
    forall b: nat | b < 32 ensures KidAt(h, s.bits, t, d, pre, b) {
      KidGood(h, s, d, pre, b);
      if b < bit { RankLess(s.bits, b, bit); }
      if b > bit { RankLess(s.bits, bit, b); }
    }
    NodeGood(h, s.bits, t, d, pre);
  }

  // A node with one child replaced.
  lemma NodeSwap(h: Hash, s: Slot, d: nat, pre: nat, bit: nat, kid: Slot)
    requires s.Node? && Good(h, s, d, pre) && bit < 32 && |s.bits| == 32 && s.bits[bit] && d > 0
    requires Good(h, kid, d - 1, pre * 32 + bit) && Rank(s.bits, bit) < |s.kids|
    ensures var i := Rank(s.bits, bit);
            var t := Node(s.bits, s.kids[i := kid]);
            Good(h, t, d, pre) && Holds(t) == (Holds(s) - Holds(s.kids[i]).Keys) + Holds(kid)
  {
    hide Good, Rank, Union, Disjoint;
    var i := Rank(s.bits, bit);
    var t := Node(s.bits, s.kids[i := kid]);
    SwapGood(h, s, d, pre, bit, kid);
    KidsApart(h, s, d, pre);
    KidsApart(h, t, d, pre);
    assert All(t.kids) == All(s.kids)[i := Holds(kid)];
    UnionSwap(All(s.kids), i, Holds(kid));
  }

  lemma InsertGood(h: Hash, s: Slot, d: nat, pre: nat, bit: nat, kid: Slot, i: nat)
    requires s.Node? && Good(h, s, d, pre) && bit < 32 && |s.bits| == 32 && !s.bits[bit] && d > 0
    requires Good(h, kid, d - 1, pre * 32 + bit) && i == Rank(s.bits, bit)
    ensures i <= |s.kids| && Good(h, Node(s.bits[bit := true], s.kids[..i] + [kid] + s.kids[i..]), d, pre)
  {
    hide Good, Rank;
    NodeSize(h, s, d, pre);
    RankLess(s.bits, bit, 32);
    var bits, kids := s.bits[bit := true], s.kids[..i] + [kid] + s.kids[i..];
    RankFlip(s.bits, bit, true, 32);
    forall b: nat | b < 32 ensures KidAt(h, bits, kids, d, pre, b) {
      KidGood(h, s, d, pre, b);
      RankFlip(s.bits, bit, true, b);
      if b < bit { RankLess(s.bits, b, bit); }
      if b > bit { RankLess(s.bits, bit, b); }
    }
    NodeGood(h, bits, kids, d, pre);
  }

  // A node with one child put in where there was none.
  lemma NodeInsert(h: Hash, s: Slot, d: nat, pre: nat, bit: nat, kid: Slot, i: nat)
    requires s.Node? && Good(h, s, d, pre) && bit < 32 && |s.bits| == 32 && !s.bits[bit] && d > 0
    requires Good(h, kid, d - 1, pre * 32 + bit) && i == Rank(s.bits, bit)
    ensures i <= |s.kids|
    ensures var t := Node(s.bits[bit := true], s.kids[..i] + [kid] + s.kids[i..]);
            Good(h, t, d, pre) && Holds(t) == Holds(s) + Holds(kid)
  {
    hide Good, Rank, Union, Disjoint, Mug;
    InsertGood(h, s, d, pre, bit, kid, i);
    KidsApart(h, s, d, pre);
    forall k | k in Holds(kid) ensures k !in Union(All(s.kids)) {
      OnPath(h, kid, d - 1, pre * 32 + bit, k);
      KidHas(h, s, d, pre, k, bit);
    }
    AllInsert(s.kids, i, kid);
    UnionInsert(All(s.kids), i, Holds(kid));
  }

  lemma AllInsert(kids: seq<Slot>, i: nat, kid: Slot)
    requires i <= |kids|
    ensures All(kids[..i] + [kid] + kids[i..]) == All(kids)[..i] + [Holds(kid)] + All(kids)[i..]
  {
    hide Holds;
  }

  // A bucket with one entry replaced, or put in front.
  lemma BuckSwap(h: Hash, kids: seq<Slot>, pre: nat, i: nat, kid: Slot)
    requires Good(h, Buck(kids), 0, pre) && i < |kids| && kid.Kev? && kids[i].Kev? && kid.key == kids[i].key
    ensures var t := Buck(kids[i := kid]);
            Good(h, t, 0, pre) && Holds(t) == Holds(Buck(kids))[kid.key := kid.line]
  {
    hide Union, Mug;
    var ms, ns := All(kids), All(kids[i := kid]);
    assert ns == ms[i := Holds(kid)];
    forall a, b, k | 0 <= a < |ns| && 0 <= b < |ns| && k in ns[a] && k in ns[b] ensures a == b {
      assert k in ms[a] && k in ms[b];
    }
    UnionSwap(ms, i, Holds(kid));
  }

  lemma BuckPush(h: Hash, kids: seq<Slot>, pre: nat, kid: Slot)
    requires Good(h, Buck(kids), 0, pre) && Good(h, kid, 0, pre) && kid.Kev? && kid.key !in Holds(Buck(kids))
    ensures var t := Buck([kid] + kids);
            Good(h, t, 0, pre) && Holds(t) == Holds(Buck(kids))[kid.key := kid.line]
  {
    hide Union, Disjoint, Mug;
    var ms := All(kids);
    UnionInsert(ms, 0, Holds(kid));
    assert ms[..0] + [Holds(kid)] + ms[0..] == All([kid] + kids);
  }

  /** Add an entry to a bucket: replace the one with its key, or put it in
      front. */
  method BuckAdd(h: Hash, kids: seq<Slot>, key: Noun, val: Noun, ghost pre: nat) returns (t: Slot, more: nat)
    requires Good(h, Buck(kids), 0, pre) && Mug(h, key) / Span(0) == pre
    ensures Good(h, t, 0, pre) && Holds(t) == Holds(Buck(kids))[key := Line(val, true)]
    ensures more == if key in Holds(Buck(kids)) then 0 else 1
  {
    hide Union, Disjoint, Mug, Good, Holds;
    HoldsFew(h, Buck(kids), 0, pre);
    var i := 0;
    while i < |kids|
      invariant i <= |kids| && forall j :: 0 <= j < i ==> kids[j].key != key
    {
      if kids[i].key == key {
        BuckHas(kids, i);
        BuckSwap(h, kids, pre, i, Kev(key, Line(val, true)));
        return Buck(kids[i := Kev(key, Line(val, true))]), 0;
      }
      i := i + 1;
    }
    BuckLacks(kids, key);
    KevGood(h, key, Line(val, true), 0, pre);
    BuckPush(h, kids, pre, Kev(key, Line(val, true)));
    t, more := Buck([Kev(key, Line(val, true))] + kids), 1;
  }

  lemma BuckHas(kids: seq<Slot>, i: nat)
    requires Disjoint(All(kids)) && i < |kids| && kids[i].Kev?
    ensures kids[i].key in Holds(Buck(kids)) && Holds(Buck(kids))[kids[i].key] == kids[i].line
  {
    hide Union, Disjoint;
    UnionHas(All(kids), i, kids[i].key);
  }

  lemma BuckLacks(kids: seq<Slot>, key: Noun)
    requires forall i :: 0 <= i < |kids| ==> kids[i].Kev? && kids[i].key != key
    ensures key !in Holds(Buck(kids))
  {
    hide Union;
    UnionNot(All(kids), key);
  }

  lemma KevGood(h: Hash, key: Noun, line: Line, d: nat, pre: nat)
    requires Mug(h, key) / Span(d) == pre
    ensures Good(h, Kev(key, line), d, pre) && Holds(Kev(key, line)) == map[key := line]
  {
  }

  /** Add an entry to a node: below the child its bits name, or as a new one. */
  method NodeAdd(h: Hash, s: Slot, d: nat, rem: nat, key: Noun, val: Noun, ghost pre: nat) returns (t: Slot, more: nat)
    requires s.Node? && Good(h, s, d, pre) && Mug(h, key) / Span(d) == pre && rem == Mug(h, key) % Span(d)
    ensures Good(h, t, d, pre) && Holds(t) == Holds(s)[key := Line(val, true)]
    ensures more == if key in Holds(s) then 0 else 1
    decreases s, 0
  {
    hide Union, Disjoint, Mug, Good, Holds, Rank;
    KidGood(h, s, d, pre, 0);
    Cut(Mug(h, key), d);
    var bit, rem' := rem / Span(d - 1), rem % Span(d - 1);
    KidGood(h, s, d, pre, bit);
    KidHas(h, s, d, pre, key, bit);
    var i := Rank(s.bits, bit);
    if s.bits[bit] {
      var kid;
      kid, more := SlotPut(h, s.kids[i], key, val, d - 1, rem', pre * 32 + bit);
      NodeSwap(h, s, d, pre, bit, kid);
      SwapAdds(Holds(s), Holds(s.kids[i]), key, Line(val, true)) by { KidWithin(h, s, d, pre, bit); }
      t := Node(s.bits, s.kids[i := kid]);
    } else {
      var kid := Kev(key, Line(val, true));
      KevGood(h, key, kid.line, d - 1, pre * 32 + bit);
      NodeInsert(h, s, d, pre, bit, kid, i);
      t, more := Node(s.bits[bit := true], s.kids[..i] + [kid] + s.kids[i..]), 1;
    }
  }

  lemma SwapAdds(all: Lines, part: Lines, key: Noun, line: Line)
    requires forall k :: k in part ==> k in all && all[k] == part[k]
    ensures (all - part.Keys) + part[key := line] == all[key := line]
  {
  }

  lemma KidWithin(h: Hash, s: Slot, d: nat, pre: nat, bit: nat)
    requires s.Node? && Good(h, s, d, pre) && bit < 32 && |s.bits| == 32 && s.bits[bit] && Rank(s.bits, bit) < |s.kids|
    ensures var part := Holds(s.kids[Rank(s.bits, bit)]);
            forall k :: k in part ==> k in Holds(s) && Holds(s)[k] == part[k]
  {
    hide Disjoint, Good, Rank, Union;
    KidsApart(h, s, d, pre);
    var i := Rank(s.bits, bit);
    forall k | k in Holds(s.kids[i]) ensures k in Holds(s) && Holds(s)[k] == Holds(s.kids[i])[k] {
      UnionHas(All(s.kids), i, k);
    }
  }

  /** Put an entry in a filled slot. */
  method SlotPut(h: Hash, s: Slot, key: Noun, val: Noun, d: nat, rem: nat, ghost pre: nat) returns (t: Slot, more: nat)
    requires Good(h, s, d, pre) && Mug(h, key) / Span(d) == pre && rem == Mug(h, key) % Span(d)
    ensures Good(h, t, d, pre) && Holds(t) == Holds(s)[key := Line(val, true)]
    ensures more == if key in Holds(s) then 0 else 1
    decreases s, 1
  {
    hide Union, Disjoint, Mug, Good, Holds;
    HoldsFew(h, s, d, pre);
    if s.Kev? {
      var add := Kev(key, Line(val, true));
      KevGood(h, key, add.line, d, pre);
      if s.key == key {
        t, more := add, 0;
      } else {
        TwoGood(h, s, add, d, pre);
        t, more := Two(s, add, d, Mug(h, s.key) % Span(d), rem), 1;
      }
    } else if s.Buck? {
      t, more := BuckAdd(h, s.kids, key, val, pre);
    } else {
      t, more := NodeAdd(h, s, d, rem, key, val, pre);
    }
  }
}
