/** The boundary-tag allocator of a road that grows north or south: words are
    handed out from free lists or from the hat, and freed boxes are joined
    with their neighbours. */
module Alloc {
  import opened Nouns
  import opened Heap
  import opened FreeLists

  // ---- changes to the boxes ----

  // A box header and trailer written.
  function Made(m: seq<Word>, a: nat, siz: Word, use: Word): (r: seq<Word>)
    requires siz >= MIN && a + siz <= |m|
    ensures |r| == |m|
    ensures forall x :: 0 <= x < |m| && x != a && x != a + 1 && x != a + siz - 1 ==> r[x] == m[x]
    ensures r[a] == siz && r[a + 1] == use && r[a + siz - 1] == siz
  {
    m[a := siz][a + siz - 1 := siz][a + 1 := use]
  }

  // The boxes in use.
  ghost function Used(bs: seq<Box>): set<Box> { set b | b in bs && b.use > 0 }

  // The words of the boxes in use are as they were.
  ghost predicate Spares(h: State, m: seq<Word>) {
    |m| == |h.m| && forall i :: 0 <= i < |h.bs| && h.bs[i].use > 0 ==> SameBlock(h.m, m, h.bs[i])
  }

  predicate SameBlock(m: seq<Word>, m': seq<Word>, b: Box) {
    b.at + b.size <= |m| == |m'| && m'[b.at..b.at + b.size] == m[b.at..b.at + b.size]
  }

  lemma SparesAll(h: State, loose: set<nat>)
    requires Good(h, loose)
    ensures Spares(h, h.m)
  {
    hide Good, Tagged, Filed, Tiled;
    forall i | 0 <= i < |h.bs| && h.bs[i].use > 0 ensures SameBlock(h.m, h.m, h.bs[i]) { GoodBox(h, loose, i); }
  }

  // A write inside a box that is free, or outside the heap.
  lemma SparesSet(h: State, loose: set<nat>, m: seq<Word>, x: nat, v: Word)
    requires Good(h, loose) && Spares(h, m) && x < |m|
    requires x < h.lo || x >= h.hi || exists i :: 0 <= i < |h.bs| && h.bs[i].use == 0 && h.bs[i].at <= x < h.bs[i].at + h.bs[i].size
    ensures Spares(h, m[x := v])
  {
    hide Good, Tagged, Filed, Tiled;
    forall q | 0 <= q < |h.bs| && h.bs[q].use > 0 ensures SameBlock(h.m, m[x := v], h.bs[q]) {
      assert SameBlock(h.m, m, h.bs[q]);
      GoodBox(h, loose, q);
      if h.lo <= x < h.hi {
        var i :| 0 <= i < |h.bs| && h.bs[i].use == 0 && h.bs[i].at <= x < h.bs[i].at + h.bs[i].size;
        GoodApart(h, loose, i, q);
      }
      var b := h.bs[q];
      assert m[x := v][b.at..b.at + b.size] == m[b.at..b.at + b.size];
    }
  }

  lemma SparesAt(h: State, loose: set<nat>, m: seq<Word>, i: nat, x: nat, v: Word)
    requires Good(h, loose) && Spares(h, m) && x < |m| && i < |h.bs| && h.bs[i].use == 0
    requires h.bs[i].at <= x < h.bs[i].at + h.bs[i].size
    ensures Spares(h, m[x := v]) && |m[x := v]| == |h.m|
  {
    hide Good;
    SparesSet(h, loose, m, x, v);
  }

  // A write outside listed boxes leaves their links alone.
  lemma LinksSet(h: State, loose: set<nat>, m: seq<Word>, x: nat, v: Word)
    requires Good(h, loose) && SameLinks(h, m) && x < |m|
    requires x < h.lo || x >= h.hi || exists i :: 0 <= i < |h.bs| && (h.bs[i].use > 0 || h.bs[i].at in loose) && h.bs[i].at <= x < h.bs[i].at + h.bs[i].size
    ensures SameLinks(h, m[x := v])
  {
    hide Good, Tagged, Filed, Tiled, ListFor;
    forall k, j | 0 <= k < |h.lists| && 0 <= j < |h.lists[k]| ensures SameLink(h.m, m[x := v], h.lists[k][j]) {
      assert SameLink(h.m, m, h.lists[k][j]);
      GoodFrame(h, loose);
      if h.lo <= x < h.hi {
        var i :| 0 <= i < |h.bs| && (h.bs[i].use > 0 || h.bs[i].at in loose) && h.bs[i].at <= x < h.bs[i].at + h.bs[i].size;
        BoxFar(h, loose, i, k, j);
      } else {
        var i := ListedBox(h, loose, k, j);
        GoodBox(h, loose, i);
        TaggedSize(h.m, h.bs[i]);
      }
    }
  }

  lemma LinksAll(h: State, loose: set<nat>)
    requires Good(h, loose)
    ensures SameLinks(h, h.m)
  {
    hide Good, Tagged, Filed, Tiled, ListFor;
    forall k, j | 0 <= k < |h.lists| && 0 <= j < |h.lists[k]| ensures SameLink(h.m, h.m, h.lists[k][j]) {
      GoodFrame(h, loose);
      ListLinks(h, loose, k, j);
    }
  }

  // Writing a header inside free loose boxes.
  lemma MadeKeeps(h: State, loose: set<nat>, i: nat, j: nat, a: nat, siz: Word, use: Word)
    requires Good(h, loose) && i < |h.bs| && j < |h.bs| && siz >= MIN && a + siz <= |h.m|
    requires h.bs[i].use == 0 && h.bs[i].at in loose && h.bs[j].use == 0 && h.bs[j].at in loose
    requires h.bs[i].at <= a && a + 1 < h.bs[i].at + h.bs[i].size
    requires h.bs[j].at <= a + siz - 1 < h.bs[j].at + h.bs[j].size
    ensures SameLinks(h, Made(h.m, a, siz, use)) && Spares(h, Made(h.m, a, siz, use))
  {
    hide Good, Tagged, Filed, Tiled, ListFor, SameLinks, Spares;
    var m1 := h.m[a := siz];
    var m2 := m1[a + siz - 1 := siz];
    LinksAll(h, loose);
    SparesAll(h, loose);
    LinksSize(h, h.m);
    LinksSet(h, loose, h.m, a, siz);
    SparesSet(h, loose, h.m, a, siz);
    LinksSet(h, loose, m1, a + siz - 1, siz);
    SparesSet(h, loose, m1, a + siz - 1, siz);
    LinksSet(h, loose, m2, a + 1, use);
    SparesSet(h, loose, m2, a + 1, use);
  }

  lemma LinksSize(h: State, m: seq<Word>)
    requires SameLinks(h, m)
    ensures |m| == |h.m|
  {
  }

  // ---- boxes replaced by others ----

  ghost function Splice(bs: seq<Box>, i: nat, j: nat, mid: seq<Box>): seq<Box>
    requires i <= j <= |bs|
  {
    bs[..i] + mid + bs[j..]
  }

  // Where box `i` begins, or the heap ends.
  function AtOf(bs: seq<Box>, i: nat, hi: nat): nat
    requires i <= |bs|
  {
    if i < |bs| then bs[i].at else hi
  }

  lemma TiledCut(bs: seq<Box>, lo: nat, hi: nat, i: nat)
    requires Tiled(bs, lo, hi) && i <= |bs|
    ensures Tiled(bs[..i], lo, AtOf(bs, i, hi)) && Tiled(bs[i..], AtOf(bs, i, hi), hi)
  {
    if i < |bs| { Inside(bs, lo, hi, i); }
    if 0 < i < |bs| { assert bs[i - 1].at + bs[i - 1].size == bs[i].at; }
    var t := bs[i..];
    forall q | 0 <= q < |t| - 1 ensures t[q].at + t[q].size == t[q + 1].at {
      var p := i + q;
      assert bs[p].at + bs[p].size == bs[p + 1].at;
    }
  }

  lemma TiledCat(a: seq<Box>, b: seq<Box>, lo: nat, mid: nat, hi: nat)
    requires Tiled(a, lo, mid) && Tiled(b, mid, hi)
    ensures Tiled(a + b, lo, hi)
  {
    var t := a + b;
    forall q | 0 <= q < |t| - 1 ensures t[q].at + t[q].size == t[q + 1].at {
      if q >= |a| { var p := q - |a|; assert b[p].at + b[p].size == b[p + 1].at; }
      else if q < |a| - 1 { assert a[q].at + a[q].size == a[q + 1].at; }
    }
  }

  lemma TiledSplice(bs: seq<Box>, lo: nat, hi: nat, i: nat, j: nat, mid: seq<Box>)
    requires Tiled(bs, lo, hi) && i <= j <= |bs| && Tiled(mid, AtOf(bs, i, hi), AtOf(bs, j, hi))
    ensures Tiled(Splice(bs, i, j, mid), lo, hi)
  {
    hide Tiled;
    TiledCut(bs, lo, hi, i);
    TiledCut(bs, lo, hi, j);
    TiledCat(bs[..i], mid, lo, AtOf(bs, i, hi), AtOf(bs, j, hi));
    TiledCat(bs[..i] + mid, bs[j..], lo, AtOf(bs, j, hi), hi);
  }

  // Every box of a spliced list, by where it comes from.
  lemma SpliceHas(bs: seq<Box>, i: nat, j: nat, mid: seq<Box>, b: Box)
    requires i <= j <= |bs|
    ensures b in Splice(bs, i, j, mid) <==> b in mid || exists q :: 0 <= q < |bs| && !(i <= q < j) && bs[q] == b
  {
    var t := Splice(bs, i, j, mid);
    if b in mid { var q :| 0 <= q < |mid| && mid[q] == b; assert t[i + q] == b; }
    if q :| 0 <= q < |bs| && !(i <= q < j) && bs[q] == b {
      assert t[if q < i then q else q - j + i + |mid|] == b;
    }
    if b in t && b !in mid {
      var p :| 0 <= p < |t| && t[p] == b;
      assert bs[if p < i then p else p - |mid| - i + j] == b;
    }
  }

  // The boxes outside a range keep their tags, and stay loose or not.
  ghost predicate Outside(h: State, loose: set<nat>, m: seq<Word>, loose': set<nat>, i: nat, j: nat) {
    forall q :: 0 <= q < |h.bs| && !(i <= q < j) ==> Tagged(m, h.bs[q]) && (h.bs[q].at in loose <==> h.bs[q].at in loose')
  }

  // New boxes have their tags; free ones are loose.
  ghost predicate Inner(m: seq<Word>, mid: seq<Box>, loose: set<nat>) {
    forall b :: b in mid ==> Tagged(m, b) && (b.use == 0 ==> b.at in loose)
  }

  // The boxes of a range are in no list.
  ghost predicate Unlisted(h: State, loose: set<nat>, i: nat, j: nat)
    requires i <= j <= |h.bs|
  {
    forall q :: i <= q < j ==> h.bs[q].use > 0 || h.bs[q].at in loose
  }

  /** Replace boxes that are in no list by others, free ones among them loose. */
  lemma SpliceGood(h: State, loose: set<nat>, n: State, loose': set<nat>, i: nat, j: nat, mid: seq<Box>)
    requires Good(h, loose) && i <= j <= |h.bs| && n.bs == Splice(h.bs, i, j, mid)
    requires n.fre == h.fre && n.lists == h.lists && SameLinks(h, n.m) && 0 < n.lo && Tiled(n.bs, n.lo, n.hi) && n.hi <= |n.m|
    requires Inner(n.m, mid, loose') && Outside(h, loose, n.m, loose', i, j) && Unlisted(h, loose, i, j)
    ensures Good(n, loose')
  {
    hide Good, Tagged, Tiled, SameLinks, Splice;
    forall b | b in n.bs ensures Tagged(n.m, b) { SpliceHas(h.bs, i, j, mid, b); }
    forall b | Stays(h, loose, b) ensures b in n.bs && b.at !in loose' { SpliceHas(h.bs, i, j, mid, b); }
    forall b | b in n.bs && b.use == 0 && b.at !in loose' ensures Stays(h, loose, b) { SpliceHas(h.bs, i, j, mid, b); }
    Rebox(h, loose, n, loose');
  }

  // A box list without the boxes of a range.
  lemma UsedSplice(h: State, loose: set<nat>, i: nat, j: nat, mid: seq<Box>)
    requires Good(h, loose) && i <= j <= |h.bs|
    ensures Used(Splice(h.bs, i, j, mid)) == (Used(h.bs) - Used(h.bs[i..j])) + Used(mid)
  {
    hide Good, Splice, Tagged, Tiled;
    var t, r := Used(Splice(h.bs, i, j, mid)), (Used(h.bs) - Used(h.bs[i..j])) + Used(mid);
    forall b ensures b in t <==> b in r {
      SpliceHas(h.bs, i, j, mid, b);
      if b in h.bs && b !in mid { RangeHas(h, loose, i, j, b); }
    }
  }

  lemma RangeHas(h: State, loose: set<nat>, i: nat, j: nat, b: Box)
    requires Good(h, loose) && i <= j <= |h.bs| && b in h.bs
    ensures b in h.bs[i..j] <==> !exists q :: 0 <= q < |h.bs| && !(i <= q < j) && h.bs[q] == b
  {
    hide Good, Tiled;
    GoodFrame(h, loose);
    var o :| 0 <= o < |h.bs| && h.bs[o] == b;
    if i <= o < j { assert h.bs[i..j][o - i] == b; }
    forall q | 0 <= q < |h.bs| && h.bs[q] == b ensures q == o { SameBox(h, o, q); }
    if b in h.bs[i..j] {
      var p :| 0 <= p < j - i && h.bs[i..j][p] == b;
      assert h.bs[i + p] == b;
    }
  }

  // ---- what freeing and allocating do ----

  // Two loose neighbours joined.
  ghost function Merged(h: State, i: nat): State
    requires i + 1 < |h.bs| && MIN <= h.bs[i].size + h.bs[i + 1].size < 0x1_0000_0000
    requires h.bs[i].at + (h.bs[i].size + h.bs[i + 1].size) <= |h.m|
  {
    var at, siz := h.bs[i].at, h.bs[i].size + h.bs[i + 1].size;
    State(Made(h.m, at, siz, 0), h.fre, Splice(h.bs, i, i + 2, [Box(at, siz, 0)]), h.lists, h.lo, h.hi)
  }

  lemma Neighbours(h: State, loose: set<nat>, i: nat)
    requires Good(h, loose) && i + 1 < |h.bs|
    ensures h.bs[i].at + h.bs[i].size == h.bs[i + 1].at && h.bs[i].size >= MIN && h.bs[i + 1].size >= MIN
    ensures h.bs[i + 1].at + h.bs[i + 1].size <= |h.m| < 0x1_0000_0000
    ensures AtOf(h.bs, i, h.hi) == h.bs[i].at && AtOf(h.bs, i + 2, h.hi) == h.bs[i + 1].at + h.bs[i + 1].size
  {
    hide Good, Tagged, Filed, Tiled;
    GoodBox(h, loose, i + 1);
    NextBox(h.bs, h.lo, h.hi, i);
    NextBox(h.bs, h.lo, h.hi, i + 1);
  }

  lemma NextBox(bs: seq<Box>, lo: nat, hi: nat, i: nat)
    requires Tiled(bs, lo, hi) && i < |bs|
    ensures bs[i].at + bs[i].size == AtOf(bs, i + 1, hi) && bs[i].size >= MIN
  {
    if i + 1 < |bs| { assert bs[i].at + bs[i].size == bs[i + 1].at; }
  }

  // The tags of a box that is not written to.
  lemma TaggedStill(m: seq<Word>, m': seq<Word>, b: Box)
    requires Tagged(m, b) && |m'| == |m|
    requires b.size > 0 && b.at + b.size <= |m| && m'[b.at..b.at + b.size] == m[b.at..b.at + b.size]
    ensures Tagged(m', b)
  {
    var s, t := m[b.at..b.at + b.size], m'[b.at..b.at + b.size];
    assert t[0] == s[0] && t[1] == s[1] && t[b.size - 1] == s[b.size - 1];
  }

  lemma MergeTags(h: State, loose: set<nat>, i: nat, m: seq<Word>)
    requires Good(h, loose) && i + 1 < |h.bs| && |m| == |h.m|
    requires h.bs[i].at + h.bs[i].size + h.bs[i + 1].size <= |m|
    requires forall x :: 0 <= x < |m| && !(h.bs[i].at <= x < h.bs[i].at + h.bs[i].size + h.bs[i + 1].size) ==> m[x] == h.m[x]
    ensures Outside(h, loose, m, loose - {h.bs[i + 1].at}, i, i + 2)
  {
    hide Good, Tagged;
    forall q | 0 <= q < |h.bs| && !(i <= q < i + 2)
      ensures Tagged(m, h.bs[q]) && (h.bs[q].at in loose <==> h.bs[q].at in loose - {h.bs[i + 1].at})
    {
      MergeTag(h, loose, i, m, q);
    }
  }

  lemma MergeTag(h: State, loose: set<nat>, i: nat, m: seq<Word>, q: nat)
    requires Good(h, loose) && i + 1 < |h.bs| && |m| == |h.m| && q < |h.bs| && q != i && q != i + 1
    requires h.bs[i].at + h.bs[i].size + h.bs[i + 1].size <= |m|
    requires forall x :: 0 <= x < |m| && !(h.bs[i].at <= x < h.bs[i].at + h.bs[i].size + h.bs[i + 1].size) ==> m[x] == h.m[x]
    ensures Tagged(m, h.bs[q]) && h.bs[q].at != h.bs[i + 1].at
  {
    hide Good, Tagged, Tiled, Filed;
    Neighbours(h, loose, i);
    GoodBox(h, loose, q);
    GoodApart(h, loose, i, q);
    GoodApart(h, loose, i + 1, q);
    var b := h.bs[q];
    assert m[b.at..b.at + b.size] == h.m[b.at..b.at + b.size];
    TaggedStill(h.m, m, b);
  }

  lemma MergeGood(h: State, loose: set<nat>, i: nat)
    requires Good(h, loose) && i + 1 < |h.bs|
    requires h.bs[i].use == 0 && h.bs[i].at in loose && h.bs[i + 1].use == 0 && h.bs[i + 1].at in loose
    ensures MIN <= h.bs[i].size + h.bs[i + 1].size < 0x1_0000_0000 && h.bs[i].at + (h.bs[i].size + h.bs[i + 1].size) <= |h.m|
    ensures var n := Merged(h, i);
            Good(n, loose - {h.bs[i + 1].at}) && Spares(h, n.m) && Used(n.bs) == Used(h.bs)
  {
    hide Good, Tagged, Tiled, SameLinks, Spares, Filed, Splice, Outside, Inner, Unlisted, Used, Made, AtOf;
    Neighbours(h, loose, i);
    GoodFrame(h, loose);
    var at, siz := h.bs[i].at, h.bs[i].size + h.bs[i + 1].size;
    var n, mid, less := Merged(h, i), [Box(at, siz, 0)], loose - {h.bs[i + 1].at};
    MadeKeeps(h, loose, i, i + 1, at, siz, 0);
    MergeParts(h, loose, i);
    NoneListed(h, loose, i, i + 2);
    SpliceGood(h, loose, n, less, i, i + 2, mid);
    FreeSplice(h, loose, i, i + 2, mid);
    UsedOne(mid[0]);
  }

  // The joined box is in order, and so is what is outside it.
  lemma MergeParts(h: State, loose: set<nat>, i: nat)
    requires Good(h, loose) && i + 1 < |h.bs|
    requires h.bs[i].use == 0 && h.bs[i].at in loose && h.bs[i + 1].use == 0 && h.bs[i + 1].at in loose
    ensures MIN <= h.bs[i].size + h.bs[i + 1].size < 0x1_0000_0000 && h.bs[i].at + (h.bs[i].size + h.bs[i + 1].size) <= |h.m|
    ensures var at, siz, less := h.bs[i].at, h.bs[i].size + h.bs[i + 1].size, loose - {h.bs[i + 1].at};
            var m, mid := Made(h.m, at, siz, 0), [Box(at, siz, 0)];
            && Tiled(Splice(h.bs, i, i + 2, mid), h.lo, h.hi) && Inner(m, mid, less) && Outside(h, loose, m, less, i, i + 2)
  {
    Neighbours(h, loose, i);
    hide *;
    MergeTiled(h, loose, i);
    MergeInner(h, loose, i);
    MergeOutside(h, loose, i);
  }

  lemma MergeTiled(h: State, loose: set<nat>, i: nat)
    requires Good(h, loose) && i + 1 < |h.bs|
    ensures Tiled(Splice(h.bs, i, i + 2, [Box(h.bs[i].at, h.bs[i].size + h.bs[i + 1].size, 0)]), h.lo, h.hi)
  {
    hide Good, Tiled, Splice, AtOf;
    Neighbours(h, loose, i);
    GoodFrame(h, loose);
    JoinTiled(h.bs, h.lo, h.hi, i, Box(h.bs[i].at, h.bs[i].size + h.bs[i + 1].size, 0));
  }

  lemma JoinTiled(bs: seq<Box>, lo: nat, hi: nat, i: nat, b: Box)
    requires Tiled(bs, lo, hi) && i + 2 <= |bs| && b.size >= MIN && b.at == AtOf(bs, i, hi) && b.at + b.size == AtOf(bs, i + 2, hi)
    ensures Tiled(Splice(bs, i, i + 2, [b]), lo, hi)
  {
    hide Tiled, Splice, AtOf;
    OneTiled(b);
    TiledSplice(bs, lo, hi, i, i + 2, [b]);
  }

  lemma MergeInner(h: State, loose: set<nat>, i: nat)
    requires Good(h, loose) && i + 1 < |h.bs| && h.bs[i].at in loose
    ensures var at, siz := h.bs[i].at, h.bs[i].size + h.bs[i + 1].size;
            MIN <= siz < 0x1_0000_0000 && at + siz <= |h.m| && Inner(Made(h.m, at, siz, 0), [Box(at, siz, 0)], loose - {h.bs[i + 1].at})
  {
    hide Good, Tagged, Inner, Made;
    Neighbours(h, loose, i);
    var at, siz := h.bs[i].at, h.bs[i].size + h.bs[i + 1].size;
    MadeTagged(h.m, at, siz, 0);
    InnerOne(Made(h.m, at, siz, 0), Box(at, siz, 0), loose - {h.bs[i + 1].at});
  }

  lemma MergeOutside(h: State, loose: set<nat>, i: nat)
    requires Good(h, loose) && i + 1 < |h.bs|
    ensures var at, siz := h.bs[i].at, h.bs[i].size + h.bs[i + 1].size;
            && MIN <= siz < 0x1_0000_0000 && at + siz <= |h.m|
            && Outside(h, loose, Made(h.m, at, siz, 0), loose - {h.bs[i + 1].at}, i, i + 2)
  {
    hide Good, Outside, Made;
    Neighbours(h, loose, i);
    var at, siz := h.bs[i].at, h.bs[i].size + h.bs[i + 1].size;
    MadeElsewhere(h.m, at, siz, 0);
    MergeTags(h, loose, i, Made(h.m, at, siz, 0));
  }

  lemma MadeElsewhere(m: seq<Word>, a: nat, siz: Word, use: Word)
    requires siz >= MIN && a + siz <= |m|
    ensures var r := Made(m, a, siz, use); |r| == |m| && forall x :: 0 <= x < |m| && !(a <= x < a + siz) ==> r[x] == m[x]
  {
  }

  // Boxes that are loose or in use are on no list.
  lemma NoneListed(h: State, loose: set<nat>, i: nat, j: nat)
    requires i <= j <= |h.bs| && forall q :: i <= q < j ==> h.bs[q].use > 0 || h.bs[q].at in loose
    ensures Unlisted(h, loose, i, j)
  {
  }

  // Free boxes replaced by boxes.
  lemma FreeSplice(h: State, loose: set<nat>, i: nat, j: nat, mid: seq<Box>)
    requires Good(h, loose) && i <= j <= |h.bs| && forall q :: i <= q < j ==> h.bs[q].use == 0
    ensures Used(Splice(h.bs, i, j, mid)) == Used(h.bs) + Used(mid)
  {
    hide Good, Tiled, Splice;
    UsedSplice(h, loose, i, j, mid);
    assert Used(h.bs[i..j]) == {};
  }

  lemma OneTiled(b: Box)
    requires b.size >= MIN
    ensures Tiled([b], b.at, b.at + b.size)
  {
  }

  lemma MadeTagged(m: seq<Word>, a: nat, siz: Word, use: Word)
    requires siz >= MIN && a + siz <= |m|
    ensures Tagged(Made(m, a, siz, use), Box(a, siz, use))
  {
  }

  // The use count of one box changed.
  ghost function Counted(h: State, i: nat, use: Word): State
    requires i < |h.bs| && h.bs[i].at + 1 < |h.m|
  {
    State(h.m[h.bs[i].at + 1 := use], h.fre, Splice(h.bs, i, i + 1, [Box(h.bs[i].at, h.bs[i].size, use)]), h.lists, h.lo, h.hi)
  }

  // What is outside box `i` when only words of box `i` are written.
  lemma OutsideOne(h: State, loose: set<nat>, m: seq<Word>, loose': set<nat>, i: nat)
    requires Good(h, loose) && i < |h.bs| && |m| == |h.m|
    requires forall x :: 0 <= x < |m| && !(h.bs[i].at <= x < h.bs[i].at + h.bs[i].size) ==> m[x] == h.m[x]
    requires forall a :: !(h.bs[i].at <= a < h.bs[i].at + h.bs[i].size) ==> (a in loose <==> a in loose')
    ensures Outside(h, loose, m, loose', i, i + 1)
  {
    hide Good, Tagged, Tiled, Filed;
    forall q | 0 <= q < |h.bs| && !(i <= q < i + 1) ensures Tagged(m, h.bs[q]) && (h.bs[q].at in loose <==> h.bs[q].at in loose') {
      GoodBox(h, loose, q);
      TaggedSize(h.m, h.bs[q]);
      GoodApart(h, loose, i, q);
      var b := h.bs[q];
      assert m[b.at..b.at + b.size] == h.m[b.at..b.at + b.size];
      TaggedStill(h.m, m, b);
    }
  }

  lemma CountTag(m: seq<Word>, b: Box, use: Word)
    requires Tagged(m, b)
    ensures Tagged(m[b.at + 1 := use], Box(b.at, b.size, use))
  {
  }

  /** Counting a box up or down; a box that becomes free is loose. */
  lemma CountGood(h: State, loose: set<nat>, i: nat, use: Word, loose': set<nat>)
    requires Good(h, loose) && i < |h.bs| && (h.bs[i].use > 0 || h.bs[i].at in loose)
    requires loose' == if use == 0 then loose + {h.bs[i].at} else loose - {h.bs[i].at}
    ensures h.bs[i].at + 1 < |h.m|
    ensures var n := Counted(h, i, use);
            && Good(n, loose') && Used(n.bs) == (Used(h.bs) - {h.bs[i]}) + if use > 0 then {Box(h.bs[i].at, h.bs[i].size, use)} else {}
  {
    hide *;
    CountParts(h, loose, i, use, loose');
    CountSplice(h, loose, i, use, loose');
    CountUsed(h, loose, i, use);
  }

  lemma CountSplice(h: State, loose: set<nat>, i: nat, use: Word, loose': set<nat>)
    requires Good(h, loose) && i < |h.bs| && (h.bs[i].use > 0 || h.bs[i].at in loose) && h.bs[i].at + 1 < |h.m|
    requires loose' == if use == 0 then loose + {h.bs[i].at} else loose - {h.bs[i].at}
    ensures Good(Counted(h, i, use), loose')
  {
    hide Good, Tagged, Tiled, SameLinks, Spares, Filed, Splice, Outside, Inner, Unlisted, Used;
    var n, b := Counted(h, i, use), Box(h.bs[i].at, h.bs[i].size, use);
    GoodFrame(h, loose);
    CountParts(h, loose, i, use, loose');
    SameTiled(h.bs, h.lo, h.hi, i, b);
    NoneListed(h, loose, i, i + 1);
    SpliceGood(h, loose, n, loose', i, i + 1, [b]);
  }

  // The box is in order, and so is what is outside it.
  lemma CountParts(h: State, loose: set<nat>, i: nat, use: Word, loose': set<nat>)
    requires Good(h, loose) && i < |h.bs| && (h.bs[i].use > 0 || h.bs[i].at in loose)
    requires loose' == if use == 0 then loose + {h.bs[i].at} else loose - {h.bs[i].at}
    ensures h.bs[i].at + 1 < |h.m| && var m := h.m[h.bs[i].at + 1 := use];
            && SameLinks(h, m) && Inner(m, [Box(h.bs[i].at, h.bs[i].size, use)], loose') && Outside(h, loose, m, loose', i, i + 1)
  {
    hide Good, Tagged, Tiled, SameLinks, Spares, Filed, Splice, Outside, Inner, Used;
    GoodBox(h, loose, i);
    TaggedSize(h.m, h.bs[i]);
    LinksAll(h, loose);
    LinksSet(h, loose, h.m, h.bs[i].at + 1, use);
    CountTag(h.m, h.bs[i], use);
    var m := h.m[h.bs[i].at + 1 := use];
    OutsideOne(h, loose, m, loose', i);
    InnerOne(m, Box(h.bs[i].at, h.bs[i].size, use), loose');
  }

  lemma SameTiled(bs: seq<Box>, lo: nat, hi: nat, i: nat, b: Box)
    requires Tiled(bs, lo, hi) && i < |bs| && b.at == bs[i].at && b.size == bs[i].size
    ensures Tiled(Splice(bs, i, i + 1, [b]), lo, hi)
  {
    hide Splice, Tiled;
    NextBox(bs, lo, hi, i);
    OneTiled(b);
    TiledSplice(bs, lo, hi, i, i + 1, [b]);
  }

  lemma InnerOne(m: seq<Word>, b: Box, loose: set<nat>)
    requires Tagged(m, b) && (b.use == 0 ==> b.at in loose)
    ensures Inner(m, [b], loose)
  {
    hide Tagged;
  }

  lemma CountUsed(h: State, loose: set<nat>, i: nat, use: Word)
    requires Good(h, loose) && i < |h.bs| && h.bs[i].at + 1 < |h.m|
    ensures Used(Counted(h, i, use).bs) == (Used(h.bs) - {h.bs[i]}) + if use > 0 then {Box(h.bs[i].at, h.bs[i].size, use)} else {}
  {
    hide Good, Tiled, Splice;
    var mid := [Box(h.bs[i].at, h.bs[i].size, use)];
    UsedSplice(h, loose, i, i + 1, mid);
    assert h.bs[i..i + 1] == [h.bs[i]];
    UsedOne(h.bs[i]);
    UsedOne(mid[0]);
  }

  lemma UsedOne(b: Box)
    ensures Used([b]) == if b.use > 0 then {b} else {}
  {
  }

  // A box at the hat given back.
  ghost function Dropped(h: State, north: bool): State
    requires |h.bs| > 0
  {
    var k := |h.bs| - 1;
    if north then State(h.m, h.fre, Splice(h.bs, k, k + 1, []), h.lists, h.lo, h.bs[k].at)
    else State(h.m, h.fre, Splice(h.bs, 0, 1, []), h.lists, h.bs[0].at + h.bs[0].size, h.hi)
  }

  lemma DropGood(h: State, north: bool, i: nat)
    requires |h.bs| > 0 && i == (if north then |h.bs| - 1 else 0) && h.bs[i].use == 0 && Good(h, {h.bs[i].at})
    ensures Good(Dropped(h, north), {}) && Used(Dropped(h, north).bs) == Used(h.bs)
  {
    hide Good, Tiled, Used, Splice, Filed, Tagged;
    GoodFrame(h, {h.bs[i].at});
    GoodBox(h, {h.bs[i].at}, i);
    TaggedSize(h.m, h.bs[i]);
    DropTiled(h.bs, h.lo, h.hi);
    DropAt(h, Dropped(h, north), i);
  }

  lemma DropAt(h: State, n: State, i: nat)
    requires i < |h.bs| && h.bs[i].use == 0 && Good(h, {h.bs[i].at})
    requires n.m == h.m && n.fre == h.fre && n.lists == h.lists && n.bs == Splice(h.bs, i, i + 1, [])
    requires 0 < n.lo && Tiled(n.bs, n.lo, n.hi) && n.hi <= |n.m|
    ensures Good(n, {}) && Used(n.bs) == Used(h.bs)
  {
    hide Good, Tagged, Tiled, SameLinks, Filed, Splice, Outside, Used;
    var loose := {h.bs[i].at};
    LinksAll(h, loose);
    GoodBox(h, loose, i);
    TaggedSize(h.m, h.bs[i]);
    OutsideOne(h, loose, h.m, {}, i);
    SpliceGood(h, loose, n, {}, i, i + 1, []);
    FreeSplice(h, loose, i, i + 1, []);
    UsedNone();
  }

  lemma UsedNone()
    ensures Used([]) == {}
  {
  }

  lemma DropTiled(bs: seq<Box>, lo: nat, hi: nat)
    requires Tiled(bs, lo, hi) && |bs| > 0
    ensures var k := |bs| - 1; Tiled(Splice(bs, k, k + 1, []), lo, bs[k].at)
    ensures Tiled(Splice(bs, 0, 1, []), bs[0].at + bs[0].size, hi)
  {
    hide Tiled, Splice;
    TiledCut(bs, lo, hi, |bs| - 1);
    TiledCut(bs, lo, hi, 1);
    NextBox(bs, lo, hi, 0);
    SpliceEnds(bs);
  }

  lemma SpliceEnds(bs: seq<Box>)
    requires |bs| > 0
    ensures Splice(bs, |bs| - 1, |bs| - 1 + 1, []) == bs[..|bs| - 1] && Splice(bs, 0, 1, []) == bs[1..]
  {
  }

  // A new box at the hat.
  ghost function Grown(h: State, north: bool, siz: Word): State
    requires siz >= MIN && (if north then h.hi + siz <= |h.m| else siz <= h.lo <= |h.m|)
  {
    if north then State(Made(h.m, h.hi, siz, 1), h.fre, Splice(h.bs, |h.bs|, |h.bs|, [Box(h.hi, siz, 1)]), h.lists, h.lo, h.hi + siz)
    else State(Made(h.m, h.lo - siz, siz, 1), h.fre, Splice(h.bs, 0, 0, [Box(h.lo - siz, siz, 1)]), h.lists, h.lo - siz, h.hi)
  }

  // A header outside the heap.
  lemma MadeOutside(h: State, loose: set<nat>, a: nat, siz: Word, use: Word)
    requires Good(h, loose) && siz >= MIN && a + siz <= |h.m| && (a >= h.hi || a + siz <= h.lo)
    ensures var m := Made(h.m, a, siz, use); SameLinks(h, m) && Spares(h, m)
  {
    hide Good, Tagged, Filed, Tiled, SameLinks, Spares;
    var m1 := h.m[a := siz];
    var m2 := m1[a + siz - 1 := siz];
    LinksAll(h, loose);
    SparesAll(h, loose);
    LinksSet(h, loose, h.m, a, siz);
    SparesSet(h, loose, h.m, a, siz);
    LinksSet(h, loose, m1, a + siz - 1, siz);
    SparesSet(h, loose, m1, a + siz - 1, siz);
    LinksSet(h, loose, m2, a + 1, use);
    SparesSet(h, loose, m2, a + 1, use);
  }

  lemma OutsideNone(h: State, loose: set<nat>, a: nat, siz: Word, use: Word, i: nat)
    requires Good(h, loose) && siz >= MIN && a + siz <= |h.m| && (a >= h.hi || a + siz <= h.lo) && i <= |h.bs|
    ensures Outside(h, loose, Made(h.m, a, siz, use), loose, i, i)
  {
    hide Good, Tagged, Filed, Tiled;
    var m := Made(h.m, a, siz, use);
    forall q | 0 <= q < |h.bs| && !(i <= q < i) ensures Tagged(m, h.bs[q]) {
      GoodBox(h, loose, q);
      TaggedSize(h.m, h.bs[q]);
      var b := h.bs[q];
      assert m[b.at..b.at + b.size] == h.m[b.at..b.at + b.size];
      TaggedStill(h.m, m, b);
    }
  }

  lemma GrowGood(h: State, north: bool, siz: Word)
    requires Good(h, {}) && siz >= MIN && (if north then h.hi + siz <= |h.m| else siz < h.lo <= |h.m|)
    ensures var n := Grown(h, north, siz);
            Good(n, {}) && Spares(h, n.m) && Used(n.bs) == Used(h.bs) + {Box(if north then h.hi else h.lo - siz, siz, 1)}
  {
    hide Good, Spares, Splice, Used, Made;
    GoodFrame(h, {});
    if north { GrowAt(h, Grown(h, north, siz), |h.bs|, Box(h.hi, siz, 1), north); }
    else { GrowAt(h, Grown(h, north, siz), 0, Box(h.lo - siz, siz, 1), north); }
  }

  lemma GrowAt(h: State, n: State, i: nat, b: Box, north: bool)
    requires Good(h, {}) && MIN <= b.size < 0x1_0000_0000 && 0 < b.at && b.at + b.size <= |h.m| && b.use == 1
    requires i == (if north then |h.bs| else 0) && (if north then b.at == h.hi else b.at + b.size == h.lo)
    requires n.m == Made(h.m, b.at, b.size, 1) && n.fre == h.fre && n.lists == h.lists && n.bs == Splice(h.bs, i, i, [b])
    requires if north then n.lo == h.lo && n.hi == h.hi + b.size else n.lo == b.at && n.hi == h.hi
    ensures Good(n, {}) && Spares(h, n.m) && Used(n.bs) == Used(h.bs) + {b}
  {
    hide Good, Tagged, Tiled, SameLinks, Spares, Filed, Splice, Outside, Inner, Used, Made;
    GoodFrame(h, {});
    MadeOutside(h, {}, b.at, b.size, 1);
    OutsideNone(h, {}, b.at, b.size, 1, i);
    MadeTagged(h.m, b.at, b.size, 1);
    InnerOne(n.m, b, {});
    GrowTiled(h.bs, h.lo, h.hi, b, north);
    SpliceGood(h, {}, n, {}, i, i, [b]);
    FreeSplice(h, {}, i, i, [b]);
    UsedOne(b);
  }

  lemma GrowTiled(bs: seq<Box>, lo: nat, hi: nat, b: Box, north: bool)
    requires Tiled(bs, lo, hi) && b.size >= MIN && (if north then b.at == hi else b.at + b.size == lo)
    ensures if north then Tiled(Splice(bs, |bs|, |bs|, [b]), lo, hi + b.size) else Tiled(Splice(bs, 0, 0, [b]), b.at, hi)
  {
    hide Tiled, Splice;
    OneTiled(b);
    SpliceGrow(bs, b);
    if north { TiledUp(bs, lo, hi, b); } else { TiledCat([b], bs, b.at, lo, hi); }
  }

  lemma TiledUp(bs: seq<Box>, lo: nat, hi: nat, b: Box)
    requires Tiled(bs, lo, hi) && b.size >= MIN && b.at == hi
    ensures Tiled(bs + [b], lo, hi + b.size)
  {
    hide Tiled;
    OneTiled(b);
    TiledCat(bs, [b], lo, hi, hi + b.size);
  }

  lemma SpliceGrow(bs: seq<Box>, b: Box)
    ensures Splice(bs, |bs|, |bs|, [b]) == bs + [b] && Splice(bs, 0, 0, [b]) == [b] + bs
  {
  }

  // A loose box cut in two, the first part in use and the second loose.
  ghost function Cut(h: State, i: nat, siz: Word): State
    requires i < |h.bs| && siz >= MIN && siz + MIN <= h.bs[i].size < 0x1_0000_0000 && h.bs[i].at + h.bs[i].size <= |h.m|
  {
    var at, lef := h.bs[i].at, h.bs[i].size - siz;
    State(Made(Made(h.m, at + siz, lef, 0), at, siz, 1), h.fre,
          Splice(h.bs, i, i + 1, [Box(at, siz, 1), Box(at + siz, lef, 0)]), h.lists, h.lo, h.hi)
  }

  lemma CutMem(h: State, loose: set<nat>, i: nat, siz: Word)
    requires Good(h, loose) && i < |h.bs| && h.bs[i].use == 0 && h.bs[i].at in loose
    requires siz >= MIN && siz + MIN <= h.bs[i].size < 0x1_0000_0000 && h.bs[i].at + h.bs[i].size <= |h.m|
    ensures SameLinks(h, Cut(h, i, siz).m) && Spares(h, Cut(h, i, siz).m)
  {
    hide Good, Tiled, SameLinks, Spares, Filed, Tagged;
    var at, end, lef := h.bs[i].at, h.bs[i].at + siz, h.bs[i].size - siz;
    var m1 := Made(h.m, end, lef, 0);
    MadeKeeps(h, loose, i, i, end, lef, 0);
    SparesSet(h, loose, m1, at, siz);
    LinksSet(h, loose, m1, at, siz);
    var m2 := m1[at := siz];
    SparesSet(h, loose, m2, at + siz - 1, siz);
    LinksSet(h, loose, m2, at + siz - 1, siz);
    var m3 := m2[at + siz - 1 := siz];
    SparesSet(h, loose, m3, at + 1, 1);
    LinksSet(h, loose, m3, at + 1, 1);
  }

  lemma CutTags(m: seq<Word>, at: nat, siz: Word, lef: Word, loose: set<nat>)
    requires siz >= MIN && lef >= MIN && at + siz + lef <= |m| && at + siz in loose
    ensures var n := Made(Made(m, at + siz, lef, 0), at, siz, 1);
            && Inner(n, [Box(at, siz, 1), Box(at + siz, lef, 0)], loose)
            && forall x :: 0 <= x < |m| && !(at <= x < at + siz + lef) ==> n[x] == m[x]
  {
  }

  lemma CutGood(h: State, loose: set<nat>, i: nat, siz: Word)
    requires Good(h, loose) && i < |h.bs| && h.bs[i].use == 0 && h.bs[i].at in loose
    requires siz >= MIN && siz + MIN <= h.bs[i].size
    ensures h.bs[i].size < 0x1_0000_0000 && h.bs[i].at + h.bs[i].size <= |h.m|
    ensures var n := Cut(h, i, siz);
            && Good(n, loose - {h.bs[i].at} + {h.bs[i].at + siz}) && Spares(h, n.m)
            && Used(n.bs) == Used(h.bs) + {Box(h.bs[i].at, siz, 1)}
  {
    hide Good, Tagged, Tiled, SameLinks, Spares, Filed, Splice, Outside, Inner, Used, Made;
    GoodBox(h, loose, i);
    GoodFrame(h, loose);
    TaggedSize(h.m, h.bs[i]);
    CutMem(h, loose, i, siz);
    var at, n, loose' := h.bs[i].at, Cut(h, i, siz), loose - {h.bs[i].at} + {h.bs[i].at + siz};
    var a, b := Box(at, siz, 1), Box(at + siz, h.bs[i].size - siz, 0);
    CutTiled(h.bs, h.lo, h.hi, i, a, b);
    CutTags(h.m, at, siz, h.bs[i].size - siz, loose');
    OutsideOne(h, loose, n.m, loose', i);
    SpliceGood(h, loose, n, loose', i, i + 1, [a, b]);
    FreeSplice(h, loose, i, i + 1, [a, b]);
    UsedTwo(a, b);
  }

  lemma CutTiled(bs: seq<Box>, lo: nat, hi: nat, i: nat, a: Box, b: Box)
    requires Tiled(bs, lo, hi) && i < |bs| && a.size >= MIN && b.size >= MIN
    requires a.at == bs[i].at && a.at + a.size == b.at && b.at + b.size == bs[i].at + bs[i].size
    ensures Tiled(Splice(bs, i, i + 1, [a, b]), lo, hi)
  {
    hide Splice, Tiled;
    NextBox(bs, lo, hi, i);
    TwoTiled(a, b);
    TiledSplice(bs, lo, hi, i, i + 1, [a, b]);
  }

  lemma TwoTiled(a: Box, b: Box)
    requires a.size >= MIN && b.size >= MIN && a.at + a.size == b.at
    ensures Tiled([a, b], a.at, b.at + b.size)
  {
  }

  lemma UsedTwo(a: Box, b: Box)
    requires a.use > 0 && b.use == 0
    ensures Used([a, b]) == {a}
  {
  }

  // ---- what is left alone ----

  // The words of some boxes are as they were.
  ghost predicate Keeps(used: set<Box>, m: seq<Word>, m': seq<Word>) {
    |m'| == |m| && forall b :: b in used ==> SameBlock(m, m', b)
  }

  lemma SparesKeeps(h: State, m: seq<Word>)
    requires Spares(h, m)
    ensures Keeps(Used(h.bs), h.m, m)
  {
    forall b | b in Used(h.bs) ensures SameBlock(h.m, m, b) { var i :| 0 <= i < |h.bs| && h.bs[i] == b; }
  }

  lemma KeepsTrans(used: set<Box>, a: seq<Word>, b: seq<Word>, c: seq<Word>)
    requires Keeps(used, a, b) && Keeps(used, b, c)
    ensures Keeps(used, a, c)
  {
    forall x | x in used ensures SameBlock(a, c, x) { assert SameBlock(a, b, x) && SameBlock(b, c, x); }
  }

  lemma DetachSpares(h: State, loose: set<nat>, k: nat, j: nat)
    requires Good(h, loose) && Linked(h, k, j)
    ensures Spares(h, Detached(h, k, j).m)
  {
    hide Good, ListFor, Tagged, Tiled, Filed, Spares;
    SparesAll(h, loose);
    ListLinks(h, loose, k, j);
    var s, m := h.lists[k], h.m;
    var pre, nex := m[s[j] + 2], m[s[j] + 3];
    var m1 := if nex != 0 then m[nex + 2 := pre] else m;
    if nex != 0 { SparesLink(h, loose, m, k, j + 1, 2, pre); }
    if pre != 0 { SparesLink(h, loose, m1, k, j - 1, 3, nex); }
  }

  // A link word of a listed box written.
  lemma SparesLink(h: State, loose: set<nat>, m: seq<Word>, k: nat, j: nat, f: nat, v: Word)
    requires Good(h, loose) && Spares(h, m) && k < LISTS && |h.lists| == LISTS && j < |h.lists[k]| && 2 <= f <= 3
    requires h.lists[k][j] + f < |m|
    ensures Spares(h, m[h.lists[k][j] + f := v])
  {
    hide Good, ListFor, Tagged, Tiled, Filed, Spares;
    var i := ListedBox(h, loose, k, j);
    GoodBox(h, loose, i);
    TaggedSize(h.m, h.bs[i]);
    SparesAt(h, loose, m, i, h.lists[k][j] + f, v);
  }

  lemma AttachSpares(h: State, loose: set<nat>, i: nat)
    requires Good(h, loose) && Ready(h, i) && h.bs[i].use == 0
    ensures Spares(h, Attached(h, i).m)
  {
    hide Good, ListFor, Tagged, Tiled, Filed, Spares;
    SparesAll(h, loose);
    var a, k, m := h.bs[i].at, ListFor(h.bs[i].size), h.m;
    HeadIs(h, loose, k);
    GoodBox(h, loose, i);
    TaggedSize(m, h.bs[i]);
    SparesAt(h, loose, m, i, a + 2, 0);
    SparesAt(h, loose, m[a + 2 := 0], i, a + 3, h.fre[k]);
    if h.fre[k] != 0 {
      var q := ListedBox(h, loose, k, 0);
      GoodBox(h, loose, q);
      TaggedSize(m, h.bs[q]);
      SparesAt(h, loose, m[a + 2 := 0][a + 3 := h.fre[k]], q, h.fre[k] + 2, a);
    }
  }

  // Only the counted box changes.
  lemma CountKeeps(h: State, loose: set<nat>, i: nat, use: Word)
    requires Good(h, loose) && i < |h.bs| && h.bs[i].at + 1 < |h.m|
    ensures Keeps(Used(h.bs) - {h.bs[i]}, h.m, Counted(h, i, use).m)
  {
    hide Good, Tagged, Tiled, Filed, Splice;
    var m := h.m[h.bs[i].at + 1 := use];
    forall b | b in Used(h.bs) - {h.bs[i]} ensures SameBlock(h.m, m, b) {
      var q :| 0 <= q < |h.bs| && h.bs[q] == b;
      GoodBox(h, loose, q);
      TaggedSize(h.m, b);
      GoodApart(h, loose, i, q);
      GoodBox(h, loose, i);
      TaggedSize(h.m, h.bs[i]);
      assert m[b.at..b.at + b.size] == h.m[b.at..b.at + b.size];
    }
  }

  // ---- no two free boxes side by side ----

  ghost predicate Joined(bs: seq<Box>, q: nat) { q + 1 < |bs| ==> bs[q].use > 0 || bs[q + 1].use > 0 }

  ghost predicate Capped(bs: seq<Box>, north: bool) {
    |bs| > 0 ==> if north then bs[|bs| - 1].use > 0 else bs[0].use > 0
  }

  ghost predicate Coalesced(bs: seq<Box>, north: bool) {
    (forall q: nat :: Joined(bs, q)) && Capped(bs, north)
  }

  // The same but for free box `i`, with what is known of its neighbours.
  ghost predicate Nearly(bs: seq<Box>, north: bool, i: nat, low: bool, high: bool) {
    && i < |bs| && bs[i].use == 0
    && (forall q: nat :: q != i && q + 1 != i ==> Joined(bs, q))
    && ((if north then i + 1 == |bs| else i == 0) || Capped(bs, north))
    && (low && i > 0 ==> bs[i - 1].use > 0)
    && (high && i + 1 < |bs| ==> bs[i + 1].use > 0)
  }

  lemma CountNearly(bs: seq<Box>, north: bool, i: nat, b: Box)
    requires Coalesced(bs, north) && i < |bs| && b.use == 0
    ensures Nearly(Splice(bs, i, i + 1, [b]), north, i, false, false)
  {
    var t := Splice(bs, i, i + 1, [b]);
    assert t == bs[i := b];
    forall q: nat | q != i && q + 1 != i ensures Joined(t, q) { assert Joined(bs, q); }
  }

  lemma CountCoalesced(bs: seq<Box>, north: bool, i: nat, b: Box)
    requires Coalesced(bs, north) && i < |bs| && b.use > 0
    ensures Coalesced(Splice(bs, i, i + 1, [b]), north)
  {
    var t := Splice(bs, i, i + 1, [b]);
    assert t == bs[i := b];
    forall q: nat ensures Joined(t, q) { assert Joined(bs, q); }
  }

  // The free box below joins in.
  lemma LowNearly(bs: seq<Box>, north: bool, i: nat, high: bool, b: Box)
    requires Nearly(bs, north, i, false, high) && i > 0 && bs[i - 1].use == 0 && b.use == 0
    ensures Nearly(Splice(bs, i - 1, i + 1, [b]), north, i - 1, true, high) && (!north ==> i > 1)
  {
    var t := Splice(bs, i - 1, i + 1, [b]);
    assert |t| == |bs| - 1 && forall q :: 0 <= q < |t| ==> t[q] == if q < i - 1 then bs[q] else if q == i - 1 then b else bs[q + 1];
    forall q: nat | q != i - 1 && q + 1 != i - 1 ensures Joined(t, q) {
      if q < i - 1 { assert Joined(bs, q); } else { var p := q + 1; assert Joined(bs, p); }
    }
    if i > 1 { assert Joined(bs, i - 2); }
  }

  // The free box above joins in.
  lemma HighNearly(bs: seq<Box>, north: bool, i: nat, low: bool, b: Box)
    requires Nearly(bs, north, i, low, false) && i + 1 < |bs| && bs[i + 1].use == 0 && b.use == 0
    ensures Nearly(Splice(bs, i, i + 2, [b]), north, i, low, true) && (north ==> i + 2 < |bs|)
  {
    var t := Splice(bs, i, i + 2, [b]);
    assert |t| == |bs| - 1 && forall q :: 0 <= q < |t| ==> t[q] == if q < i then bs[q] else if q == i then b else bs[q + 1];
    forall q: nat | q != i && q + 1 != i ensures Joined(t, q) {
      if q < i { assert Joined(bs, q); } else { var p := q + 1; assert Joined(bs, p); }
    }
    if i + 2 < |bs| { var p := i + 1; assert Joined(bs, p); }
  }

  lemma NearlyDone(bs: seq<Box>, north: bool, i: nat)
    requires Nearly(bs, north, i, true, true) && (if north then i + 1 < |bs| else i > 0)
    ensures Coalesced(bs, north)
  {
    forall q: nat ensures Joined(bs, q) { }
  }

  lemma DropDone(bs: seq<Box>, north: bool, i: nat)
    requires Nearly(bs, north, i, true, true) && i == if north then |bs| - 1 else 0
    ensures Coalesced(Splice(bs, i, i + 1, []), north)
  {
    var t := Splice(bs, i, i + 1, []);
    assert if north then t == bs[..i] else t == bs[1..];
    forall q: nat ensures Joined(t, q) { var p := if north then q else q + 1; assert Joined(bs, p); }
  }

  lemma GrowDone(bs: seq<Box>, north: bool, b: Box)
    requires Coalesced(bs, north) && b.use > 0
    ensures if north then Coalesced(Splice(bs, |bs|, |bs|, [b]), north) else Coalesced(Splice(bs, 0, 0, [b]), north)
  {
    var i := if north then |bs| else 0;
    var t := Splice(bs, i, i, [b]);
    assert if north then t == bs + [b] else t == [b] + bs;
    forall q: nat ensures Joined(t, q) {
      if north { assert Joined(bs, q); } else if q > 0 { var p := q - 1; assert Joined(bs, p); }
    }
  }

  // A free box put to use, whole or in part.
  lemma CutDone(bs: seq<Box>, north: bool, i: nat, a: Box, b: Box)
    requires Coalesced(bs, north) && i < |bs| && bs[i].use == 0 && a.use > 0 && b.use == 0
    ensures Coalesced(Splice(bs, i, i + 1, [a, b]), north)
  {
    var t := Splice(bs, i, i + 1, [a, b]);
    assert |t| == |bs| + 1 && forall q :: 0 <= q < |t| ==> t[q] == if q < i then bs[q] else if q == i then a else if q == i + 1 then b else bs[q - 1];
    forall q: nat ensures Joined(t, q) {
      if q < i { assert Joined(bs, q); } else if q > i { var p := q - 1; assert Joined(bs, p); }
    }
  }

  lemma EndUsed(bs: seq<Box>, north: bool)
    requires |bs| > 0 && Capped(bs, north)
    ensures Used(bs) != {}
  {
    assert bs[if north then |bs| - 1 else 0] in Used(bs);
  }

  /** When nothing is in use the heap is empty and so are the free lists. */
  lemma AllFree(h: State, north: bool)
    requires Good(h, {}) && Coalesced(h.bs, north) && Used(h.bs) == {}
    ensures h.bs == [] && h.lo == h.hi && forall k :: 0 <= k < LISTS ==> h.lists[k] == [] && h.fre[k] == 0
  {
    hide Good, ListFor, Tagged, Filed;
    GoodFrame(h, {});
    if |h.bs| > 0 { EndUsed(h.bs, north); }
    forall k | 0 <= k < LISTS ensures h.lists[k] == [] && h.fre[k] == 0 {
      HeadIs(h, {}, k);
      if |h.lists[k]| > 0 { var i := ListedBox(h, {}, k, 0); }
    }
  }

  /** Boxes in use do not overlap. */
  lemma NoOverlap(h: State, loose: set<nat>, a: Box, b: Box)
    requires Good(h, loose) && a in Used(h.bs) && b in Used(h.bs) && a != b
    ensures a.at + a.size <= b.at || b.at + b.size <= a.at
  {
    hide Good;
    var i :| 0 <= i < |h.bs| && h.bs[i] == a;
    var j :| 0 <= j < |h.bs| && h.bs[j] == b;
    GoodApart(h, loose, i, j);
  }
}
