/** Heap boxes with sizes at both ends and doubly linked free lists threaded
    through the free ones. */
module FreeLists {
  import opened Heap

  const LISTS: nat := 27

  // The free list for boxes of a size: by halving down to 16.
  function ListFrom(siz: nat, i: nat): (r: nat)
    requires i <= LISTS
    ensures i < LISTS ==> i <= r < LISTS
    ensures i == LISTS ==> r == LISTS - 1
    decreases LISTS - i
  {
    if i == LISTS then i - 1 else if siz < 16 then i else ListFrom((siz + 1) / 2, i + 1)
  }

  function ListFor(siz: nat): (r: nat)
    ensures r < LISTS
  {
    if siz < MIN then 0 else ListFrom(siz, 1)
  }

  // The largest size on list `i`: 15, 30, 60, and so on.
  function Top(i: nat): nat
    requires i > 0
  {
    if i == 1 then 15 else 2 * Top(i - 1)
  }

  // The sizes a list is for: nothing below the minimum but on list 0, up to 15
  // on list 1, then up to twice as much from list to list, and the last list
  // takes all the rest.
  predicate OnList(siz: nat, k: nat) {
    && k < LISTS && (siz < MIN <==> k == 0)
    && (k > 1 ==> Top(k - 1) < siz) && (0 < k < LISTS - 1 ==> siz <= Top(k))
  }

  lemma {:induction false} TopMono(i: nat, j: nat)
    requires 0 < i <= j
    ensures Top(i) <= Top(j)
    decreases j
  {
    if i < j { TopMono(i, j - 1); }
  }

  // A size has one list, and larger sizes have later ones.
  lemma OnListMono(a: nat, k: nat, b: nat, l: nat)
    requires a <= b && OnList(a, k) && OnList(b, l)
    ensures k <= l
  {
    hide Top;
    if 0 < l < k { TopMono(l, k - 1); }
  }

  lemma {:induction false} ListFromRange(siz: nat, n: nat, i: nat, twos: nat)
    requires 0 < i <= LISTS && twos > 0 && 15 * twos == Top(i) && (i > 1 ==> Top(i - 1) < n)
    requires (siz - 1) * twos < n <= siz * twos
    ensures var r := ListFrom(siz, i); (r > 1 ==> Top(r - 1) < n) && (r < LISTS - 1 ==> n <= Top(r))
    decreases LISTS - i
  {
    if i < LISTS {
      if siz < 16 {
        assert siz * twos <= 15 * twos by { MulMono(siz, 15, twos); }
      } else {
        assert 15 * twos <= (siz - 1) * twos by { MulMono(15, siz - 1, twos); }
        HalfRange(siz, twos);
        ListFromRange((siz + 1) / 2, n, i + 1, 2 * twos);
      }
    }
  }

  lemma {:induction false} MulMono(a: nat, b: nat, c: nat)
    requires a <= b
    ensures a * c <= b * c
    decreases b
  {
    if a < b { MulMono(a, b - 1, c); }
  }

  // Halving the size and doubling the unit loses nothing.
  lemma HalfRange(siz: nat, twos: nat)
    requires siz > 0
    ensures siz * twos <= (siz + 1) / 2 * (2 * twos) && ((siz + 1) / 2 - 1) * (2 * twos) <= (siz - 1) * twos
  {
    var h := (siz + 1) / 2;
    assert h * (2 * twos) == (2 * h) * twos && (h - 1) * (2 * twos) == (2 * h - 2) * twos;
    MulMono(siz, 2 * h, twos);
    MulMono(2 * h - 2, siz - 1, twos);
  }

  /** Each size is on the list that is for it. */
  lemma ListForRange(siz: nat)
    ensures OnList(siz, ListFor(siz))
  {
    if siz >= MIN { ListFromRange(siz, siz, 1, 1); }
  }

  /** The free list for a size, by a loop that halves it. */
  method BoxSlot(size: nat) returns (r: nat)
    ensures OnList(size, r) && r == ListFor(size)
  {
    ListForRange(size);
    hide OnList;
    if size < MIN { return 0; }
    var siz, i := size, 1;
    while true
      invariant 1 <= i <= LISTS && ListFrom(siz, i) == ListFor(size)
      decreases LISTS - i
    {
      if i == LISTS { return i - 1; }
      if siz < 16 { return i; }
      siz, i := (siz + 1) / 2, i + 1;
    }
  }

  /** Boxes on a later list than the one for a size are larger than it. */
  lemma LaterFits(a: nat, b: nat)
    requires ListFor(a) < ListFor(b)
    ensures a < b
  {
    hide ListFor, OnList;
    ListForRange(a);
    ListForRange(b);
    if b <= a { OnListMono(b, ListFor(b), a, ListFor(a)); }
  }

  // ---- the heap ----

  /** Words and list heads as they are; boxes and lists as they are meant. */
  datatype State = State(m: seq<Word>, fre: seq<Word>, bs: seq<Box>, lists: seq<seq<nat>>, lo: nat, hi: nat)

  // Size at both ends, use count after the first.
  predicate Tagged(m: seq<Word>, b: Box) {
    && b.size >= MIN && b.at + b.size <= |m|
    && m[b.at] == b.size && m[b.at + 1] == b.use && m[b.at + b.size - 1] == b.size
  }

  function Nth(s: seq<nat>, j: int): nat { if 0 <= j < |s| then s[j] else 0 }

  // Free boxes keep the neighbours in their list in two words.
  predicate Node(m: seq<Word>, s: seq<nat>, j: nat)
    requires j < |s|
  {
    s[j] + 3 < |m| && m[s[j] + 2] == Nth(s, j - 1) && m[s[j] + 3] == Nth(s, j + 1)
  }

  ghost predicate Chain(m: seq<Word>, head: Word, s: seq<nat>) {
    head == Nth(s, 0) && forall j: nat :: j < |s| ==> Node(m, s, j)
  }

  // A free box of the right size.
  ghost predicate FreeAt(bs: seq<Box>, a: nat, k: nat) {
    exists i :: 0 <= i < |bs| && bs[i].at == a && bs[i].use == 0 && ListFor(bs[i].size) == k
  }

  ghost predicate Distinct(s: seq<nat>) {
    forall i, j :: 0 <= i < |s| && 0 <= j < |s| && s[i] == s[j] ==> i == j
  }

  // Every list holds free boxes of its sizes, each once, and none in `loose`.
  ghost predicate Listed(bs: seq<Box>, s: seq<nat>, k: nat, loose: set<nat>) {
    Distinct(s) && forall j :: 0 <= j < |s| ==> FreeAt(bs, s[j], k) && s[j] !in loose
  }

  // A free box is in its list unless it is loose.
  ghost predicate Filed(h: State, i: nat, loose: set<nat>)
    requires i < |h.bs| && |h.lists| == LISTS
  {
    h.bs[i].use == 0 ==> h.bs[i].at in loose || h.bs[i].at in h.lists[ListFor(h.bs[i].size)]
  }

  ghost predicate Good(h: State, loose: set<nat>) {
    && 0 < h.lo && Tiled(h.bs, h.lo, h.hi) && h.hi <= |h.m| < 0x1_0000_0000
    && (forall i :: 0 <= i < |h.bs| ==> Tagged(h.m, h.bs[i]))
    && |h.fre| == |h.lists| == LISTS
    && (forall k :: 0 <= k < LISTS ==> Chain(h.m, h.fre[k], h.lists[k]))
    && (forall k :: 0 <= k < LISTS ==> Listed(h.bs, h.lists[k], k, loose))
    && (forall i :: 0 <= i < |h.bs| ==> Filed(h, i, loose))
  }

  // ---- boxes do not overlap ----

  lemma SameBox(h: State, i: nat, j: nat)
    requires Tiled(h.bs, h.lo, h.hi) && i < |h.bs| && j < |h.bs| && h.bs[i].at == h.bs[j].at
    ensures i == j
  {
    if i < j { Ascending(h.bs, h.lo, h.hi, i, j); }
    if j < i { Ascending(h.bs, h.lo, h.hi, j, i); }
  }

  lemma Apart(h: State, i: nat, j: nat)
    requires Tiled(h.bs, h.lo, h.hi) && i < |h.bs| && j < |h.bs| && i != j
    ensures h.bs[i].at + h.bs[i].size <= h.bs[j].at || h.bs[j].at + h.bs[j].size <= h.bs[i].at
    ensures h.bs[i].size >= MIN && h.bs[j].size >= MIN
  {
    if i < j { Ascending(h.bs, h.lo, h.hi, i, j); } else { Ascending(h.bs, h.lo, h.hi, j, i); }
  }

  // A listed box, by its index.
  lemma ListedBox(h: State, loose: set<nat>, k: nat, j: nat) returns (i: nat)
    requires Good(h, loose) && k < LISTS && j < |h.lists[k]|
    ensures i < |h.bs| && h.bs[i].at == h.lists[k][j] && h.bs[i].use == 0 && ListFor(h.bs[i].size) == k
    ensures h.bs[i].at !in loose && h.bs[i].at > 0
  {
    assert Listed(h.bs, h.lists[k], k, loose);
    assert FreeAt(h.bs, h.lists[k][j], k);
    i :| 0 <= i < |h.bs| && h.bs[i].at == h.lists[k][j] && h.bs[i].use == 0 && ListFor(h.bs[i].size) == k;
    Inside(h.bs, h.lo, h.hi, i);
  }

  // ---- lists ----

  predicate Far(a: nat, b: nat) { a + MIN <= b || b + MIN <= a }

  // Distinct list entries are whole boxes apart.
  ghost predicate Spread(s: seq<nat>) {
    && (forall i :: 0 <= i < |s| ==> s[i] > 0)
    && forall i, j :: 0 <= i < |s| && 0 <= j < |s| && i != j ==> Far(s[i], s[j])
  }

  // A list whose nodes are not written to.
  lemma ChainFrame(m: seq<Word>, m': seq<Word>, head: Word, s: seq<nat>)
    requires Chain(m, head, s) && |m'| == |m|
    requires forall j :: 0 <= j < |s| ==> s[j] + 3 < |m| && m'[s[j] + 2] == m[s[j] + 2] && m'[s[j] + 3] == m[s[j] + 3]
    ensures Chain(m', head, s)
  {
    forall j: nat | j < |s| ensures Node(m', s, j) { assert Node(m, s, j); }
  }

  // Join the neighbours of a node.
  function Unhook(m: seq<Word>, pre: Word, nex: Word): (r: seq<Word>)
    requires (nex != 0 ==> nex + 2 < |m|) && (pre != 0 ==> pre + 3 < |m|)
    ensures |r| == |m|
  {
    var a := if nex != 0 then m[nex + 2 := pre] else m;
    if pre != 0 then a[pre + 3 := nex] else a
  }

  function Without(s: seq<nat>, j: nat): seq<nat>
    requires j < |s|
  {
    s[..j] + s[j + 1..]
  }

  // A node and its neighbours.
  lemma NodeLinks(m: seq<Word>, head: Word, s: seq<nat>, j: nat)
    requires Chain(m, head, s) && j < |s| && Spread(s)
    ensures s[j] + 3 < |m| && m[s[j] + 2] == Nth(s, j - 1) && m[s[j] + 3] == Nth(s, j + 1)
    ensures Nth(s, j + 1) != 0 ==> j + 1 < |s| && s[j + 1] + 3 < |m| && m[s[j + 1] + 2] == s[j]
    ensures Nth(s, j - 1) != 0 ==> j > 0 && s[j - 1] + 3 < |m| && m[s[j - 1] + 3] == s[j]
    ensures Nth(s, j - 1) == 0 ==> j == 0 && head == s[j]
    ensures Nth(s, j + 1) == 0 ==> j + 1 == |s|
  {
    assert Node(m, s, j);
    if j + 1 < |s| { assert Node(m, s, j + 1); }
    if j > 0 { assert Node(m, s, j - 1); }
  }

  lemma ChainDetach(m: seq<Word>, m': seq<Word>, head: Word, s: seq<nat>, j: nat)
    requires Chain(m, head, s) && j < |s| && Spread(s) && s[j] + 3 < |m|
    requires var pre, nex := m[s[j] + 2], m[s[j] + 3];
             (nex != 0 ==> nex + 2 < |m|) && (pre != 0 ==> pre + 3 < |m|) && m' == Unhook(m, pre, nex)
    ensures Chain(m', if m[s[j] + 2] == 0 then m[s[j] + 3] else head, Without(s, j))
  {
    NodeLinks(m, head, s, j);
    var t := Without(s, j);
    forall q: nat | q < |t| ensures Node(m', t, q) {
      var o := if q < j then q else q + 1;
      assert t[q] == s[o] && Node(m, s, o);
      assert Nth(t, q - 1) == (if o == j + 1 then Nth(s, j - 1) else Nth(s, o - 1));
      assert Nth(t, q + 1) == (if o == j - 1 then Nth(s, j + 1) else Nth(s, o + 1));
      if j + 1 < |s| && o != j + 1 { assert Far(s[o], s[j + 1]); }
      if j > 0 && o != j - 1 { assert Far(s[o], s[j - 1]); }
    }
  }

  // A node put in front.
  function Hook(m: seq<Word>, a: nat, head: Word): (r: seq<Word>)
    requires a + 3 < |m| < 0x1_0000_0000 && (head != 0 ==> head + 2 < |m|)
    ensures |r| == |m|
  {
    var n := m[a + 2 := 0][a + 3 := head];
    if head != 0 then n[head + 2 := a] else n
  }

  lemma ChainAttach(m: seq<Word>, head: Word, s: seq<nat>, a: nat)
    requires Chain(m, head, s) && Spread([a] + s) && a + 3 < |m| < 0x1_0000_0000
    ensures (head != 0 ==> head + 2 < |m|) && Chain(Hook(m, a, head), a, [a] + s)
  {
    if |s| > 0 { assert Node(m, s, 0); }
    assert forall j :: 0 <= j < |s| ==> ([a] + s)[j + 1] == s[j];
    var t, m' := [a] + s, Hook(m, a, head);
    assert head != 0 ==> |s| > 0 && head == s[0];
    assert |s| > 0 ==> t[1] == s[0] && s[0] > 0;
    forall q: nat | q < |t| ensures Node(m', t, q) {
      if q > 0 {
        assert t[q] == s[q - 1] && Node(m, s, q - 1) && Far(t[q], t[0]);
        if q > 1 { assert Far(t[q], t[1]); }
      } else if |s| > 0 {
        assert Far(t[0], t[1]);
      }
    }
  }

  // ---- lists in the heap ----

  lemma ListsFar(h: State, loose: set<nat>, k: nat, j: nat, k': nat, j': nat)
    requires Good(h, loose) && k < LISTS && j < |h.lists[k]| && k' < LISTS && j' < |h.lists[k']| && (k != k' || j != j')
    ensures Far(h.lists[k][j], h.lists[k'][j'])
  {
    hide ListFor, Good, Listed;
    var i := ListedBox(h, loose, k, j);
    var i' := ListedBox(h, loose, k', j');
    GoodLists(h, loose, k);
    if i != i' { GoodApart(h, loose, i, i'); }
  }

  lemma GoodLists(h: State, loose: set<nat>, k: nat)
    requires Good(h, loose) && k < LISTS
    ensures |h.lists| == |h.fre| == LISTS && Distinct(h.lists[k]) && Chain(h.m, h.fre[k], h.lists[k]) && Listed(h.bs, h.lists[k], k, loose)
  {
  }

  lemma GoodApart(h: State, loose: set<nat>, i: nat, j: nat)
    requires Good(h, loose) && i < |h.bs| && j < |h.bs| && i != j
    ensures h.bs[i].at + h.bs[i].size <= h.bs[j].at || h.bs[j].at + h.bs[j].size <= h.bs[i].at
    ensures h.bs[i].size >= MIN && h.bs[j].size >= MIN
  {
    Apart(h, i, j);
  }

  lemma GoodBox(h: State, loose: set<nat>, i: nat)
    requires Good(h, loose) && i < |h.bs|
    ensures Tagged(h.m, h.bs[i]) && h.bs[i].at > 0 && h.lo <= h.bs[i].at && h.bs[i].at + h.bs[i].size <= h.hi <= |h.m| < 0x1_0000_0000
    ensures Tiled(h.bs, h.lo, h.hi) && |h.lists| == LISTS && Filed(h, i, loose)
  {
    Inside(h.bs, h.lo, h.hi, i);
  }

  lemma ListSpread(h: State, loose: set<nat>, k: nat)
    requires Good(h, loose) && k < LISTS
    ensures |h.lists| == LISTS && Spread(h.lists[k])
  {
    hide ListFor, Good, Listed;
    GoodLists(h, loose, k);
    forall j | 0 <= j < |h.lists[k]| ensures h.lists[k][j] > 0 { var i := ListedBox(h, loose, k, j); }
    forall i, j | 0 <= i < |h.lists[k]| && 0 <= j < |h.lists[k]| && i != j ensures Far(h.lists[k][i], h.lists[k][j]) {
      ListsFar(h, loose, k, i, k, j);
    }
  }

  // The link words of a box are none of its tags.
  lemma LinkTags(h: State, loose: set<nat>, m: seq<Word>, i: nat, f: nat, v: Word)
    requires Good(h, loose) && i < |h.bs| && 2 <= f <= 3 && |m| == |h.m| && h.bs[i].at + f < |m|
    requires forall q :: 0 <= q < |h.bs| ==> Tagged(m, h.bs[q])
    ensures forall q :: 0 <= q < |h.bs| ==> Tagged(m[h.bs[i].at + f := v], h.bs[q])
  {
    hide Good;
    forall q | 0 <= q < |h.bs| ensures Tagged(m[h.bs[i].at + f := v], h.bs[q]) {
      assert Tagged(m, h.bs[q]);
      if q != i { GoodApart(h, loose, i, q); }
    }
  }

  // What a list node is, and its neighbours.
  lemma ListLinks(h: State, loose: set<nat>, k: nat, j: nat)
    requires Good(h, loose) && k < LISTS && j < |h.lists[k]|
    ensures |h.fre| == LISTS
    ensures var s, m := h.lists[k], h.m;
      && s[j] + 3 < |m| && m[s[j] + 2] == Nth(s, j - 1) && m[s[j] + 3] == Nth(s, j + 1)
      && (Nth(s, j + 1) != 0 ==> j + 1 < |s| && s[j + 1] + 3 < |m| && m[s[j + 1] + 2] == s[j])
      && (Nth(s, j - 1) != 0 ==> j > 0 && s[j - 1] + 3 < |m| && m[s[j - 1] + 3] == s[j])
      && (Nth(s, j - 1) == 0 ==> j == 0 && h.fre[k] == s[j])
      && (Nth(s, j + 1) == 0 ==> j + 1 == |s|)
  {
    hide Good;
    GoodLists(h, loose, k);
    ListSpread(h, loose, k);
    NodeLinks(h.m, h.fre[k], h.lists[k], j);
  }

  // A list entry with its links in bounds.
  ghost predicate Linked(h: State, k: nat, j: nat) {
    && k < LISTS && |h.fre| == |h.lists| == LISTS && j < |h.lists[k]| && h.lists[k][j] + 3 < |h.m|
    && var pre, nex := h.m[h.lists[k][j] + 2], h.m[h.lists[k][j] + 3];
    && (nex != 0 ==> nex + 2 < |h.m|) && (pre != 0 ==> pre + 3 < |h.m|)
  }

  lemma IsLinked(h: State, loose: set<nat>, k: nat, j: nat)
    requires Good(h, loose) && k < LISTS && j < |h.lists[k]|
    ensures Linked(h, k, j)
  {
    hide Good;
    GoodLists(h, loose, k);
    ListLinks(h, loose, k, j);
  }

  // The heap after a box has been taken out of its list.
  ghost function Detached(h: State, k: nat, j: nat): State
    requires Linked(h, k, j)
  {
    var pre, nex := h.m[h.lists[k][j] + 2], h.m[h.lists[k][j] + 3];
    State(Unhook(h.m, pre, nex), if pre == 0 then h.fre[k := nex] else h.fre, h.bs, h.lists[k := Without(h.lists[k], j)], h.lo, h.hi)
  }

  lemma DetachTags(h: State, loose: set<nat>, k: nat, j: nat)
    requires Good(h, loose) && Linked(h, k, j)
    ensures forall q :: 0 <= q < |h.bs| ==> Tagged(Detached(h, k, j).m, h.bs[q])
  {
    hide Good, ListFor, Tagged;
    ListLinks(h, loose, k, j);
    var s, m := h.lists[k], h.m;
    var pre, nex := m[s[j] + 2], m[s[j] + 3];
    forall q | 0 <= q < |h.bs| ensures Tagged(m, h.bs[q]) { GoodBox(h, loose, q); }
    if nex != 0 {
      var i := ListedBox(h, loose, k, j + 1);
      LinkTags(h, loose, m, i, 2, pre);
    }
    if pre != 0 {
      var i := ListedBox(h, loose, k, j - 1);
      LinkTags(h, loose, if nex != 0 then m[nex + 2 := pre] else m, i, 3, nex);
    }
  }

  lemma DetachChains(h: State, loose: set<nat>, k: nat, j: nat, q: nat)
    requires Good(h, loose) && Linked(h, k, j) && q < LISTS
    ensures var d := Detached(h, k, j); Chain(d.m, d.fre[q], d.lists[q])
  {
    hide Good, ListFor, Chain, Listed, Distinct;
    GoodLists(h, loose, k);
    GoodLists(h, loose, q);
    ListSpread(h, loose, k);
    ListLinks(h, loose, k, j);
    var d := Detached(h, k, j);
    if q == k {
      ChainDetach(h.m, d.m, h.fre[k], h.lists[k], j);
    } else {
      var s := h.lists[k];
      forall p | 0 <= p < |h.lists[q]|
        ensures h.lists[q][p] + 3 < |h.m| && d.m[h.lists[q][p] + 2] == h.m[h.lists[q][p] + 2] && d.m[h.lists[q][p] + 3] == h.m[h.lists[q][p] + 3]
      {
        ListLinks(h, loose, q, p);
        if j + 1 < |s| { ListsFar(h, loose, q, p, k, j + 1); }
        if j > 0 { ListsFar(h, loose, q, p, k, j - 1); }
      }
      ChainFrame(h.m, d.m, h.fre[q], h.lists[q]);
    }
  }

  lemma DetachListed(h: State, loose: set<nat>, k: nat, j: nat, q: nat)
    requires Good(h, loose) && k < LISTS && j < |h.lists[k]| && q < LISTS
    ensures Listed(h.bs, if q == k then Without(h.lists[k], j) else h.lists[q], q, loose + {h.lists[k][j]})
  {
    hide Good, ListFor, Chain, FreeAt;
    GoodLists(h, loose, k);
    GoodLists(h, loose, q);
    var s := if q == k then Without(h.lists[k], j) else h.lists[q];
    forall p | 0 <= p < |s| ensures s[p] != h.lists[k][j] {
      var o := if q == k && p >= j then p + 1 else p;
      ListsFar(h, loose, q, o, k, j);
    }
  }

  lemma DetachFiled(h: State, loose: set<nat>, k: nat, j: nat, i: nat)
    requires Good(h, loose) && Linked(h, k, j) && i < |h.bs|
    ensures Filed(Detached(h, k, j), i, loose + {h.lists[k][j]})
  {
    hide Good, ListFor;
    GoodBox(h, loose, i);
    var s, a := h.lists[k], h.bs[i].at;
    if a in s && a != s[j] {
      var p :| 0 <= p < |s| && s[p] == a;
      assert a in Without(s, j) by { assert Without(s, j)[if p < j then p else p - 1] == a; }
    }
  }

  // The parts of a good heap.
  lemma MakeGood(h: State, loose: set<nat>)
    requires 0 < h.lo && Tiled(h.bs, h.lo, h.hi) && h.hi <= |h.m| < 0x1_0000_0000 && |h.fre| == |h.lists| == LISTS
    requires forall i :: 0 <= i < |h.bs| ==> Tagged(h.m, h.bs[i]) && Filed(h, i, loose)
    requires forall k :: 0 <= k < LISTS ==> Chain(h.m, h.fre[k], h.lists[k]) && Listed(h.bs, h.lists[k], k, loose)
    ensures Good(h, loose)
  {
    hide Tiled, Tagged, Filed, Chain, Listed;
  }

  lemma GoodFrame(h: State, loose: set<nat>)
    requires Good(h, loose)
    ensures 0 < h.lo <= h.hi && Tiled(h.bs, h.lo, h.hi) && h.hi <= |h.m| < 0x1_0000_0000 && |h.fre| == |h.lists| == LISTS
  {
  }

  /** Taking a box out of its list leaves it loose and all else in order. */
  lemma DetachGood(h: State, loose: set<nat>, k: nat, j: nat)
    requires Good(h, loose) && k < LISTS && j < |h.lists[k]|
    ensures Linked(h, k, j) && Good(Detached(h, k, j), loose + {h.lists[k][j]})
  {
    hide Good, ListFor, Chain, Listed, Tagged, Filed, Tiled;
    IsLinked(h, loose, k, j);
    DetachTags(h, loose, k, j);
    GoodFrame(h, loose);
    var d, more := Detached(h, k, j), loose + {h.lists[k][j]};
    forall q | 0 <= q < LISTS ensures Chain(d.m, d.fre[q], d.lists[q]) && Listed(d.bs, d.lists[q], q, more) {
      DetachChains(h, loose, k, j, q);
      DetachListed(h, loose, k, j, q);
    }
    forall i | 0 <= i < |h.bs| ensures Filed(d, i, more) { DetachFiled(h, loose, k, j, i); }
    MakeGood(d, more);
  }

  // A box that is in no list is far from those that are.
  lemma BoxFar(h: State, loose: set<nat>, i: nat, k: nat, j: nat)
    requires Good(h, loose) && i < |h.bs| && k < LISTS && j < |h.lists[k]| && (h.bs[i].use > 0 || h.bs[i].at in loose)
    ensures h.lists[k][j] + 3 < |h.m| && h.lists[k][j] > 0
    ensures h.lists[k][j] + MIN <= h.bs[i].at || h.bs[i].at + h.bs[i].size <= h.lists[k][j]
    ensures Far(h.bs[i].at, h.lists[k][j])
  {
    hide Good, ListFor, Tagged, Tiled, Filed;
    var q := ListedBox(h, loose, k, j);
    ListLinks(h, loose, k, j);
    GoodApart(h, loose, i, q);
  }

  // A head that can be linked to.
  ghost predicate Ready(h: State, i: nat) {
    && i < |h.bs| && |h.fre| == |h.lists| == LISTS && h.bs[i].at + 3 < |h.m| < 0x1_0000_0000
    && var head := h.fre[ListFor(h.bs[i].size)]; (head != 0 ==> head + 2 < |h.m|)
  }

  // The heap after a box has been put in its list.
  ghost function Attached(h: State, i: nat): State
    requires Ready(h, i)
  {
    var a, k := h.bs[i].at, ListFor(h.bs[i].size);
    State(Hook(h.m, a, h.fre[k]), h.fre[k := a], h.bs, h.lists[k := [a] + h.lists[k]], h.lo, h.hi)
  }

  lemma IsReady(h: State, loose: set<nat>, i: nat)
    requires Good(h, loose) && i < |h.bs|
    ensures Ready(h, i)
  {
    hide Good, ListFor, Chain, Listed, Tagged, Filed, Tiled;
    GoodFrame(h, loose);
    var k := ListFor(h.bs[i].size);
    HeadIs(h, loose, k);
    GoodBox(h, loose, i);
    TaggedSize(h.m, h.bs[i]);
    if h.fre[k] != 0 { ListLinks(h, loose, k, 0); }
  }

  lemma HeadIs(h: State, loose: set<nat>, k: nat)
    requires Good(h, loose) && k < LISTS
    ensures |h.fre| == |h.lists| == LISTS && h.fre[k] == Nth(h.lists[k], 0)
  {
  }

  lemma TaggedSize(m: seq<Word>, b: Box)
    requires Tagged(m, b)
    ensures b.size >= MIN && b.at + b.size <= |m| && m[b.at] == b.size && m[b.at + 1] == b.use && m[b.at + b.size - 1] == b.size
  {
  }

  lemma AttachTags(h: State, loose: set<nat>, i: nat)
    requires Good(h, loose) && Ready(h, i)
    ensures forall q :: 0 <= q < |h.bs| ==> Tagged(Attached(h, i).m, h.bs[q])
  {
    hide Good, ListFor, Tagged;
    var a, k, m := h.bs[i].at, ListFor(h.bs[i].size), h.m;
    HeadIs(h, loose, k);
    forall q | 0 <= q < |h.bs| ensures Tagged(m, h.bs[q]) { GoodBox(h, loose, q); }
    LinkTags(h, loose, m, i, 2, 0);
    LinkTags(h, loose, m[a + 2 := 0], i, 3, h.fre[k]);
    if h.fre[k] != 0 {
      var q := ListedBox(h, loose, k, 0);
      LinkTags(h, loose, m[a + 2 := 0][a + 3 := h.fre[k]], q, 2, a);
    }
  }

  lemma AttachChains(h: State, loose: set<nat>, i: nat, q: nat)
    requires Good(h, loose) && Ready(h, i) && h.bs[i].at in loose && q < LISTS
    ensures var d := Attached(h, i); Chain(d.m, d.fre[q], d.lists[q])
  {
    hide Good, ListFor, Chain, Listed, Distinct, Tiled, Tagged, Filed;
    var d, a, k := Attached(h, i), h.bs[i].at, ListFor(h.bs[i].size);
    GoodLists(h, loose, k);
    GoodLists(h, loose, q);
    HeadIs(h, loose, k);
    if q == k {
      AttachSpread(h, loose, i, k);
      ChainAttach(h.m, h.fre[k], h.lists[k], a);
    } else {
      forall p | 0 <= p < |h.lists[q]|
        ensures h.lists[q][p] + 3 < |h.m| && d.m[h.lists[q][p] + 2] == h.m[h.lists[q][p] + 2] && d.m[h.lists[q][p] + 3] == h.m[h.lists[q][p] + 3]
      {
        BoxFar(h, loose, i, q, p);
        if h.fre[k] != 0 { ListsFar(h, loose, q, p, k, 0); }
      }
      ChainFrame(h.m, d.m, h.fre[q], h.lists[q]);
    }
  }

  lemma AttachSpread(h: State, loose: set<nat>, i: nat, k: nat)
    requires Good(h, loose) && i < |h.bs| && h.bs[i].at in loose && k < LISTS
    ensures |h.lists| == LISTS && Spread([h.bs[i].at] + h.lists[k])
  {
    hide Good, ListFor, Tagged, Tiled, Filed;
    ListSpread(h, loose, k);
    GoodBox(h, loose, i);
    var t := [h.bs[i].at] + h.lists[k];
    forall p, q | 0 <= p < |t| && 0 <= q < |t| && p != q ensures Far(t[p], t[q]) {
      if p == 0 { BoxFar(h, loose, i, k, q - 1); }
      else if q == 0 { BoxFar(h, loose, i, k, p - 1); }
      else { assert Far(h.lists[k][p - 1], h.lists[k][q - 1]); }
    }
  }

  lemma AttachListed(h: State, loose: set<nat>, i: nat, q: nat)
    requires Good(h, loose) && Ready(h, i) && h.bs[i].at in loose && h.bs[i].use == 0 && q < LISTS
    ensures Listed(h.bs, Attached(h, i).lists[q], q, loose - {h.bs[i].at})
  {
    hide Good, ListFor, Chain, Tagged, Filed, Tiled, Hook;
    GoodLists(h, loose, q);
    if q == ListFor(h.bs[i].size) {
      AttachSpread(h, loose, i, q);
      var t, s := Attached(h, i).lists[q], h.lists[q];
      assert FreeAt(h.bs, t[0], q) by { assert h.bs[i].at == t[0]; }
      forall p | 0 <= p < |t| ensures FreeAt(h.bs, t[p], q) {
        if p > 0 { assert t[p] == s[p - 1]; }
      }
      forall p, p' | 0 <= p < |t| && 0 <= p' < |t| && t[p] == t[p'] ensures p == p' {
        assert p == p' || Far(t[p], t[p']);
      }
    }
  }

  lemma AttachFiled(h: State, loose: set<nat>, i: nat, q: nat)
    requires Good(h, loose) && Ready(h, i) && q < |h.bs|
    ensures Filed(Attached(h, i), q, loose - {h.bs[i].at})
  {
    hide Good, ListFor, Tagged, Tiled, Hook;
    GoodBox(h, loose, q);
    GoodBox(h, loose, i);
    if h.bs[q].at == h.bs[i].at { SameBox(h, q, i); }
  }

  /** Putting a loose box in its list leaves all in order. */
  lemma AttachGood(h: State, loose: set<nat>, i: nat)
    requires Good(h, loose) && i < |h.bs| && h.bs[i].use == 0 && h.bs[i].at in loose
    ensures Ready(h, i) && Good(Attached(h, i), loose - {h.bs[i].at})
  {
    hide Good, ListFor, Chain, Listed, Tagged, Filed, Tiled, Hook;
    IsReady(h, loose, i);
    AttachTags(h, loose, i);
    GoodFrame(h, loose);
    var d, less := Attached(h, i), loose - {h.bs[i].at};
    forall q | 0 <= q < LISTS ensures Chain(d.m, d.fre[q], d.lists[q]) && Listed(d.bs, d.lists[q], q, less) {
      AttachChains(h, loose, i, q);
      AttachListed(h, loose, i, q);
    }
    forall q | 0 <= q < |h.bs| ensures Filed(d, q, less) { AttachFiled(h, loose, i, q); }
    MakeGood(d, less);
  }

  // ---- other boxes, same lists ----

  // A free box that stays in its list.
  ghost predicate Stays(h: State, loose: set<nat>, b: Box) { b in h.bs && b.use == 0 && b.at !in loose }

  // The words that listed boxes keep their links in.
  ghost predicate SameLinks(h: State, m: seq<Word>) {
    |m| == |h.m| && forall k, j :: 0 <= k < |h.lists| && 0 <= j < |h.lists[k]| ==> SameLink(h.m, m, h.lists[k][j])
  }

  predicate SameLink(m: seq<Word>, m': seq<Word>, a: nat) {
    a + 3 < |m| == |m'| && m'[a + 2] == m[a + 2] && m'[a + 3] == m[a + 3]
  }

  /** Boxes may be cut up, joined and dropped as long as listed ones stay and
      the ones that become free are loose. */
  lemma Rebox(h: State, loose: set<nat>, n: State, loose': set<nat>)
    requires Good(h, loose) && n.fre == h.fre && n.lists == h.lists && SameLinks(h, n.m)
    requires 0 < n.lo && Tiled(n.bs, n.lo, n.hi) && n.hi <= |n.m| && forall i :: 0 <= i < |n.bs| ==> Tagged(n.m, n.bs[i])
    requires forall b :: Stays(h, loose, b) ==> b in n.bs && b.at !in loose'
    requires forall b :: b in n.bs && b.use == 0 && b.at !in loose' ==> Stays(h, loose, b)
    ensures Good(n, loose')
  {
    hide Good, ListFor, Chain, Tagged, Tiled;
    GoodFrame(h, loose);
    forall k | 0 <= k < LISTS ensures Chain(n.m, n.fre[k], n.lists[k]) && Listed(n.bs, n.lists[k], k, loose') {
      GoodLists(h, loose, k);
      ReboxListed(h, loose, n, loose', k);
      forall j | 0 <= j < |h.lists[k]|
        ensures h.lists[k][j] + 3 < |h.m| && n.m[h.lists[k][j] + 2] == h.m[h.lists[k][j] + 2] && n.m[h.lists[k][j] + 3] == h.m[h.lists[k][j] + 3]
      {
        assert SameLink(h.m, n.m, h.lists[k][j]);
      }
      ChainFrame(h.m, n.m, h.fre[k], h.lists[k]);
    }
    forall i | 0 <= i < |n.bs| ensures Filed(n, i, loose') {
      if n.bs[i].use == 0 && n.bs[i].at !in loose' {
        assert Stays(h, loose, n.bs[i]);
        var q :| 0 <= q < |h.bs| && h.bs[q] == n.bs[i];
        GoodBox(h, loose, q);
      }
    }
    MakeGood(n, loose');
  }

  lemma ReboxListed(h: State, loose: set<nat>, n: State, loose': set<nat>, k: nat)
    requires Good(h, loose) && n.lists == h.lists && k < LISTS
    requires forall b :: Stays(h, loose, b) ==> b in n.bs && b.at !in loose'
    ensures Listed(n.bs, n.lists[k], k, loose')
  {
    hide Good, ListFor, Chain, Tagged, Tiled, Filed;
    GoodLists(h, loose, k);
    forall j | 0 <= j < |n.lists[k]| ensures FreeAt(n.bs, n.lists[k][j], k) && n.lists[k][j] !in loose' {
      var i := ListedBox(h, loose, k, j);
      assert Stays(h, loose, h.bs[i]);
      var q :| 0 <= q < |n.bs| && n.bs[q] == h.bs[i];
    }
  }
}
