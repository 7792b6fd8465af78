/** Compaction of a north heap in place: find new places, rewrite every
    reference that can be reached, slide the boxes down. */
module Pack {
  import opened Nouns
  import opened Heap

  // use_w |= 0x80000000 and use_w &= 0x7fffffff
  function SetBit(w: Word): Word { if w < PUG then w + PUG else w }
  function ClearBit(w: Word): Word { w % PUG }

  // An offset as an indirect atom or a cell.
  function ToPug(off: nat): Word { if off < MASK then off + PUG else 0 }
  function ToPom(off: nat): Word { if off < MASK then off + POM else 0 }

  // The words of a box.
  function Words(m: seq<Word>, b: Box): (r: seq<Word>)
    requires b.at + b.size <= |m|
    ensures |r| == b.size
  {
    m[b.at..b.at + b.size]
  }

  /** A heap to be packed: its boxes, which of them are cells, and its words. */
  datatype Scene = Scene(m: seq<Word>, bs: seq<Box>, rut: nat, hat: nat, cells: set<nat>)

  ghost predicate Laid(g: Scene) {
    && Tiled(g.bs, g.rut, g.hat) && g.hat <= |g.m| <= MASK
    && (forall i :: 0 <= i < |g.bs| ==> g.bs[i].use < PUG)
    && AllHeaded(g.m, g.bs)
  }

  lemma Fits(g: Scene, i: nat)
    requires Laid(g) && i < |g.bs|
    ensures g.rut <= g.bs[i].at && g.bs[i].at + g.bs[i].size <= |g.m|
  {
    Inside(g.bs, g.rut, g.hat, i);
  }

  // The words in use before box `i`.
  function Live(bs: seq<Box>, i: nat): nat
    requires i <= |bs|
  {
    if i == 0 then 0 else Live(bs, i - 1) + if bs[i - 1].use > 0 then bs[i - 1].size else 0
  }

  // Where box `i` goes.
  function NewAt(g: Scene, i: nat): nat
    requires i <= |g.bs|
  {
    g.rut + Live(g.bs, i)
  }

  // Boxes only move down.
  lemma {:induction false} Down(g: Scene, i: nat)
    requires Laid(g) && i < |g.bs|
    ensures NewAt(g, i) <= g.bs[i].at
    decreases i
  {
    if i > 0 {
      Down(g, i - 1);
      assert g.bs[i - 1].at + g.bs[i - 1].size == g.bs[i].at;
    }
  }

  lemma {:induction false} LiveMono(bs: seq<Box>, i: nat, j: nat)
    requires i <= j <= |bs|
    ensures Live(bs, i) <= Live(bs, j)
    ensures i < j && bs[i].use > 0 ==> Live(bs, i) + bs[i].size <= Live(bs, j)
    decreases j
  {
    if i < j { LiveMono(bs, i, j - 1); }
  }

  // ---- references into the heap ----

  // The box a reference points to.
  ghost predicate Hits(g: Scene, som: Word, i: nat) {
    i < |g.bs| && g.bs[i].use > 0 && Off(som) == g.bs[i].at + 2
  }

  ghost function Target(g: Scene, som: Word): nat {
    if i: nat :| Hits(g, som, i) then i else 0
  }

  /** A reference as the tracer expects it: to a box in use, cells to cells,
      and atoms to boxes that are not cells and hold all their words. */
  ghost predicate Sound(g: Scene, som: Word) {
    IsCat(som) ||
    var i := Target(g, som);
    && Hits(g, som, i)
    && (if IsPom(som) then i in g.cells
        else i !in g.cells && g.bs[i].at + 3 < |g.m| && g.m[g.bs[i].at + 3] + 5 <= g.bs[i].size)
  }

  // All cells hold sound references.
  ghost predicate Closed(g: Scene) {
    forall i :: i in g.cells ==>
      && 0 <= i < |g.bs| && g.bs[i].use > 0 && g.bs[i].at + 4 < |g.m|
      && Sound(g, g.m[g.bs[i].at + 3]) && Sound(g, g.m[g.bs[i].at + 4])
  }

  // Where a reference points after the move.
  ghost function New(g: Scene, som: Word): Word {
    if IsCat(som) then som else
    var i := Target(g, som);
    if i >= |g.bs| then som
    else if IsPug(som) then ToPug(NewAt(g, i) + 2) else ToPom(NewAt(g, i) + 2)
  }

  // ---- seek ----

  // A box with its new place in its last word.
  ghost predicate Sought(g: Scene, m: seq<Word>, i: nat)
    requires i < |g.bs|
  {
    && g.bs[i].at + g.bs[i].size <= |g.m| == |m| && g.bs[i].size >= MIN && NewAt(g, i) + 2 < 0x1_0000_0000
    && Words(m, g.bs[i]) == if g.bs[i].use > 0 then Words(g.m, g.bs[i])[g.bs[i].size - 1 := NewAt(g, i) + 2] else Words(g.m, g.bs[i])
  }

  ghost predicate Unmoved(g: Scene, m: seq<Word>, i: nat)
    requires i < |g.bs|
  {
    g.bs[i].at + g.bs[i].size <= |g.m| == |m| && Words(m, g.bs[i]) == Words(g.m, g.bs[i])
  }

  // One word of box `i` written; the other boxes are as they were.
  lemma SetWord(g: Scene, m: seq<Word>, i: nat, k: nat, v: Word)
    requires Laid(g) && |m| == |g.m| && i < |g.bs| && k < g.bs[i].size
    ensures g.bs[i].at + g.bs[i].size <= |m|
    ensures var m' := m[g.bs[i].at + k := v];
            && Words(m', g.bs[i]) == Words(m, g.bs[i])[k := v]
            && forall j :: 0 <= j < |g.bs| && j != i ==> g.bs[j].at + g.bs[j].size <= |m| && Words(m', g.bs[j]) == Words(m, g.bs[j])
  {
    Fits(g, i);
    var m' := m[g.bs[i].at + k := v];
    forall j | 0 <= j < |g.bs| && j != i ensures g.bs[j].at + g.bs[j].size <= |m| && Words(m', g.bs[j]) == Words(m, g.bs[j]) {
      Fits(g, j);
      if i < j { Ascending(g.bs, g.rut, g.hat, i, j); } else { Ascending(g.bs, g.rut, g.hat, j, i); }
    }
  }

  // Reading through a box.
  lemma WordAt(m: seq<Word>, b: Box, k: nat)
    requires b.at + b.size <= |m| && k < b.size
    ensures m[b.at + k] == Words(m, b)[k]
  {
  }

  /** The road: its words, its heap from `rut` to `hat`, the references held
      outside the heap, and the free lists. */
  class Road {
    const words: array<Word>
    const rut: nat
    var hat: nat
    var roots: seq<Word>
    var fre: seq<nat>
    var cel: nat

    constructor (w: array<Word>, lo: nat, hi: nat, refs: seq<Word>)
      ensures words == w && rut == lo && hat == hi && roots == refs
    {
      words, rut, hat, roots := w, lo, hi, refs;
      fre, cel := [], 0;
    }

    method Set(x: nat, v: Word)
      requires x < words.Length
      modifies words
      ensures words[..] == old(words[..])[x := v]
    {
      words[x] := v;
    }

    /** Sweep the heap and write into each box where it will go. */
    method Seek(ghost g: Scene)
      requires Laid(g) && words[..] == g.m && rut == g.rut && hat == g.hat
      modifies words
      ensures words.Length == |g.m| && forall i :: 0 <= i < |g.bs| ==> Sought(g, words[..], i)
    {
      hide Laid, Sought, Unmoved, NewAt, Tiled;
      LaidSize(g);
      var box, dstp := rut, rut + 2;
      ghost var i := 0;
      SeekStart(g);
      while box < hat
        invariant i <= |g.bs| && words.Length == |g.m| && box == (if i < |g.bs| then g.bs[i].at else hat) && hat == g.hat
        invariant dstp == NewAt(g, i) + 2
        invariant forall j :: 0 <= j < i ==> Sought(g, words[..], j)
        invariant forall j :: i <= j < |g.bs| ==> Unmoved(g, words[..], j)
        decreases hat - box
      {
        ghost var was := words[..];
        AtBox(g, was, i);
        var siz := words[box];
        if words[box + 1] > 0 {
          Set(box + siz - 1, dstp);
          SeekOne(g, was, words[..], i);
          dstp := dstp + siz;
        } else {
          SeekNone(g, was, i);
        }
        box := box + siz;
        i := i + 1;
      }
      SeekEnd(g, box, i);
    }

    /** Where the box of a reference will be. */
    method Rewritten(ghost g: Scene, som: Word, ghost marked: set<nat>, ghost open: set<nat>) returns (r: Word)
      requires Laid(g) && State(g, words[..], marked, open) && Sound(g, som)
      ensures r == New(g, som)
    {
      hide Laid, State, NewAt, Sound, New;
      if IsCat(som) { NewCat(g, som); return som; }
      ghost var i := Target(g, som);
      SoundBox(g, som);
      StateWords(g, words[..], marked, open, i);
      var box := Off(som) - 2;
      var off := words[box + words[box] - 1];
      r := if IsPug(som) then ToPug(off) else ToPom(off);
    }

    /** Mark the cells a reference leads to, and rewrite what they hold. */
    method RewriteNoun(ghost g: Scene, som: Word, ghost marked: set<nat>, ghost open: set<nat>) returns (ghost marked': set<nat>)
      requires Laid(g) && Closed(g) && State(g, words[..], marked, open) && Sound(g, som)
      modifies words
      ensures State(g, words[..], marked', open) && marked <= marked'
      ensures Into(g, som, marked') && Traced(g, marked, marked')
      decreases |g.cells - marked|
    {
      hide Laid, State, NewAt, Sound, Closed, New, Traced, Into, IsPom, Off, Target, SetBit;
      LeadsInto(g, som, marked);
      if !IsPom(som) { return marked; }
      ghost var i := Target(g, som);
      SoundPom(g, som);
      StateWords(g, words[..], marked, open, i);
      StateMarked(g, words[..], marked, open, i);
      var box := Off(som) - 2;
      if words[box + 1] >= PUG { return marked; }
      Fewer(g.cells, marked, i);
      ghost var was := words[..];
      Set(box + 1, SetBit(words[box + 1]));
      MarkOne(g, was, words[..], marked, open, i);
      ghost var more, begun := marked + {i}, open + {i};
      CellSound(g, i);
      CellFields(g, words[..], more, begun, i);
      marked' := RewriteNoun(g, words[box + 3], more, begun);
      CellFields(g, words[..], marked', begun, i);
      FewerStill(g.cells, more, marked');
      ghost var mid := marked';
      marked' := RewriteNoun(g, words[box + 4], marked', begun);
      CellFields(g, words[..], marked', begun, i);
      var hed := Rewritten(g, words[box + 3], marked', begun);
      var tel := Rewritten(g, words[box + 4], marked', begun);
      ghost var last := words[..];
      Set(box + 3, hed);
      Set(box + 4, tel);
      CloseOne(g, last, words[..], marked', open, i);
      TracedCell(g, marked, i, mid, marked');
      LeadsInto(g, som, marked');
    }

    // Copy `n` words down, one after another; the places may overlap.
    method Slide(from: nat, to: nat, n: nat)
      requires to < from && from + n <= words.Length
      modifies words
      ensures words[..] == Slid(old(words[..]), from, to, n)
    {
      hide Slid;
      var k := 0;
      SlidNone(words[..], from, to);
      while k < n
        invariant k <= n && words[..] == Slid(old(words[..]), from, to, k)
      {
        SlidStep(old(words[..]), from, to, k);
        Set(to + k, words[from + k]);
        k := k + 1;
      }
    }

    // Slide one box, if it is in use.
    method MoveBox(ghost g: Scene, ghost marked: set<nat>, ghost i: nat, box: nat, dstp: nat) returns (box': nat, dstp': nat)
      requires Laid(g) && i < |g.bs| && words.Length == |g.m| && box == g.bs[i].at && dstp == NewAt(g, i) + 2
      requires forall j :: 0 <= j < i && g.bs[j].use > 0 ==> Settled(g, words[..], j, j in marked)
      requires forall j :: i <= j < |g.bs| ==> Boxed(g, words[..], j, j in marked, j in marked)
      modifies words
      ensures box' == box + g.bs[i].size && dstp' == NewAt(g, i + 1) + 2
      ensures forall j :: 0 <= j < i + 1 && g.bs[j].use > 0 ==> Settled(g, words[..], j, j in marked)
      ensures forall j :: i + 1 <= j < |g.bs| ==> Boxed(g, words[..], j, j in marked, j in marked)
    {
      hide Laid, NewAt, Settled, Boxed, Tiled, Slid, ClearBit, Shifted, Words;
      ghost var was := words[..];
      AtBlock(g, was, i, i in marked);
      var siz := words[box];
      var use := ClearBit(words[box + 1]);
      Set(box + 1, use);
      ghost var clear := words[..];
      box', dstp' := box + siz, dstp;
      if use > 0 {
        var dst := dstp - 2;
        assert words[box + siz - 1] == dstp;
        if dst < box {
          Slide(box, dst, siz - 1);
        }
        Set(dst + siz - 1, siz);
        ShiftedIs(clear, words[..], box, dst, siz);
        MoveOne(g, was, clear, words[..], i, marked);
        dstp' := dstp + siz;
      } else {
        MoveNone(g, was, clear, i, marked);
      }
    }

    /** Sweep the heap again and slide every box in use to its new place. */
    method Move(ghost g: Scene, ghost marked: set<nat>)
      requires Laid(g) && State(g, words[..], marked, {}) && rut == g.rut && hat == g.hat
      modifies words, this`hat
      ensures words.Length == |g.m| && hat == NewAt(g, |g.bs|)
      ensures forall i :: 0 <= i < |g.bs| && g.bs[i].use > 0 ==> Settled(g, words[..], i, i in marked)
    {
      hide Laid, State, NewAt, Settled, Boxed, Tiled, Slid, ClearBit, Shifted, Words;
      LaidSize(g);
      StateSize(g, words[..], marked, {});
      var box, dstp, end := rut, rut + 2, hat;
      ghost var i := 0;
      SeekStart(g);
      ghost var begin := words[..];
      while box < end
        invariant i <= |g.bs| && words.Length == |g.m| && box == (if i < |g.bs| then g.bs[i].at else end) && end == g.hat
        invariant dstp == NewAt(g, i) + 2
        invariant forall j :: 0 <= j < i && g.bs[j].use > 0 ==> Settled(g, words[..], j, j in marked)
        invariant forall j :: i <= j < |g.bs| ==> Boxed(g, words[..], j, j in marked, j in marked)
        decreases |g.bs| - i
      {
        AtBlock(g, words[..], i, i in marked);
        box, dstp := MoveBox(g, marked, i, box, dstp);
        i := i + 1;
      }
      SeekEnd(g, box, i);
      hat := dstp - 2;
    }

    /** Compact the heap. Every reference held outside denotes what it did,
        and the boxes in use stand side by side with their use counts. */
    method Compact(ghost g: Scene)
      requires Laid(g) && Closed(g) && words[..] == g.m && rut == g.rut && hat == g.hat
      requires forall r :: 0 <= r < |roots| ==> Sound(g, roots[r])
      modifies this, words
      ensures |roots| == |old(roots)|
      ensures forall r, n :: 0 <= r < |roots| && Denotes(g.m, old(roots)[r], n) ==> Denotes(words[..], roots[r], n)
      ensures Tiled(Kept(g, |g.bs|), rut, hat) && AllHeaded(words[..], Kept(g, |g.bs|)) && AllFooted(words[..], Kept(g, |g.bs|))
      ensures fre == seq(27, _ => 0) && cel == 0
    {
      hide Laid, Closed, Sound, Sought, State, Settled, NewAt, New, Denotes, Tiled, Traced;
      Seek(g);
      StateStart(g, words[..]);
      var r := 0;
      ghost var marked: set<nat>, refs := {}, roots;
      LeadsInto(g, 0, {});
      while r < |roots|
        invariant r <= |roots| == |refs| && hat == g.hat
        invariant State(g, words[..], marked, {}) && Traced(g, {}, marked)
        invariant forall q :: 0 <= q < r ==> roots[q] == New(g, refs[q]) && Into(g, refs[q], marked)
        invariant forall q :: r <= q < |roots| ==> roots[q] == refs[q]
      {
        ghost var was := marked;
        marked := RewriteNoun(g, roots[r], marked, {});
        TracedMore(g, was, marked);
        var ref := Rewritten(g, roots[r], marked, {});
        roots := roots[r := ref];
        r := r + 1;
      }
      StateCells(g, words[..], marked);
      Move(g, marked);
      fre, cel := seq(27, _ => 0), 0;
      forall q, n | 0 <= q < |roots| && Denotes(g.m, refs[q], n) ensures Denotes(words[..], roots[q], n) {
        Preserved(g, words[..], marked, refs[q], n);
      }
      KeptTiled(g, |g.bs|);
      KeptHeaded(g, words[..], marked, |g.bs|);
    }
  }

  // ---- what compaction leaves ----

  // The boxes in use, in their new places.
  ghost function Kept(g: Scene, i: nat): seq<Box>
    requires i <= |g.bs|
  {
    if i == 0 then []
    else if g.bs[i - 1].use == 0 then Kept(g, i - 1)
    else Kept(g, i - 1) + [Box(NewAt(g, i - 1), g.bs[i - 1].size, g.bs[i - 1].use)]
  }

  // The last word of a box is its size again.
  predicate Footed(m: seq<Word>, b: Box) {
    0 < b.size && b.at + b.size <= |m| && m[b.at + b.size - 1] == b.size
  }

  ghost predicate AllFooted(m: seq<Word>, bs: seq<Box>) {
    forall i :: 0 <= i < |bs| ==> Footed(m, bs[i])
  }

  lemma {:induction false} KeptTiled(g: Scene, i: nat)
    requires Laid(g) && i <= |g.bs|
    ensures Tiled(Kept(g, i), g.rut, NewAt(g, i))
    decreases i
  {
    hide Laid, Tiled, Live;
    if i == 0 {
      KeptNone(g);
    } else {
      KeptTiled(g, i - 1);
      NewNext(g, i - 1);
      TiledMore(Kept(g, i - 1), g.rut, NewAt(g, i - 1), g.bs[i - 1]) by { SizeOk(g, i - 1); }
    }
  }

  lemma KeptNone(g: Scene)
    ensures Tiled(Kept(g, 0), g.rut, NewAt(g, 0))
  {
  }

  lemma TiledMore(bs: seq<Box>, lo: nat, hi: nat, b: Box)
    requires Tiled(bs, lo, hi) && b.size >= MIN
    ensures Tiled(bs + [Box(hi, b.size, b.use)], lo, hi + b.size)
  {
  }

  lemma {:induction false} KeptHeaded(g: Scene, m: seq<Word>, marked: set<nat>, n: nat)
    requires Laid(g) && n <= |g.bs| && |m| == |g.m|
    requires forall i :: 0 <= i < |g.bs| && g.bs[i].use > 0 ==> Settled(g, m, i, i in marked)
    ensures AllHeaded(m, Kept(g, n)) && AllFooted(m, Kept(g, n))
    decreases n
  {
    hide Laid, Settled, NewAt;
    if n > 0 {
      KeptHeaded(g, m, marked, n - 1);
      if g.bs[n - 1].use > 0 { SettledTags(g, m, n - 1, n - 1 in marked); }
    }
  }

  lemma SettledTags(g: Scene, m: seq<Word>, i: nat, mark: bool)
    requires Laid(g) && i < |g.bs| && g.bs[i].use > 0 && Settled(g, m, i, mark)
    ensures var b := Box(NewAt(g, i), g.bs[i].size, g.bs[i].use); Headed(m, b) && Footed(m, b)
  {
    hide New, NewAt, Words;
    var b, f := g.bs[i], Final(g, i, mark);
    BlockWords(g, i, mark, mark);
    assert Headed(g.m, b) && b.use < PUG;
    WordAt(g.m, b, 0);
    WordAt(g.m, b, 1);
    SettledAt(g, m, i, mark, 0);
    SettledAt(g, m, i, mark, 1);
    SettledAt(g, m, i, mark, b.size - 1);
  }

  lemma SettledAt(g: Scene, m: seq<Word>, i: nat, mark: bool, k: nat)
    requires i < |g.bs| && Settled(g, m, i, mark) && k < g.bs[i].size
    ensures NewAt(g, i) + k < |m| && m[NewAt(g, i) + k] == Final(g, i, mark)[k]
  {
    hide New, NewAt, Words, Final;
    assert m[NewAt(g, i)..NewAt(g, i) + g.bs[i].size][k] == Final(g, i, mark)[k];
  }

  // The words between the header and the last one.
  lemma FinalWords(g: Scene, i: nat, mark: bool)
    requires i < |g.bs| && g.bs[i].at + g.bs[i].size <= |g.m| && MIN <= g.bs[i].size < 0x1_0000_0000 && NewAt(g, i) + 2 < 0x1_0000_0000
    ensures var w, f := Words(g.m, g.bs[i]), Final(g, i, mark);
            if mark then f[3] == New(g, w[3]) && f[4] == New(g, w[4])
            else forall k :: 2 <= k < |w| - 1 ==> f[k] == w[k]
  {
    hide New, NewAt, Words;
  }

  lemma StateStart(g: Scene, m: seq<Word>)
    requires Laid(g) && |m| == |g.m| && forall i :: 0 <= i < |g.bs| ==> Sought(g, m, i)
    ensures State(g, m, {}, {})
  {
    hide NewAt, New, Words;
    forall i | 0 <= i < |g.bs| ensures Boxed(g, m, i, false, false) { assert Sought(g, m, i); }
  }

  lemma StateCells(g: Scene, m: seq<Word>, marked: set<nat>)
    requires State(g, m, marked, {})
    ensures marked <= g.cells
  {
  }

  lemma TracedMore(g: Scene, marked: set<nat>, marked': set<nat>)
    requires Traced(g, {}, marked) && Traced(g, marked, marked') && marked <= marked'
    ensures Traced(g, {}, marked')
  {
  }

  /** Wherever every box in use has settled, a reference and its new form
      denote the same noun. */
  lemma {:induction false} Preserved(g: Scene, m: seq<Word>, marked: set<nat>, som: Word, n: Noun)
    requires Laid(g) && Closed(g) && |m| == |g.m| && marked <= g.cells && Traced(g, {}, marked)
    requires forall i :: 0 <= i < |g.bs| && g.bs[i].use > 0 ==> Settled(g, m, i, i in marked)
    requires Sound(g, som) && Into(g, som, marked) && Denotes(g.m, som, n)
    ensures Denotes(m, New(g, som), n)
    decreases n
  {
    hide Laid, Closed, Sound, Settled, NewAt, New, Traced;
    if IsCat(som) {
      NewCat(g, som);
    } else {
      SoundBox(g, som);
      var i := Target(g, som);
      NewOff(g, som);
      if n.Atom? {
        AtomMoved(g, m, marked, som, n);
      } else {
        CellMoved(g, m, marked, i);
        CellSound(g, i);
        Preserved(g, m, marked, g.m[g.bs[i].at + 3], n.head);
        Preserved(g, m, marked, g.m[g.bs[i].at + 4], n.tail);
      }
    }
  }

  lemma NewOff(g: Scene, som: Word)
    requires Laid(g) && Sound(g, som) && !IsCat(som)
    ensures Off(New(g, som)) == NewAt(g, Target(g, som)) + 2
    ensures (IsPug(som) <==> IsPug(New(g, som))) && (IsPom(som) <==> IsPom(New(g, som)))
  {
    hide New, NewAt, Laid, Sound, Target, Off, ToPug, ToPom;
    var i := Target(g, som);
    SoundBox(g, som);
    Fits(g, i);
    Down(g, i);
    BelowMask(g, i);
    TaggedOff(NewAt(g, i) + 2);
  }

  lemma BelowMask(g: Scene, i: nat)
    requires Laid(g) && i < |g.bs|
    ensures g.bs[i].at + 2 < MASK
  {
    Fits(g, i);
    SizeOk(g, i);
  }

  // An offset comes back from the references made of it.
  lemma TaggedOff(off: nat)
    requires off < MASK
    ensures Off(ToPug(off)) == Off(ToPom(off)) == off && IsPug(ToPug(off)) && IsPom(ToPom(off)) && !IsPom(ToPug(off)) && !IsPug(ToPom(off))
  {
  }

  lemma CellMoved(g: Scene, m: seq<Word>, marked: set<nat>, i: nat)
    requires Laid(g) && i < |g.bs| && g.bs[i].use > 0 && Settled(g, m, i, i in marked) && i in marked && Traced(g, {}, marked)
    ensures g.bs[i].at + 4 < |g.m| && NewAt(g, i) + 4 < |m|
    ensures m[NewAt(g, i) + 3] == New(g, g.m[g.bs[i].at + 3]) && m[NewAt(g, i) + 4] == New(g, g.m[g.bs[i].at + 4])
    ensures Into(g, g.m[g.bs[i].at + 3], marked) && Into(g, g.m[g.bs[i].at + 4], marked)
  {
    hide NewAt, New, Laid, Words;
    FinalWords(g, i, true);
    SettledAt(g, m, i, true, 3);
    SettledAt(g, m, i, true, 4);
    WordAt(g.m, g.bs[i], 3);
    WordAt(g.m, g.bs[i], 4);
  }

  lemma AtomMoved(g: Scene, m: seq<Word>, marked: set<nat>, som: Word, n: Noun)
    requires Laid(g) && |m| == |g.m| && marked <= g.cells && Sound(g, som) && IsPug(som) && n.Atom? && Denotes(g.m, som, n)
    requires forall i :: 0 <= i < |g.bs| && g.bs[i].use > 0 ==> Settled(g, m, i, i in marked)
    ensures Denotes(m, New(g, som), n)
  {
    hide New, NewAt, Laid, Settled, Sound, Target, Denotes, Off, IsPug, IsPom;
    PugParts(g, som);
    NewOff(g, som);
    var i := Target(g, som);
    AtomWords(g, m, i);
    AtomSame(g.m, m, som, New(g, som), n, g.bs[i].at + 2, NewAt(g, i) + 2, g.m[g.bs[i].at + 3]);
  }

  // What is known of the box of an atom.
  lemma PugParts(g: Scene, som: Word)
    requires Laid(g) && Sound(g, som) && IsPug(som)
    ensures var i := Target(g, som);
            && !IsCat(som) && !IsPom(som) && i < |g.bs| && g.bs[i].use > 0 && i !in g.cells
            && Off(som) == g.bs[i].at + 2 && g.bs[i].at + 3 < |g.m| && g.m[g.bs[i].at + 3] + 5 <= g.bs[i].size
  {
    hide Laid, Target, Off;
  }

  // What an indirect atom denotes.
  lemma PugDenotes(m: seq<Word>, som: Word, n: Noun, p: nat)
    requires IsPug(som) && Off(som) == p && n.Atom? && p + 1 < |m| && p + 2 + m[p + 1] <= |m|
    ensures Denotes(m, som, n) <==> n.val == Value(m[p + 2..p + 2 + m[p + 1]])
  {
    hide Off, Value;
  }

  // The same length and the same words elsewhere.
  lemma AtomSame(m: seq<Word>, k: seq<Word>, som: Word, dst: Word, n: Noun, p: nat, q: nat, len: nat)
    requires IsPug(som) && IsPug(dst) && Off(som) == p && Off(dst) == q && n.Atom? && Denotes(m, som, n)
    requires p + 1 < |m| && q + 1 < |k| && m[p + 1] == k[q + 1] == len && p + 2 + len <= |m| && q + 2 + len <= |k|
    requires k[q + 2..q + 2 + len] == m[p + 2..p + 2 + len]
    ensures Denotes(k, dst, n)
  {
    hide *;
    PugDenotes(m, som, n, p);
    PugDenotes(k, dst, n, q);
  }

  lemma AtomWords(g: Scene, m: seq<Word>, i: nat)
    requires Laid(g) && i < |g.bs| && g.bs[i].use > 0 && Settled(g, m, i, false) && g.bs[i].at + 3 < |g.m|
    requires g.m[g.bs[i].at + 3] + 5 <= g.bs[i].size
    ensures var len, a, b := g.m[g.bs[i].at + 3], g.bs[i].at, NewAt(g, i);
            && b + 4 + len <= |m| && a + 4 + len <= |g.m|
            && m[b + 3] == len && m[b + 4..b + 4 + len] == g.m[a + 4..a + 4 + len]
  {
    hide New, NewAt, Laid, Final, Words;
    var len, a, b, n := g.m[g.bs[i].at + 3], g.bs[i].at, NewAt(g, i), g.bs[i].size;
    var w, f := Words(g.m, g.bs[i]), Final(g, i, false);
    FinalWords(g, i, false);
    SettledAt(g, m, i, false, 3);
    WordAt(g.m, g.bs[i], 3);
    WordsIs(g.m, g.bs[i]);
    SubSlice(m, b, n, len);
    SubSlice(g.m, a, n, len);
    assert f[4..4 + len] == w[4..4 + len];
  }

  lemma SubSlice(m: seq<Word>, at: nat, n: nat, len: nat)
    requires at + n <= |m| && len + 4 <= n
    ensures m[at + 4..at + 4 + len] == m[at..at + n][4..4 + len]
  {
    var s, t := m[at + 4..at + 4 + len], m[at..at + n][4..4 + len];
    forall k | 0 <= k < len ensures s[k] == t[k] {
      assert m[at..at + n][4 + k] == m[at + 4 + k];
    }
  }

  // ---- moving ----

  function Slid(m: seq<Word>, from: nat, to: nat, n: nat): seq<Word>
    requires to < from && from + n <= |m|
  {
    m[..to] + m[from..from + n] + m[to + n..]
  }

  lemma SlidNone(m: seq<Word>, from: nat, to: nat)
    requires to < from <= |m|
    ensures Slid(m, from, to, 0) == m
  {
  }

  lemma SlidStep(m: seq<Word>, from: nat, to: nat, k: nat)
    requires to < from && from + k < |m|
    ensures |Slid(m, from, to, k)| == |m| && Slid(m, from, to, k)[from + k] == m[from + k]
    ensures Slid(m, from, to, k)[to + k := m[from + k]] == Slid(m, from, to, k + 1)
  {
    assert m[to + k..] == [m[to + k]] + m[to + k + 1..];
    assert m[from..from + k + 1] == m[from..from + k] + [m[from + k]];
  }

  // A box moved down from `box` to `dst`, with its last word put back.
  ghost predicate Shifted(m: seq<Word>, m': seq<Word>, box: nat, dst: nat, siz: nat) {
    && dst <= box && box + siz <= |m| == |m'| && 0 < siz < 0x1_0000_0000
    && m'[..dst] == m[..dst]
    && m'[dst..dst + siz] == m[box..box + siz][siz - 1 := siz]
    && m'[dst + siz..] == m[dst + siz..]
  }

  lemma ShiftedIs(m: seq<Word>, m': seq<Word>, box: nat, dst: nat, siz: nat)
    requires dst <= box && box + siz <= |m| && 0 < siz < 0x1_0000_0000
    requires m' == (if dst < box then Slid(m, box, dst, siz - 1) else m)[dst + siz - 1 := siz]
    ensures Shifted(m, m', box, dst, siz)
  {
    var last := siz - 1;
    if dst < box {
      var a, b, c := m[..dst], m[box..box + last], m[dst + last..];
      assert Slid(m, box, dst, last) == a + b + c;
      ThreeParts(a, b, c, siz);
      assert m[box..box + siz][last := siz] == b + [siz];
      assert c[1..] == m[dst + siz..];
    } else {
      assert m'[dst..dst + siz] == m[box..box + siz][last := siz];
    }
  }

  // The word after the second of three parts replaced.
  lemma ThreeParts(a: seq<Word>, b: seq<Word>, c: seq<Word>, w: Word)
    requires c != []
    ensures var n, r := |a| + |b|, (a + b + c)[|a| + |b| := w];
            r[..|a|] == a && r[|a|..n + 1] == b + [w] && r[n + 1..] == c[1..]
  {
    var n, r := |a| + |b|, (a + b + c)[|a| + |b| := w];
    assert r[..|a|] == a;
    assert r[|a|..n + 1] == b + [w];
    assert r[n + 1..] == c[1..];
  }

  // Box `i` as it is after the move.
  ghost function Final(g: Scene, i: nat, mark: bool): (r: seq<Word>)
    requires i < |g.bs| && g.bs[i].at + g.bs[i].size <= |g.m| && MIN <= g.bs[i].size < 0x1_0000_0000 && NewAt(g, i) + 2 < 0x1_0000_0000
    ensures |r| == g.bs[i].size
  {
    var w := Block(g, i, mark, mark);
    w[1 := ClearBit(w[1])][|w| - 1 := |w|]
  }

  ghost predicate Settled(g: Scene, m: seq<Word>, i: nat, mark: bool)
    requires i < |g.bs|
  {
    && g.bs[i].at + g.bs[i].size <= |g.m| == |m| && MIN <= g.bs[i].size < 0x1_0000_0000
    && NewAt(g, i) + 2 < 0x1_0000_0000 && NewAt(g, i) + g.bs[i].size <= |m|
    && m[NewAt(g, i)..NewAt(g, i) + g.bs[i].size] == Final(g, i, mark)
  }

  lemma StateSize(g: Scene, m: seq<Word>, marked: set<nat>, open: set<nat>)
    requires State(g, m, marked, open)
    ensures |m| == |g.m|
    ensures forall i :: 0 <= i < |g.bs| ==> Boxed(g, m, i, i in marked, i in marked && i !in open)
  {
    hide Boxed;
  }

  // What the second sweep reads at box `i`.
  lemma AtBlock(g: Scene, m: seq<Word>, i: nat, mark: bool)
    requires Laid(g) && i < |g.bs| && |m| == |g.m| && Boxed(g, m, i, mark, mark)
    ensures g.bs[i].at + g.bs[i].size <= |m| && MIN <= g.bs[i].size < 0x1_0000_0000
    ensures m[g.bs[i].at] == g.bs[i].size && ClearBit(m[g.bs[i].at + 1]) == g.bs[i].use
    ensures g.bs[i].use > 0 ==> m[g.bs[i].at + g.bs[i].size - 1] == NewAt(g, i) + 2
    ensures g.bs[i].at + g.bs[i].size == if i + 1 < |g.bs| then g.bs[i + 1].at else g.hat
    ensures NewAt(g, i + 1) == NewAt(g, i) + if g.bs[i].use > 0 then g.bs[i].size else 0
    ensures NewAt(g, i) <= g.bs[i].at
  {
    hide New, NewAt, Laid, Boxed;
    Fits(g, i);
    Down(g, i);
    NewNext(g, i);
    NextBox(g, i);
    BlockRead(g, m, i, mark);
  }

  lemma NextBox(g: Scene, i: nat)
    requires Laid(g) && i < |g.bs|
    ensures Headed(g.m, g.bs[i]) && g.bs[i].use < PUG && g.bs[i].at + g.bs[i].size == if i + 1 < |g.bs| then g.bs[i + 1].at else g.hat
  {
  }

  lemma BlockRead(g: Scene, m: seq<Word>, i: nat, mark: bool)
    requires i < |g.bs| && |m| == |g.m| && Boxed(g, m, i, mark, mark) && Headed(g.m, g.bs[i]) && g.bs[i].use < PUG
    ensures var b := g.bs[i];
            && b.at + b.size <= |m| && MIN <= b.size < 0x1_0000_0000
            && m[b.at] == b.size && ClearBit(m[b.at + 1]) == b.use && (b.use > 0 ==> m[b.at + b.size - 1] == NewAt(g, i) + 2)
  {
    hide New, NewAt, Block, Words;
    var b := g.bs[i];
    BlockWords(g, i, mark, mark);
    WordAt(m, b, 0);
    WordAt(m, b, 1);
    WordAt(m, b, b.size - 1);
    WordAt(g.m, b, 0);
    WordAt(g.m, b, 1);
  }

  lemma NewNext(g: Scene, i: nat)
    requires i < |g.bs|
    ensures NewAt(g, i + 1) == NewAt(g, i) + if g.bs[i].use > 0 then g.bs[i].size else 0
  {
  }

  lemma BlockWords(g: Scene, i: nat, mark: bool, done: bool)
    requires i < |g.bs| && g.bs[i].at + g.bs[i].size <= |g.m| && g.bs[i].size >= MIN && NewAt(g, i) + 2 < 0x1_0000_0000
    ensures var w, r := Words(g.m, g.bs[i]), Block(g, i, mark, done);
            && r[0] == w[0] && r[1] == (if mark then SetBit(w[1]) else w[1])
            && (g.bs[i].use > 0 ==> r[|r| - 1] == NewAt(g, i) + 2)
  {
    hide New, NewAt, Words;
  }

  lemma MoveOne(g: Scene, m: seq<Word>, c: seq<Word>, m': seq<Word>, i: nat, marked: set<nat>)
    requires Laid(g) && i < |g.bs| && |m| == |g.m| && g.bs[i].use > 0 && g.bs[i].at + 1 < |m|
    requires c == m[g.bs[i].at + 1 := ClearBit(m[g.bs[i].at + 1])]
    requires Shifted(c, m', g.bs[i].at, NewAt(g, i), g.bs[i].size)
    requires forall j :: 0 <= j < i && g.bs[j].use > 0 ==> Settled(g, m, j, j in marked)
    requires forall j :: i <= j < |g.bs| ==> Boxed(g, m, j, j in marked, j in marked)
    ensures forall j :: 0 <= j < i + 1 && g.bs[j].use > 0 ==> Settled(g, m', j, j in marked)
    ensures forall j :: i + 1 <= j < |g.bs| ==> Boxed(g, m', j, j in marked, j in marked)
  {
    hide NewAt, New, Boxed, Settled, Laid, Shifted, Words;
    assert Boxed(g, m, i, i in marked, i in marked);
    SizeOk(g, i);
    MoveThis(g, m, c, m', i, i in marked);
    forall j | 0 <= j < i && g.bs[j].use > 0 ensures Settled(g, m', j, j in marked) { SettledStill(g, m, c, m', i, j, j in marked); }
    forall j | i < j < |g.bs| ensures Boxed(g, m', j, j in marked, j in marked) { BoxedAbove(g, m, c, m', i, j, j in marked); }
  }

  lemma MoveThis(g: Scene, m: seq<Word>, c: seq<Word>, m': seq<Word>, i: nat, mark: bool)
    requires Laid(g) && i < |g.bs| && |m| == |g.m| && Boxed(g, m, i, mark, mark) && g.bs[i].at + 1 < |m| && g.bs[i].size >= MIN
    requires c == m[g.bs[i].at + 1 := ClearBit(m[g.bs[i].at + 1])]
    requires Shifted(c, m', g.bs[i].at, NewAt(g, i), g.bs[i].size)
    ensures Settled(g, m', i, mark)
  {
    hide NewAt, New, ClearBit, Block, Laid, Words;
    LaidSize(g);
    var b := g.bs[i];
    SetWord(g, m, i, 1, ClearBit(m[b.at + 1]));
    WordAt(m, b, 1);
    WordsIs(c, b);
  }

  lemma WordsIs(m: seq<Word>, b: Box)
    requires b.at + b.size <= |m|
    ensures Words(m, b) == m[b.at..b.at + b.size]
  {
  }

  lemma SettledStill(g: Scene, m: seq<Word>, c: seq<Word>, m': seq<Word>, i: nat, j: nat, mark: bool)
    requires Laid(g) && j < i < |g.bs| && |m| == |g.m| && Settled(g, m, j, mark) && g.bs[i].at + 1 < |m| && g.bs[j].use > 0
    requires c == m[g.bs[i].at + 1 := ClearBit(m[g.bs[i].at + 1])]
    requires Shifted(c, m', g.bs[i].at, NewAt(g, i), g.bs[i].size)
    ensures Settled(g, m', j, mark)
  {
    hide New, ClearBit, Block, Final, Laid;
    var a, n, d := NewAt(g, j), g.bs[j].size, NewAt(g, i);
    LiveMono(g.bs, j, i);
    SliceTo(m', d, a, n);
    SliceTo(c, d, a, n);
    assert c[a..a + n] == m[a..a + n];
  }

  lemma BoxedAbove(g: Scene, m: seq<Word>, c: seq<Word>, m': seq<Word>, i: nat, j: nat, mark: bool)
    requires Laid(g) && i < j < |g.bs| && |m| == |g.m| && Boxed(g, m, j, mark, mark) && g.bs[i].at + 1 < |m|
    requires c == m[g.bs[i].at + 1 := ClearBit(m[g.bs[i].at + 1])]
    requires Shifted(c, m', g.bs[i].at, NewAt(g, i), g.bs[i].size)
    ensures Boxed(g, m', j, mark, mark)
  {
    hide New, ClearBit, Block, NewAt, Words, Laid, Boxed;
    SizeOk(g, i);
    SetWord(g, m, i, 1, ClearBit(m[g.bs[i].at + 1]));
    LaidOrder(g, i, j);
    var b, e := g.bs[j], NewAt(g, i) + g.bs[i].size;
    SliceFrom(m', e, b.at, b.size);
    SliceFrom(c, e, b.at, b.size);
    WordsIs(m', b);
    WordsIs(c, b);
    BoxedStill(g, m, m', j, mark, mark);
  }

  lemma LaidOrder(g: Scene, i: nat, j: nat)
    requires Laid(g) && i < j < |g.bs|
    ensures g.bs[i].at + g.bs[i].size <= g.bs[j].at && g.bs[j].at + g.bs[j].size <= |g.m|
  {
    Ascending(g.bs, g.rut, g.hat, i, j);
    Fits(g, j);
  }

  lemma SliceTo(m: seq<Word>, e: nat, at: nat, n: nat)
    requires at + n <= e <= |m|
    ensures m[at..at + n] == m[..e][at..at + n]
  {
  }

  lemma SliceFrom(m: seq<Word>, e: nat, at: nat, n: nat)
    requires e <= at && at + n <= |m|
    ensures m[at..at + n] == m[e..][at - e..at - e + n]
  {
  }

  lemma MoveNone(g: Scene, m: seq<Word>, c: seq<Word>, i: nat, marked: set<nat>)
    requires Laid(g) && i < |g.bs| && |m| == |g.m| && g.bs[i].use == 0 && g.bs[i].at + 1 < |m|
    requires c == m[g.bs[i].at + 1 := ClearBit(m[g.bs[i].at + 1])]
    requires forall j :: 0 <= j < i && g.bs[j].use > 0 ==> Settled(g, m, j, j in marked)
    requires forall j :: i <= j < |g.bs| ==> Boxed(g, m, j, j in marked, j in marked)
    ensures forall j :: 0 <= j < i + 1 && g.bs[j].use > 0 ==> Settled(g, c, j, j in marked)
    ensures forall j :: i + 1 <= j < |g.bs| ==> Boxed(g, c, j, j in marked, j in marked)
  {
    hide New, ClearBit, Boxed, Settled, Laid, Words, Block;
    SizeOk(g, i);
    SetWord(g, m, i, 1, ClearBit(m[g.bs[i].at + 1]));
    forall j | 0 <= j < i && g.bs[j].use > 0 ensures Settled(g, c, j, j in marked) { SettledBelow(g, m, c, i, j, j in marked); }
    forall j | i < j < |g.bs| ensures Boxed(g, c, j, j in marked, j in marked) { BoxedStill(g, m, c, j, j in marked, j in marked); }
  }

  lemma SettledBelow(g: Scene, m: seq<Word>, c: seq<Word>, i: nat, j: nat, mark: bool)
    requires Laid(g) && j < i < |g.bs| && |m| == |g.m| && Settled(g, m, j, mark) && g.bs[i].at + 1 < |m| && g.bs[j].use > 0
    requires c == m[g.bs[i].at + 1 := ClearBit(m[g.bs[i].at + 1])]
    ensures Settled(g, c, j, mark)
  {
    hide New, ClearBit, Block, Final;
    var a, n := NewAt(g, j), g.bs[j].size;
    LiveMono(g.bs, j, i);
    Down(g, i);
    assert c[a..a + n] == m[a..a + n];
  }

  // ---- rewriting ----

  // Box `i` after seeking, marked, and with its references rewritten.
  ghost function Block(g: Scene, i: nat, mark: bool, done: bool): (r: seq<Word>)
    requires i < |g.bs| && g.bs[i].at + g.bs[i].size <= |g.m| && g.bs[i].size >= MIN && NewAt(g, i) + 2 < 0x1_0000_0000
    ensures |r| == g.bs[i].size
  {
    var w := Words(g.m, g.bs[i]);
    var s := if g.bs[i].use > 0 then w[|w| - 1 := NewAt(g, i) + 2] else w;
    var k := if mark then s[1 := SetBit(s[1])] else s;
    if done then k[3 := New(g, w[3])][4 := New(g, w[4])] else k
  }

  ghost predicate Boxed(g: Scene, m: seq<Word>, i: nat, mark: bool, done: bool)
    requires i < |g.bs|
  {
    && g.bs[i].at + g.bs[i].size <= |g.m| == |m| && g.bs[i].size >= MIN && NewAt(g, i) + 2 < 0x1_0000_0000
    && Words(m, g.bs[i]) == Block(g, i, mark, done)
  }

  // The heap with some cells marked, and all of those but the open ones done.
  ghost predicate State(g: Scene, m: seq<Word>, marked: set<nat>, open: set<nat>) {
    && |m| == |g.m| && open <= marked <= g.cells
    && forall i :: 0 <= i < |g.bs| ==> Boxed(g, m, i, i in marked, i in marked && i !in open)
  }

  // A cell reference leads into a set.
  ghost predicate Into(g: Scene, som: Word, s: set<nat>) { IsPom(som) ==> Target(g, som) in s }

  // What newly marked cells hold leads into the new set.
  ghost predicate Traced(g: Scene, marked: set<nat>, marked': set<nat>) {
    forall i :: i in marked' && i !in marked ==>
      && 0 <= i < |g.bs| && g.bs[i].at + 4 < |g.m|
      && Into(g, g.m[g.bs[i].at + 3], marked') && Into(g, g.m[g.bs[i].at + 4], marked')
  }

  // A reference to no cell, or to a marked one.
  lemma LeadsInto(g: Scene, som: Word, marked: set<nat>)
    ensures Traced(g, marked, marked) && (!IsPom(som) || Target(g, som) in marked ==> Into(g, som, marked))
  {
  }

  lemma NewCat(g: Scene, som: Word)
    requires IsCat(som)
    ensures New(g, som) == som
  {
  }

  lemma SoundBox(g: Scene, som: Word)
    requires Laid(g) && Sound(g, som) && !IsCat(som)
    ensures var i := Target(g, som);
            && i < |g.bs| && g.bs[i].use > 0 && Off(som) == g.bs[i].at + 2 && (IsPom(som) ==> i in g.cells)
            && New(g, som) == if IsPug(som) then ToPug(NewAt(g, i) + 2) else ToPom(NewAt(g, i) + 2)
  {
  }

  // Header and last word of a box while rewriting.
  lemma SoundPom(g: Scene, som: Word)
    requires Laid(g) && Sound(g, som) && IsPom(som)
    ensures var i := Target(g, som); i < |g.bs| && g.bs[i].use > 0 && Off(som) == g.bs[i].at + 2 && i in g.cells
  {
    hide Laid, Sound, Off, Target;
    SoundBox(g, som);
  }

  lemma StateWords(g: Scene, m: seq<Word>, marked: set<nat>, open: set<nat>, i: nat)
    requires Laid(g) && State(g, m, marked, open) && i < |g.bs| && g.bs[i].use > 0
    ensures g.bs[i].at + g.bs[i].size <= |m| && g.bs[i].size >= MIN
    ensures m[g.bs[i].at] == g.bs[i].size && m[g.bs[i].at + g.bs[i].size - 1] == NewAt(g, i) + 2
  {
    hide NewAt, New, Block, Words;
    var b := g.bs[i];
    assert Boxed(g, m, i, i in marked, i in marked && i !in open);
    BlockWords(g, i, i in marked, i in marked && i !in open);
    assert Headed(g.m, b);
    WordAt(m, b, 0);
    WordAt(m, b, b.size - 1);
    WordAt(g.m, b, 0);
  }

  lemma StateMarked(g: Scene, m: seq<Word>, marked: set<nat>, open: set<nat>, i: nat)
    requires Laid(g) && State(g, m, marked, open) && i < |g.bs|
    ensures g.bs[i].at + 4 < |m| && m[g.bs[i].at + 1] == if i in marked then g.bs[i].use + PUG else g.bs[i].use
    ensures g.bs[i].use < PUG && open <= marked
  {
    hide NewAt, New, Block, Words;
    var b := g.bs[i];
    assert Boxed(g, m, i, i in marked, i in marked && i !in open);
    BlockWords(g, i, i in marked, i in marked && i !in open);
    assert Headed(g.m, b);
    WordAt(m, b, 1);
    WordAt(g.m, b, 1);
  }

  // A cell that is open still holds its old references.
  lemma CellFields(g: Scene, m: seq<Word>, marked: set<nat>, open: set<nat>, i: nat)
    requires Laid(g) && State(g, m, marked, open) && i < |g.bs| && i in open
    ensures g.bs[i].at + 4 < |m| == |g.m|
    ensures m[g.bs[i].at + 3] == g.m[g.bs[i].at + 3] && m[g.bs[i].at + 4] == g.m[g.bs[i].at + 4]
  {
    hide NewAt, New;
    var b := g.bs[i];
    assert Boxed(g, m, i, i in marked, i in marked && i !in open);
    WordAt(m, b, 3);
    WordAt(m, b, 4);
    WordAt(g.m, b, 3);
    WordAt(g.m, b, 4);
  }

  lemma CellSound(g: Scene, i: nat)
    requires Closed(g) && i in g.cells
    ensures i < |g.bs| && g.bs[i].at + 4 < |g.m|
    ensures Sound(g, g.m[g.bs[i].at + 3]) && Sound(g, g.m[g.bs[i].at + 4])
  {
    hide Sound;
  }

  lemma MarkOne(g: Scene, m: seq<Word>, m': seq<Word>, marked: set<nat>, open: set<nat>, i: nat)
    requires Laid(g) && State(g, m, marked, open) && i < |g.bs| && i in g.cells && i !in marked
    requires g.bs[i].at + 1 < |m| && m' == m[g.bs[i].at + 1 := SetBit(m[g.bs[i].at + 1])]
    ensures State(g, m', marked + {i}, open + {i})
  {
    hide NewAt, New, Words, Boxed, Laid;
    assert Boxed(g, m, i, false, false);
    SizeOk(g, i);
    SetWord(g, m, i, 1, SetBit(m[g.bs[i].at + 1]));
    MarkThis(g, m, m', i);
    forall j | 0 <= j < |g.bs| ensures Boxed(g, m', j, j in marked + {i}, j in marked + {i} && j !in open + {i}) {
      if j != i { BoxedStill(g, m, m', j, j in marked, j in marked && j !in open); }
    }
  }

  lemma BoxedStill(g: Scene, m: seq<Word>, m': seq<Word>, j: nat, mark: bool, done: bool)
    requires j < |g.bs| && |m'| == |m| && Boxed(g, m, j, mark, done) && g.bs[j].at + g.bs[j].size <= |m|
    requires Words(m', g.bs[j]) == Words(m, g.bs[j])
    ensures Boxed(g, m', j, mark, done)
  {
    hide NewAt, New, Words, Block;
  }

  lemma MarkThis(g: Scene, m: seq<Word>, m': seq<Word>, i: nat)
    requires i < |g.bs| && |m'| == |m| && Boxed(g, m, i, false, false) && g.bs[i].at + g.bs[i].size <= |m| && g.bs[i].size >= MIN
    requires Words(m', g.bs[i]) == Words(m, g.bs[i])[1 := SetBit(m[g.bs[i].at + 1])]
    ensures Boxed(g, m', i, true, false)
  {
    hide NewAt, New;
    WordAt(m, g.bs[i], 1);
  }

  lemma CloseThis(g: Scene, m: seq<Word>, m': seq<Word>, i: nat)
    requires i < |g.bs| && |m'| == |m| && Boxed(g, m, i, true, false)
    requires Words(m', g.bs[i]) == Words(m, g.bs[i])[3 := New(g, g.m[g.bs[i].at + 3])][4 := New(g, g.m[g.bs[i].at + 4])]
    ensures Boxed(g, m', i, true, true)
  {
    hide NewAt, New;
    WordAt(g.m, g.bs[i], 3);
    WordAt(g.m, g.bs[i], 4);
  }

  lemma CloseOne(g: Scene, m: seq<Word>, m': seq<Word>, marked: set<nat>, open: set<nat>, i: nat)
    requires Laid(g) && i < |g.bs| && i !in open && State(g, m, marked, open + {i}) && g.bs[i].at + 4 < |m| == |g.m|
    requires m' == m[g.bs[i].at + 3 := New(g, g.m[g.bs[i].at + 3])][g.bs[i].at + 4 := New(g, g.m[g.bs[i].at + 4])]
    ensures State(g, m', marked, open)
  {
    hide NewAt, New, Words, Boxed, Laid;
    assert Boxed(g, m, i, true, false);
    var hed, tel := New(g, g.m[g.bs[i].at + 3]), New(g, g.m[g.bs[i].at + 4]);
    SizeOk(g, i);
    SetWord(g, m, i, 3, hed);
    SetWord(g, m[g.bs[i].at + 3 := hed], i, 4, tel);
    CloseThis(g, m, m', i);
    forall j | 0 <= j < |g.bs| ensures Boxed(g, m', j, j in marked, j in marked && j !in open) {
      if j != i { BoxedStill(g, m, m', j, j in marked, j in marked && j !in open + {i}); }
    }
  }

  lemma SizeOk(g: Scene, i: nat)
    requires Laid(g) && i < |g.bs|
    ensures g.bs[i].size >= MIN
  {
  }

  lemma TracedCell(g: Scene, marked: set<nat>, i: nat, mid: set<nat>, marked': set<nat>)
    requires i < |g.bs| && g.bs[i].at + 4 < |g.m| && marked + {i} <= mid <= marked'
    requires Into(g, g.m[g.bs[i].at + 3], mid) && Into(g, g.m[g.bs[i].at + 4], marked')
    requires Traced(g, marked + {i}, mid) && Traced(g, mid, marked')
    ensures Traced(g, marked, marked')
  {
  }

  lemma Fewer(all: set<nat>, some: set<nat>, i: nat)
    requires i in all && i !in some
    ensures |all - (some + {i})| < |all - some|
  {
    assert all - some == (all - (some + {i})) + {i};
  }

  lemma FewerStill(all: set<nat>, some: set<nat>, more: set<nat>)
    requires some <= more
    ensures |all - more| <= |all - some|
  {
    assert all - some == (all - more) + ((all - some) * more);
  }

  lemma LaidSize(g: Scene)
    requires Laid(g)
    ensures g.hat <= |g.m| <= MASK && g.rut <= g.hat
  {
  }

  lemma SeekStart(g: Scene)
    requires Laid(g)
    ensures NewAt(g, 0) == g.rut && (if |g.bs| > 0 then g.bs[0].at == g.rut else g.rut == g.hat)
    ensures forall j :: 0 <= j < |g.bs| ==> Unmoved(g, g.m, j)
  {
    forall j | 0 <= j < |g.bs| ensures Unmoved(g, g.m, j) { Fits(g, j); }
  }

  lemma SeekEnd(g: Scene, box: nat, i: nat)
    requires Laid(g) && i <= |g.bs| && box == (if i < |g.bs| then g.bs[i].at else g.hat) && box >= g.hat
    ensures i == |g.bs|
  {
    if i < |g.bs| { Inside(g.bs, g.rut, g.hat, i); }
  }

  // What the sweep reads at box `i`, and where it goes on.
  lemma AtBox(g: Scene, m: seq<Word>, i: nat)
    requires Laid(g) && i < |g.bs| && |m| == |g.m| && Unmoved(g, m, i)
    ensures g.bs[i].at + g.bs[i].size <= |m| && g.bs[i].size >= MIN
    ensures m[g.bs[i].at] == g.bs[i].size && m[g.bs[i].at + 1] == g.bs[i].use
    ensures g.bs[i].at + g.bs[i].size == if i + 1 < |g.bs| then g.bs[i + 1].at else g.hat
    ensures NewAt(g, i + 1) == NewAt(g, i) + if g.bs[i].use > 0 then g.bs[i].size else 0
    ensures NewAt(g, i) <= g.bs[i].at
  {
    Fits(g, i);
    Down(g, i);
    assert Headed(g.m, g.bs[i]);
    WordAt(m, g.bs[i], 0);
    WordAt(m, g.bs[i], 1);
    WordAt(g.m, g.bs[i], 0);
    WordAt(g.m, g.bs[i], 1);
  }

  lemma SeekOne(g: Scene, m: seq<Word>, m': seq<Word>, i: nat)
    requires Laid(g) && i < |g.bs| && |m| == |g.m| && g.bs[i].use > 0
    requires forall j :: 0 <= j < i ==> Sought(g, m, j)
    requires forall j :: i <= j < |g.bs| ==> Unmoved(g, m, j)
    requires NewAt(g, i) <= g.bs[i].at && g.bs[i].at + g.bs[i].size <= |m| && g.bs[i].size >= MIN
    requires m' == m[g.bs[i].at + g.bs[i].size - 1 := NewAt(g, i) + 2]
    ensures forall j :: 0 <= j < i + 1 ==> Sought(g, m', j)
    ensures forall j :: i + 1 <= j < |g.bs| ==> Unmoved(g, m', j)
  {
    hide NewAt, Words, Sought, Unmoved, Laid;
    LaidSize(g);
    SetWord(g, m, i, g.bs[i].size - 1, NewAt(g, i) + 2);
    SeekThis(g, m, m', i);
    forall j | 0 <= j < i ensures Sought(g, m', j) { SoughtStill(g, m, m', j); }
    forall j | i < j < |g.bs| ensures Unmoved(g, m', j) { UnmovedStill(g, m, m', j); }
  }

  lemma SeekThis(g: Scene, m: seq<Word>, m': seq<Word>, i: nat)
    requires i < |g.bs| && |m'| == |m| && Unmoved(g, m, i) && g.bs[i].use > 0 && g.bs[i].size >= MIN && NewAt(g, i) + 2 < 0x1_0000_0000
    requires Words(m', g.bs[i]) == Words(m, g.bs[i])[g.bs[i].size - 1 := NewAt(g, i) + 2]
    ensures Sought(g, m', i)
  {
    hide NewAt, Words;
  }

  lemma SoughtStill(g: Scene, m: seq<Word>, m': seq<Word>, j: nat)
    requires j < |g.bs| && |m'| == |m| && Sought(g, m, j)
    requires Words(m', g.bs[j]) == Words(m, g.bs[j])
    ensures Sought(g, m', j)
  {
    hide NewAt, Words;
  }

  lemma UnmovedStill(g: Scene, m: seq<Word>, m': seq<Word>, j: nat)
    requires j < |g.bs| && |m'| == |m| && Unmoved(g, m, j)
    requires Words(m', g.bs[j]) == Words(m, g.bs[j])
    ensures Unmoved(g, m', j)
  {
    hide Words;
  }

  lemma SeekNone(g: Scene, m: seq<Word>, i: nat)
    requires Laid(g) && i < |g.bs| && |m| == |g.m| && Unmoved(g, m, i) && g.bs[i].use == 0
    ensures Sought(g, m, i)
  {
    Fits(g, i);
    Down(g, i);
  }
}
