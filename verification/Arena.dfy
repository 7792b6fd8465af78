/** A road's heap as the allocator drives it: words, hat and free lists. */
module Arenas {
  import opened Nouns
  import opened Heap
  import opened FreeLists
  import opened Alloc

  class Arena {
    const words: array<Word>
    const north: bool
    const rut: nat
    const cap: nat
    var hat: nat
    var fre: seq<Word>
    ghost var bs: seq<Box>
    ghost var lists: seq<seq<nat>>

    ghost function St(): State
      reads this, words
    {
      State(words[..], fre, bs, lists, if north then rut else hat, if north then hat else rut)
    }

    // There is room between the hat and the cap, or none.
    ghost predicate Bounded()
      reads this
    {
      if north then hat <= cap <= words.Length else cap <= hat
    }

    ghost predicate Valid()
      reads this, words
    {
      Good(St(), {}) && Coalesced(bs, north) && Bounded()
    }

    // An empty heap.
    constructor (w: array<Word>, goes_north: bool, bottom: nat, top: nat)
      requires 0 < bottom <= w.Length < 0x1_0000_0000 && (if goes_north then bottom <= top <= w.Length else top <= bottom)
      ensures Valid() && words == w && bs == [] && hat == rut == bottom && fre == seq(LISTS, _ => 0)
    {
      words, north, rut, cap := w, goes_north, bottom, top;
      hat, fre, bs, lists := bottom, seq(LISTS, _ => 0), [], seq(LISTS, _ => []);
    }

    method Set(x: nat, v: Word)
      requires x < words.Length
      modifies words
      ensures words[..] == old(words[..])[x := v]
    {
      words[x] := v;
    }

    // Write a box header and trailer.
    method Make(a: nat, siz: Word, use: Word)
      requires siz >= MIN && a + siz <= words.Length
      modifies words
      ensures words[..] == Made(old(words[..]), a, siz, use)
    {
      Set(a, siz);
      Set(a + siz - 1, siz);
      Set(a + 1, use);
    }

    /** Take a free box out of its list; the links are never corrupt. */
    method Detach(a: nat, ghost loose: set<nat>, ghost k: nat, ghost j: nat)
      requires Good(St(), loose) && k < LISTS && j < |lists[k]| && lists[k][j] == a
      modifies words, this`fre, this`lists
      ensures Linked(old(St()), k, j) && St() == Detached(old(St()), k, j) && Good(St(), loose + {a})
      ensures Keeps(Used(bs), old(words[..]), words[..])
    {
      hide Good, Keeps, Used, ListFor, Chain;
      ghost var h := St();
      DetachFacts(h, loose, k, j);
      var pre: nat, nex: nat := words[a + 2], words[a + 3];
      if nex != 0 {
        assert words[nex + 2] == a;
        Set(nex + 2, pre);
      }
      if pre != 0 {
        assert words[pre + 3] == a;
        Set(pre + 3, nex);
      } else {
        var sel := BoxSlot(words[a]);
        assert fre[sel] == a;
        fre := fre[sel := nex];
      }
      lists := lists[k := Without(lists[k], j)];
    }

    /** Put a loose free box in front of its list. */
    method Attach(a: nat, ghost i: nat)
      requires i < |bs| && bs[i].at == a && bs[i].use == 0 && Good(St(), {a})
      modifies words, this`fre, this`lists
      ensures Good(St(), {}) && Keeps(Used(bs), old(words[..]), words[..])
    {
      hide Good, Keeps, Spares, Used, ListFor, Tiled, Filed;
      ghost var h := St();
      AttachGood(h, {a}, i);
      AttachSpares(h, {a}, i);
      SparesKeeps(h, Attached(h, i).m);
      GoodBox(h, {a}, i);
      GoodFrame(h, {a});
      var sel := BoxSlot(words[a]);
      var nex: nat := fre[sel];
      Set(a + 2, 0);
      Set(a + 3, nex);
      if nex != 0 {
        Set(nex + 2, a);
      }
      fre := fre[sel := a];
      lists := lists[sel := [a] + lists[sel]];
      assert St() == Attached(h, i);
      assert {a} - {a} == {};
    }

    // A free box in no list, the only place where neighbours may both be free.
    ghost predicate Loose(box: nat, i: nat, low: bool, high: bool)
      reads this, words
    {
      Nearly(bs, north, i, low, high) && bs[i].at == box && Good(St(), {box})
    }

    // Join two neighbours, both free and out of the lists.
    method Join(box: nat, siz: Word, ghost i: nat)
      requires i + 1 < |bs| && bs[i].at == box && bs[i].use == 0 && bs[i + 1].use == 0 && siz == bs[i].size + bs[i + 1].size
      requires Good(St(), {box, bs[i + 1].at})
      modifies words, this`bs
      ensures Good(St(), {box}) && Used(bs) == Used(old(bs)) && Keeps(Used(bs), old(words[..]), words[..])
      ensures bs == Splice(old(bs), i, i + 2, [Box(box, siz, 0)])
    {
      hide Good, Keeps, Spares, Used, ListFor, Tiled, Filed, Splice;
      ghost var h := St();
      MergeGood(h, {box, bs[i + 1].at}, i);
      GoodApart(h, {box, bs[i + 1].at}, i, i + 1);
      SparesKeeps(h, Merged(h, i).m);
      Make(box, siz, 0);
      bs := Splice(bs, i, i + 2, [Box(box, siz, 0)]);
      assert St() == Merged(h, i);
      assert {box, h.bs[i + 1].at} - {h.bs[i + 1].at} == {box};
    }

    /** Coalesce with the box below if that is free. */
    method MergeLow(box: nat, ghost i: nat, ghost high: bool) returns (box': nat, ghost i': nat)
      requires Loose(box, i, false, high) && i > 0
      modifies words, this`fre, this`lists, this`bs
      ensures Loose(box', i', true, high) && Used(bs) == Used(old(bs)) && Keeps(Used(bs), old(words[..]), words[..])
      ensures |bs| - i' == |old(bs)| - i && (!north ==> i' > 0)
    {
      hide Good, Keeps, Spares, Used, ListFor, Tiled, Filed, Splice, Nearly;
      NearlyIs(bs, north, i, false, high);
      ghost var h, was := St(), words[..];
      Below(h, {box}, i);
      var laz: nat := words[box - 1];
      var pox := box - laz;
      box', i' := box, i;
      if words[pox + 1] == 0 {
        ghost var k, j := InList(h, {box}, i - 1);
        var siz := laz + words[box];
        Detach(pox, {box}, k, j);
        assert {box} + {pox} == {pox, box};
        ghost var mid := words[..];
        Join(pox, siz, i - 1);
        KeepsTrans(Used(bs), was, mid, words[..]);
        LowNearly(h.bs, north, i, high, Box(pox, siz, 0));
        SpliceAt(h.bs, i - 1, i + 1, Box(pox, siz, 0));
        box', i' := pox, i - 1;
      } else {
        KeepsSame(h, {box});
        LowSkip(bs, north, i, high);
      }
    }

    /** Coalesce with the box above if that is free. */
    method MergeHigh(box: nat, ghost i: nat, ghost low: bool)
      requires Loose(box, i, low, false) && i + 1 < |bs|
      modifies words, this`fre, this`lists, this`bs
      ensures Loose(box, i, low, true) && Used(bs) == Used(old(bs)) && Keeps(Used(bs), old(words[..]), words[..])
      ensures north ==> i + 1 < |bs|
    {
      hide Good, Keeps, Spares, Used, ListFor, Tiled, Filed, Splice, Nearly;
      NearlyIs(bs, north, i, low, false);
      ghost var h, was := St(), words[..];
      Below(h, {box}, i + 1);
      var nox: nat := box + words[box];
      if words[nox + 1] == 0 {
        ghost var k, j := InList(h, {box}, i + 1);
        var siz: nat := words[box] + words[nox];
        Detach(nox, {box}, k, j);
        assert {box} + {nox} == {box, nox};
        ghost var mid := words[..];
        Join(box, siz, i);
        KeepsTrans(Used(bs), was, mid, words[..]);
        HighNearly(h.bs, north, i, low, Box(box, siz, 0));
        SpliceAt(h.bs, i, i + 2, Box(box, siz, 0));
      } else {
        KeepsSame(h, {box});
        HighSkip(bs, north, i, low);
      }
    }

    // Give a free box at the hat back to the open space.
    method Drop(box: nat, ghost i: nat)
      requires Loose(box, i, true, true) && Bounded() && i == if north then |bs| - 1 else 0
      modifies this`hat, this`bs
      ensures Valid() && Used(bs) == Used(old(bs))
    {
      hide Good, Used, Splice, Tiled, Filed, Nearly, Coalesced;
      NearlyIs(bs, north, i, true, true);
      ghost var h := St();
      GoodBox(h, {box}, i);
      DropGood(h, north, i);
      DropDone(bs, north, i);
      hat := if north then box else box + words[box];
      bs := Splice(bs, i, i + 1, []);
      assert St() == Dropped(h, north);
    }

    // Put a free box on its list.
    method Settle(box: nat, ghost i: nat)
      requires Loose(box, i, true, true) && Bounded() && (if north then i + 1 < |bs| else i > 0)
      modifies words, this`fre, this`lists
      ensures Valid() && Keeps(Used(bs), old(words[..]), words[..])
    {
      hide Good, Used, Tiled, Filed, Nearly, Coalesced, Keeps;
      NearlyIs(bs, north, i, true, true);
      NearlyDone(bs, north, i);
      Attach(box, i);
    }

    // Coalesce a box that has just become free, on a north road.
    method FreeNorth(box: nat, ghost i: nat)
      requires north && Loose(box, i, false, false) && Bounded()
      modifies words, this
      ensures Valid() && Used(bs) == Used(old(bs)) && Keeps(Used(bs), old(words[..]), words[..])
    {
      hide Good, Used, Tiled, Filed, Nearly, Coalesced, Keeps;
      NearlyIs(bs, north, i, false, false);
      Ends(St(), {box}, i);
      KeepsSame(St(), {box});
      var box' := box;
      ghost var i' := i;
      if box != rut {
        box', i' := MergeLow(box, i, false);
      } else {
        LowFirst(bs, north, i, false);
      }
      NearlyIs(bs, north, i', true, false);
      Ends(St(), {box'}, i');
      ghost var mid := words[..];
      if box' + words[box'] == hat {
        HighLast(bs, north, i', true);
        Drop(box', i');
      } else {
        MergeHigh(box', i', true);
        KeepsTrans(Used(bs), old(words[..]), mid, words[..]);
        mid := words[..];
        Settle(box', i');
        KeepsTrans(Used(bs), old(words[..]), mid, words[..]);
      }
    }

    // The same on a south road.
    method FreeSouth(box: nat, ghost i: nat)
      requires !north && Loose(box, i, false, false) && Bounded()
      modifies words, this
      ensures Valid() && Used(bs) == Used(old(bs)) && Keeps(Used(bs), old(words[..]), words[..])
    {
      hide Good, Used, Tiled, Filed, Nearly, Coalesced, Keeps;
      NearlyIs(bs, north, i, false, false);
      Ends(St(), {box}, i);
      KeepsSame(St(), {box});
      if box + words[box] != rut {
        MergeHigh(box, i, false);
      } else {
        HighLast(bs, north, i, false);
      }
      NearlyIs(bs, north, i, false, true);
      Ends(St(), {box}, i);
      ghost var mid := words[..];
      if box == hat {
        LowFirst(bs, north, i, true);
        Drop(box, i);
      } else {
        var box', i' := MergeLow(box, i, true);
        KeepsTrans(Used(bs), old(words[..]), mid, words[..]);
        mid := words[..];
        Settle(box', i');
        KeepsTrans(Used(bs), old(words[..]), mid, words[..]);
      }
    }

    /** Give up one use of a block; the last one frees it. */
    method Free(p: nat, ghost b: Box)
      requires Valid() && b in Used(bs) && p == b.at + 2
      modifies words, this
      ensures Valid() && Keeps(Used(old(bs)) - {b}, old(words[..]), words[..])
      ensures Used(bs) == (Used(old(bs)) - {b}) + if b.use > 1 then {Box(b.at, b.size, b.use - 1)} else {}
    {
      hide Good, Tiled, Filed, Nearly, Coalesced, Keeps, Used, Splice;
      ghost var h := St();
      ghost var i := UsedIndex(bs, b);
      GoodBox(h, {}, i);
      TaggedSize(h.m, b);
      var box := p - 2;
      var use: nat := words[box + 1] - 1;
      Count(box, use, {}, i);
      assert {} + {box} == {box} && {} - {box} == {};
      assert (Used(h.bs) - {b}) + {} == Used(h.bs) - {b};
      if use > 0 {
        CountCoalesced(h.bs, north, i, Box(b.at, b.size, use));
        return;
      }
      CountNearly(h.bs, north, i, Box(b.at, b.size, use));
      SpliceAt(h.bs, i, i + 1, Box(b.at, b.size, use));
      ghost var mid := words[..];
      if north {
        FreeNorth(box, i);
      } else {
        FreeSouth(box, i);
      }
      KeepsTrans(Used(h.bs) - {b}, h.m, mid, words[..]);
    }

    // Write the use count of a box in use, or of a loose one.
    method Count(box: nat, use: Word, ghost loose: set<nat>, ghost i: nat)
      requires i < |bs| && bs[i].at == box && Good(St(), loose) && (bs[i].use > 0 || box in loose)
      modifies words, this`bs
      ensures Good(St(), if use == 0 then loose + {box} else loose - {box})
      ensures bs == Splice(old(bs), i, i + 1, [Box(box, old(bs)[i].size, use)])
      ensures Used(bs) == (Used(old(bs)) - {old(bs)[i]}) + if use > 0 then {Box(box, old(bs)[i].size, use)} else {}
      ensures Keeps(Used(old(bs)) - {old(bs)[i]}, old(words[..]), words[..])
    {
      hide Good, Tiled, Filed, Keeps, Used, Splice;
      ghost var h := St();
      CountGood(h, loose, i, use, if use == 0 then loose + {box} else loose - {box});
      CountKeeps(h, loose, i, use);
      Set(box + 1, use);
      bs := Splice(bs, i, i + 1, [Box(box, bs[i].size, use)]);
      assert St() == Counted(h, i, use);
    }

    // Cut a loose box in two and put the first part to use.
    method Carve(cur: nat, siz: Word, all: Word, ghost i: nat)
      requires i < |bs| && bs[i] == Box(cur, all, 0) && Good(St(), {cur}) && Coalesced(bs, north) && Bounded()
      requires siz >= MIN && siz + MIN <= all
      modifies words, this`fre, this`lists, this`bs
      ensures Valid() && Used(bs) == Used(old(bs)) + {Box(cur, siz, 1)} && Keeps(Used(old(bs)), old(words[..]), words[..])
      ensures bs == Splice(old(bs), i, i + 1, Shares(old(bs)[i], siz))
    {
      hide Good, Coalesced, Keeps, Used, Splice;
      ghost var h := St();
      ghost var a, b := Box(cur, siz, 1), Box(cur + siz, all - siz, 0);
      CarveFacts(h, i, siz, north);
      // The headers and the links are different words, so it does not matter
      // that the links are written last.
      Make(cur + siz, all - siz, 0);
      Make(cur, siz, 1);
      bs := Splice(bs, i, i + 1, [a, b]);
      assert St() == Cut(h, i, siz);
      ghost var cut := words[..];
      AttachKeeps(cur + siz, i + 1, Used(h.bs));
      KeepsTrans(Used(h.bs), h.m, cut, words[..]);
    }

    // Put a free box to use, splitting off what is left if it makes a box.
    method Take(cur: nat, siz: Word, ghost k: nat, ghost j: nat) returns (ghost b: Box)
      requires Valid() && k < LISTS == |lists| && j < |lists[k]| && lists[k][j] == cur && siz >= MIN
      requires cur < words.Length && siz <= words[cur]
      modifies words, this`fre, this`lists, this`bs
      ensures Valid() && b.at == cur && b.size >= siz && b.use == 1 && b !in Used(old(bs))
      ensures Used(bs) == Used(old(bs)) + {b} && Keeps(Used(old(bs)), old(words[..]), words[..])
      ensures Drawn(old(bs), bs, b, siz)
    {
      hide Good, Tiled, Filed, Coalesced, Keeps, Used, Splice, ListFor;
      ghost var h := St();
      ghost var i := ListedBox(h, {}, k, j);
      GoodBox(h, {}, i);
      TaggedSize(h.m, h.bs[i]);
      var all: nat := words[cur];
      assert h.bs[i] == Box(cur, all, 0);
      FreeNotIn(h, i);
      Detach(cur, {}, k, j);
      assert {} + {cur} == {cur};
      ghost var mid := words[..];
      if siz + MIN <= all {
        Carve(cur, siz, all, i);
        b := Box(cur, siz, 1);
      } else {
        CountCoalesced(bs, north, i, Box(cur, all, 1));
        FreeNotUsed(bs, i);
        Count(cur, 1, {cur}, i);
        assert {cur} - {cur} == {};
        b := Box(cur, all, 1);
      }
      assert bs == Splice(h.bs, i, i + 1, Shares(h.bs[i], siz));
      KeepsTrans(Used(h.bs), h.m, mid, words[..]);
    }

    // Put a loose box on its list; what some used boxes hold is kept.
    method AttachKeeps(a: nat, ghost i: nat, ghost used: set<Box>)
      requires i < |bs| && bs[i].at == a && bs[i].use == 0 && Good(St(), {a}) && used <= Used(bs)
      modifies words, this`fre, this`lists
      ensures Good(St(), {}) && Keeps(used, old(words[..]), words[..])
    {
      hide Good, Tiled, Filed, Used;
      Attach(a, i);
    }

    // A new box at the hat, if there is room.
    method TakeHat(siz: Word) returns (r: Option<nat>, ghost b: Box)
      requires Valid() && siz >= MIN
      modifies words, this`hat, this`bs
      ensures Valid() && (r.Some? <==> siz < if north then cap - old(hat) else old(hat) - cap)
      ensures r.Some? ==> r.value == b.at && b.size == siz && b.use == 1 && b !in Used(old(bs)) && Used(bs) == Used(old(bs)) + {b} && Keeps(Used(old(bs)), old(words[..]), words[..])
      ensures r.None? ==> bs == old(bs) && hat == old(hat) && words[..] == old(words[..])
      ensures r.Some? ==> FreeWords(bs) == FreeWords(old(bs)) && (if north then b.at == old(hat) && hat == b.at + siz else b.at == hat == old(hat) - siz)
    {
      hide Good, Tiled, Filed, Coalesced, Keeps, Used, Splice, Made, FreeWords;
      ghost var h := St();
      b := Box(0, 0, 0);
      if siz >= (if north then cap - hat else hat - cap) { return None, b; }
      var at := if north then hat else hat - siz;
      GoodFrame(h, {});
      HatGrown(h, north, siz, at);
      Make(at, siz, 1);
      hat := if north then hat + siz else at;
      bs := if north then Splice(bs, |bs|, |bs|, [Box(at, siz, 1)]) else Splice(bs, 0, 0, [Box(at, siz, 1)]);
      assert St() == Grown(h, north, siz);
      r, b := Some(at), Box(at, siz, 1);
      GrownFree(h.bs, north, b);
    }

    /** Once nothing is in use, the hat is back where it began and the lists
        are empty. */
    lemma Empty()
      requires Valid() && Used(bs) == {}
      ensures hat == rut && bs == [] && |fre| == LISTS && forall k :: 0 <= k < LISTS ==> fre[k] == 0
    {
      GoodFrame(St(), {});
      hide Good, Coalesced, Used;
      AllFree(St(), north);
    }

    /** Allocate `len` words: the first box that fits on the lists from the one
        for the size on, or a new one at the hat. */
    method Alloc(len: nat) returns (r: Option<nat>, ghost b: Box)
      requires Valid() && len + 3 < 0x1_0000_0000
      modifies words, this
      ensures Valid()
      ensures r.Some? ==> r.value == b.at + 2 && b.size >= len + 3 && b.use == 1
      ensures r.Some? ==> b !in Used(old(bs)) && Used(bs) == Used(old(bs)) + {b} && Keeps(Used(old(bs)), old(words[..]), words[..])
      ensures r.None? ==> bs == old(bs) && hat == old(hat) && words[..] == old(words[..])
      ensures r.None? ==> BoxSize(len) >= if north then cap - hat else hat - cap
      ensures r.None? || hat != old(hat) ==> NoneFits(old(St()), FirstList(BoxSize(len)), BoxSize(len))
      ensures r.Some? ==> b.size < BoxSize(len) + MIN
      ensures r.Some? && hat == old(hat) ==> Drawn(old(bs), bs, b, BoxSize(len)) && FirstFit(old(St()), b.at, BoxSize(len)) && FreeWords(bs) == FreeWords(old(bs)) - b.size
      ensures r.Some? && hat != old(hat) ==>
                b.size == BoxSize(len) && FreeWords(bs) == FreeWords(old(bs)) && (if north then b.at == old(hat) && hat == b.at + b.size else b.at == hat == old(hat) - b.size)
    {
      hide Good, Tiled, Filed, Coalesced, Keeps, Used, NoneFits, Drawn, FreeWords, FirstFit;
      var siz := BoxSize(len);
      var cur, k, j := Search(siz);
      if cur != 0 {
        FitsFirst(St(), siz, k, j);
        b := Take(cur, siz, k, j);
        r := Some(cur + 2);
        DrawnSize(old(bs), bs, b, siz);
      } else {
        r, b := TakeHat(siz);
        if r.Some? { r := Some(r.value + 2); }
      }
    }

    // The first box on one list that is large enough; 0 if there is none.
    method Scan(sel: nat, siz: nat) returns (cur: nat, ghost j: nat)
      requires Good(St(), {}) && sel < LISTS
      ensures |lists| == LISTS
      ensures if cur == 0 then TooSmall(St(), sel, siz)
              else j < |lists[sel]| && lists[sel][j] == cur && cur < words.Length && siz <= words[cur] && SmallTo(St(), sel, j, siz)
    {
      hide Good, ListFor;
      ghost var h := St();
      GoodFrame(h, {});
      HeadIs(h, {}, sel);
      cur, j := fre[sel], 0;
      while cur != 0
        invariant j <= |lists[sel]| && cur == Nth(lists[sel], j)
        invariant forall q :: 0 <= q < j ==> lists[sel][q] < |h.m| && h.m[lists[sel][q]] < siz
        decreases |lists[sel]| - j
      {
        ListLinks(h, {}, sel, j);
        if siz <= words[cur] { return; }
        cur := words[cur + 3];
        j := j + 1;
      }
      ListEnd(h, sel, j);
    }

    // The first box that fits, list by list; 0 if there is none.
    method Search(siz: nat) returns (cur: nat, ghost k: nat, ghost j: nat)
      requires Good(St(), {})
      ensures |lists| == LISTS
      ensures if cur == 0 then NoneFits(St(), FirstList(siz), siz)
              else k < LISTS && j < |lists[k]| && lists[k][j] == cur && cur < words.Length && siz <= words[cur]
      ensures cur != 0 ==> FirstList(siz) <= k && (forall q :: FirstList(siz) <= q < k ==> TooSmall(St(), q, siz)) && SmallTo(St(), k, j, siz)
      ensures cur == 0 && 0 < ListFor(siz) < LISTS - 1 ==> forall q :: FirstList(siz) <= q < LISTS ==> lists[q] == []
    {
      hide Good, TooSmall, OnList;
      var sel := BoxSlot(siz);
      if sel != 0 && sel != LISTS - 1 {
        sel := sel + 1;
      }
      ghost var from := sel;
      cur, k, j := 0, 0, 0;
      GoodFrame(St(), {});
      while sel < LISTS
        invariant from <= sel <= LISTS && cur == 0
        invariant forall q :: from <= q < sel ==> TooSmall(St(), q, siz)
      {
        cur, j := Scan(sel, siz);
        if cur != 0 { k := sel; return; }
        sel := sel + 1;
      }
      if 0 < ListFor(siz) < LISTS - 1 {
        forall q | FirstList(siz) <= q < LISTS ensures lists[q] == [] { LaterEmpty(St(), q, siz); }
      }
    }
  }

  // A list past the one for a size has nothing too small on it.
  lemma LaterEmpty(h: State, k: nat, siz: nat)
    requires Good(h, {}) && ListFor(siz) < k < LISTS && TooSmall(h, k, siz)
    ensures h.lists[k] == []
  {
    hide Good, ListFor, Tagged, Filed, Tiled;
    if h.lists[k] != [] {
      var i := ListedBox(h, {}, k, 0);
      GoodBox(h, {}, i);
      TaggedSize(h.m, h.bs[i]);
      LaterFits(siz, h.bs[i].size);
    }
  }

  // The size of the box for a block of `len` words.
  function BoxSize(len: nat): nat { if len + 3 > MIN then len + 3 else MIN }

  // Where the search begins: one list up, for most sizes.
  function FirstList(siz: nat): nat {
    var sel := ListFor(siz);
    if sel != 0 && sel != LISTS - 1 then sel + 1 else sel
  }

  // Box `a` put to use for `siz` words: split if what is left makes a box.
  function Shares(a: Box, siz: nat): seq<Box>
    requires siz <= a.size
  {
    if siz + MIN <= a.size then [Box(a.at, siz, 1), Box(a.at + siz, a.size - siz, 0)] else [Box(a.at, a.size, 1)]
  }

  // A free box was put to use, and what is left of it is free in its place.
  ghost predicate Drawn(bs: seq<Box>, bs': seq<Box>, b: Box, siz: nat) {
    exists i :: 0 <= i < |bs| && bs[i].use == 0 && bs[i].size >= siz && b == Shares(bs[i], siz)[0] && bs' == Splice(bs, i, i + 1, Shares(bs[i], siz))
  }

  // Words in free boxes.
  ghost function FreeWords(bs: seq<Box>): nat {
    if bs == [] then 0 else FreeWords(bs[..|bs| - 1]) + if bs[|bs| - 1].use == 0 then bs[|bs| - 1].size else 0
  }

  lemma {:induction false} FreeCat(a: seq<Box>, b: seq<Box>)
    ensures FreeWords(a + b) == FreeWords(a) + FreeWords(b)
    decreases |b|
  {
    if b == [] {
      assert a + b == a;
    } else {
      assert (a + b)[..|a + b| - 1] == a + b[..|b| - 1];
      FreeCat(a, b[..|b| - 1]);
    }
  }

  lemma FreeOne(b: Box)
    ensures FreeWords([b]) == if b.use == 0 then b.size else 0
  {
    assert [b][..0] == [] && FreeWords([]) == 0;
  }

  // What is drawn leaves the free boxes, and nothing else does; less than a
  // box more than was asked for.
  lemma DrawnSize(bs: seq<Box>, bs': seq<Box>, b: Box, siz: nat)
    requires Drawn(bs, bs', b, siz)
    ensures FreeWords(bs') == FreeWords(bs) - b.size && b.size < siz + MIN
  {
    hide FreeWords;
    var i :| 0 <= i < |bs| && bs[i].use == 0 && bs[i].size >= siz && b == Shares(bs[i], siz)[0] && bs' == Splice(bs, i, i + 1, Shares(bs[i], siz));
    var low, high, a, mid := bs[..i], bs[i + 1..], bs[i], Shares(bs[i], siz);
    assert bs == low + [a] + high;
    FreeCat(low + [a], high);
    FreeCat(low, [a]);
    FreeCat(low + mid, high);
    FreeCat(low, mid);
    FreeOne(a);
    FreeOne(b);
    if |mid| == 2 {
      assert mid == [b] + [mid[1]];
      FreeCat([b], [mid[1]]);
      FreeOne(mid[1]);
    }
  }

  lemma GrownFree(bs: seq<Box>, north: bool, b: Box)
    requires b.use == 1
    ensures FreeWords(Splice(bs, |bs|, |bs|, [b])) == FreeWords(bs) == FreeWords(Splice(bs, 0, 0, [b]))
  {
    hide FreeWords;
    assert bs[..|bs|] == bs && bs + [b] + bs[|bs|..] == bs + [b] && bs[..0] + [b] + bs[0..] == [b] + bs;
    FreeCat(bs, [b]);
    FreeCat([b], bs);
    FreeOne(b);
  }

  // The entries of a list before the `j`th are too small.
  ghost predicate SmallTo(h: State, k: nat, j: nat, siz: nat) {
    k < |h.lists| && j <= |h.lists[k]| && forall q :: 0 <= q < j ==> h.lists[k][q] < |h.m| && h.m[h.lists[k][q]] < siz
  }

  /** Box `a` is the first that is large enough, on the first list that has
      one. */
  ghost predicate FirstFit(h: State, a: nat, siz: nat) {
    exists k: nat, j: nat :: k < |h.lists| && j < |h.lists[k]| && h.lists[k][j] == a && SmallTo(h, k, j, siz)
                             && FirstList(siz) <= k && forall q :: FirstList(siz) <= q < k ==> TooSmall(h, q, siz)
  }

  lemma FitsFirst(h: State, siz: nat, k: nat, j: nat)
    requires k < |h.lists| && j < |h.lists[k]| && SmallTo(h, k, j, siz)
    requires FirstList(siz) <= k && forall q :: FirstList(siz) <= q < k ==> TooSmall(h, q, siz)
    ensures FirstFit(h, h.lists[k][j], siz)
  {
    hide TooSmall, FirstList;
  }

  /** What is free is on the list that is for its size. */
  lemma FreeListed(h: State, i: nat)
    requires Good(h, {}) && i < |h.bs| && h.bs[i].use == 0
    ensures OnList(h.bs[i].size, ListFor(h.bs[i].size)) && ListFor(h.bs[i].size) < |h.lists| && h.bs[i].at in h.lists[ListFor(h.bs[i].size)]
  {
    hide Good, OnList, ListFor;
    ListForRange(h.bs[i].size);
    var k, j := InList(h, {}, i);
  }

  ghost predicate TooSmall(h: State, k: nat, siz: nat) {
    k < |h.lists| && forall j :: 0 <= j < |h.lists[k]| ==> h.lists[k][j] < |h.m| && h.m[h.lists[k][j]] < siz
  }

  // No box on the lists that are searched is large enough.
  ghost predicate NoneFits(h: State, from: nat, siz: nat) {
    forall k :: from <= k < LISTS ==> TooSmall(h, k, siz)
  }

  // The end of a list is its last entry's.
  lemma ListEnd(h: State, k: nat, j: nat)
    requires Good(h, {}) && k < LISTS && j <= |h.lists[k]| && Nth(h.lists[k], j) == 0
    ensures j == |h.lists[k]|
  {
    hide Good, ListFor;
    GoodFrame(h, {});
    if j < |h.lists[k]| { var i := ListedBox(h, {}, k, j); }
  }

  lemma LowFirst(bs: seq<Box>, north: bool, i: nat, high: bool)
    requires Nearly(bs, north, i, false, high) && i == 0
    ensures Nearly(bs, north, i, true, high)
  {
  }

  lemma HighLast(bs: seq<Box>, north: bool, i: nat, low: bool)
    requires Nearly(bs, north, i, low, false) && i + 1 == |bs|
    ensures Nearly(bs, north, i, low, true)
  {
  }

  // Where the first and the last box are, and the size of box `i`.
  lemma Ends(h: State, loose: set<nat>, i: nat)
    requires Good(h, loose) && i < |h.bs|
    ensures h.bs[i].at == h.lo <==> i == 0
    ensures h.bs[i].at + h.bs[i].size == h.hi <==> i + 1 == |h.bs|
    ensures h.bs[i].at + h.bs[i].size <= |h.m| && h.m[h.bs[i].at] == h.bs[i].size > 0
  {
    hide Good, Filed, Tagged;
    GoodBox(h, loose, i);
    TaggedSize(h.m, h.bs[i]);
    if i > 0 { GoodBox(h, loose, i - 1); Ascending(h.bs, h.lo, h.hi, i - 1, i); TaggedSize(h.m, h.bs[i - 1]); }
    if i + 1 < |h.bs| { GoodBox(h, loose, i + 1); Ascending(h.bs, h.lo, h.hi, i, i + 1); TaggedSize(h.m, h.bs[i + 1]); }
  }

  lemma SpliceTwo(bs: seq<Box>, i: nat, a: Box, b: Box)
    requires i < |bs|
    ensures |Splice(bs, i, i + 1, [a, b])| == |bs| + 1 && Splice(bs, i, i + 1, [a, b])[i + 1] == b
  {
  }

  lemma UsedIndex(bs: seq<Box>, b: Box) returns (i: nat)
    requires b in Used(bs)
    ensures i < |bs| && bs[i] == b && b.use > 0
  {
    i :| 0 <= i < |bs| && bs[i] == b;
  }

  // No box in use is where a free one is, or outside the heap.
  lemma FreeNotIn(h: State, i: nat)
    requires Good(h, {}) && i < |h.bs| && h.bs[i].use == 0
    ensures forall b :: b in Used(h.bs) ==> b.at != h.bs[i].at
  {
    hide Good;
    forall b | b in Used(h.bs) ensures b.at != h.bs[i].at {
      var j := UsedIndex(h.bs, b);
      GoodApart(h, {}, i, j);
    }
  }

  // What a new box at the hat leaves.
  lemma HatGrown(h: State, north: bool, siz: Word, at: nat)
    requires Good(h, {}) && Coalesced(h.bs, north) && siz >= MIN && (if north then h.hi + siz <= |h.m| else siz < h.lo <= |h.m|)
    requires at == if north then h.hi else h.lo - siz
    ensures var n, b := Grown(h, north, siz), Box(at, siz, 1);
            && Good(n, {}) && Coalesced(n.bs, north) && Keeps(Used(h.bs), h.m, n.m)
            && b !in Used(h.bs) && Used(n.bs) == Used(h.bs) + {b}
  {
    hide Good, Spares, Splice, Used, Made, Coalesced, Keeps;
    GrowGood(h, north, siz);
    OutsideNotIn(h, at);
    SparesKeeps(h, Grown(h, north, siz).m);
    GrowDone(h.bs, north, Box(at, siz, 1));
  }

  lemma OutsideNotIn(h: State, at: nat)
    requires Good(h, {}) && (at < h.lo || at >= h.hi)
    ensures forall b :: b in Used(h.bs) ==> b.at != at
  {
    hide Good, Filed, Tiled;
    forall b | b in Used(h.bs) ensures b.at != at {
      var j := UsedIndex(h.bs, b);
      GoodBox(h, {}, j);
      TaggedSize(h.m, b);
    }
  }

  lemma FreeNotUsed(bs: seq<Box>, i: nat)
    requires i < |bs| && bs[i].use == 0
    ensures Used(bs) - {bs[i]} == Used(bs)
  {
  }

  lemma NearlyIs(bs: seq<Box>, north: bool, i: nat, low: bool, high: bool)
    requires Nearly(bs, north, i, low, high)
    ensures i < |bs| && bs[i].use == 0
  {
  }

  lemma LowSkip(bs: seq<Box>, north: bool, i: nat, high: bool)
    requires Nearly(bs, north, i, false, high) && i > 0 && bs[i - 1].use > 0
    ensures Nearly(bs, north, i, true, high)
  {
  }

  lemma HighSkip(bs: seq<Box>, north: bool, i: nat, low: bool)
    requires Nearly(bs, north, i, low, false) && i + 1 < |bs| && bs[i + 1].use > 0
    ensures Nearly(bs, north, i, low, true)
  {
  }

  lemma KeepsSame(h: State, loose: set<nat>)
    requires Good(h, loose)
    ensures Keeps(Used(h.bs), h.m, h.m)
  {
    hide Good, Spares, Keeps;
    SparesAll(h, loose);
    SparesKeeps(h, h.m);
  }

  lemma SpliceAt(bs: seq<Box>, i: nat, j: nat, b: Box)
    requires i <= j <= |bs|
    ensures |Splice(bs, i, j, [b])| == |bs| - (j - i) + 1 && Splice(bs, i, j, [b])[i] == b
  {
  }

  // Two boxes side by side, as their tags say.
  predicate Abut(m: seq<Word>, a: Box, b: Box) {
    && a.at + a.size == b.at && b.at + b.size <= |m| < 0x1_0000_0000 && a.size >= MIN && b.size >= MIN && a.at > 0
    && m[b.at - 1] == a.size && m[a.at] == a.size && m[a.at + 1] == a.use && m[b.at] == b.size && m[b.at + 1] == b.use
  }

  // What the tags say of a box and the one below.
  lemma Below(h: State, loose: set<nat>, i: nat)
    requires Good(h, loose) && 0 < i < |h.bs|
    ensures Abut(h.m, h.bs[i - 1], h.bs[i])
  {
    hide Good, Tiled, Filed, Tagged, Abut;
    GoodBox(h, loose, i - 1);
    GoodBox(h, loose, i);
    NextBox(h.bs, h.lo, h.hi, i - 1);
    TagsAbut(h.m, h.bs[i - 1], h.bs[i]);
  }

  lemma TagsAbut(m: seq<Word>, a: Box, b: Box)
    requires Tagged(m, a) && Tagged(m, b) && a.at + a.size == b.at && a.size >= MIN && b.size >= MIN && 0 < a.at && |m| < 0x1_0000_0000
    ensures Abut(m, a, b)
  {
  }

  // The list of a free box that is not loose.
  lemma InList(h: State, loose: set<nat>, i: nat) returns (k: nat, j: nat)
    requires Good(h, loose) && i < |h.bs| && h.bs[i].use == 0 && h.bs[i].at !in loose
    ensures k < LISTS == |h.lists| && j < |h.lists[k]| && h.lists[k][j] == h.bs[i].at && k == ListFor(h.bs[i].size)
  {
    hide Good, Tiled, Tagged;
    GoodBox(h, loose, i);
    k := ListFor(h.bs[i].size);
    j :| 0 <= j < |h.lists[k]| && h.lists[k][j] == h.bs[i].at;
  }

  // All that cutting a box in two relies on.
  lemma CarveFacts(h: State, i: nat, siz: Word, north: bool)
    requires i < |h.bs| && h.bs[i].use == 0 && Good(h, {h.bs[i].at}) && Coalesced(h.bs, north) && siz >= MIN && siz + MIN <= h.bs[i].size
    ensures h.bs[i].size < 0x1_0000_0000 && h.bs[i].at + h.bs[i].size <= |h.m|
    ensures var n, a, b := Cut(h, i, siz), Box(h.bs[i].at, siz, 1), Box(h.bs[i].at + siz, h.bs[i].size - siz, 0);
            && Good(n, {h.bs[i].at + siz}) && Keeps(Used(h.bs), h.m, n.m) && Used(n.bs) == Used(h.bs) + {a}
            && Coalesced(n.bs, north) && |n.bs| == |h.bs| + 1 && n.bs[i + 1] == b
  {
    hide Good, Coalesced, Keeps, Used, Splice, Spares, Made;
    var at := h.bs[i].at;
    CutGood(h, {at}, i, siz);
    CutDone(h.bs, north, i, Box(at, siz, 1), Box(at + siz, h.bs[i].size - siz, 0));
    SparesKeeps(h, Cut(h, i, siz).m);
    SpliceTwo(h.bs, i, Box(at, siz, 1), Box(at + siz, h.bs[i].size - siz, 0));
    assert {at} - {at} + {at + siz} == {at + siz};
  }

  // What the links of a listed box say, and what writing them leaves alone.
  ghost predicate Hooked(h: State, k: nat, j: nat)
    requires Linked(h, k, j)
  {
    var a := h.lists[k][j];
    var pre: nat, nex: nat := h.m[a + 2], h.m[a + 3];
    && ListFor(h.m[a]) == k && (pre == 0 ==> h.fre[k] == a)
    && (nex != 0 ==> h.m[nex + 2] == a && nex + 2 != a) && (pre != 0 ==> h.m[pre + 3] == a)
    && (nex != 0 && pre != 0 ==> nex + 2 != pre + 3)
  }

  // All that taking a box out of its list relies on.
  lemma DetachFacts(h: State, loose: set<nat>, k: nat, j: nat)
    requires Good(h, loose) && k < LISTS && j < |h.lists[k]|
    ensures Linked(h, k, j) && Hooked(h, k, j) && |h.m| < 0x1_0000_0000
    ensures Good(Detached(h, k, j), loose + {h.lists[k][j]}) && Keeps(Used(h.bs), h.m, Detached(h, k, j).m)
  {
    hide Good, Keeps, Spares, Used, ListFor, Tiled, Filed;
    DetachGood(h, loose, k, j);
    DetachSpares(h, loose, k, j);
    SparesKeeps(h, Detached(h, k, j).m);
    ListLinks(h, loose, k, j);
    ListHead(h, loose, k, j);
    LinksApart(h, loose, k, j);
    GoodFrame(h, loose);
  }

  // The words that are read after a write are not the ones written.
  lemma LinksApart(h: State, loose: set<nat>, k: nat, j: nat)
    requires Good(h, loose) && Linked(h, k, j)
    ensures var a := h.lists[k][j];
            var pre, nex := h.m[a + 2], h.m[a + 3];
            nex != 0 ==> nex + 2 != a && (pre != 0 ==> nex + 2 != pre + 3)
  {
    hide Good, ListFor;
    ListLinks(h, loose, k, j);
    var s := h.lists[k];
    if j + 1 < |s| {
      ListsFar(h, loose, k, j, k, j + 1);
      if j > 0 { ListsFar(h, loose, k, j - 1, k, j + 1); }
    }
  }

  // Size and list of a listed box, as the code finds them.
  lemma ListHead(h: State, loose: set<nat>, k: nat, j: nat)
    requires Good(h, loose) && k < LISTS && j < |h.lists[k]|
    ensures var a := h.lists[k][j]; a + 3 < |h.m| && ListFor(h.m[a]) == k && (h.m[a + 2] == 0 ==> h.fre[k] == a)
  {
    hide Good, ListFor;
    var i := ListedBox(h, loose, k, j);
    GoodBox(h, loose, i);
    ListLinks(h, loose, k, j);
  }

  // ---- whole runs ----

  // Allocate some words, or free one of the blocks held.
  datatype Op = Get(len: nat) | Give(k: nat)

  // The blocks held are the boxes in use, each held once.
  ghost predicate Tracks(bs: seq<Box>, ptrs: seq<nat>, held: seq<Box>) {
    && |ptrs| == |held| && (forall i :: 0 <= i < |held| ==> held[i].use == 1 && ptrs[i] == held[i].at + 2)
    && (forall i, j :: 0 <= i < |held| && 0 <= j < |held| && held[i] == held[j] ==> i == j)
    && Used(bs) == set b | b in held
  }

  lemma TracksMore(bs: seq<Box>, bs': seq<Box>, ptrs: seq<nat>, held: seq<Box>, b: Box)
    requires Tracks(bs, ptrs, held) && b.use == 1 && b !in Used(bs) && Used(bs') == Used(bs) + {b}
    ensures Tracks(bs', ptrs + [b.at + 2], held + [b])
  {
    hide Used;
    var more := held + [b];
    assert b !in held;
    assert (set x | x in more) == (set x | x in held) + {b};
  }

  lemma TracksLess(bs: seq<Box>, bs': seq<Box>, ptrs: seq<nat>, held: seq<Box>, k: nat)
    requires Tracks(bs, ptrs, held) && k < |held| && Used(bs') == Used(bs) - {held[k]}
    ensures Tracks(bs', ptrs[..k] + ptrs[k + 1..], held[..k] + held[k + 1..])
  {
    hide Used;
    var less := held[..k] + held[k + 1..];
    forall b ensures b in less <==> b in held && b != held[k] {
      if b in held && b != held[k] {
        var i :| 0 <= i < |held| && held[i] == b;
        assert less[if i < k then i else i - 1] == b;
      }
    }
    assert (set b | b in less) == (set b | b in held) - {held[k]};
  }

  // Free one of the blocks held.
  method GiveBack(a: Arena, ptrs: seq<nat>, ghost held: seq<Box>, k: nat) returns (ptrs': seq<nat>, ghost held': seq<Box>)
    requires a.Valid() && Tracks(a.bs, ptrs, held) && k < |ptrs|
    modifies a, a.words
    ensures a.Valid() && Tracks(a.bs, ptrs', held') && |ptrs'| == |ptrs| - 1
  {
    hide Good, Coalesced, Keeps, Used;
    ghost var bs := a.bs;
    assert held[k] in Used(bs);
    a.Free(ptrs[k], held[k]);
    assert (Used(bs) - {held[k]}) + {} == Used(bs) - {held[k]};
    TracksLess(bs, a.bs, ptrs, held, k);
    ptrs', held' := ptrs[..k] + ptrs[k + 1..], held[..k] + held[k + 1..];
  }

  /** Any run of allocations and frees, in any order, keeps the heap in order;
      and once every block is freed the hat is back and the lists are empty. */
  method Churn(a: Arena, ops: seq<Op>)
    requires a.Valid() && a.bs == []
    modifies a, a.words
    ensures a.Valid() && a.bs == [] && a.hat == a.rut && |a.fre| == LISTS && forall k :: 0 <= k < LISTS ==> a.fre[k] == 0
  {
    hide Good, Coalesced, Keeps, Used, Tracks, NoneFits;
    var ptrs: seq<nat>, i := [], 0;
    ghost var held: seq<Box> := [];
    TracksNone();
    while i < |ops|
      invariant i <= |ops| && a.Valid() && Tracks(a.bs, ptrs, held)
    {
      match ops[i] {
        case Get(len) =>
          if len + 3 < 0x1_0000_0000 {
            ghost var bs := a.bs;
            var p, b := a.Alloc(len);
            if p.Some? {
              TracksMore(bs, a.bs, ptrs, held, b);
              ptrs, held := ptrs + [p.value], held + [b];
            }
          }
        case Give(k) =>
          if k < |ptrs| { ptrs, held := GiveBack(a, ptrs, held, k); }
      }
      i := i + 1;
    }
    while ptrs != []
      invariant a.Valid() && Tracks(a.bs, ptrs, held)
      decreases |ptrs|
    {
      ptrs, held := GiveBack(a, ptrs, held, 0);
    }
    TracksEmpty(a.bs, held);
    a.Empty();
  }

  lemma TracksNone()
    ensures Tracks([], [], [])
  {
  }

  lemma TracksEmpty(bs: seq<Box>, held: seq<Box>)
    requires Tracks(bs, [], held)
    ensures Used(bs) == {}
  {
    hide Used;
  }
}
