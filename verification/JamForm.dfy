/** What jam writes, apart from its being read back: which of the two forms a
    repeated noun takes, and streams that are known byte by byte. */
module JamForm {
  import opened Nouns
  import opened HeldNouns
  import opened JamCue

  // ---- the shorter form ----

  lemma {:induction false} MetMono(a: nat, b: nat)
    requires a <= b
    ensures Met(a) <= Met(b)
  {
    if a > 0 { MetMono(a / 2, b / 2); }
  }

  lemma MatSize(v: nat)
    ensures |Mat(v)| == HeadOf(Met(v)) + Met(v) && |AtomBits(v)| == 1 + |Mat(v)| && |BackBits(v)| == 2 + |Mat(v)|
  {
    MetSmall(Met(v));
    hide Met, Low;
  }

  /** An atom that was printed before takes the shorter of its own form and a
      back-reference, the back-reference when they are as long. */
  lemma Shorter(n: Held, dict: Places, pos: nat)
    requires !n.Pair? && n in dict
    ensures JamAt(n, dict, pos) == Printed(if |AtomBits(n.v)| < |BackBits(dict[n])| then AtomBits(n.v) else BackBits(dict[n]), dict)
  {
    MatSize(n.v);
    MatSize(dict[n]);
    var a, b := Met(n.v), Met(dict[n]);
    if a <= b { MetMono(a, b); } else { MetMono(b, a); }
    MetSmall(a);
    MetSmall(b);
    hide Met, AtomBits, BackBits, Mat;
  }

  /** A noun that was not printed before is printed in full, and remembered
      where it is. */
  lemma First(n: Held, dict: Places, pos: nat)
    requires n !in dict
    ensures var p := JamAt(n, dict, pos); p.bits[0] == n.Pair? && (n.Pair? ==> !p.bits[1])
    ensures !n.Pair? ==> JamAt(n, dict, pos) == Printed(AtomBits(n.v), dict[n := pos])
    ensures var p := JamAt(n, dict, pos); n in p.dict && p.dict[n] == pos
  {
    hide Mat, Met, Low;
    if n.Pair? {
      JamCell(n, dict, pos);
      hide JamAt;
      JamGrows(n.head, dict[n := pos], pos + 2);
      var p := JamAt(n.head, dict[n := pos], pos + 2);
      JamGrows(n.tail, p.dict, pos + 2 + |p.bits|);
    }
  }

  // What is remembered stays.
  lemma {:induction false} JamGrows(n: Held, dict: Places, pos: nat)
    ensures Grows(dict, JamAt(n, dict, pos).dict)
  {
    if n.Pair? && n !in dict {
      JamCell(n, dict, pos);
      JamGrows(n.head, dict[n := pos], pos + 2);
      var p := JamAt(n.head, dict[n := pos], pos + 2);
      JamGrows(n.tail, p.dict, pos + 2 + |p.bits|);
    }
  }

  // ---- streams as numbers, the first bit the lowest ----

  lemma NumFirst(x: bool, s: Bits)
    ensures Num([x] + s) == (if x then 1 else 0) + 2 * Num(s)
  {
    assert ([x] + s)[1..] == s;
  }

  lemma {:induction false} NumCat(a: Bits, b: Bits)
    ensures Num(a + b) == Num(a) + Pow2(|a|) * Num(b)
  {
    if a == [] {
      assert a + b == b && Num(a) == 0 && Pow2(|a|) == 1;
    } else {
      var x, rest := a[0], a[1..];
      assert Pow2(|a|) == 2 * Pow2(|rest|);
      NumCat(rest, b);
      hide Num, Pow2;
      assert a == [x] + rest && a + b == [x] + (rest + b);
      NumFirst(x, rest);
      NumFirst(x, rest + b);
      Twice(Pow2(|rest|), Num(b));
    }
  }

  lemma Twice(p: nat, n: nat)
    ensures 2 * (p * n) == 2 * p * n
  {
  }

  lemma {:induction false} NumZeros(n: nat)
    ensures Num(Zeros(n)) == 0
    decreases n
  {
    if n > 0 {
      assert Zeros(n)[1..] == Zeros(n - 1);
      NumZeros(n - 1);
    }
  }

  /** A length-prefixed number: a one above as many zeros as its length has
      bits, then its length without the top bit, then the number. */
  lemma MatNumber(v: nat)
    requires v > 0
    ensures var b := Met(v);
            var c := Met(b);
            c > 0 && |Mat(v)| == c + c + b && b >= Pow2(c - 1)
            && Num(Mat(v)) == Pow2(c) * (1 + 2 * ((b - Pow2(c - 1)) + Pow2(c - 1) * v))
  {
    var b := Met(v);
    MetSmall(v);
    MetSmall(b);
    var c := Met(b);
    NumTop(b, c - 1);
    NumLow(v, b);
    NumZeros(c);
    MatSize(v);
    hide Met, Low, Num, Pow2, Zeros;
    MatCat(v, b, c, Low(b, c - 1), Low(v, b));
  }

  lemma MatCat(v: nat, b: nat, c: nat, low: Bits, body: Bits)
    requires v > 0 && b == Met(v) && c == Met(b) > 0 && low == Low(b, c - 1) && body == Low(v, b) && Num(Zeros(c)) == 0
    ensures Num(Mat(v)) == Pow2(c) * (1 + 2 * (Num(low) + Pow2(c - 1) * Num(body)))
  {
    MatParts(v, b, c, low, body);
    var zs := Zeros(c);
    hide *;
    NumCat(zs, [true] + (low + body));
    NumFirst(true, low + body);
    NumCat(low, body);
  }

  lemma MatParts(v: nat, b: nat, c: nat, low: Bits, body: Bits)
    requires v > 0 && b == Met(v) && c == Met(b) > 0 && low == Low(b, c - 1) && body == Low(v, b)
    ensures Mat(v) == Zeros(c) + ([true] + (low + body))
  {
    MetSmall(v);
    assert Mat(v) == Zeros(c) + [true] + low + body;
    hide *;
  }

  lemma NumOne()
    ensures Num([true]) == 1 && Num([false]) == 0 && Num([true, true]) == 3 && Num(CELL) == 1
    ensures Pow2(0) == 1 && Pow2(1) == 2 && Pow2(2) == 4
  {
    assert [true, true][1..] == [true] && CELL[1..] == [false] && [true][1..] == [] && [false][1..] == [];
  }

  /** What is printed, as a number: an atom is twice its length-prefixed form,
      a back-reference four times that and three, a cell four times its head
      followed by its tail and one. */
  lemma AtomNumber(n: Held, dict: Places, pos: nat)
    requires !n.Pair? && n !in dict
    ensures Num(JamAt(n, dict, pos).bits) == 2 * Num(Mat(n.v)) && |JamAt(n, dict, pos).bits| == 1 + |Mat(n.v)|
  {
    assert JamAt(n, dict, pos).bits == [false] + Mat(n.v);
    hide JamAt, Num, Pow2, Mat;
    NumFirst(false, Mat(n.v));
  }

  lemma BackNumber(n: Held, dict: Places, pos: nat)
    requires n.Pair? && n in dict
    ensures Num(JamAt(n, dict, pos).bits) == 3 + 4 * Num(Mat(dict[n])) && |JamAt(n, dict, pos).bits| == 2 + |Mat(dict[n])|
    ensures JamAt(n, dict, pos).dict == dict
  {
    var m := Mat(dict[n]);
    assert JamAt(n, dict, pos) == Printed([true, true] + m, dict);
    hide JamAt, Num, Pow2, Mat;
    assert [true, true] + m == [true] + ([true] + m);
    NumFirst(true, [true] + m);
    NumFirst(true, m);
  }

  lemma CellNumber(n: Held, dict: Places, pos: nat, p: Printed, q: Printed)
    requires n.Pair? && n !in dict && p == JamAt(n.head, dict[n := pos], pos + 2) && q == JamAt(n.tail, p.dict, pos + 2 + |p.bits|)
    ensures Num(JamAt(n, dict, pos).bits) == 1 + 4 * (Num(p.bits) + Pow2(|p.bits|) * Num(q.bits))
    ensures |JamAt(n, dict, pos).bits| == 2 + |p.bits| + |q.bits| && JamAt(n, dict, pos).dict == q.dict
  {
    JamCell(n, dict, pos);
    hide JamAt, Num, Pow2;
    TaggedNumber(p.bits, q.bits);
  }

  lemma TaggedNumber(a: Bits, b: Bits)
    ensures Num(CELL + a + b) == 1 + 4 * (Num(a) + Pow2(|a|) * Num(b))
  {
    hide Num, Pow2;
    assert CELL + a + b == [true] + ([false] + (a + b));
    NumFirst(true, [false] + (a + b));
    NumFirst(false, a + b);
    NumCat(a, b);
  }

  // Padding adds nothing to the number.
  lemma PadNumber(s: Bits)
    ensures Num(Pad(s)) == Num(s) && |Pad(s)| == (|s| + 7) / 8 * 8
  {
    NumZeros((8 - |s| % 8) % 8);
    NumCat(s, Zeros((8 - |s| % 8) % 8));
    hide Num, Pow2;
    PadSize(s);
  }

  // ---- streams that are known ----

  ghost predicate JamIs(n: Held, num: nat, bytes: nat) { Num(Jam(n)) == num && |Jam(n)| == 8 * bytes }

  lemma SmallMats()
    ensures |Mat(0)| == 1 && Num(Mat(0)) == 1 && |Mat(1)| == 3 && Num(Mat(1)) == 6
    ensures |Mat(2)| == 6 && Num(Mat(2)) == 36 && |Mat(3)| == 6 && Num(Mat(3)) == 52
  {
    assert Met(0) == 0 && Met(1) == 1 && Met(2) == 2 && Met(3) == 2;
    NumOne();
    MatNumber(1);
    MatNumber(2);
    MatNumber(3);
    hide Met, Low, Run;
    assert Mat(0) == [true];
  }

  lemma JamPad(n: Held)
    ensures Num(Jam(n)) == Num(JamAt(n, map[], 0).bits) && |Jam(n)| == (|JamAt(n, map[], 0).bits| + 7) / 8 * 8
  {
    hide JamAt, Pad, Num;
    PadNumber(JamAt(n, map[], 0).bits);
  }

  lemma Pow2s()
    ensures Pow2(2) == 4 && Pow2(4) == 16 && Pow2(7) == 128 && Pow2(8) == 256 && Pow2(10) == 1024
  {
  }

  /** The streams of 0, 1 and 2. */
  lemma KnownAtoms()
    ensures JamIs(Word(0), 0x2, 1) && JamIs(Word(1), 0xc, 1) && JamIs(Word(2), 0x48, 1)
  {
    SmallMats();
    hide Num, Jam, JamAt, Mat;
    JamPad(Word(0));
    JamPad(Word(1));
    JamPad(Word(2));
    AtomNumber(Word(0), map[], 0);
    AtomNumber(Word(1), map[], 0);
    AtomNumber(Word(2), map[], 0);
  }

  // An atom of at most three printed where it is no longer than its place.
  lemma SmallAtom(v: nat, dict: Places, pos: nat)
    requires v <= 3 && (Word(v) in dict ==> dict[Word(v)] >= 2)
    ensures var p := JamAt(Word(v), dict, pos);
            Num(p.bits) == 2 * Num(Mat(v)) && |p.bits| == 1 + |Mat(v)| && p.dict == if Word(v) in dict then dict else dict[Word(v) := pos]
  {
    if Word(v) !in dict {
      AtomNumber(Word(v), dict, pos);
    } else {
      MetMono(v, 3);
      MetMono(2, dict[Word(v)]);
      assert Met(3) == 2 && Met(2) == 2;
      NumFirst(false, Mat(v));
    }
    hide Num, Mat, Met;
  }

  // A cell of two such atoms.
  lemma SmallCell(a: nat, b: nat, dict: Places, pos: nat)
    requires a <= 3 && b <= 3 && Pair(Word(a), Word(b)) !in dict && forall n :: n in dict && n.Word? ==> dict[n] >= 2
    ensures var p := JamAt(Pair(Word(a), Word(b)), dict, pos);
            && Num(p.bits) == 1 + 4 * (2 * Num(Mat(a)) + Pow2(1 + |Mat(a)|) * (2 * Num(Mat(b)))) && |p.bits| == 4 + |Mat(a)| + |Mat(b)|
            && Pair(Word(a), Word(b)) in p.dict && p.dict[Pair(Word(a), Word(b))] == pos && Grows(dict, p.dict)
            && (forall n :: n in p.dict && n.Word? ==> p.dict[n] >= 2)
            && (forall n :: n in p.dict && n.Pair? ==> n in dict || n == Pair(Word(a), Word(b)))
  {
    var n := Pair(Word(a), Word(b));
    hide Num, Mat, JamAt, Pow2;
    SmallAtom(a, dict[n := pos], pos + 2);
    var p := JamAt(n.head, dict[n := pos], pos + 2);
    SmallAtom(b, p.dict, pos + 2 + |p.bits|);
    CellNumber(n, dict, pos, p, JamAt(n.tail, p.dict, pos + 2 + |p.bits|));
  }

  /** The streams of [0 0], [1 1] and [2 3]. */
  lemma KnownCells()
    ensures JamIs(Pair(Word(0), Word(0)), 0x29, 1) && JamIs(Pair(Word(1), Word(1)), 0x331, 2)
    ensures JamIs(Pair(Word(2), Word(3)), 0xd121, 2)
  {
    SmallMats();
    Pow2s();
    hide Num, Jam, JamAt, Mat, Pow2;
    JamPad(Pair(Word(0), Word(0)));
    JamPad(Pair(Word(1), Word(1)));
    JamPad(Pair(Word(2), Word(3)));
    SmallCell(0, 0, map[], 0);
    SmallCell(1, 1, map[], 0);
    SmallCell(2, 3, map[], 0);
  }

  const OO: Held := Pair(Word(0), Word(0))
  const II: Held := Pair(Word(1), Word(1))

  // Printed as `len` bits that are the number `num`.
  ghost predicate Shows(p: Printed, num: nat, len: nat) { Num(p.bits) == num && |p.bits| == len }

  lemma CellShows(n: Held, dict: Places, pos: nat, p: Printed, q: Printed, a: nat, al: nat, b: nat, bl: nat)
    requires n.Pair? && n !in dict && p == JamAt(n.head, dict[n := pos], pos + 2) && Shows(p, a, al)
    requires q == JamAt(n.tail, p.dict, pos + 2 + al) && Shows(q, b, bl)
    ensures Shows(JamAt(n, dict, pos), 1 + 4 * (a + Pow2(al) * b), 2 + al + bl) && JamAt(n, dict, pos).dict == q.dict
  {
    hide Num, Pow2, JamAt, Mat;
    CellNumber(n, dict, pos, p, q);
  }

  lemma BackShows(n: Held, dict: Places, pos: nat)
    requires n.Pair? && n in dict
    ensures Shows(JamAt(n, dict, pos), 3 + 4 * Num(Mat(dict[n])), 2 + |Mat(dict[n])|) && JamAt(n, dict, pos).dict == dict
  {
    hide Num, Mat, JamAt;
    BackNumber(n, dict, pos);
  }

  // Parts of what is printed are not what is printed.
  lemma Apart()
    ensures var m := Pair(OO, II);
            var r := Pair(m, II);
            var n := Pair(OO, r);
            OO != II && OO != m && II != m && OO != r && II != r && m != r && n != OO && n != II && n != m && n != r
            && m.Pair? && r.Pair? && n.Pair? && OO.Pair? && II.Pair?
  {
    assert OO.head.Word? && II.head == Word(1);
  }

  // [[0 0] 1 1] at 10 when [0 0] was printed at 2.
  lemma KnownLeft(dict: Places)
    requires OO in dict && dict[OO] == 2 && Pair(OO, II) !in dict && II !in dict && forall n :: n in dict && n.Word? ==> dict[n] >= 2
    ensures var p := JamAt(Pair(OO, II), dict, 10); Shows(p, 837197, 20) && II in p.dict && p.dict[II] == 20
  {
    Apart();
    SmallMats();
    OnesShow(dict[Pair(OO, II) := 10]);
    LeftShows(dict, OO, II, Pair(OO, II));
  }

  lemma OnesShow(dict: Places)
    requires II !in dict && forall n :: n in dict && n.Word? ==> dict[n] >= 2
    ensures var p := JamAt(II, dict, 20); Shows(p, 817, 10) && II in p.dict && p.dict[II] == 20
  {
    SmallMats();
    Pow2s();
    hide Num, JamAt, Mat, Pow2;
    assert Pow2(1 + 3) == 16 && 1 + 4 * (2 * 6 + 16 * (2 * 6)) == 817;
    SmallCell(1, 1, dict, 20);
  }

  lemma LeftShows(dict: Places, o: Held, i: Held, n: Held)
    requires n.Pair? && n.head == o && n.tail == i && o.Pair? && o != n && n !in dict && o in dict && dict[o] == 2 && Num(Mat(2)) == 36 && |Mat(2)| == 6
    requires var p := JamAt(i, dict[n := 10], 20); Shows(p, 817, 10) && i in p.dict && p.dict[i] == 20
    ensures var p := JamAt(n, dict, 10); Shows(p, 837197, 20) && i in p.dict && p.dict[i] == 20
  {
    Pow2s();
    hide Num, JamAt, Mat, Pow2, Shows;
    var d := dict[n := 10];
    BackShows(o, d, 12);
    CellShows(n, dict, 10, JamAt(o, d, 12), JamAt(i, d, 20), 147, 8, 817, 10);
  }

  // [[[0 0] 1 1] 1 1] at 8.
  lemma KnownRight(dict: Places)
    requires OO in dict && dict[OO] == 2 && II !in dict && forall n :: n in dict && n.Word? ==> dict[n] >= 2
    requires Pair(OO, II) !in dict && Pair(Pair(OO, II), II) !in dict
    ensures Shows(JamAt(Pair(Pair(OO, II), II), dict, 8), 1 + 4 * (837197 + 0x10_0000 * 5219), 35)
  {
    Apart();
    KnownLeft(dict[Pair(Pair(OO, II), II) := 8]);
    KnownMat20();
    RightShows(dict, II, Pair(OO, II), Pair(Pair(OO, II), II));
  }

  lemma RightShows(dict: Places, i: Held, m: Held, n: Held)
    requires n.Pair? && n.head == m && n.tail == i && i.Pair? && n !in dict && Num(Mat(20)) == 1304 && |Mat(20)| == 11 && Pow2(20) == 0x10_0000
    requires var p := JamAt(m, dict[n := 8], 10); Shows(p, 837197, 20) && i in p.dict && p.dict[i] == 20
    ensures Shows(JamAt(n, dict, 8), 1 + 4 * (837197 + 0x10_0000 * 5219), 35)
  {
    hide Num, JamAt, Mat, Pow2, Shows;
    var p := JamAt(m, dict[n := 8], 10);
    BackShows(i, p.dict, 30);
    CellShows(n, dict, 8, p, JamAt(i, p.dict, 30), 837197, 20, 5219, 13);
  }

  lemma KnownMat20()
    ensures Num(Mat(20)) == 1304 && |Mat(20)| == 11 && Pow2(20) == 0x10_0000
  {
    assert Met(5) == 3 && Met(20) == 5 by { assert Met(1) == 1 && Met(2) == 2; }
    assert Pow2(3) == 8 && Pow2(2) == 4 && Pow2(10) == 1024;
    hide Met, Low, Run, Mat, Num, Pow2;
    MatNumber(20);
    Pow2Sum(10, 10);
  }

  /** The stream of [[0 0] [[0 0] 1 1] 1 1], in which two cells are printed as
      back-references. */
  lemma KnownShared()
    ensures JamIs(Pair(OO, Pair(Pair(OO, II), II)), 0x518f31935a5, 6)
  {
    var r := Pair(Pair(OO, II), II);
    var n := Pair(OO, r);
    var d: Places := map[n := 0];
    SmallMats();
    Pow2s();
    Apart();
    assert Pow2(6) == 64;
    hide Num, Jam, JamAt, Mat, Pow2;
    SmallCell(0, 0, d, 2);
    KnownRight(JamAt(OO, d, 2).dict);
    WholeShows(OO, r, n);
  }

  lemma WholeShows(o: Held, r: Held, n: Held)
    requires n.Pair? && n.head == o && n.tail == r && Pow2(6) == 64
    requires Shows(JamAt(o, map[n := 0], 2), 41, 6)
    requires Shows(JamAt(r, JamAt(o, map[n := 0], 2).dict, 8), 1 + 4 * (837197 + 0x10_0000 * 5219), 35)
    ensures JamIs(n, 0x518f31935a5, 6)
  {
    hide Num, Jam, JamAt, Mat, Pow2;
    JamPad(n);
    var none: Places := map[];
    assert none[n := 0] == map[n := 0];
    var p := JamAt(o, map[n := 0], 2);
    CellShows(n, none, 0, p, JamAt(r, p.dict, 8), 41, 6, 1 + 4 * (837197 + 0x10_0000 * 5219), 35);
  }

  // ---- streams that are refused ----

  /** A stream that ends before a noun does is refused for that, whatever comes
      before. */
  lemma RefusedEnd(s: Bits, at: nat, skew: nat, seen: Seen)
    ensures at >= |s| ==> CueAt(s, at, skew, seen) == Bad(Gone)
    ensures at + 1 == |s| && s[at] ==> CueAt(s, at, skew, seen) == Bad(Gone)
    ensures at + 1 == |s| && !s[at] ==> CueAt(s, at, skew, seen) == Bad(Gone)
  {
  }

  /** A length whose own length is 64 or more is too large, of an atom or of a
      back-reference. */
  lemma RefusedLong(s: Bits, at: nat, skew: nat, seen: Seen, back: bool, n: nat)
    requires 64 <= n <= 255 && Stands(s, at, (if back then [true, true] else [false]) + (Zeros(n) + [true]))
    ensures CueAt(s, at, skew, seen) == Bad(Meme)
  {
    var tag := if back then [true, true] else [false];
    StandsSplit(s, at, tag, Zeros(n) + [true]);
    LogZeros(s, at + |tag|, n, 0);
    assert s[at] == s[at..at + |tag|][0];
    if back { assert s[at + 1] == s[at..at + 2][1]; }
    hide Log, Stands;
    assert RubLen(s, at + |tag|) == Short(Meme);
  }

  /** A back-reference is read if and only if something was read where it
      points to. */
  lemma RefusedBack(s: Bits, at: nat, bak: nat, skew: nat, seen: Seen)
    requires Stands(s, at, BackBits(bak)) && Met(bak) <= 62
    ensures CueAt(s, at, skew, seen) == if bak in seen then Good(seen[bak], at + |BackBits(bak)|, skew, seen) else Bad(Back)
  {
    hide MatOf, Met, RubLen, HeadOf, Low, Num, Take;
    StandsSplit(s, at, [true, true], Mat(bak));
    assert s[at] == s[at..at + 2][0] && s[at + 1] == s[at..at + 2][1];
    MetMet(bak);
    RubMat(s, at + 2, Met(bak), Low(bak, Met(bak)));
    TakeStanding(s, at + 2 + HeadOf(Met(bak)), Low(bak, Met(bak)));
    NumLow(bak, Met(bak));
  }

  /** A back-reference of more than 62 bits is too large. */
  lemma RefusedFar(s: Bits, at: nat, bak: nat, skew: nat, seen: Seen)
    requires Stands(s, at, BackBits(bak)) && Met(bak) > 62 && Met(Met(bak)) <= 62
    ensures CueAt(s, at, skew, seen) == Bad(Meme)
  {
    hide MatOf, Met, RubLen, HeadOf, Low, Num, Take;
    StandsSplit(s, at, [true, true], Mat(bak));
    assert s[at] == s[at..at + 2][0] && s[at + 1] == s[at..at + 2][1];
    RubMat(s, at + 2, Met(bak), Low(bak, Met(bak)));
  }
}
