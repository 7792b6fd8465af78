/** jam and cue: a noun as a stream of bits with back-references, and back.
    The printer remembers references, and the parser makes them, so nouns come
    with how their atoms are held. */
module JamCue {
  import opened Nouns
  import opened HeldNouns

  type Bits = seq<bool>

  // ---- numbers as bits, least significant first ----

  // Bit length of a number.
  function Met(v: nat): nat {
    if v == 0 then 0 else 1 + Met(v / 2)
  }

  // The low `n` bits.
  function Low(v: nat, n: nat): (r: Bits)
    ensures |r| == n
    decreases n
  {
    if n == 0 then [] else [v % 2 == 1] + Low(v / 2, n - 1)
  }

  function Num(s: Bits): nat {
    if s == [] then 0 else (if s[0] then 1 else 0) + 2 * Num(s[1..])
  }

  function Pow2(n: nat): (r: nat)
    ensures r >= 1
  {
    if n == 0 then 1 else 2 * Pow2(n - 1)
  }

  // Shifted right.
  function Half(v: nat, n: nat): nat { if n == 0 then v else Half(v / 2, n - 1) }

  lemma {:induction false} NumLow(v: nat, n: nat)
    requires Met(v) <= n
    ensures Num(Low(v, n)) == v
    decreases n
  {
    if n > 0 {
      NumLow(v / 2, n - 1);
      assert Low(v, n)[1..] == Low(v / 2, n - 1);
    }
  }

  // All but the top bit, and the top bit put back.
  lemma {:induction false} NumTop(v: nat, n: nat)
    requires Met(v) == n + 1
    ensures Num(Low(v, n)) + Pow2(n) == v
    decreases n
  {
    if n > 0 {
      NumTop(v / 2, n - 1);
      assert Low(v, n)[1..] == Low(v / 2, n - 1);
    } else {
      assert v / 2 == 0;
    }
  }

  lemma {:induction false} MetBound(v: nat, n: nat)
    requires v < Pow2(n)
    ensures Met(v) <= n
    decreases n
  {
    if v > 0 { MetBound(v / 2, n - 1); }
  }

  function Zeros(n: nat): (r: Bits)
    ensures |r| == n && forall i :: 0 <= i < n ==> !r[i]
  {
    seq(n, _ => false)
  }

  // ---- printing ----

  // What comes before a body of `len` bits: zeros for the length of its
  // length, a one, its length without the top bit.
  function Run(len: nat): Bits
    requires len > 0
  {
    MetSmall(len); Zeros(Met(len)) + [true] + Low(len, Met(len) - 1)
  }

  // A length-prefixed body.
  function MatOf(len: nat, body: Bits): Bits {
    if len == 0 then [true] else Run(len) + body
  }

  function HeadOf(len: nat): nat { if len == 0 then 1 else 2 * Met(len) }

  // A length-prefixed number.
  function Mat(v: nat): Bits { MatOf(Met(v), Low(v, Met(v))) }

  function AtomBits(v: nat): Bits { [false] + Mat(v) }
  function BackBits(at: nat): Bits { [true, true] + Mat(at) }
  const CELL: Bits := [true, false]

  // Where each noun was first printed.
  type Places = map<Held, nat>

  datatype Printed = Printed(bits: Bits, dict: Places)

  // Print one atom at `pos`.
  function JamAtom(n: Held, dict: Places, pos: nat): Printed
    requires !n.Pair?
  {
    if n !in dict then Printed(AtomBits(n.v), dict[n := pos])
    else if Met(n.v) <= Met(dict[n]) then Printed(AtomBits(n.v), dict)
    else Printed(BackBits(dict[n]), dict)
  }

  /** Print a noun at `pos`, cells before their heads before their tails. */
  function JamAt(n: Held, dict: Places, pos: nat): Printed {
    if !n.Pair? then JamAtom(n, dict, pos)
    else if n in dict then Printed(BackBits(dict[n]), dict) else
    var p := JamAt(n.head, dict[n := pos], pos + 2);
    var q := JamAt(n.tail, p.dict, pos + 2 + |p.bits|);
    Printed(CELL + p.bits + q.bits, q.dict)
  }

  // Whole bytes.
  function Pad(s: Bits): (r: Bits)
    ensures s <= r && |r| % 8 == 0 && |r| < |s| + 8
  {
    s + Zeros((8 - |s| % 8) % 8)
  }

  function Jam(n: Held): Bits { Pad(JamAt(n, map[], 0).bits) }

  // ---- parsing ----

  // Off the end, no such back-reference, too large.
  datatype Error = Gone | Back | Meme

  // Nouns by the position they were read at, as the parser counts positions.
  type Seen = map<nat, Held>

  // The noun, where the next one is, and how far the parser's count of bits is
  // ahead of that.
  datatype Parsed = Good(n: Held, pos: nat, skew: nat, seen: Seen) | Bad(e: Error)

  // `len` bits at `pos`; past the end there are only zeros.
  function Take(s: Bits, pos: nat, len: nat): (r: Bits)
    ensures |r| == len
  {
    seq(len, i requires 0 <= i < len => pos + i < |s| && s[pos + i])
  }

  datatype Counted = Count(n: nat, pos: nat) | Short(e: Error)

  // Zeros before the next one, at most 255 of them.
  function Log(s: Bits, pos: nat, zeros: nat): Counted
    decreases |s| - pos
  {
    if pos >= |s| then Short(Gone)
    else if s[pos] then if zeros > 255 then Short(Meme) else Count(zeros, pos + 1)
    else if zeros >= 256 then Short(Meme)
    else Log(s, pos + 1, zeros + 1)
  }

  lemma {:induction false} LogForward(s: Bits, pos: nat, zeros: nat)
    ensures var c := Log(s, pos, zeros); c.Count? ==> pos < c.pos <= |s|
    decreases |s| - pos
  {
    if pos < |s| && !s[pos] && zeros < 256 { LogForward(s, pos + 1, zeros + 1); }
  }

  // A length prefix.
  function RubLen(s: Bits, pos: nat): Counted {
    var c := Log(s, pos, 0);
    if c.Short? then c
    else if c.n >= 64 then Short(Meme)
    else if c.n <= 1 then c
    else Count(Num(Take(s, c.pos, c.n - 1)) + Pow2(c.n - 1), c.pos + (c.n - 1))
  }

  lemma RubForward(s: Bits, pos: nat)
    ensures var c := RubLen(s, pos); c.Count? ==> c.pos > pos
  {
    LogForward(s, pos, 0);
  }

  /** A bulk read at `pos` counts the bits it needs of the stream's last byte
      in eight bits; far enough past the end the count wraps to a small one. */
  predicate Overrun(s: Bits, pos: nat, len: nat) {
    pos / 8 < |s| / 8 && pos % 8 > 0 &&
    var need := len - 8 * (|s| / 8 - pos / 8 - 1);
    need >= 256 && need % 256 < 8 - pos % 8
  }

  // How many bits it takes when it is asked for `len`: then, only those before
  // the last byte and fewer than eight of that.
  function Real(s: Bits, pos: nat, len: nat): (r: nat)
    ensures r <= len
  {
    if len > 62 && Overrun(s, pos, len) then 8 * (|s| / 8 - pos / 8 - 1) + len % 8 else len
  }

  // An atom of at most 62 bits is held in a word, whatever its value; a longer
  // one as bytes.
  function Atomic(len: nat, v: nat): Held { if len <= 62 then Word(v) else Bytes(v) }

  // What follows a tag that is not a cell's.
  function CueAtom(s: Bits, at: nat, skew: nat, seen: Seen): Parsed {
    var c := RubLen(s, at + 1);
    if c.Short? then Bad(c.e) else
    var got := Real(s, c.pos, c.n);
    var n := Atomic(c.n, Num(Take(s, c.pos, got)));
    Good(n, c.pos + got, skew + (c.n - got), seen[at + skew := n])
  }

  function CueBack(s: Bits, at: nat, skew: nat, seen: Seen): Parsed {
    var c := RubLen(s, at + 2);
    if c.Short? then Bad(c.e)
    else if c.n > 62 then Bad(Meme) else
    var bak := Num(Take(s, c.pos, c.n));
    if bak in seen then Good(seen[bak], c.pos + c.n, skew, seen) else Bad(Back)
  }

  function Left(s: Bits, pos: nat): nat { if pos < |s| then |s| - pos else 0 }

  /** Parse one noun at bit `at` of the stream, which the parser counts as bit
      `at + skew`. */
  function CueAt(s: Bits, at: nat, skew: nat, seen: Seen): (r: Parsed)
    ensures r.Good? ==> at < |s| && r.pos > at && r.skew >= skew
    decreases Left(s, at)
  {
    if at >= |s| then Bad(Gone)
    else if !s[at] then RubForward(s, at + 1); CueAtom(s, at, skew, seen)
    else if at + 1 >= |s| then Bad(Gone)
    else if s[at + 1] then RubForward(s, at + 2); CueBack(s, at, skew, seen)
    else
      var h := CueAt(s, at + 2, skew, seen);
      if h.Bad? then h else
      var t := CueAt(s, h.pos, h.skew, h.seen);
      if t.Bad? then t else
      var n := Pair(h.n, t.n);
      Good(n, t.pos, t.skew, t.seen[at + skew := n])
  }

  // Streams longer than this have cursors that are not direct atoms.
  const MAX_BYTES: nat := 0x7ffffffffffffff

  // Parse a stream of whole bytes.
  function Cue(s: Bits): Parsed {
    if |s| > 8 * MAX_BYTES then Bad(Meme) else CueAt(s, 0, 0, map[])
  }

  // ---- the round trip ----

  // `part` stands in `s` at `pos`.
  predicate Stands(s: Bits, pos: nat, part: Bits) {
    pos + |part| <= |s| && s[pos..pos + |part|] == part
  }

  lemma StandsSplit(s: Bits, pos: nat, a: Bits, b: Bits)
    requires Stands(s, pos, a + b)
    ensures Stands(s, pos, a) && Stands(s, pos + |a|, b)
  {
    var t := s[pos..pos + |a + b|];
    assert s[pos..pos + |a|] == t[..|a|] == a;
    assert s[pos + |a|..pos + |a| + |b|] == t[|a|..] == b;
  }

  lemma TakeStanding(s: Bits, pos: nat, part: Bits)
    requires Stands(s, pos, part)
    ensures Take(s, pos, |part|) == part
  {
    forall i | 0 <= i < |part| ensures Take(s, pos, |part|)[i] == part[i] {
      assert part[i] == s[pos..pos + |part|][i];
    }
  }

  lemma {:induction false} LogZeros(s: Bits, pos: nat, n: nat, zeros: nat)
    requires Stands(s, pos, Zeros(n) + [true]) && n + zeros <= 255
    ensures Log(s, pos, zeros) == Count(n + zeros, pos + n + 1)
    decreases n
  {
    StandsSplit(s, pos, Zeros(n), [true]);
    if n == 0 {
      assert s[pos] == s[pos..pos + 1][0];
    } else {
      assert s[pos] == s[pos..pos + n][0] == false;
      assert s[pos + 1..pos + 1 + n] == s[pos..pos + n + 1][1..] == Zeros(n - 1) + [true] by {
        assert s[pos..pos + n + 1] == Zeros(n) + [true];
      }
      LogZeros(s, pos + 1, n - 1, zeros + 1);
    }
  }

  // Cursors of a stream that is not too long have at most 62 bits.
  lemma CursorSmall(v: nat)
    requires v <= 8 * MAX_BYTES
    ensures Met(v) <= 62
  {
    MetDirect(v);
  }

  lemma {:induction false} Pow2Sum(a: nat, b: nat)
    ensures Pow2(a + b) == Pow2(a) * Pow2(b)
  {
    if a > 0 { Pow2Sum(a - 1, b); }
  }

  // A printed length is read back.
  lemma RubMat(s: Bits, pos: nat, len: nat, body: Bits)
    requires |body| == len && Met(len) <= 62 && Stands(s, pos, MatOf(len, body))
    ensures RubLen(s, pos) == Count(len, pos + HeadOf(len))
    ensures Stands(s, pos + HeadOf(len), body) && |MatOf(len, body)| == HeadOf(len) + len
  {
    hide Met, RubLen, Low, Log, Stands;
    MetSmall(len);
    if len == 0 {
      RubZero(s, pos);
      NoneStands(s, pos, body);
    } else {
      RubLong(s, pos, len, Met(len), body);
    }
  }

  lemma NoneStands(s: Bits, pos: nat, body: Bits)
    requires body == [] && Stands(s, pos, [true])
    ensures Stands(s, pos + 1, body)
  {
  }

  lemma RubZero(s: Bits, pos: nat)
    requires Stands(s, pos, [true])
    ensures RubLen(s, pos) == Count(0, pos + 1)
  {
    hide Log;
    assert [true] == Zeros(0) + [true];
    LogZeros(s, pos, 0, 0);
  }

  lemma RubLong(s: Bits, pos: nat, len: nat, nel: nat, body: Bits)
    requires len > 0 && nel == Met(len) <= 62 && |body| == len && Stands(s, pos, Run(len) + body)
    ensures RubLen(s, pos) == Count(len, pos + 2 * nel) && Stands(s, pos + 2 * nel, body) && |Run(len)| == 2 * nel
  {
    hide RubLen, Stands, Met;
    StandsSplit(s, pos, Run(len), body);
    RubRun(s, pos, len, nel);
  }

  lemma RubRun(s: Bits, pos: nat, len: nat, nel: nat)
    requires len > 0 && nel == Met(len) <= 62 && Stands(s, pos, Run(len))
    ensures RubLen(s, pos) == Count(len, pos + 2 * nel) && |Run(len)| == 2 * nel
  {
    hide Met, Low, Zeros, Log, Take, RubLen, Stands;
    MetSmall(len);
    var a, b := Zeros(nel) + [true], Low(len, nel - 1);
    StandsSplit(s, pos, a, b);
    LogZeros(s, pos, nel, 0);
    TakeStanding(s, pos + nel + 1, b);
    RubFrom(s, pos, len, nel);
  }

  lemma RubFrom(s: Bits, pos: nat, len: nat, nel: nat)
    requires 1 <= nel <= 62 && Met(len) == nel
    requires Log(s, pos, 0) == Count(nel, pos + nel + 1) && Take(s, pos + nel + 1, nel - 1) == Low(len, nel - 1)
    ensures RubLen(s, pos) == Count(len, pos + 2 * nel)
  {
    NumTop(len, nel - 1);
    if nel == 1 { assert Low(len, 0) == [] && Pow2(0) == 1 && Num([]) == 0; }
    hide Met, Low, Log, Take, Num, Pow2;
  }

  lemma {:induction false} MetSmall(v: nat)
    ensures Met(v) <= v && (v > 0 ==> Met(v) > 0)
  {
    if v > 1 { MetSmall(v / 2); }
  }

  // Numbers of at most 62 bits.
  lemma MetDirect(v: nat)
    ensures Met(v) <= 62 <==> v < DIRECT
  {
    assert Pow2(0) == 1 && Pow2(1) == 2 && Pow2(2) == 4 && Pow2(4) == 16 && Pow2(8) == 256;
    hide Pow2;
    Pow2Sum(8, 8);
    Pow2Sum(16, 8);
    Pow2Sum(24, 4);
    Pow2Sum(28, 2);
    Pow2Sum(30, 1);
    Pow2Sum(31, 31);
    if v < DIRECT { MetBound(v, 62); } else { MetLeast(v, 62); }
  }

  lemma {:induction false} MetLeast(v: nat, n: nat)
    requires v >= Pow2(n)
    ensures Met(v) > n
    decreases n
  {
    if n > 0 { MetLeast(v / 2, n - 1); }
  }

  // How the parser holds what it reads.
  function Anew(h: Held): Held { Natural(Bare(h)) }

  // An atom is read back from the stream, at whatever length it was printed;
  // a back-reference likewise.
  lemma AtomReadAs(s: Bits, at: nat, len: nat, v: nat, seen: Seen)
    requires Stands(s, at, [false] + MatOf(len, Low(v, len))) && Met(v) <= len && Met(len) <= 62
    ensures CueAt(s, at, 0, seen) == Good(Atomic(len, v), at + 1 + |MatOf(len, Low(v, len))|, 0, seen[at := Atomic(len, v)])
  {
    hide MatOf, Met, RubLen, HeadOf, Low, Num, Take;
    StandsSplit(s, at, [false], MatOf(len, Low(v, len)));
    assert s[at] == s[at..at + 1][0];
    RubMat(s, at + 1, len, Low(v, len));
    TakeStanding(s, at + 1 + HeadOf(len), Low(v, len));
    NumLow(v, len);
  }

  lemma AtomRead(s: Bits, at: nat, v: nat, seen: Seen)
    requires Stands(s, at, AtomBits(v)) && |s| <= 8 * MAX_BYTES
    ensures CueAt(s, at, 0, seen) == Good(Natural(Atom(v)), at + |AtomBits(v)|, 0, seen[at := Natural(Atom(v))])
  {
    MatLong(v);
    hide CueAt, MatOf, Met, Low, Stands;
    StandsAt(s, at, AtomBits(v));
    CursorSmall(Met(v));
    AtomReadAs(s, at, Met(v), v, seen);
    MetDirect(v);
  }

  lemma MatLong(v: nat)
    ensures |Mat(v)| >= Met(v)
  {
    hide Met, Low, Zeros;
  }

  /** An atom printed with a longer length than it needs is the same noun, but
      not held the same way: in a word at 62 bits, as bytes past that. */
  lemma Overlong(len: nat, v: nat)
    requires Met(v) <= len && Met(len) <= 62
    ensures var s := Pad([false] + MatOf(len, Low(v, len)));
            |s| <= 8 * MAX_BYTES ==> Cue(s).Good? && Bare(Cue(s).n) == Atom(v) && (Cue(s).n == Natural(Atom(v)) <==> len <= 62 || v >= DIRECT)
  {
    hide CueAt, MatOf, Met, Low;
    var b := [false] + MatOf(len, Low(v, len));
    var s := Pad(b);
    assert s[0..0 + |b|] == b;
    if |s| <= 8 * MAX_BYTES {
      AtomReadAs(s, 0, len, v, map[]);
      MetDirect(v);
    }
  }

  // Sixty-three zeros for the number zero.
  lemma OverlongZero()
    ensures var s := Pad([false] + MatOf(63, Low(0, 63))); |s| <= 8 * MAX_BYTES && Cue(s).Good? && Cue(s).n == Bytes(0)
  {
    assert Met(0) == 0;
    hide Cue, Met, Low, Zeros, Pad;
    MetDirect(63);
    Overlong(63, 0);
    PadSize([false] + MatOf(63, Low(0, 63)));
    MatOfSize(63, Low(0, 63));
  }

  lemma Met256()
    ensures Met(256) == 9
  {
    assert Met(1) == 1 && Met(4) == 3 && Met(16) == 5 && Met(64) == 7;
  }

  // Where the bits of an atom of 256 bits begin, and its bytes end.
  lemma WrapAt(s: Bits)
    requires |s| == 24 && Stands(s, 0, [false] + Run256())
    ensures CueAt(s, 0, 0, map[]) == Good(Bytes(0), 19, 256, map[0 := Bytes(0)])
  {
    Met256();
    assert Num(Take(s, 19, 0)) == 0;
    hide Met, Log, RubLen, Run, Low, Zeros, Take, Num, Pow2;
    StandsSplit(s, 0, [false], Run(256));
    RubRun(s, 1, 256, 9);
    assert s[0] == s[0..1][0];
    assert Real(s, 19, 256) == 0;
  }

  function Run256(): (r: Bits)
    ensures |r| == 18
  {
    Met256(); RunSize(256); Run(256)
  }

  lemma RunSize(len: nat)
    requires len > 0
    ensures |Run(len)| == 2 * Met(len)
  {
    MetSmall(len);
  }

  /** A stream of three bytes, an atom of 256 bits of which five are there, all
      ones: reading it wraps the count, and the atom is zero instead of 31. */
  lemma WrapStream()
    ensures var s := [false] + Run(256) + [true, true, true, true, true];
            |s| == 24 && Cue(s).Good? && Cue(s).n == Bytes(0) && Num(Take(s, 19, 256)) == 31
  {
    var b, ones := [false] + Run256(), [true, true, true, true, true];
    var s := b + ones;
    assert s[0..0 + |b|] == b;
    WrapAt(s);
    hide Run, Met, CueAt;
    TakeOnes(s, ones);
  }

  lemma TakeOnes(s: Bits, ones: Bits)
    requires ones == [true, true, true, true, true] && |s| == 24 && s[19..] == ones
    ensures Num(Take(s, 19, 256)) == 31
  {
    assert Take(s, 19, 256) == ones + Zeros(251);
    NumPad(ones, 251);
    var two, three, four := [true, true], [true, true, true], [true, true, true, true];
    assert [true][1..] == [] && two[1..] == [true] && three[1..] == two && four[1..] == three && ones[1..] == four;
    assert Num([true]) == 1 && Num(two) == 3 && Num(three) == 7 && Num(four) == 15;
  }

  lemma {:induction false} NumPad(s: Bits, n: nat)
    ensures Num(s + Zeros(n)) == Num(s)
    decreases |s| + n
  {
    if s != [] {
      assert (s + Zeros(n))[1..] == s[1..] + Zeros(n);
      NumPad(s[1..], n);
    } else if n > 0 {
      assert ([] + Zeros(n))[1..] == [] + Zeros(n - 1);
      NumPad([], n - 1);
    }
  }

  lemma MatOfSize(len: nat, body: Bits)
    requires len > 0 && |body| == len
    ensures |MatOf(len, body)| == 2 * Met(len) + len
  {
    hide Met, Low, Zeros;
    MetSmall(len);
  }

  lemma PadSize(s: Bits)
    ensures |Pad(s)| == (|s| + 7) / 8 * 8
  {
  }

  lemma BackRead(s: Bits, at: nat, bak: nat, seen: Seen)
    requires Stands(s, at, BackBits(bak)) && |s| <= 8 * MAX_BYTES && bak <= |s| && bak in seen
    ensures CueAt(s, at, 0, seen) == Good(seen[bak], at + |BackBits(bak)|, 0, seen)
  {
    hide MatOf, Met, RubLen, HeadOf, Low, Num, Take;
    StandsSplit(s, at, [true, true], Mat(bak));
    assert s[at] == s[at..at + 2][0] && s[at + 1] == s[at..at + 2][1];
    CursorSmall(bak);
    MetMet(bak);
    RubMat(s, at + 2, Met(bak), Low(bak, Met(bak)));
    TakeStanding(s, at + 2 + HeadOf(Met(bak)), Low(bak, Met(bak)));
    NumLow(bak, Met(bak));
  }

  lemma MetMet(v: nat)
    requires Met(v) <= 62
    ensures Met(Met(v)) <= 62
  {
    MetSmall(Met(v));
  }

  /** Every noun the printer knows is either still being printed, and then is
      larger than what is printed now, or has been read at the same place. */
  ghost predicate Linked(dict: Places, seen: Seen, size: nat, limit: nat) {
    forall m :: m in dict ==>
      && dict[m] <= limit
      && (Bulk(m) > size || (dict[m] in seen && seen[dict[m]] == Anew(m)))
  }

  ghost predicate Grows(dict: Places, dict': Places) {
    forall m :: m in dict ==> m in dict' && dict'[m] == dict[m]
  }

  // Nothing changes below `at`.
  ghost predicate Kept(seen: Seen, seen': Seen, at: nat) {
    && (forall i :: i in seen && i < at ==> i in seen' && seen'[i] == seen[i])
    && (forall i :: i in seen' && i < at ==> i in seen)
  }

  ghost predicate Below(seen: Seen, at: nat) { forall i :: i in seen ==> i < at }

  // The printer's new entries are all of what it has printed in between.
  ghost predicate Fresh(dict: Places, dict': Places, seen': Seen) {
    forall m :: m in dict' && m !in dict ==> dict'[m] in seen' && seen'[dict'[m]] == Anew(m)
  }

  // What printing `n` at `at` and reading it there does.
  ghost predicate Tripped(n: Held, dict: Places, at: nat, seen: Seen, p: Printed, r: Parsed) {
    && r.Good? && r.n == Anew(n) && r.pos == at + |p.bits| && r.skew == 0
    && Grows(dict, p.dict) && Kept(seen, r.seen, at) && Below(r.seen, r.pos) && Fresh(dict, p.dict, r.seen)
    && (forall m :: m in p.dict ==> p.dict[m] <= r.pos) && (AllNatural(seen) ==> AllNatural(r.seen))
  }

  ghost predicate AllNatural(seen: Seen) { forall i :: i in seen ==> seen[i] == Anew(seen[i]) }

  // Held naturally is held naturally.
  lemma AnewTwice(h: Held)
    ensures Anew(Anew(h)) == Anew(h)
  {
    BareNatural(Bare(h));
  }

  lemma AtomTrip(n: Held, dict: Places, s: Bits, at: nat, seen: Seen)
    requires !n.Pair? && |s| <= 8 * MAX_BYTES && Stands(s, at, JamAtom(n, dict, at).bits)
    requires Linked(dict, seen, Bulk(n), at) && Below(seen, at)
    ensures var p, r := JamAtom(n, dict, at), CueAt(s, at, 0, seen);
            Tripped(n, dict, at, seen, p, r)
  {
    hide Met, CueAt, Mat, Tripped;
    if n !in dict || Met(n.v) <= Met(dict[n]) {
      AtomRead(s, at, n.v, seen);
      PrintedTrip(n, dict, at, seen, JamAtom(n, dict, at), CueAt(s, at, 0, seen));
    } else {
      BackRead(s, at, dict[n], seen);
      KnownTrip(n, dict, at, seen, JamAtom(n, dict, at), CueAt(s, at, 0, seen));
    }
  }

  // An atom printed and read again, for the first time or not.
  lemma PrintedTrip(n: Held, dict: Places, at: nat, seen: Seen, p: Printed, r: Parsed)
    requires !n.Pair? && Linked(dict, seen, Bulk(n), at) && Below(seen, at)
    requires p == Printed(AtomBits(n.v), if n in dict then dict else dict[n := at])
    requires r == Good(Anew(n), at + |p.bits|, 0, seen[at := Anew(n)])
    ensures Tripped(n, dict, at, seen, p, r)
  {
    hide Mat;
    AnewTwice(n);
    hide Anew;
  }

  // A back-reference printed and read.
  lemma KnownTrip(n: Held, dict: Places, at: nat, seen: Seen, p: Printed, r: Parsed)
    requires n in dict && Linked(dict, seen, Bulk(n), at) && Below(seen, at)
    requires p == Printed(BackBits(dict[n]), dict) && r == Good(Anew(n), at + |p.bits|, 0, seen)
    ensures Tripped(n, dict, at, seen, p, r)
  {
    hide Mat, Anew;
  }

  /** Reading what was printed gives the noun back, at every position and with
      every back-reference resolved. */
  lemma {:induction false} Trip(n: Held, dict: Places, s: Bits, at: nat, seen: Seen)
    requires |s| <= 8 * MAX_BYTES && Stands(s, at, JamAt(n, dict, at).bits)
    requires Linked(dict, seen, Bulk(n), at) && Below(seen, at)
    ensures var p, r := JamAt(n, dict, at), CueAt(s, at, 0, seen);
            Tripped(n, dict, at, seen, p, r)
    decreases n, 1
  {
    hide CueAt, Bulk, Stands, JamAtom;
    if !n.Pair? {
      AtomTrip(n, dict, s, at, seen);
    } else if n in dict {
      assert at <= |s| by { StandsAt(s, at, BackBits(dict[n])); }
      BackRead(s, at, dict[n], seen);
    } else {
      TripRest(n, dict, s, at, seen);
    }
  }

  lemma StandsAt(s: Bits, at: nat, part: Bits)
    requires Stands(s, at, part)
    ensures at + |part| <= |s|
  {
  }

  lemma {:induction false} TripRest(n: Held, dict: Places, s: Bits, at: nat, seen: Seen)
    requires n.Pair? && n !in dict
    requires |s| <= 8 * MAX_BYTES && Stands(s, at, JamAt(n, dict, at).bits)
    requires Linked(dict, seen, Bulk(n), at) && Below(seen, at)
    ensures var p, r := JamAt(n, dict, at), CueAt(s, at, 0, seen);
            Tripped(n, dict, at, seen, p, r)
    decreases n, 0
  {
    hide CueAt, JamAt, Bulk, Stands, Linked, Tripped, Below;
    var dict1 := dict[n := at];
    var p := JamAt(n.head, dict1, at + 2);
    var q := JamAt(n.tail, p.dict, at + 2 + |p.bits|);
    JamCell(n, dict, at);
    StandsCell(s, at, p.bits, q.bits);
    CueCell(s, at, 0, seen);
    var h := CueAt(s, at + 2, 0, seen);
    LinkedHead(n, dict, at, seen);
    BelowMore(seen, at, at + 2);
    Trip(n.head, dict1, s, at + 2, seen);
    TrippedGood(n.head, dict1, at + 2, seen, p, h);
    LinkedTail(n, dict, at, seen, p, h);
    Trip(n.tail, p.dict, s, h.pos, h.seen);
    TrippedGood(n.tail, p.dict, h.pos, h.seen, q, CueAt(s, h.pos, 0, h.seen));
    TripCell(n, dict, at, seen, p, h, q, CueAt(s, h.pos, 0, h.seen));
  }

  lemma StandsCell(s: Bits, at: nat, a: Bits, b: Bits)
    requires Stands(s, at, CELL + a + b)
    ensures Stands(s, at, CELL) && Stands(s, at + 2, a) && Stands(s, at + 2 + |a|, b)
  {
    StandsSplit(s, at, CELL + a, b);
    StandsSplit(s, at, CELL, a);
  }

  lemma BelowMore(seen: Seen, at: nat, more: nat)
    requires Below(seen, at) && at <= more
    ensures Below(seen, more)
  {
  }

  lemma TrippedGood(n: Held, dict: Places, at: nat, seen: Seen, p: Printed, r: Parsed)
    requires Tripped(n, dict, at, seen, p, r)
    ensures r.Good? && r.n == Anew(n) && r.pos == at + |p.bits| && r.skew == 0
  {
  }

  lemma JamCell(n: Held, dict: Places, at: nat)
    requires n.Pair? && n !in dict
    ensures var p := JamAt(n.head, dict[n := at], at + 2);
            var q := JamAt(n.tail, p.dict, at + 2 + |p.bits|);
            JamAt(n, dict, at) == Printed(CELL + p.bits + q.bits, q.dict)
  {
  }

  // Parsing past a cell tag.
  lemma CueCell(s: Bits, at: nat, skew: nat, seen: Seen)
    requires Stands(s, at, CELL)
    ensures var h, r := CueAt(s, at + 2, skew, seen), CueAt(s, at, skew, seen);
            if h.Bad? then r == h else
            var t := CueAt(s, h.pos, h.skew, h.seen);
            if t.Bad? then r == t else r == Good(Pair(h.n, t.n), t.pos, t.skew, t.seen[at + skew := Pair(h.n, t.n)])
  {
    assert s[at] == s[at..at + 2][0] && s[at + 1] == s[at..at + 2][1];
  }

  lemma LinkedHead(n: Held, dict: Places, at: nat, seen: Seen)
    requires n.Pair? && Linked(dict, seen, Bulk(n), at)
    ensures Linked(dict[n := at], seen, Bulk(n.head), at + 2)
  {
    BulkParts(n);
    hide Bulk;
  }

  lemma BulkParts(n: Held)
    requires n.Pair?
    ensures Bulk(n) > Bulk(n.head) && Bulk(n) > Bulk(n.tail)
  {
  }

  // The printer and the parser agree between head and tail.
  lemma LinkedTail(n: Held, dict: Places, at: nat, seen: Seen, p: Printed, h: Parsed)
    requires n.Pair? && n !in dict && Linked(dict, seen, Bulk(n), at) && Below(seen, at)
    requires Tripped(n.head, dict[n := at], at + 2, seen, p, h)
    ensures Linked(p.dict, h.seen, Bulk(n.tail), h.pos) && Below(h.seen, h.pos)
  {
    var mid := p.dict;
    BulkParts(n);
    hide Bulk;
    forall m | m in mid
      ensures mid[m] <= h.pos && (Bulk(m) > Bulk(n.tail) || (mid[m] in h.seen && h.seen[mid[m]] == Anew(m)))
    {
      if m in dict && Bulk(m) <= Bulk(n.tail) { assert dict[m] in seen && seen[dict[m]] == Anew(m); }
    }
  }

  // Putting head and tail together.
  lemma TripCell(n: Held, dict: Places, at: nat, seen: Seen, p: Printed, h: Parsed, q: Printed, t: Parsed)
    requires n.Pair? && n !in dict && Below(seen, at)
    requires Tripped(n.head, dict[n := at], at + 2, seen, p, h) && Tripped(n.tail, p.dict, h.pos, h.seen, q, t)
    ensures Tripped(n, dict, at, seen, Printed(CELL + p.bits + q.bits, q.dict), Good(Anew(n), t.pos, 0, t.seen[at := Anew(n)]))
  {
    hide Bulk, Natural, Bare;
    KeptCell(n, dict, at, seen, p, h, q, t);
    FreshCell(n, dict, at, seen, p, h, q, t);
    AnewTwice(n);
    hide Grows, Kept, Fresh, Below;
  }

  lemma KeptCell(n: Held, dict: Places, at: nat, seen: Seen, p: Printed, h: Parsed, q: Printed, t: Parsed)
    requires n.Pair? && n !in dict && Below(seen, at)
    requires Tripped(n.head, dict[n := at], at + 2, seen, p, h) && Tripped(n.tail, p.dict, h.pos, h.seen, q, t)
    ensures Grows(dict, q.dict) && Kept(seen, t.seen[at := Anew(n)], at) && Below(t.seen[at := Anew(n)], t.pos)
  {
    hide Anew, Fresh, AllNatural;
  }

  lemma FreshCell(n: Held, dict: Places, at: nat, seen: Seen, p: Printed, h: Parsed, q: Printed, t: Parsed)
    requires n.Pair? && n !in dict && Below(seen, at)
    requires Tripped(n.head, dict[n := at], at + 2, seen, p, h) && Tripped(n.tail, p.dict, h.pos, h.seen, q, t)
    ensures Fresh(dict, q.dict, t.seen[at := Anew(n)])
  {
    hide Anew, AllNatural;
    var seen', mid, end := t.seen[at := Anew(n)], p.dict, q.dict;
    forall m | m in end && m !in dict ensures end[m] in seen' && seen'[end[m]] == Anew(m) {
      if m == n {
        assert mid[n] == at;
      } else if m in mid {
        assert mid[m] in h.seen && h.seen[mid[m]] == Anew(m);
        FreshAbove(n, dict, at, seen, p, h, m);
      }
    }
  }

  // What the head added is after the cell's own position.
  lemma FreshAbove(n: Held, dict: Places, at: nat, seen: Seen, p: Printed, h: Parsed, m: Held)
    requires n.Pair? && Tripped(n.head, dict[n := at], at + 2, seen, p, h) && Below(seen, at)
    requires m in p.dict && m !in dict && m != n
    ensures p.dict[m] in h.seen && p.dict[m] != at && p.dict[m] < h.pos
  {
    hide Anew, AllNatural;
    assert at in h.seen ==> at in seen;
  }

  /** jam then cue gives back the noun, its atoms held naturally, whenever the
      parser does not reject the stream for its length alone; so it is the
      identity exactly on what is held naturally. */
  lemma RoundTrip(h: Held)
    requires |Jam(h)| <= 8 * MAX_BYTES
    ensures Cue(Jam(h)).Good? && Cue(Jam(h)).n == Natural(Bare(h)) && Bare(Cue(Jam(h)).n) == Bare(h)
    ensures AllNatural(Cue(Jam(h)).seen) && Cue(Jam(h)).skew == 0 && Cue(Jam(h)).pos <= |Jam(h)|
  {
    var s, p := Jam(h), JamAt(h, map[], 0);
    assert s[0..0 + |p.bits|] == p.bits;
    hide JamAt, CueAt;
    Trip(h, map[], s, 0, map[]);
    BareNatural(Bare(h));
  }

  // What has the same stream is the same noun.
  lemma JamInjective(h: Held, g: Held)
    requires |Jam(h)| <= 8 * MAX_BYTES && Jam(h) == Jam(g)
    ensures Bare(h) == Bare(g)
  {
    hide Jam, Cue;
    RoundTrip(h);
    RoundTrip(g);
  }
}
