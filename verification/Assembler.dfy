/** The assembler is correct: every instruction decodes where it was laid out,
    and every skip lands past exactly the instructions it counts. */
module Assembler {
  import opened Nouns
  import opened Bytecode

  lemma {:induction false} ReachSplit(code: seq<Word>, a: nat, b: nat)
    requires a <= |code|
    ensures Reach(code, a + b) == Reach(code, a) + Reach(code[a..], b)
  {
    if a == 0 {
      assert code[0..] == code;
    } else {
      ReachSplit(code[1..], a - 1, b);
      assert code[1..][a - 1..] == code[a..];
    }
  }

  lemma AsmHead(code: seq<Word>)
    requires code != []
    ensures var p, q := Asm(code), Asm(code[1..]);
            && p.bytes == Encode(code[0], Index(code[0], code[1..])) + q.bytes
            && q.lits <= p.lits && q.cals <= p.cals && q.mems <= p.mems && q.regs <= p.regs
  {
    hide Encode, WordSize, Index, Reach;
  }

  // Dropping instructions drops their bytes and leaves a prefix of each table.
  lemma {:induction false} AsmSuffix(code: seq<Word>, i: nat)
    requires i <= |code|
    ensures var p, q := Asm(code), Asm(code[i..]);
            && |p.bytes| == Reach(code, i) + |q.bytes|
            && p.bytes[Reach(code, i)..] == q.bytes
            && q.lits <= p.lits && q.cals <= p.cals && q.mems <= p.mems && q.regs <= p.regs
  {
    hide Encode, WordSize, Index, Asm;
    if i == 0 {
      assert code[0..] == code;
    } else {
      AsmSuffix(code[1..], i - 1);
      assert code[1..][i - 1..] == code[i..];
      AsmHead(code);
      var e := Encode(code[0], Index(code[0], code[1..]));
      Behind(e, Asm(code[1..]).bytes, Reach(code[1..], i - 1));
    }
  }

  lemma Behind(e: seq<byte>, r: seq<byte>, k: nat)
    requires k <= |r|
    ensures (e + r)[|e| + k..] == r[k..]
  {
  }

  // The two-byte form of an indexed opcode follows its one-byte form.
  predicate Wide(op: byte, k: Kind) {
    op < 94 && KindOf(op) == k == KindOf(op + 1) && ArgSize(op) == 1 && ArgSize(op + 1) == 2
  }

  // A word whose opcode reads its operand the way the word stores it.
  predicate WordOk(w: Word) {
    match w
    case Plain(op) => KindOf(op) == KPlain && ArgSize(op) == 0
    case D8(op, v) => KindOf(op) == KDirect && ArgSize(op) == 1 && v < 256
    case D16(op, v) => KindOf(op) == KDirect && ArgSize(op) == 2 && v < 0x10000
    case LitIx(op, n) => Wide(op, KLit)
    case CalIx(op, a) => Wide(op, KCal)
    case RegIx(op) => Wide(op, KReg)
    case MemIx(op, n, k) => Wide(op, KMem)
    case Jump(op, n) => Wide(op, KJump) && KindOf(op + 2) == KJump && ArgSize(op + 2) == 4
  }

  lemma {:induction false} ReachClamp(code: seq<Word>, n: nat)
    ensures Reach(code, n) <= Reach(code, |code|)
  {
    if n > 0 && code != [] { ReachClamp(code[1..], n - 1); }
  }

  lemma OperandByte(b: seq<byte>, ip: nat)
    requires ip + 1 <= |b|
    ensures Operand(b, ip, 1) == b[ip]
  {
    assert Operand(b, ip + 1, 0) == 0;
  }

  lemma OperandShort(b: seq<byte>, ip: nat, v: nat)
    requires ip + 2 <= |b| && v < 0x10000 && b[ip..ip + 2] == Short(v)
    ensures Operand(b, ip, 2) == v
  {
    OperandByte(b, ip + 1);
    assert b[ip] == b[ip..ip + 2][0] && b[ip + 1] == b[ip..ip + 2][1];
  }

  lemma OperandLong(b: seq<byte>, ip: nat, v: nat)
    requires ip + 4 <= |b| && v < 0x1_0000_0000 && b[ip..ip + 4] == Long(v)
    ensures Operand(b, ip, 4) == v
  {
    var s := b[ip..ip + 4];
    assert b[ip] == s[0] && b[ip + 1] == s[1] && b[ip + 2] == s[2] && b[ip + 3] == s[3];
    var w := v / 256;
    var x := w / 256;
    assert b[ip + 2..ip + 4] == Short(x);
    OperandShort(b, ip + 2, x);
    assert Operand(b, ip + 1, 3) == w % 256 + 256 * x;
    assert Operand(b, ip, 4) == v % 256 + 256 * Operand(b, ip + 1, 3);
  }

  // An encoded table index reads back, with the opcode or its successor.
  lemma InxReads(b: seq<byte>, ip: nat, op: byte, ix: nat)
    requires op < 94 && ArgSize(op) == 1 && ArgSize(op + 1) == 2
    requires ix < 0x10000
    requires ip + InxSize(ix) <= |b| && b[ip..ip + InxSize(ix)] == Inx(op, ix)
    ensures b[ip] == op || b[ip] == op + 1
    ensures InxSize(ix) == 1 + ArgSize(b[ip])
    ensures Operand(b, ip + 1, ArgSize(b[ip])) == ix
  {
    var s := b[ip..ip + InxSize(ix)];
    assert b[ip] == s[0];
    if ix <= 0xFF {
      OperandByte(b, ip + 1);
      assert b[ip + 1] == s[1];
    } else {
      assert s[1..] == Short(ix);
      assert b[ip + 1..ip + 3] == s[1..];
      OperandShort(b, ip + 1, ix);
    }
  }

  lemma DistReads(b: seq<byte>, ip: nat, op: byte, d: nat)
    requires op < 94 && ArgSize(op) == 1 && ArgSize(op + 1) == 2 && ArgSize(op + 2) == 4
    requires d < 0x1_0000_0000
    requires ip + DistSize(d) <= |b| && b[ip..ip + DistSize(d)] == Dist(op, d)
    ensures b[ip] == op || b[ip] == op + 1 || b[ip] == op + 2
    ensures DistSize(d) == 1 + ArgSize(b[ip])
    ensures Operand(b, ip + 1, ArgSize(b[ip])) == d
  {
    var s := b[ip..ip + DistSize(d)];
    assert b[ip] == s[0];
    if d <= 0xFF {
      OperandByte(b, ip + 1);
      assert b[ip + 1] == s[1];
    } else if d <= 0xFFFF {
      assert s[1..] == Short(d);
      assert b[ip + 1..ip + 3] == s[1..];
      OperandShort(b, ip + 1, d);
    } else {
      assert s[1..] == Long(d);
      assert b[ip + 1..ip + 5] == s[1..];
      OperandLong(b, ip + 1, d);
    }
  }

  // The table entry that a word uses in a program.
  predicate TableHas(p: Prog, w: Word, ix: nat, d: nat) {
    match w
    case LitIx(_, n) => ix < 0x10000 && ix < |p.lits| && p.lits[ix] == n
    case CalIx(_, a) => ix < 0x10000 && ix < |p.cals| && p.cals[ix] == a
    case RegIx(_) => ix < 0x10000 && ix < p.regs
    case MemIx(_, n, k) => ix < 0x10000 && ix < |p.mems| && p.mems[ix] == MemoSlot(d, k)
    case Jump(_, n) => ix == d < 0x8000_0000
    case _ => true
  }

  // What reading a word must yield.
  predicate Reads(r: Raw, w: Word, ix: nat, d: nat, next: nat) {
    && r.Raw? && r.next == next
    && match w
       case Plain(op) => r.op == op && r.arg == Atom(0) && r.n == 0
       case D8(op, v) => r.op == op && r.arg == Atom(v) && r.n == 0
       case D16(op, v) => r.op == op && r.arg == Atom(v) && r.n == 0
       case LitIx(op, n) => (r.op == op || r.op == op + 1) && r.arg == n && r.n == 0
       case CalIx(op, a) => (r.op == op || r.op == op + 1) && r.arg == a && r.n == 0 && r.ix == ix
       case RegIx(op) => (r.op == op || r.op == op + 1) && r.arg == Atom(0) && r.n == 0
       case MemIx(op, n, k) => (r.op == op || r.op == op + 1) && r.arg == k && r.n == d && r.jump == next + d
       case Jump(op, n) =>
         && (r.op == op || r.op == op + 1 || r.op == op + 2)
         && r.arg == Atom(0) && r.n == d && r.jump == next + d
  }

  // Encoded bytes anywhere in a program read back.
  lemma ReadEncoded(p: Prog, off: nat, w: Word, ix: nat, d: nat)
    requires WordOk(w) && TableHas(p, w, ix, d)
    requires var e := Encode(w, ix); off + |e| <= |p.bytes| && p.bytes[off..off + |e|] == e
    ensures Reads(Read(p, off), w, ix, d, off + |Encode(w, ix)|)
  {
    hide KindOf, ArgSize, Inx, Dist, Short, Long, Reads, Read;
    var e := Encode(w, ix);
    assert p.bytes[off] == p.bytes[off..off + |e|][0] == e[0];
    match w
    case Plain(_) => ReadDirect(p, off, w, ix, d);
    case D8(o, v) =>
      OperandByte(p.bytes, off + 1);
      ByteAfter(p.bytes, off, e);
      ReadDirect(p, off, w, ix, d);
    case D16(o, v) =>
      ShortAfter(p.bytes, off, e);
      OperandShort(p.bytes, off + 1, v);
      ReadDirect(p, off, w, ix, d);
    case Jump(o, n) =>
      DistReads(p.bytes, off, o, d);
      ReadIndexed(p, off, w, ix, d);
    case _ =>
      InxReads(p.bytes, off, w.op, ix);
      ReadIndexed(p, off, w, ix, d);
  }

  lemma ByteAfter(b: seq<byte>, off: nat, e: seq<byte>)
    requires off + |e| <= |b| && b[off..off + |e|] == e && |e| == 2
    ensures b[off + 1] == e[1]
  {
    assert b[off..off + |e|][1] == b[off + 1];
  }

  lemma ShortAfter(b: seq<byte>, off: nat, e: seq<byte>)
    requires off + |e| <= |b| && b[off..off + |e|] == e && |e| == 3
    ensures b[off + 1..off + 3] == e[1..]
  {
    assert b[off..off + |e|][1..] == b[off + 1..off + 3];
  }

  lemma ReadDirect(p: Prog, off: nat, w: Word, ix: nat, d: nat)
    requires WordOk(w) && (w.Plain? || w.D8? || w.D16?)
    requires off + WordSize(w, ix) <= |p.bytes| && p.bytes[off] == w.op
    requires w.D8? ==> Operand(p.bytes, off + 1, 1) == w.v
    requires w.D16? ==> Operand(p.bytes, off + 1, 2) == w.v
    ensures Reads(Read(p, off), w, ix, d, off + WordSize(w, ix))
  {
    hide KindOf, ArgSize;
  }

  lemma ReadIndexed(p: Prog, off: nat, w: Word, ix: nat, d: nat)
    requires WordOk(w) && TableHas(p, w, ix, d) && !w.Plain? && !w.D8? && !w.D16?
    requires off + WordSize(w, ix) <= |p.bytes| && WordSize(w, ix) == 1 + ArgSize(p.bytes[off])
    requires p.bytes[off] == w.op || p.bytes[off] == w.op + 1 || (w.Jump? && p.bytes[off] == w.op + 2)
    requires Operand(p.bytes, off + 1, ArgSize(p.bytes[off])) == ix
    ensures Reads(Read(p, off), w, ix, d, off + WordSize(w, ix))
  {
    hide KindOf, ArgSize;
  }

  // Where word `i` of an assembled program is, and what its tables hold.
  lemma EncodedAt(code: seq<Word>, i: nat)
    requires i < |code| && Fits(code)
    ensures var p, off, rest := Asm(code), Reach(code, i), code[i + 1..];
            var e := Encode(code[i], Index(code[i], rest));
            && Reach(code, i + 1) == off + |e| <= |p.bytes|
            && p.bytes[off..off + |e|] == e
  {
    hide Asm, Encode, Index, Fits, WordSize, Reach;
    var rest := code[i + 1..];
    AsmSuffix(code, i);
    ReachSplit(code, i, 1);
    assert code[i..][1..] == rest && code[i..][0] == code[i];
    ReachOne(code[i..]);
    AsmHead(code[i..]);
    Ahead(Asm(code).bytes, Reach(code, i), Encode(code[i], Index(code[i], rest)), Asm(rest).bytes);
  }

  lemma ReachOne(code: seq<Word>)
    requires code != []
    ensures Reach(code, 1) == WordSize(code[0], Index(code[0], code[1..]))
  {
    hide WordSize, Index;
    assert Reach(code[1..], 0) == 0;
  }

  lemma Ahead(b: seq<byte>, off: nat, e: seq<byte>, r: seq<byte>)
    requires off <= |b| && b[off..] == e + r
    ensures off + |e| <= |b| && b[off..off + |e|] == e
  {
    assert b[off..][..|e|] == e;
  }

  function SpanOf(w: Word): nat {
    match w case MemIx(_, n, _) => n case Jump(_, n) => n case _ => 0
  }

  lemma TableAt(code: seq<Word>, i: nat)
    requires i < |code| && Fits(code)
    ensures var rest := code[i + 1..];
            TableHas(Asm(code), code[i], Index(code[i], rest), Reach(rest, SpanOf(code[i])))
  {
    AsmSuffix(code, i);
    AsmSuffix(code, i + 1);
    ReachClamp(code[i + 1..], SpanOf(code[i]));
    assert code[i..][1..] == code[i + 1..];
    var q := Asm(code[i..]);
  }

  /** Reading at the byte position of word `i` yields that word's operand,
      continues at word `i + 1`, and a skip lands past its span. */
  lemma ReadAt(code: seq<Word>, i: nat)
    requires i < |code| && Fits(code) && WordOk(code[i])
    ensures var rest := code[i + 1..];
            && Reads(Read(Asm(code), Reach(code, i)), code[i], Index(code[i], rest),
                     Reach(rest, SpanOf(code[i])), Reach(code, i + 1))
            && TableHas(Asm(code), code[i], Index(code[i], rest), Reach(rest, SpanOf(code[i])))
            && (i + 1 + SpanOf(code[i]) <= |code| ==>
                  Reach(code, i + 1) + Reach(rest, SpanOf(code[i])) == Reach(code, i + 1 + SpanOf(code[i])))
  {
    hide Encode, Asm, Read, TableHas, Reads, WordOk, Index, Reach;
    var rest := code[i + 1..];
    EncodedAt(code, i);
    TableAt(code, i);
    ReadEncoded(Asm(code), Reach(code, i), code[i], Index(code[i], rest), Reach(rest, SpanOf(code[i])));
    if i + 1 + SpanOf(code[i]) <= |code| { ReachSplit(code, i + 1, SpanOf(code[i])); }
  }

  lemma ReadZero(p: Prog, off: nat)
    requires off < |p.bytes| && p.bytes[off] == 0
    ensures Read(p, off) == Raw(0, Atom(0), 0, 0, off + 1, off + 1)
  {
  }

  // Past the last word is the terminator.
  lemma ReadEnd(code: seq<Word>)
    ensures var end := Reach(code, |code|);
            Read(Asm(code), end) == Raw(0, Atom(0), 0, 0, end + 1, end + 1)
  {
    hide Reach, Read;
    AsmSuffix(code, |code|);
    assert Asm(code[|code|..]).bytes == [0];
    assert Asm(code).bytes[Reach(code, |code|)] == Asm(code).bytes[Reach(code, |code|)..][0];
    ReadZero(Asm(code), Reach(code, |code|));
  }

  // The instruction count of a skip or memo, after which control resumes.
  function Span(i: Instr): nat {
    match i
    case Skip(n) => n
    case SkipNo(n) => n
    case Memo(n, _, _) => n
    case _ => 0
  }

  // The instruction with its skip count replaced by a distance.
  function Resolve(i: Instr, d: nat): Instr {
    match i
    case Skip(_) => Skip(d)
    case SkipNo(_) => SkipNo(d)
    case Memo(_, k, l) => Memo(d, k, l)
    case _ => i
  }

  // The opcode of a word, or a wider form of it, means the instruction `i`.
  predicate Means(w: Word, i: Instr, d: nat) {
    match w
    case Plain(op) => Meaning(op, Atom(0), 0) == Some(i)
    case D8(op, v) => Meaning(op, Atom(v), 0) == Some(i)
    case D16(op, v) => Meaning(op, Atom(v), 0) == Some(i)
    case LitIx(op, n) => op < 94 && Meaning(op, n, 0) == Some(i) == Meaning(op + 1, n, 0)
    case CalIx(op, a) => op < 94 && Meaning(op, a, 0) == Some(i) == Meaning(op + 1, a, 0)
    case RegIx(op) => op < 94 && Meaning(op, Atom(0), 0) == Some(i) == Meaning(op + 1, Atom(0), 0)
    case MemIx(op, n, k) =>
      && op < 94 && Meaning(op, k, d) == Some(Resolve(i, d)) == Meaning(op + 1, k, d)
    case Jump(op, n) =>
      && op < 94 && Meaning(op, Atom(0), d) == Some(Resolve(i, d))
      && Some(Resolve(i, d)) == Meaning(op + 1, Atom(0), d) == Meaning(op + 2, Atom(0), d)
  }

  // The word picked for an instruction means it.
  predicate Meant(i: Instr, d: nat) { Means(Pick(i), i, d) && WordOk(Pick(i)) }

  lemma MeansFrag(a: nat, d: nat)
    ensures Meant(Frag_(a, true), d)
  {
  }

  lemma MeansKeptFrag(a: nat, d: nat)
    ensures Meant(Frag_(a, false), d)
  {
  }

  lemma MeansKeptLit(n: Noun, d: nat)
    ensures Meant(Lit(n, false), d)
  {
  }

  lemma MeansLit(n: Noun, d: nat)
    ensures Meant(Lit(n, true), d)
  {
  }

  lemma MeansSameAs(n: Noun, d: nat)
    ensures Meant(SameAs(n), d)
  {
  }

  lemma MeansMut(a: Noun, d: nat)
    ensures Meant(Mut(a, true), d)
  {
  }

  lemma MeansKeptMut(a: Noun, d: nat)
    ensures Meant(Mut(a, false), d)
  {
  }

  lemma MeansHalt(i: Instr, d: nat)
    requires i.Halt? || i.Bail?
    ensures Meant(i, d)
  {
  }

  lemma MeansCopy(i: Instr, d: nat)
    requires i.Copy? || i.Swap? || i.Toss?
    ensures Meant(i, d)
  {
  }

  lemma MeansAuto(i: Instr, d: nat)
    requires i.Auto? || i.Snoc?
    ensures Meant(i, d)
  {
  }

  lemma MeansHead(i: Instr, d: nat)
    requires i.Head? || i.Tail_?
    ensures Meant(i, d)
  {
  }

  lemma MeansNock(i: Instr, d: nat)
    requires i.Nock? || i.Deep?
    ensures Meant(i, d)
  {
  }

  lemma MeansBump(i: Instr, d: nat)
    requires i.Bump? || i.Same?
    ensures Meant(i, d)
  {
  }

  lemma MeansSkip(i: Instr, d: nat)
    requires i.Skip?
    ensures Meant(i, d)
  {
  }

  lemma MeansSkipNo(i: Instr, d: nat)
    requires i.SkipNo?
    ensures Meant(i, d)
  {
  }

  lemma MeansKick(i: Instr, d: nat)
    requires i.Kick? || i.Wish?
    ensures Meant(i, d)
  {
  }

  lemma MeansBush(i: Instr, d: nat)
    requires i.Bush? || i.Drop?
    ensures Meant(i, d)
  {
  }

  lemma MeansHeck(i: Instr, d: nat)
    requires i.Heck? || i.Slog?
    ensures Meant(i, d)
  {
  }

  lemma MeansFast(i: Instr, d: nat)
    requires i.Fast?
    ensures Meant(i, d)
  {
  }

  lemma MeansMemo(i: Instr, d: nat)
    requires i.Memo?
    ensures Meant(i, d)
  {
  }

  lemma MeansSave(i: Instr, d: nat)
    requires i.Save? || i.HiltFore?
    ensures Meant(i, d)
  {
  }

  lemma MeansHint(i: Instr, d: nat)
    requires i.HintFore? || i.HiltHind?
    ensures Meant(i, d)
  {
  }

  lemma MeansHind(i: Instr, d: nat)
    requires i.HintHind? || i.MutHead?
    ensures Meant(i, d)
  {
  }

  lemma MeansMuts(i: Instr, d: nat)
    requires i.MutTail? || i.MutSam?
    ensures Meant(i, d)
  {
  }

  lemma MeantLow(i: Instr, d: nat)
    requires i.Bail? || i.Copy? || i.Swap? || i.Toss? || i.Halt? || i.Auto? || i.Snoc? || i.Head? || i.Tail_? || i.Frag_? || i.Lit? || i.SameAs? || i.Mut?
    ensures Meant(i, d)
  {
    hide Meant;
    if i.Frag_? && i.lose { MeansFrag(i.axis, d); }
    else if i.Frag_? { MeansKeptFrag(i.axis, d); }
    else if i.Lit? && i.lose { MeansLit(i.noun, d); }
    else if i.Lit? { MeansKeptLit(i.noun, d); }
    else if i.SameAs? { MeansSameAs(i.noun, d); }
    else if i.Mut? && i.lose { MeansMut(i.at, d); }
    else if i.Mut? { MeansKeptMut(i.at, d); }
    else if i.Auto? || i.Snoc? { MeansAuto(i, d); }
    else if i.Head? || i.Tail_? { MeansHead(i, d); }
    else if i.Halt? || i.Bail? { MeansHalt(i, d); }
    else { MeansCopy(i, d); }
  }

  lemma MeantHigh(i: Instr, d: nat)
    requires !(i.Bail? || i.Copy? || i.Swap? || i.Toss? || i.Halt? || i.Auto? || i.Snoc? || i.Head? || i.Tail_? || i.Frag_? || i.Lit? || i.SameAs? || i.Mut?)
    ensures Meant(i, d)
  {
    hide Meant;
    if i.Nock? || i.Deep? { MeansNock(i, d); }
    else if i.Bump? || i.Same? { MeansBump(i, d); }
    else if i.Skip? { MeansSkip(i, d); }
    else if i.SkipNo? { MeansSkipNo(i, d); }
    else if i.Kick? || i.Wish? { MeansKick(i, d); }
    else if i.Bush? || i.Drop? { MeansBush(i, d); }
    else if i.Heck? || i.Slog? { MeansHeck(i, d); }
    else if i.Fast? { MeansFast(i, d); }
    else if i.Memo? { MeansMemo(i, d); }
    else if i.Save? || i.HiltFore? { MeansSave(i, d); }
    else if i.HintFore? || i.HiltHind? { MeansHint(i, d); }
    else if i.HintHind? || i.MutHead? { MeansHind(i, d); }
    else { MeansMuts(i, d); }
  }

  // Choosing an operand width loses nothing.
  lemma PickMeaning(i: Instr, d: nat)
    ensures Means(Pick(i), i, d) && WordOk(Pick(i))
  {
    hide Means, Pick, WordOk;
    if i.Bail? || i.Copy? || i.Swap? || i.Toss? || i.Halt? || i.Auto? || i.Snoc? || i.Head? || i.Tail_? || i.Frag_? || i.Lit? || i.SameAs? || i.Mut? {
      MeantLow(i, d);
    } else {
      MeantHigh(i, d);
    }
  }

  // Which instructions are stored as call sites, memo slots and skips.
  lemma PickShape(i: Instr)
    ensures i.Kick? <==> Pick(i).CalIx?
    ensures i.Kick? ==> Pick(i).axe == i.axe
    ensures i.Skip? || i.SkipNo? || i.Memo? <==> Pick(i).MemIx? || Pick(i).Jump?
    ensures SpanOf(Pick(i)) == Span(i)
    ensures !i.Skip? && !i.SkipNo? && !i.Memo? ==> forall d :: Resolve(i, d) == i
  {
  }

  // What reading a word yields, decoded.
  lemma FetchMeans(p: Prog, off: nat, i: Instr, ix: nat, d: nat, next: nat)
    requires Reads(Read(p, off), Pick(i), ix, d, next)
    ensures var f := Fetch(p, off);
            && f.Fetched? && f.op == Resolve(i, d) && f.next == next
            && (i.Kick? ==> f.ix == ix)
            && (i.Skip? || i.SkipNo? || i.Memo? ==> f.jump == next + d)
  {
    hide Read, Pick, Meaning, Resolve, Span;
    PickMeaning(i, d);
    PickShape(i);
  }

  function Words(code: seq<Instr>): (r: seq<Word>)
    ensures |r| == |code| && forall i :: 0 <= i < |code| ==> r[i] == Pick(code[i])
  {
    seq(|code|, i requires 0 <= i < |code| => Pick(code[i]))
  }

  // The program for an opcode list, and the byte position of its instructions.
  function Assemble(code: seq<Instr>): Prog { Asm(Words(code)) }
  function Off(code: seq<Instr>, i: nat): nat { Reach(Words(code), i) }

  /** `f` is instruction `i` of `code`: it continues at instruction `i + 1`,
      its skip lands past its span, and its call site holds its axis. */
  predicate Decodes(f: Fetched, code: seq<Instr>, i: nat)
    requires i < |code|
  {
    var op, p := code[i], Assemble(code);
    && f.Fetched? && f.next == Off(code, i + 1)
    && f.op == Resolve(op, Reach(Words(code)[i + 1..], Span(op)))
    && (op.Skip? || op.SkipNo? || op.Memo? ==>
          i + 1 + Span(op) <= |code| ==> f.jump == Off(code, i + 1 + Span(op)))
    && (op.Kick? ==> f.ix < |p.cals| && p.cals[f.ix] == op.axe)
  }

  // Decoding at the byte position of instruction `i` yields instruction `i`.
  lemma FetchAt(code: seq<Instr>, i: nat)
    requires i < |code| && Fits(Words(code))
    ensures Decodes(Fetch(Assemble(code), Off(code, i)), code, i)
  {
    hide Fetch, Asm, Pick, Reads, Reach, Index, Means, WordOk, Resolve, Fits;
    var ws, op := Words(code), code[i];
    var rest := ws[i + 1..];
    PickMeaning(op, 0);
    PickShape(op);
    ReadAt(ws, i);
    FetchMeans(Asm(ws), Reach(ws, i), op, Index(ws[i], rest), Reach(rest, Span(op)), Reach(ws, i + 1));
  }

  // Past the last instruction is the terminator.
  lemma FetchEnd(code: seq<Instr>)
    ensures Fetch(Assemble(code), Off(code, |code|)).Fetched?
    ensures Fetch(Assemble(code), Off(code, |code|)).op == Halt
  {
    ReadEnd(Words(code));
    hide Read, Asm, Reach;
  }
}
