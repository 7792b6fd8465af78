/** The two passes of the assembler as the loops that run: one measures the
    reversed opcode list, the other fills the buffer from its last byte. */
module AssemblerLoops {
  import opened Nouns
  import opened Bytecode
  import opened Assembler

  // The compiler hands over its list last instruction first.
  function Flip(s: seq<Word>): (r: seq<Word>)
    ensures |r| == |s| && forall i :: 0 <= i < |s| ==> r[i] == s[|s| - 1 - i]
  {
    seq(|s|, i requires 0 <= i < |s| => s[|s| - 1 - i])
  }

  // Every skip and memo stays inside the list.
  predicate Closed(code: seq<Word>) {
    forall i :: 0 <= i < |code| ==> i + 1 + SpanOf(code[i]) <= |code|
  }

  predicate Spans(w: Word) { w.Jump? || w.MemIx? }

  // Skip distances, last instruction first.
  function Sips(code: seq<Word>): seq<nat> {
    if code == [] then []
    else Sips(code[1..]) + if Spans(code[0]) then [Reach(code[1..], SpanOf(code[0]))] else []
  }

  // Every table stays within a two-byte index.
  predicate TablesFit(code: seq<Word>) {
    Lits(code) <= 0x10000 && Cals(code) <= 0x10000 && Regs(code) <= 0x10000 && Mems(code) <= 0x10000
  }

  // Sizes of the instructions from `i` on.
  ghost predicate Measured(code: seq<Word>, sizes: seq<nat>, i: nat)
    requires |sizes| == |code|
  {
    forall j :: i <= j < |code| ==> sizes[j] == WordSize(code[j], Index(code[j], code[j + 1..]))
  }

  lemma {:induction false} ReachNext(code: seq<Word>, n: nat)
    requires n < |code|
    ensures Reach(code, n + 1) == Reach(code, n) + WordSize(code[n], Index(code[n], code[n + 1..]))
  {
    hide WordSize, Index;
    ReachSplit(code, n, 1);
    assert code[n..][1..] == code[n + 1..];
    assert Reach(code[n..], 1) == WordSize(code[n], Index(code[n], code[n + 1..])) + Reach(code[n + 1..], 0);
  }

  // Total size of the `n` instructions after `i`.
  method SumSizes(ghost code: seq<Word>, sizes: array<nat>, i: nat, n: nat) returns (tot: nat)
    requires sizes.Length == |code| && i + 1 + n <= |code| && Measured(code, sizes[..], i + 1)
    ensures tot == Reach(code[i + 1..], n)
  {
    hide WordSize, Index, Reach;
    tot := 0;
    ghost var rest := code[i + 1..];
    ReachZero(rest);
    for j := 0 to n
      invariant tot == Reach(rest, j)
    {
      ReachNext(rest, j);
      assert rest[j + 1..] == code[i + 1 + j + 1..];
      tot := tot + sizes[i + 1 + j];
    }
  }

  lemma ReachZero(code: seq<Word>)
    ensures Reach(code, 0) == 0
  {
  }

  // One instruction's effect on the measurements.
  lemma MeltStep(code: seq<Word>, i: nat)
    requires i < |code|
    ensures var here, rest := code[i..], code[i + 1..];
            && Lits(here) == Lits(rest) + (if code[i].LitIx? then 1 else 0)
            && Cals(here) == Cals(rest) + (if code[i].CalIx? then 1 else 0)
            && Regs(here) == Regs(rest) + (if code[i].RegIx? then 1 else 0)
            && Mems(here) == Mems(rest) + (if code[i].MemIx? then 1 else 0)
            && Sips(here) == Sips(rest) + (if Spans(code[i]) then [Reach(rest, SpanOf(code[i]))] else [])
            && Reach(here, |here|) == WordSize(code[i], Index(code[i], rest)) + Reach(rest, |rest|)
  {
    hide WordSize, Index;
    assert code[i..][1..] == code[i + 1..];
  }

  // Which counter a word's index comes from.
  lemma IndexOf(w: Word, rest: seq<Word>)
    ensures w.LitIx? ==> Index(w, rest) == Lits(rest)
    ensures w.CalIx? ==> Index(w, rest) == Cals(rest)
    ensures w.RegIx? ==> Index(w, rest) == Regs(rest)
    ensures w.MemIx? ==> Index(w, rest) == Mems(rest)
  {
  }

  lemma {:induction false} CountsGrow(code: seq<Word>, i: nat)
    requires i <= |code|
    ensures TablesFit(code) ==> TablesFit(code[i..])
  {
    hide Asm, Reach;
    AsmSuffix(code, i);
  }

  /** Measure the reversed opcode list `ops`. */
  method Melt(ops: seq<Word>) returns (ok: bool, byc: nat, cal: nat, reg: nat, lit: nat, mem: nat, sip: seq<nat>)
    requires Closed(Flip(ops))
    ensures ok <==> TablesFit(Flip(ops))
    ensures ok ==> byc == 1 + Reach(Flip(ops), |ops|) && sip == Sips(Flip(ops))
    ensures ok ==> cal == Cals(Flip(ops)) && reg == Regs(Flip(ops)) && lit == Lits(Flip(ops)) && mem == Mems(Flip(ops))
  {
    hide WordSize, Index, Reach, Lits, Cals, Regs, Mems, Sips, Flip;
    ghost var code := Flip(ops);
    var sizes := new nat[|ops|];
    byc, cal, reg, lit, mem, sip, ok := 1, 0, 0, 0, 0, [], true;
    var i := |ops|;
    MeltNone(code);
    while i > 0
      invariant 0 <= i <= |ops| && sizes.Length == |ops|
      invariant Measured(code, sizes[..], i)
      invariant byc == 1 + Reach(code[i..], |code| - i) && sip == Sips(code[i..])
      invariant cal == Cals(code[i..]) && reg == Regs(code[i..]) && lit == Lits(code[i..]) && mem == Mems(code[i..])
      invariant TablesFit(code[i..])
    {
      i := i - 1;
      var op := ops[|ops| - 1 - i];
      assert op == code[i] && i + 1 + SpanOf(op) <= |code|;
      MeltStep(code, i);
      IndexOf(op, code[i + 1..]);
      var size, inx := 1, 0;
      match op {
        case Plain(_) =>
        case D8(_, _) => size := 2;
        case D16(_, _) => size := 3;
        case RegIx(_) => inx := reg; reg := reg + 1; size := SizeInx(inx);
        case CalIx(_, _) => inx := cal; cal := cal + 1; size := SizeInx(inx);
        case LitIx(_, _) => inx := lit; lit := lit + 1; size := SizeInx(inx);
        case MemIx(_, n, _) =>
          var tot := SumSizes(code, sizes, i, n);
          sip := sip + [tot];
          inx := mem; mem := mem + 1; size := SizeInx(inx);
        case Jump(_, n) =>
          var tot := SumSizes(code, sizes, i, n);
          sip := sip + [tot];
          size := if tot <= 0xFF then 2 else if tot <= 0xFFFF then 3 else 5;
      }
      SizeRight(op, inx, code[i + 1..], size);
      if inx > 0xFFFF {
        CountsGrow(code, i);
        TooMany(code, i);
        return false, 0, 0, 0, 0, 0, [];
      }
      sizes[i] := size;
      byc := byc + size;
      FitsStill(code, i, inx);
    }
    assert code[0..] == code;
  }

  method SizeInx(inx: nat) returns (size: nat)
    ensures size == InxSize(inx)
  {
    size := if inx <= 0xFF then 2 else 3;
  }

  lemma MeltNone(code: seq<Word>)
    ensures Reach(code[|code|..], 0) == 0 && Sips(code[|code|..]) == []
    ensures Cals(code[|code|..]) == Regs(code[|code|..]) == Lits(code[|code|..]) == Mems(code[|code|..]) == 0
  {
  }

  lemma SizeRight(op: Word, inx: nat, rest: seq<Word>, size: nat)
    requires match op
             case Plain(_) => size == 1
             case D8(_, _) => size == 2
             case D16(_, _) => size == 3
             case Jump(_, n) => size == DistSize(Reach(rest, n))
             case _ => inx == Index(op, rest) && size == InxSize(inx)
    ensures size == WordSize(op, Index(op, rest))
  {
    hide Reach;
  }

  lemma TooMany(code: seq<Word>, i: nat)
    requires i < |code| && !code[i].Jump? && Index(code[i], code[i + 1..]) > 0xFFFF
    requires TablesFit(code) ==> TablesFit(code[i..])
    ensures !TablesFit(code)
  {
    MeltStep(code, i);
  }

  lemma FitsStill(code: seq<Word>, i: nat, inx: nat)
    requires i < |code| && TablesFit(code[i + 1..])
    requires code[i].LitIx? || code[i].CalIx? || code[i].RegIx? || code[i].MemIx? ==> Index(code[i], code[i + 1..]) <= 0xFFFF
    ensures TablesFit(code[i..])
  {
    MeltStep(code, i);
  }

  // ---- the second pass ----

  // Write a two-byte operand ending at `i`, high byte first.
  method WriteShort(buf: array<byte>, i: nat, v: nat)
    requires 1 <= i < buf.Length
    modifies buf
    ensures buf[i - 1..i + 1] == Short(v)
    ensures forall j :: 0 <= j < i - 1 || i < j < buf.Length ==> buf[j] == old(buf[j])
  {
    buf[i] := v / 256 % 256;
    buf[i - 1] := v % 256;
    assert buf[i - 1..i + 1] == Short(v);
  }

  // Write an index and its opcode ending at `i`; the result is the opcode's place.
  method WriteInx(buf: array<byte>, i: nat, ix: nat, op: byte) returns (at: nat)
    requires op < 255 && ix <= 0xFFFF && InxSize(ix) <= i + 1 <= buf.Length
    modifies buf
    ensures at + InxSize(ix) == i + 1
    ensures buf[at..i + 1] == Inx(op, ix)
    ensures forall j :: 0 <= j < at || i < j < buf.Length ==> buf[j] == old(buf[j])
  {
    hide Short;
    if ix <= 0xFF {
      buf[i] := ix;
      at := i - 1;
      buf[at] := op;
    } else {
      WriteShort(buf, i, ix);
      at := i - 2;
      buf[at] := op + 1;
      assert buf[at..i + 1] == [op + 1] + buf[at + 1..i + 1];
    }
  }

  lemma LongIsShorts(d: nat)
    ensures Long(d) == Short(d) + Short(d / 256 / 256)
  {
  }

  // Write a skip distance and its opcode ending at `i`.
  method WriteDist(buf: array<byte>, i: nat, d: nat, op: byte) returns (at: nat)
    requires op < 254 && DistSize(d) <= i + 1 <= buf.Length
    modifies buf
    ensures at + DistSize(d) == i + 1
    ensures buf[at..i + 1] == Dist(op, d)
    ensures forall j :: 0 <= j < at || i < j < buf.Length ==> buf[j] == old(buf[j])
  {
    hide Short, Long;
    if d <= 0xFF {
      buf[i] := d;
      at := i - 1;
      buf[at] := op;
    } else if d <= 0xFFFF {
      WriteShort(buf, i, d);
      at := i - 2;
      buf[at] := op + 1;
      assert buf[at..i + 1] == [op + 1] + buf[at + 1..i + 1];
    } else {
      WriteLong(buf, i, d);
      at := i - 4;
      buf[at] := op + 2;
      assert buf[at..i + 1] == [op + 2] + buf[at + 1..i + 1];
    }
  }

  // Write a four-byte operand ending at `i`.
  method WriteLong(buf: array<byte>, i: nat, d: nat)
    requires 3 <= i < buf.Length
    modifies buf
    ensures buf[i - 3..i + 1] == Long(d)
    ensures forall j :: 0 <= j < i - 3 || i < j < buf.Length ==> buf[j] == old(buf[j])
  {
    hide Short, Long;
    LongIsShorts(d);
    WriteShort(buf, i, d / 256 / 256);
    ghost var high := buf[i - 1..i + 1];
    WriteShort(buf, i - 2, d);
    assert buf[i - 1..i + 1] == high;
    assert buf[i - 3..i + 1] == buf[i - 3..i - 1] + high;
  }

  // An opcode alone, with a byte, with two bytes, each ending at `i`.
  method WritePlain(buf: array<byte>, i: nat, op: byte) returns (at: nat)
    requires i < buf.Length
    modifies buf
    ensures at == i && buf[at..i + 1] == [op]
    ensures forall j :: 0 <= j < at || i < j < buf.Length ==> buf[j] == old(buf[j])
  {
    at := i;
    buf[at] := op;
  }

  method WriteByte(buf: array<byte>, i: nat, v: nat, op: byte) returns (at: nat)
    requires 1 <= i < buf.Length
    modifies buf
    ensures at == i - 1 && buf[at..i + 1] == [op, v % 256]
    ensures forall j :: 0 <= j < at || i < j < buf.Length ==> buf[j] == old(buf[j])
  {
    buf[i] := v % 256;
    at := i - 1;
    buf[at] := op;
  }

  method WriteWide(buf: array<byte>, i: nat, v: nat, op: byte) returns (at: nat)
    requires 2 <= i < buf.Length
    modifies buf
    ensures at == i - 2 && buf[at..i + 1] == [op] + Short(v)
    ensures forall j :: 0 <= j < at || i < j < buf.Length ==> buf[j] == old(buf[j])
  {
    hide Short;
    WriteShort(buf, i, v);
    at := i - 2;
    buf[at] := op;
    assert buf[at..i + 1] == [op] + buf[at + 1..i + 1];
  }

  // Write a word ending at `i`, given its index or distance.
  method WriteWord(buf: array<byte>, i: nat, w: Word, ix: nat) returns (at: nat)
    requires WordOk(w) && (w.Jump? || ix <= 0xFFFF) && WordSize(w, ix) <= i + 1 <= buf.Length
    modifies buf
    ensures at + WordSize(w, ix) == i + 1
    ensures buf[at..i + 1] == Encode(w, ix)
    ensures forall j :: 0 <= j < at || i < j < buf.Length ==> buf[j] == old(buf[j])
  {
    hide KindOf, ArgSize, Inx, Dist, Short;
    match w {
      case Plain(op) => at := WritePlain(buf, i, op);
      case D8(op, v) => at := WriteByte(buf, i, v, op);
      case D16(op, v) => at := WriteWide(buf, i, v, op);
      case Jump(op, _) => at := WriteDist(buf, i, ix, op);
      case _ => at := WriteInx(buf, i, ix, w.op);
    }
  }

  lemma AsmStep(code: seq<Word>, k: nat)
    requires k < |code|
    ensures var p, q, w := Asm(code[k..]), Asm(code[k + 1..]), code[k];
            && p.bytes == Encode(w, Index(w, code[k + 1..])) + q.bytes
            && p.lits == q.lits + (if w.LitIx? then [w.lit] else [])
            && p.cals == q.cals + (if w.CalIx? then [w.axe] else [])
            && p.regs == q.regs + (if w.RegIx? then 1 else 0)
            && p.mems == q.mems + (if w.MemIx? then [MemoSlot(Reach(code[k + 1..], w.n), w.key)] else [])
  {
    hide Encode, Index;
    assert code[k..][1..] == code[k + 1..];
  }

  // Fill one more instruction in front of an assembled tail.
  lemma Prepended(buf: seq<byte>, at: nat, i: nat, e: seq<byte>, tail: seq<byte>)
    requires at <= i + 1 <= |buf| && buf[at..i + 1] == e && buf[i + 1..] == tail
    ensures buf[at..] == e + tail
  {
    assert buf[at..] == buf[at..i + 1] + buf[i + 1..];
  }

  lemma AsmNone(code: seq<Word>)
    ensures Asm(code[|code|..]) == Prog([0], [], [], [], 0) && Sips(code[|code|..]) == []
  {
  }

  lemma {:induction false} SipsPrefix(code: seq<Word>, k: nat)
    requires k <= |code|
    ensures Sips(code[k..]) <= Sips(code)
  {
    hide Reach;
    if k == 0 {
      assert code[0..] == code;
    } else {
      SipsPrefix(code[1..], k - 1);
      assert code[1..][k - 1..] == code[k..];
    }
  }

  lemma {:induction false} ReachPositive(code: seq<Word>, k: nat)
    requires k <= |code|
    ensures Reach(code, k) >= k && Reach(code, 0) == 0
  {
    hide WordSize, Index;
    if k > 0 { ReachPositive(code[1..], k - 1); }
  }

  lemma IndexWritten(w: Word, ix: nat, rest: seq<Word>)
    requires match w
             case LitIx(_, _) => ix == Lits(rest)
             case CalIx(_, _) => ix == Cals(rest)
             case RegIx(_) => ix == Regs(rest)
             case MemIx(_, _, _) => ix == Mems(rest)
             case Jump(_, n) => ix == Reach(rest, n)
             case _ => ix == 0
    ensures ix == Index(w, rest)
  {
    hide Reach;
  }

  /** Assemble the reversed list `ops` into a program of the measured size. */
  method AsmProg(ops: seq<Word>, byc: nat, sip: seq<nat>) returns (p: Prog)
    requires Closed(Flip(ops)) && TablesFit(Flip(ops)) && (forall i :: 0 <= i < |ops| ==> WordOk(ops[i]))
    requires byc == 1 + Reach(Flip(ops), |ops|) && sip == Sips(Flip(ops))
    ensures p == Asm(Flip(ops))
  {
    hide WordSize, Index, Reach, Lits, Cals, Regs, Mems, Sips, Asm, Encode, WordOk;
    ghost var code := Flip(ops);
    var buf := new byte[byc];
    var lits, cals, mems, regs, ss := [], [], [], 0, 0;
    var i, next := byc - 1, 0;
    buf[i] := 0;
    ghost var k := |ops|;
    AsmNone(code);
    SipsPrefix(code, k);
    while i > 0
      invariant 0 <= k <= |ops| && next == |ops| - k && i < byc == buf.Length
      invariant i == Reach(code, k) && buf[i..] == Asm(code[k..]).bytes
      invariant lits == Asm(code[k..]).lits && cals == Asm(code[k..]).cals
      invariant mems == Asm(code[k..]).mems && regs == Asm(code[k..]).regs
      invariant ss <= |sip| && sip[..ss] == Sips(code[k..])
    {
      i := i - 1;
      ReachPositive(code, k);
      ghost var old_i := i;
      var op := ops[next];
      k := k - 1;
      assert op == code[k];
      ReachNext(code, k);
      AsmStep(code, k);
      MeltStep(code, k);
      IndexOf(op, code[k + 1..]);
      CountsGrow(code, k);
      SipsPrefix(code, k);
      ghost var rest := code[k + 1..];
      var ix := 0;
      match op {
        case LitIx(_, n) => ix := |lits|; lits := lits + [n];
        case CalIx(_, a) => ix := |cals|; cals := cals + [a];
        case RegIx(_) => ix := regs; regs := regs + 1;
        case MemIx(_, _, key) => ix := |mems|; mems := mems + [MemoSlot(sip[ss], key)]; ss := ss + 1;
        case Jump(_, _) => ix := sip[ss]; ss := ss + 1;
        case _ =>
      }
      IndexWritten(op, ix, rest);
      i := WriteWord(buf, i, op, ix);
      Prepended(buf[..], i, old_i, Encode(op, Index(op, rest)), Asm(rest).bytes);
      next := next + 1;
    }
    ReachPositive(code, k);
    assert k == 0 && code[0..] == code && buf[0..] == buf[..];
    p := Prog(buf[..], lits, mems, cals, regs);
  }
}
