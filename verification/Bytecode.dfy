/** The instruction set, its byte layout and its decoder. */
module Bytecode {
  import opened Nouns

  type byte = x: int | 0 <= x < 256

  datatype CallMode = Keep | Lose | Tail

  /** One entry of the compiler's opcode list.  Opcodes that differ only in the
      width of their operand are one constructor; `Pick` chooses the width.
      Skips count instructions here and bytes after assembly. */
  datatype Instr =
    | Bail | Copy | Swap | Toss
    | Auto(lose: bool)
    | Snoc(lose: bool)
    | Head(lose: bool) | Tail_(lose: bool)
    | Frag_(axis: nat, lose: bool)
    | Lit(noun: Noun, lose: bool)
    | Nock(mode: CallMode)
    | Deep | Bump
    | SameAs(noun: Noun)
    | Same(lose: bool)
    | Skip(n: nat) | SkipNo(n: nat)
    | Kick(axe: Noun, tail: bool)
    | Wish(lose: bool)
    | Bush(tag: Noun) | Drop | Heck | Slog
    | Fast(lose: bool)
    | Memo(n: nat, key: Noun, lose: bool) | Save
    | HiltFore(arg: Noun) | HintFore(arg: Noun)
    | HiltHind(lose: bool) | HintHind(lose: bool)
    | MutHead(lose: bool) | MutTail(lose: bool) | MutSam(lose: bool)
    | Mut(at: Noun, lose: bool)
    | Halt

  /** An opcode with its operand, by the way the operand is stored. */
  datatype Word =
    | Plain(op: byte)
    | D8(op: byte, v: nat)
    | D16(op: byte, v: nat)
    | LitIx(op: byte, lit: Noun)
    | CalIx(op: byte, axe: Noun)
    | RegIx(op: byte)
    | MemIx(op: byte, n: nat, key: Noun)
    | Jump(op: byte, n: nat)

  // Direct operand of one or two bytes, else an index into the literals.
  function Sized(arg: Noun, op8: byte, op16: byte, ix: byte): Word {
    if arg.Atom? && arg.val <= 0xFF then D8(op8, arg.val)
    else if arg.Atom? && arg.val <= 0xFFFF then D16(op16, arg.val)
    else LitIx(ix, arg)
  }

  function Pick(i: Instr): Word {
    match i
    case Halt => Plain(0)
    case Bail => Plain(1)
    case Copy => Plain(2)
    case Swap => Plain(3)
    case Toss => Plain(4)
    case Auto(l) => Plain(if l then 6 else 5)
    case Snoc(l) => Plain(if l then 8 else 7)
    case Head(l) => Plain(if l then 10 else 9)
    case Tail_(l) => Plain(if l then 12 else 11)
    case Frag_(a, l) => if l then Sized(Atom(a), 17, 18, 19) else Sized(Atom(a), 13, 14, 15)
    case Lit(n, l) =>
      if n == Atom(0) then Plain(if l then 27 else 21)
      else if n == Atom(1) then Plain(if l then 28 else 22)
      else if l then Sized(n, 29, 30, 31) else Sized(n, 23, 24, 25)
    case Nock(m) => Plain(match m case Lose => 33 case Tail => 34 case Keep => 35)
    case Deep => Plain(36)
    case Bump => Plain(37)
    case SameAs(n) =>
      if n == Atom(0) then Plain(38)
      else if n == Atom(1) then Plain(39)
      else Sized(n, 40, 41, 42)
    case Same(l) => Plain(if l then 45 else 44)
    case Skip(n) => Jump(47, n)
    case SkipNo(n) => Jump(50, n)
    case Kick(a, t) => CalIx(if t then 55 else 53, a)
    case Wish(l) => Plain(if l then 57 else 58)
    case Bush(t) => LitIx(59, t)
    case Drop => Plain(61)
    case Heck => Plain(62)
    case Slog => Plain(63)
    case Fast(l) => RegIx(if l then 66 else 64)
    case Memo(n, k, l) => MemIx(if l then 70 else 68, n, k)
    case Save => Plain(72)
    case HiltFore(a) => LitIx(73, a)
    case HintFore(a) => LitIx(75, a)
    case HiltHind(l) => Plain(if l then 78 else 77)
    case HintHind(l) => Plain(if l then 80 else 79)
    case MutHead(l) => Plain(if l then 81 else 82)
    case MutTail(l) => Plain(if l then 83 else 84)
    case MutSam(l) => Plain(if l then 85 else 86)
    case Mut(a, l) => if l then Sized(a, 87, 88, 89) else Sized(a, 91, 92, 93)
  }

  /** How an opcode byte reads its operand: the bytes that follow it, and the
      opcode it is a wider form of. */
  datatype Kind = KPlain | KDirect | KLit | KCal | KReg | KMem | KJump | KBad

  // Opcodes whose operand is stored in the instruction itself.
  predicate IsDirect(op: byte) {
    op == 13 || op == 14 || op == 17 || op == 18 || op == 23 || op == 24 || op == 29 || op == 30
    || op == 40 || op == 41 || op == 87 || op == 88 || op == 91 || op == 92
  }

  // Opcodes that index the literals.
  predicate IsLit(op: byte) {
    op == 15 || op == 16 || op == 19 || op == 20 || op == 25 || op == 26 || op == 31 || op == 32
    || op == 42 || op == 43 || op == 59 || op == 60 || 73 <= op <= 76
    || op == 89 || op == 90 || op == 93 || op == 94
  }

  function KindOf(op: byte): Kind {
    if IsDirect(op) then KDirect
    else if IsLit(op) then KLit
    else if 53 <= op <= 56 then KCal
    else if 64 <= op <= 67 then KReg
    else if 68 <= op <= 71 then KMem
    else if 47 <= op <= 52 then KJump
    else if op < 95 then KPlain
    else KBad
  }

  // Size in bytes of an opcode's operand.
  function ArgSize(op: byte): nat {
    if op == 47 || op == 50 then 1
    else if op == 48 || op == 51 then 2
    else if op == 49 || op == 52 then 4
    else if KindOf(op) == KPlain || KindOf(op) == KBad then 0
    else if op == 14 || op == 18 || op == 20 || op == 16 || op == 30 || op == 24 || op == 32 || op == 26
         || op == 41 || op == 43 || op == 71 || op == 69 || op == 54 || op == 56 || op == 60 || op == 65
         || op == 67 || op == 88 || op == 92 || op == 90 || op == 94 || op == 74 || op == 76 then 2
    else 1
  }

  /** What an opcode does once its operand is known: `arg` is the direct
      operand, the literal, the call-site axis or the memo key. */
  function Meaning(op: byte, arg: Noun, n: nat): Option<Instr> {
    if op < 23 then MeaningLow(op, arg)
    else if op < 53 then MeaningMid(op, arg, n)
    else MeaningHigh(op, arg, n)
  }

  function MeaningLow(op: byte, arg: Noun): Option<Instr> {
    if op == 0 then Some(Halt)
    else if op == 1 then Some(Bail)
    else if op == 2 then Some(Copy)
    else if op == 3 then Some(Swap)
    else if op == 4 then Some(Toss)
    else if op <= 6 then Some(Auto(op == 6))
    else if op <= 8 then Some(Snoc(op == 8))
    else if op <= 10 then Some(Head(op == 10))
    else if op <= 12 then Some(Tail_(op == 12))
    else if op <= 20 then if arg.Atom? then Some(Frag_(arg.val, op >= 17)) else None
    else Some(Lit(Atom(op - 21), false))
  }

  function MeaningMid(op: byte, arg: Noun, n: nat): Option<Instr>
    requires op >= 23
  {
    if op <= 26 then Some(Lit(arg, false))
    else if op <= 28 then Some(Lit(Atom(op - 27), true))
    else if op <= 32 then Some(Lit(arg, true))
    else if op == 33 then Some(Nock(Lose))
    else if op == 34 then Some(Nock(Tail))
    else if op == 35 then Some(Nock(Keep))
    else if op == 36 then Some(Deep)
    else if op == 37 then Some(Bump)
    else if op <= 39 then Some(SameAs(Atom(op - 38)))
    else if op <= 43 then Some(SameAs(arg))
    else if op <= 45 then Some(Same(op == 45))
    else if op == 46 then None
    else if op <= 49 then Some(Skip(n))
    else Some(SkipNo(n))
  }

  function MeaningHigh(op: byte, arg: Noun, n: nat): Option<Instr>
    requires op >= 53
  {
    if op <= 56 then Some(Kick(arg, op >= 55))
    else if op <= 58 then Some(Wish(op == 57))
    else if op <= 60 then Some(Bush(arg))
    else if op == 61 then Some(Drop)
    else if op == 62 then Some(Heck)
    else if op == 63 then Some(Slog)
    else if op <= 67 then Some(Fast(op >= 66))
    else if op <= 71 then Some(Memo(n, arg, op >= 70))
    else if op == 72 then Some(Save)
    else if op <= 74 then Some(HiltFore(arg))
    else if op <= 76 then Some(HintFore(arg))
    else if op <= 78 then Some(HiltHind(op == 78))
    else if op <= 80 then Some(HintHind(op == 80))
    else if op <= 82 then Some(MutHead(op == 81))
    else if op <= 84 then Some(MutTail(op == 83))
    else if op <= 86 then Some(MutSam(op == 85))
    else if op <= 90 then Some(Mut(arg, true))
    else if op <= 94 then Some(Mut(arg, false))
    else None
  }

  /** A compiled program: bytecode and the tables its operands index. */
  datatype MemoSlot = MemoSlot(sip: nat, key: Noun)
  datatype Prog = Prog(bytes: seq<byte>, lits: seq<Noun>, mems: seq<MemoSlot>, cals: seq<Noun>, regs: nat)

  function InxSize(ix: nat): nat { if ix <= 0xFF then 2 else 3 }
  function DistSize(d: nat): nat { if d <= 0xFF then 2 else if d <= 0xFFFF then 3 else 5 }

  // A two-byte operand, low byte first.
  function Short(v: nat): (r: seq<byte>)
    ensures |r| == 2
  {
    [v % 256, v / 256 % 256]
  }

  // A four-byte operand, low byte first.
  function Long(v: nat): (r: seq<byte>)
    ensures |r| == 4
  {
    var w := v / 256;
    var x := w / 256;
    [v % 256, w % 256, x % 256, x / 256 % 256]
  }

  // A table index: the opcode's successor takes a two-byte index.
  function Inx(op: byte, ix: nat): (r: seq<byte>)
    requires op < 255
    ensures |r| == InxSize(ix)
  {
    if ix <= 0xFF then [op, ix] else [(op + 1) as byte] + Short(ix)
  }

  // A skip distance in one, two or four bytes.
  function Dist(op: byte, d: nat): (r: seq<byte>)
    requires op < 254
    ensures |r| == DistSize(d)
  {
    if d <= 0xFF then [op, d]
    else if d <= 0xFFFF then [(op + 1) as byte] + Short(d)
    else [(op + 2) as byte] + Long(d)
  }

  // Measured size of a word, given its table index or skip distance.
  function WordSize(w: Word, ix: nat): (r: nat)
    ensures r >= 1
  {
    match w
    case Plain(_) => 1
    case D8(_, _) => 2
    case D16(_, _) => 3
    case Jump(_, _) => DistSize(ix)
    case _ => InxSize(ix)
  }

  // The bytes of a word, given its table index or skip distance.
  function Encode(w: Word, ix: nat): (r: seq<byte>)
    ensures |r| == WordSize(w, ix)
  {
    match w
    case Plain(op) => [op]
    case D8(op, v) => [op, v % 256]
    case D16(op, v) => [op] + Short(v)
    case Jump(op, _) => Dist(op % 254, ix)
    case _ => Inx(w.op % 255, ix)
  }

  // Entries each table needs for `code`.
  function Lits(code: seq<Word>): nat {
    if code == [] then 0 else Lits(code[1..]) + if code[0].LitIx? then 1 else 0
  }
  function Cals(code: seq<Word>): nat {
    if code == [] then 0 else Cals(code[1..]) + if code[0].CalIx? then 1 else 0
  }
  function Regs(code: seq<Word>): nat {
    if code == [] then 0 else Regs(code[1..]) + if code[0].RegIx? then 1 else 0
  }
  function Mems(code: seq<Word>): nat {
    if code == [] then 0 else Mems(code[1..]) + if code[0].MemIx? then 1 else 0
  }

  // The table index or skip distance of a word in front of `rest`.
  function Index(w: Word, rest: seq<Word>): nat
    decreases |rest|, 1
  {
    match w
    case LitIx(_, _) => Lits(rest)
    case CalIx(_, _) => Cals(rest)
    case RegIx(_) => Regs(rest)
    case MemIx(_, _, _) => Mems(rest)
    case Jump(_, n) => Reach(rest, n)
    case _ => 0
  }

  // Measured size of the first `n` words of `code`, as many as there are.
  function Reach(code: seq<Word>, n: nat): nat
    decreases |code|, 0
  {
    if n == 0 || code == [] then 0
    else WordSize(code[0], Index(code[0], code[1..])) + Reach(code[1..], n - 1)
  }

  /** The program for an opcode list.  Tables are filled from the last
      instruction to the first, so the last user of a table has index 0. */
  function Asm(code: seq<Word>): (p: Prog)
    ensures |p.bytes| == 1 + Reach(code, |code|)
    ensures |p.lits| == Lits(code) && |p.cals| == Cals(code)
    ensures p.regs == Regs(code) && |p.mems| == Mems(code)
  {
    if code == [] then Prog([0], [], [], [], 0) else
    assert code == [code[0]] + code[1..];
    var r := Asm(code[1..]);
    var p := r.(bytes := Encode(code[0], Index(code[0], code[1..])) + r.bytes);
    match code[0]
    case LitIx(_, n) => p.(lits := r.lits + [n])
    case CalIx(_, a) => p.(cals := r.cals + [a])
    case RegIx(_) => p.(regs := r.regs + 1)
    case MemIx(_, n, k) => p.(mems := r.mems + [MemoSlot(Reach(code[1..], n), k)])
    case _ => p
  }

  // The sizes within which every operand fits its encoding.
  predicate Fits(code: seq<Word>) {
    && Reach(code, |code|) < 0x8000_0000
    && Lits(code) <= 0x1_0000 && Cals(code) <= 0x1_0000
    && Regs(code) <= 0x1_0000 && Mems(code) <= 0x1_0000
  }

  /** One decoded instruction: its operation, its table index, and where
      control goes next or when a skip is taken. */
  datatype Fetched = Fetched(op: Instr, ix: nat, next: nat, jump: nat) | Bad

  // Little-endian operand of `size` bytes at `ip`.
  function Operand(bytes: seq<byte>, ip: nat, size: nat): nat
    requires ip + size <= |bytes|
    decreases size
  {
    if size == 0 then 0 else bytes[ip] + 256 * Operand(bytes, ip + 1, size - 1)
  }

  /** An opcode with its operand looked up in the program's tables. */
  datatype Raw = Raw(op: byte, arg: Noun, n: nat, ix: nat, next: nat, jump: nat) | BadRaw

  function Read(p: Prog, ip: nat): Raw {
    if ip >= |p.bytes| then BadRaw else
    var op := p.bytes[ip];
    var size := ArgSize(op);
    var next := ip + 1 + size;
    if next > |p.bytes| then BadRaw else
    var x := Operand(p.bytes, ip + 1, size);
    match KindOf(op)
    case KPlain => Raw(op, Atom(0), 0, 0, next, next)
    case KDirect => Raw(op, Atom(x), 0, 0, next, next)
    case KLit => if x < |p.lits| then Raw(op, p.lits[x], 0, x, next, next) else BadRaw
    case KCal => if x < |p.cals| then Raw(op, p.cals[x], 0, x, next, next) else BadRaw
    case KReg => if x < p.regs then Raw(op, Atom(0), 0, x, next, next) else BadRaw
    case KMem =>
      if x < |p.mems| then Raw(op, p.mems[x].key, p.mems[x].sip, x, next, next + p.mems[x].sip) else BadRaw
    case KJump => Raw(op, Atom(0), x, 0, next, next + x)
    case KBad => BadRaw
  }

  function Fetch(p: Prog, ip: nat): Fetched {
    match Read(p, ip)
    case BadRaw => Bad
    case Raw(op, arg, n, ix, next, jump) =>
      var m := Meaning(op, arg, n);
      if m.Some? then Fetched(m.value, ix, next, jump) else Bad
  }
}
