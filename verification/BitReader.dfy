/** The bitstream reader: a pointer into a byte buffer and an offset in the
    byte it points to, against the bits still to be read. */
module BitReader {
  import opened Nouns
  import opened JamCue
  import opened Bitstream

  // What is left of a stream after `n` bits; past its end there is nothing.
  function Drop(s: Bits, n: nat): Bits { if n < |s| then s[n..] else [] }

  // 64 bits, least significant first.
  type Word = w: seq<bool> | |w| == 64 witness seq(64, _ => false)

  function Wide(a: Byte): (r: Word)
    ensures r == a + Zeros(56)
  {
    a + Zeros(56)
  }

  // m ^ (l << rest)
  function Splice(m: Word, l: Word, rest: nat): (r: Word)
    ensures forall i :: 0 <= i < 64 ==> r[i] == (m[i] != (i >= rest && l[i - rest]))
  {
    seq(64, i requires 0 <= i < 64 => m[i] != (i >= rest && l[i - rest]))
  }

  // The bytes of `b` side by side, as far as they fit a word.
  function Gather(b: seq<Byte>): (r: Word)
    ensures forall i :: 0 <= i < 64 ==> r[i] == (i < 8 * |b| && b[i / 8][i % 8])
  {
    seq(64, i requires 0 <= i < 64 => i < 8 * |b| && b[i / 8][i % 8])
  }

  datatype Tag = AtomTag | CellTag | BackTag
  datatype Tagged = Tagged(tag: Tag, len: nat) | NoTag

  // The tag in front of a stream.
  function TagOf(s: Bits): Tagged {
    if s == [] then NoTag
    else if !s[0] then Tagged(AtomTag, 1)
    else if |s| == 1 then NoTag
    else Tagged(if s[1] then BackTag else CellTag, 2)
  }

  // A reader's position.
  ghost predicate Sits(buf: seq<Byte>, at: nat, left: nat, off: nat) {
    if left == 0 then off == 0 else off < 8 && at + left == |buf|
  }

  // The bits from there on.
  ghost function Ahead(buf: seq<Byte>, at: nat, left: nat, off: nat): Bits
    requires Sits(buf, at, left, off)
  {
    if left == 0 then [] else Flat(buf)[8 * at + off..]
  }

  lemma AheadSize(buf: seq<Byte>, at: nat, left: nat, off: nat)
    requires Sits(buf, at, left, off)
    ensures |Ahead(buf, at, left, off)| == 8 * left - off
  {
  }

  // Bit `j` of the byte `q` bytes on.
  lemma AheadBit(buf: seq<Byte>, at: nat, left: nat, off: nat, q: nat, j: nat)
    requires Sits(buf, at, left, off) && q < left && j < 8 && 8 * q + j >= off
    ensures |Ahead(buf, at, left, off)| == 8 * left - off
    ensures Ahead(buf, at, left, off)[8 * q + j - off] == buf[at + q][j]
  {
    var s := Ahead(buf, at, left, off);
    hide Flat;
    FlatAt(buf, at + q, j);
  }

  lemma AheadMore(buf: seq<Byte>, at: nat, left: nat, off: nat, n: nat)
    requires Sits(buf, at, left, off) && off + n <= 8 * left
    ensures var more := off + n;
            var left' := left - more / 8;
            if left' == 0 then Drop(Ahead(buf, at, left, off), n) == []
            else Drop(Ahead(buf, at, left, off), n) == Ahead(buf, at + more / 8, left', more % 8)
  {
    hide Flat;
  }

  lemma AheadAll(buf: seq<Byte>, at: nat, left: nat, off: nat, n: nat)
    requires Sits(buf, at, left, off) && off + n >= 8 * left
    ensures Drop(Ahead(buf, at, left, off), n) == []
  {
    hide Flat;
  }

  lemma AheadNone(buf: seq<Byte>, at: nat)
    ensures Ahead(buf, at, 0, 0) == []
  {
  }

  lemma Opened(buf: seq<Byte>, at: nat, left: nat, off: nat)
    requires Sits(buf, at, left, off) && left > 0
    ensures Opens(Ahead(buf, at, left, off), Shr(buf[at], off), 8 - off)
  {
    hide Ahead;
    AheadSize(buf, at, left, off);
    var s, m := Ahead(buf, at, left, off), Shr(buf[at], off);
    forall i | 0 <= i < 8 - off ensures m[i] == s[i] { AheadBit(buf, at, left, off, 0, off + i); }
  }

  lemma LastByte(buf: seq<Byte>, at: nat, off: nat, len: nat)
    requires Sits(buf, at, 1, off) && 8 - off <= len <= 8
    ensures Shr(buf[at], off) == Take(Ahead(buf, at, 1, off), 0, len) + Zeros(8 - len)
  {
    hide Ahead;
    AheadSize(buf, at, 1, off);
    var s, m := Ahead(buf, at, 1, off), Shr(buf[at], off);
    forall i | 0 <= i < 8 - off ensures m[i] == s[i] { AheadBit(buf, at, 1, off, 0, off + i); }
  }

  // Part of the next byte.
  lemma NextByte(buf: seq<Byte>, at: nat, left: nat, off: nat, n: nat)
    requires Sits(buf, at, left, off) && left > 1 && n <= 8
    ensures Follows(Ahead(buf, at, left, off), Mask(buf[at + 1], n), 8 - off, n)
  {
    hide Ahead;
    AheadSize(buf, at, left, off);
    var s, l := Ahead(buf, at, left, off), buf[at + 1];
    forall i | 0 <= i < 8 ensures l[i] == s[8 - off + i] { AheadBit(buf, at, left, off, 1, i); }
  }

  // All the bytes there are.
  lemma AllBytes(buf: seq<Byte>, at: nat, left: nat, off: nat, n: nat)
    requires Sits(buf, at, left, off) && left > 0 && n / 8 >= left - 1
    ensures Follows(Ahead(buf, at, left, off), Gather(buf[at + 1..]), 8 - off, n)
  {
    hide Ahead;
    AheadSize(buf, at, left, off);
    var s, rest, l := Ahead(buf, at, left, off), 8 - off, Gather(buf[at + 1..]);
    forall i | 0 <= i < 64 ensures l[i] == (i < n && rest + i < |s| && s[rest + i]) {
      if rest + i < |s| { AheadBit(buf, at, left, off, 1 + i / 8, i % 8); }
    }
  }

  // Whole bytes and part of one more.
  lemma SomeBytes(buf: seq<Byte>, at: nat, left: nat, off: nat, n: nat)
    requires Sits(buf, at, left, off) && left > 0 && n / 8 < left - 1
    ensures var b := buf[at + 1..at + 1 + n / 8] + [Mask(buf[at + 1 + n / 8], n % 8)];
            Follows(Ahead(buf, at, left, off), Gather(b), 8 - off, n)
  {
    hide Ahead;
    AheadSize(buf, at, left, off);
    var b := buf[at + 1..at + 1 + n / 8] + [Mask(buf[at + 1 + n / 8], n % 8)];
    var s, rest, l := Ahead(buf, at, left, off), 8 - off, Gather(b);
    forall i | 0 <= i < 64 ensures l[i] == (i < n && rest + i < |s| && s[rest + i]) {
      if rest + i < |s| { AheadBit(buf, at, left, off, 1 + i / 8, i % 8); }
    }
  }

  // What is left of the current byte.
  ghost predicate Opens(s: Bits, m: Byte, rest: nat) {
    rest <= |s| && rest <= 8 && forall i :: 0 <= i < 8 ==> m[i] == (i < rest && s[i])
  }

  // The bits of `s` from `rest` on, at most `n` of them.
  ghost predicate Follows(s: Bits, l: Bits, rest: nat, n: nat) {
    forall i :: 0 <= i < |l| ==> l[i] == (i < n && rest + i < |s| && s[rest + i])
  }

  lemma FewBits(s: Bits, m: Byte, rest: nat, len: nat)
    requires Opens(s, m, rest) && len < rest
    ensures Mask(m, len) == Take(s, 0, len) + Zeros(8 - len)
    ensures Wide(Mask(m, len)) == Take(s, 0, len) + Zeros(64 - len)
  {
  }

  lemma Byteful(s: Bits, m: Byte, l: Byte, rest: nat, len: nat)
    requires Opens(s, m, rest) && rest <= len <= 8 && Follows(s, l, rest, len - rest)
    ensures Xor(m, Shl(l, rest)) == Take(s, 0, len) + Zeros(8 - len)
  {
    var r, t := Xor(m, Shl(l, rest)), Take(s, 0, len) + Zeros(8 - len);
    forall i | 0 <= i < 8 ensures r[i] == t[i] {
      if i >= rest { assert l[i - rest] == (i < len && i < |s| && s[i]); }
    }
  }

  lemma Wordful(s: Bits, m: Byte, l: Word, rest: nat, len: nat)
    requires Opens(s, m, rest) && rest <= len <= 64 && Follows(s, l, rest, len - rest)
    ensures Splice(Wide(m), l, rest) == Take(s, 0, len) + Zeros(64 - len)
  {
    var r, t := Splice(Wide(m), l, rest), Take(s, 0, len) + Zeros(64 - len);
    forall i | 0 <= i < 64 ensures r[i] == t[i] {
      if i >= rest { assert l[i - rest] == (i < len && i < |s| && s[i]); }
    }
  }

  /** The reader: `left` bytes from byte `at` of the buffer, less `off` bits. */
  // `beyond` is whatever byte follows the stream in memory.
  class Reader {
    const buf: seq<Byte>
    const beyond: Byte
    var at: nat
    var left: nat
    var off: nat
    var bits: nat

    ghost predicate Valid()
      reads this
    {
      Sits(buf, at, left, off)
    }

    // The bits still to be read.
    ghost function Rest(): Bits
      reads this
      requires Valid()
    {
      Ahead(buf, at, left, off)
    }

    constructor (src: seq<Byte>, next: Byte)
      ensures Valid() && Rest() == Flat(src) && bits == 0 && buf == src && beyond == next
    {
      hide Flat;
      buf, beyond := src, next;
      at, left, off, bits := 0, |src|, 0, 0;
    }

    // Move the cursor on by `n` bits that are there.
    method Advance(n: nat)
      requires Valid() && off + n <= 8 * left
      modifies this
      ensures Valid() && Rest() == Drop(old(Rest()), n) && bits == old(bits) + n
    {
      hide Ahead;
      AheadMore(buf, at, left, off, n);
      AheadNone(buf, at);
      var more := off + n;
      bits := bits + n;
      if left > 0 {
        left := left - more / 8;
        if left == 0 {
          off := 0;
        } else {
          at := at + more / 8;
          off := more % 8;
        }
      }
    }

    // Move the cursor past the end.
    method Finish(n: nat)
      requires Valid() && off + n >= 8 * left
      modifies this
      ensures Valid() && Rest() == Drop(old(Rest()), n) && bits == old(bits) + n
    {
      hide Ahead;
      AheadAll(buf, at, left, off, n);
      AheadNone(buf, at);
      left, off := 0, 0;
      bits := bits + n;
    }

    /** One bit, if there is one. */
    method Bit() returns (r: Option<bool>)
      requires Valid()
      modifies this
      ensures Valid() && Rest() == Drop(old(Rest()), 1)
      ensures r == if old(Rest()) == [] then None else Some(old(Rest())[0])
      ensures bits == old(bits) + if r.Some? then 1 else 0
    {
      hide Ahead;
      AheadSize(buf, at, left, off);
      if left == 0 { return None; }
      AheadBit(buf, at, left, off, 0, off);
      r := Some(buf[at][off]);
      Advance(1);
    }

    /** One bit of the stream continued with zeros for ever. */
    method BitAny() returns (bit: bool)
      requires Valid()
      modifies this
      ensures Valid() && Rest() == Drop(old(Rest()), 1) && bits == old(bits) + 1
      ensures [bit] == Take(old(Rest()), 0, 1)
    {
      hide Ahead;
      AheadSize(buf, at, left, off);
      if left == 0 {
        bit := false;
        Finish(1);
      } else {
        AheadBit(buf, at, left, off, 0, off);
        bit := buf[at][off];
        Advance(1);
      }
    }

    /** Up to eight bits. */
    method Read8(count: nat) returns (r: Byte)
      requires Valid()
      modifies this
      ensures var len := if count > 8 then 8 else count;
              && Valid() && Rest() == Drop(old(Rest()), len) && bits == old(bits) + len
              && r == Take(old(Rest()), 0, len) + Zeros(8 - len)
    {
      hide Ahead, Take, Zeros, Shr, Shl, Mask, Xor, Drop;
      var len := if count > 8 then 8 else count;
      if left == 0 {
        TakeNone(buf, at, len);
        Finish(len);
        return NUL;
      }
      ghost var s := Rest();
      var rest := 8 - off;
      var m := Shr(buf[at], off);
      Opened(buf, at, left, off);
      if len < rest {
        r := Mask(m, len);
        FewBits(s, m, rest, len);
        Advance(len);
      } else if left == 1 {
        r := m;
        LastByte(buf, at, off, len);
        Finish(len);
      } else {
        var l := Mask(buf[at + 1], len - rest);
        r := Xor(m, Shl(l, rest));
        NextByte(buf, at, left, off, len - rest);
        Byteful(s, m, l, rest, len);
        Advance(len);
      }
    }

    // Up to 64 bits: what is left of the current byte, whole bytes, and part
    // of one more.
    method ReadWord(len: nat) returns (r: Word)
      requires Valid() && left > 0 && len <= 64
      modifies this
      ensures Valid() && Rest() == Drop(old(Rest()), len) && bits == old(bits) + len
      ensures r == Take(old(Rest()), 0, len) + Zeros(64 - len)
    {
      hide Ahead, Take, Zeros, Shr, Mask, Splice, Gather, Wide, Drop;
      ghost var s := Rest();
      var rest := 8 - off;
      var m := Shr(buf[at], off);
      Opened(buf, at, left, off);
      if len < rest {
        r := Wide(Mask(m, len));
        FewBits(s, m, rest, len);
        Advance(len);
        return;
      }
      var more := len - rest;
      var l: Word;
      if more / 8 >= left - 1 {
        l := Gather(buf[at + 1..]);
        AllBytes(buf, at, left, off, more);
        Finish(len);
      } else {
        l := Gather(buf[at + 1..at + 1 + more / 8] + [Mask(buf[at + 1 + more / 8], more % 8)]);
        SomeBytes(buf, at, left, off, more);
        Advance(len);
      }
      Wordful(s, m, l, rest, len);
      r := Splice(Wide(m), l, rest);
    }

    /** Up to 64 bits of the stream continued with zeros. */
    method Read64(count: nat) returns (r: Word)
      requires Valid()
      modifies this
      ensures var len := if count > 64 then 64 else count;
              && Valid() && Rest() == Drop(old(Rest()), len) && bits == old(bits) + len
              && r == Take(old(Rest()), 0, len) + Zeros(64 - len)
    {
      hide Ahead, Take, Zeros, Drop;
      var len := if count > 64 then 64 else count;
      if left == 0 {
        TakeNone(buf, at, len);
        Finish(len);
        r := Zeros(64);
      } else {
        r := ReadWord(len);
      }
    }

    // Whole bytes from a byte boundary.
    method CopyBytes(len: nat) returns (out: seq<Byte>)
      requires Valid() && left > 0 && off == 0
      modifies this
      ensures Valid() && Rest() == Drop(old(Rest()), len) && bits == old(bits) + len
      ensures |out| == Up3(len) && Flat(out) == Take(old(Rest()), 0, len) + Zeros(8 * |out| - len)
    {
      hide Ahead, Take, Drop, Flat, Zeros, Holds;
      ghost var s := Rest();
      AheadSize(buf, at, left, off);
      var n, need := len / 8, Up3(len);
      if need > left {
        out := buf[at..at + left] + seq(need - left, _ => NUL);
        CopiedPast(buf, at, left, len, out);
        HeldBits(s, out, len);
        Finish(len);
      } else {
        out := buf[at..at + n];
        if len % 8 > 0 { out := out + [Mask(buf[at + n], len % 8)]; }
        CopiedHere(buf, at, left, len, out);
        HeldBits(s, out, len);
        Advance(len);
      }
    }

    // Bytes that straddle the buffer's.
    method PairBytes(max: nat, ghost len: nat) returns (out: seq<Byte>)
      requires Valid() && left > 0 && off > 0 && max <= left - 1 && max <= len / 8
      ensures |out| == max && HoldsAll(Rest(), out, max, len)
    {
      hide Ahead, Holds;
      out := [];
      var i := 0;
      while i < max
        invariant i <= max && |out| == i && HoldsAll(Rest(), out, i, len)
      {
        PairHolds(buf, at, left, off, i, 8);
        var val := Xor(Shr(buf[at + i], off), Shl(buf[at + i + 1], 8 - off));
        HoldsMore(Rest(), val, 8 * i, 8, len - 8 * i);
        out := out + [val];
        i := i + 1;
      }
    }

    // From inside a byte into the last byte of the buffer, or beyond it.
    method ShiftPast(len: nat) returns (out: seq<Byte>)
      requires Valid() && left > 0 && off > 0 && Up3(len) >= left
      modifies this
      ensures Valid() && bits == old(bits) + len && |out| == Up3(len)
      ensures var n := Really(old(left), old(off), len);
              n <= len && Rest() == Drop(old(Rest()), n) && Flat(out) == Take(old(Rest()), 0, n) + Zeros(8 * |out| - n)
    {
      hide Ahead, Take, Drop, Flat, Zeros, Holds, Wraps, Up3, Shr, Mask, Really;
      ghost var s, n := Rest(), Really(left, off, len);
      AheadSize(buf, at, left, off);
      PastCounts(left, off, len);
      ReallyIs(left, off, len);
      var rem, last := len % 8, left - 1;
      out := PairBytes(last, n);
      var m := Shr(buf[at + last], off);
      var few := (len - 8 * last) % 256;
      LastHolds(buf, at, left, off, n - 8 * last);
      var val := if few < 8 - off then Mask(m, rem) else m;
      var pad: seq<Byte> := seq(Up3(len) - left, _ => NUL);
      Padded(s, out, val, pad, n);
      HeldBits(s, out + [val] + pad, n);
      out := out + [val] + pad;
      if few >= 8 - off {
        Finish(len);
      } else {
        Advance(8 * last + rem);
        bits := bits + (len - (8 * last + rem));
      }
    }

    // From inside a byte, ending before the last byte of the buffer.
    method ShiftWithin(len: nat) returns (out: seq<Byte>)
      requires Valid() && left > 0 && off > 0 && Up3(len) < left
      modifies this
      ensures Valid() && bits == old(bits) + len && |out| == Up3(len)
      ensures Rest() == Drop(old(Rest()), len) && Flat(out) == Take(old(Rest()), 0, len) + Zeros(8 * |out| - len)
    {
      hide Ahead, Take, Drop, Flat, Zeros, Holds, HoldsAll, Shr, Shl, Mask, Xor, Up3;
      ghost var s := Rest();
      var n, rem, rest := len / 8, len % 8, 8 - off;
      Parts(len);
      out := PairBytes(n, len);
      if rem > 0 {
        var m := Shr(buf[at + n], off);
        PairHolds(buf, at, left, off, n, rem);
        var val := if rem <= rest then m else Xor(m, Shl(Mask(buf[at + n + 1], (off + rem) % 8), rest));
        MaskedPair(m, buf[at + n + 1], off, rem);
        HoldsPush(s, out, Mask(val, rem), len);
        out := out + [Mask(val, rem)];
      }
      HeldBits(s, out, len);
      Advance(len);
    }

    /** Any number of bits into a zeroed byte string. */
    method ReadBytes(len: nat) returns (out: seq<Byte>)
      requires Valid()
      modifies this
      ensures Valid() && bits == old(bits) + len && |out| == Up3(len)
      ensures var n := Really(old(left), old(off), len);
              n <= len && Rest() == Drop(old(Rest()), n) && Flat(out) == Take(old(Rest()), 0, n) + Zeros(8 * |out| - n)
    {
      hide Ahead, Take, Drop, Flat, Zeros, Holds;
      if left == 0 {
        out := seq(Up3(len), _ => NUL);
        AheadNone(buf, at);
        forall k | 0 <= k < |out| ensures Holds(Rest(), out[k], 8 * k, len - 8 * k) { NoneHolds(Rest(), k, len - 8 * k); }
        HeldBits(Rest(), out, len);
        Finish(len);
      } else if off == 0 {
        out := CopyBytes(len);
      } else if Up3(len) >= left {
        out := ShiftPast(len);
      } else {
        out := ShiftWithin(len);
      }
    }

    /** The tag of the next noun. */
    method ReadTag() returns (r: Tagged)
      requires Valid()
      modifies this
      ensures Valid() && r == TagOf(old(Rest()))
      ensures r.Tagged? ==> Rest() == Drop(old(Rest()), r.len) && bits == old(bits) + r.len
    {
      hide Ahead, Drop;
      AheadSize(buf, at, left, off);
      if left == 0 { return NoTag; }
      var bit := buf[at][off];
      AheadBit(buf, at, left, off, 0, off);
      if !bit {
        r := Tagged(AtomTag, 1);
      } else {
        if off == 7 && left == 1 {
          Finish(1);
          return NoTag;
        }
        var next := if off == 7 then buf[at + 1][0] else buf[at][off + 1];
        AheadBit(buf, at, left, off, if off == 7 then 1 else 0, (off + 1) % 8);
        r := Tagged(if next then BackTag else CellTag, 2);
      }
      Advance(r.len);
    }

    // The first byte with a one in it, counted from the cursor; `left` or more
    // than 32 bytes on if there is none.  Each byte is read before it is known
    // to be in the stream, so the one beyond may be.
    method SkipZeroBytes() returns (byt: Byte, skip: nat)
      requires Valid() && left > 0
      ensures skip <= 33 && skip <= left
      ensures skip < left && skip <= 32 ==> byt != NUL && byt == (if skip == 0 then Shr(buf[at], off) else buf[at + skip]) && Log(Rest(), 0, 0) == Log(Rest(), Passed(skip, off), Passed(skip, off))
      ensures skip == 33 ==> left > 32 && Log(Rest(), 0, 0) == Short(Meme)
      ensures skip == left && skip <= 32 ==> Log(Rest(), 0, 0) == Short(Gone)
    {
      hide Ahead, Drop, Log, Shr;
      ghost var s := Rest();
      AheadSize(buf, at, left, off);
      byt, skip := Shr(buf[at], off), 0;
      while byt == NUL
        invariant skip < left && skip <= 32 && byt == if skip == 0 then Shr(buf[at], off) else buf[at + skip]
        invariant Log(s, 0, 0) == Log(s, Passed(skip, off), Passed(skip, off))
        decreases 32 - skip
      {
        ByteIs(buf, at, left, off, skip);
        ZeroByte(s, Passed(skip, off), if skip == 0 then 8 - off else 8);
        skip := skip + 1;
        if skip == 33 { return; }
        byt := if at + skip < |buf| then buf[at + skip] else beyond;
        if skip == left {
          LogStop(s, |s|, |s|);
          return;
        }
      }
    }

    /** The zeros before the next one, a byte at a time. */
    method ReadLog() returns (r: Counted)
      requires Valid()
      modifies this
      ensures Valid() && r == Log(old(Rest()), 0, 0)
      ensures r.Count? ==> Rest() == Drop(old(Rest()), r.pos) && bits == old(bits) + r.pos
    {
      hide Ahead, Drop, Log, Shr;
      ghost var s := Rest();
      AheadSize(buf, at, left, off);
      if left == 0 { LogStop(s, 0, 0); return Short(Gone); }
      var byt, skip := SkipZeroBytes();
      if skip == 33 {
        at, left, bits := at + 32, left - 32, bits + 256;
        return Short(Meme);
      }
      if skip == left {
        bits := bits + (8 * skip - off) % 256;
        left, off := 0, 0;
        return Short(Gone);
      }
      ByteIs(buf, at, left, off, skip);
      var tz := Trailing(byt);
      var zeros := tz + Passed(skip, off);
      OneByte(s, byt, skip, off, tz);
      if zeros > 255 {
        at, left, bits := at + 32, left - 32, bits + 256;
        return Short(Meme);
      }
      r := Count(zeros, zeros + 1);
      Advance(zeros + 1);
    }

    /** A run length. */
    method ReadLen() returns (r: Counted)
      requires Valid()
      modifies this
      ensures Valid() && r == RubLen(old(Rest()), 0)
      ensures r.Count? ==> Rest() == Drop(old(Rest()), r.pos) && bits == old(bits) + r.pos
    {
      hide Ahead, Log, Take, Num, Pow2;
      ghost var s := Rest();
      r := ReadLog();
      if r.Short? { return; }
      if r.n >= 64 { return Short(Meme); }
      if r.n <= 1 { return; }
      var len := r.n - 1;
      var word := Read64(len);
      TakeDrop(s, r.pos, 0, len);
      NumPad(Take(s, r.pos, len), 64 - len);
      DropDrop(s, r.pos, len);
      r := Count(Num(word) + Pow2(len), r.pos + len);
    }
  }

  // Bits in front of byte `skip`.
  function Passed(skip: nat, off: nat): nat
    requires off < 8
  {
    if skip == 0 then 0 else 8 * skip - off
  }

  // The first set bit of a byte.
  function Trailing(b: Byte): (j: nat)
    requires b != NUL
    ensures j < 8 && b[j] && forall i :: 0 <= i < j ==> !b[i]
  {
    if b[0] then 0 else if b[1] then 1 else if b[2] then 2 else if b[3] then 3
    else if b[4] then 4 else if b[5] then 5 else if b[6] then 6 else assert b[7]; 7
  }

  // Byte `skip` holds the bits that follow the ones passed.
  lemma ByteIs(buf: seq<Byte>, at: nat, left: nat, off: nat, skip: nat)
    requires Sits(buf, at, left, off) && skip < left
    ensures var b := if skip == 0 then Shr(buf[at], off) else buf[at + skip];
            var n := if skip == 0 then 8 - off else 8;
            Opens(Drop(Ahead(buf, at, left, off), Passed(skip, off)), b, n)
  {
    hide Ahead;
    AheadSize(buf, at, left, off);
    var s, k := Ahead(buf, at, left, off), Passed(skip, off);
    if skip == 0 {
      Opened(buf, at, left, off);
      assert Drop(s, 0) == s;
    } else {
      var b := buf[at + skip];
      forall j | 0 <= j < 8 ensures s[k + j] == b[j] { AheadBit(buf, at, left, off, skip, j); }
    }
  }

  lemma LogStop(s: Bits, pos: nat, zeros: nat)
    requires pos >= |s|
    ensures Log(s, pos, zeros) == Short(Gone)
  {
  }

  // Past `k` zeros.
  lemma {:induction false} LogRun(s: Bits, pos: nat, zeros: nat, k: nat)
    requires pos + k <= |s| && zeros <= 256 && forall i :: pos <= i < pos + k ==> !s[i]
    ensures Log(s, pos, zeros) == if zeros + k <= 256 then Log(s, pos + k, zeros + k) else Short(Meme)
    decreases k
  {
    if k > 0 && zeros < 256 { LogRun(s, pos + 1, zeros + 1, k - 1); }
  }

  // Past a byte of zeros.
  lemma ZeroByte(s: Bits, k: nat, n: nat)
    requires Opens(Drop(s, k), NUL, n) && k <= 256
    ensures k + n <= |s| || n == 0
    ensures n > 0 ==> Log(s, k, k) == if k + n <= 256 then Log(s, k + n, k + n) else Short(Meme)
  {
    hide Log;
    if n > 0 {
      forall i | k <= i < k + n ensures !s[i] { assert Drop(s, k)[i - k] == NUL[i - k]; }
      LogRun(s, k, k, n);
    }
  }

  // Up to the first one in a byte.
  lemma OneByte(s: Bits, byt: Byte, skip: nat, off: nat, tz: nat)
    requires off < 8 && skip <= 32 && tz < 8 && byt[tz] && forall i :: 0 <= i < tz ==> !byt[i]
    requires Opens(Drop(s, Passed(skip, off)), byt, if skip == 0 then 8 - off else 8)
    ensures var k := Passed(skip, off);
            && Log(s, k, k) == (if k + tz <= 255 then Count(k + tz, k + tz + 1) else Short(Meme))
            && k + tz < |s|
            && (k + tz > 255 ==> skip == 32)
  {
    hide Log;
    FirstOne(s, Passed(skip, off), byt, if skip == 0 then 8 - off else 8, tz);
  }

  lemma FirstOne(s: Bits, k: nat, byt: Byte, n: nat, tz: nat)
    requires Opens(Drop(s, k), byt, n) && tz < 8 && byt[tz] && (forall i :: 0 <= i < tz ==> !byt[i]) && k <= 256
    ensures k + tz < |s| && Log(s, k, k) == if k + tz <= 255 then Count(k + tz, k + tz + 1) else Short(Meme)
  {
    assert tz < n;
    forall i | k <= i < k + tz ensures !s[i] { assert Drop(s, k)[i - k] == byt[i - k]; }
    assert s[k + tz] by { assert Drop(s, k)[tz] == byt[tz]; }
    LogRun(s, k, k, tz);
    LogOne(s, k + tz, k + tz);
    hide Log;
  }

  lemma LogOne(s: Bits, pos: nat, zeros: nat)
    requires pos < |s| && s[pos]
    ensures Log(s, pos, zeros) == if zeros > 255 then Short(Meme) else Count(zeros, pos + 1)
  {
  }

  lemma TakeDrop(s: Bits, n: nat, at: nat, len: nat)
    ensures Take(Drop(s, n), at, len) == Take(s, n + at, len)
  {
  }

  lemma DropDrop(s: Bits, n: nat, more: nat)
    ensures Drop(Drop(s, n), more) == Drop(s, n + more)
  {
  }

  // Counting is the same from any place in the stream.
  lemma {:induction false} LogDrop(s: Bits, n: nat, pos: nat, zeros: nat)
    ensures Log(s, n + pos, zeros) == match Log(Drop(s, n), pos, zeros) case Count(k, p) => Count(k, n + p) case Short(e) => Short(e)
    decreases |s| - pos
  {
    if n + pos < |s| {
      LogDrop(s, n, pos + 1, zeros + 1);
    }
  }

  lemma RubDrop(s: Bits, n: nat)
    ensures RubLen(s, n) == match RubLen(Drop(s, n), 0) case Count(k, p) => Count(k, n + p) case Short(e) => Short(e)
  {
    hide Log, Num, Take, Pow2;
    LogDrop(s, n, 0, 0);
    var c := Log(Drop(s, n), 0, 0);
    if c.Count? && 1 < c.n < 64 { TakeDrop(s, n, c.pos, c.n - 1); }
  }

  /** A bulk read from inside a byte counts the bits it needs of the last byte
      in eight bits: far enough past the end the count wraps to a small one. */
  predicate Wraps(left: nat, off: nat, len: nat) {
    left > 0 && off > 0 && len >= 8 * (left - 1) + 256 && (len - 8 * (left - 1)) % 256 < 8 - off
  }

  // How many bits it takes from the stream: all it is asked for, or, when the
  // count wraps, those before the last byte and as many of that as its length
  // has over whole bytes.
  function Really(left: nat, off: nat, len: nat): nat {
    if Wraps(left, off, len) then 8 * (left - 1) + len % 8 else len
  }

  // One bit into the last byte, 255 bits do not wrap the count and 256 do.
  lemma WrapsFirst()
    ensures Wraps(1, 1, 256) && forall len: nat :: len < 256 ==> !Wraps(1, 1, len)
  {
  }

  // `val` holds the bits of `s` from `from` on, at most `n` of them.
  ghost predicate Holds(s: Bits, val: Byte, from: nat, n: int) {
    forall j :: 0 <= j < 8 ==> val[j] == (j < n && from + j < |s| && s[from + j])
  }

  // Every byte of `out` up to byte `to` is what was asked for.
  ghost predicate HoldsAll(s: Bits, out: seq<Byte>, to: nat, len: nat) {
    to <= |out| && forall k :: 0 <= k < to ==> Holds(s, out[k], 8 * k, len - 8 * k)
  }

  lemma HeldBits(s: Bits, out: seq<Byte>, len: nat)
    requires 8 * |out| >= len && HoldsAll(s, out, |out|, len)
    ensures Flat(out) == Take(s, 0, len) + Zeros(8 * |out| - len)
  {
    var r, t := Flat(out), Take(s, 0, len) + Zeros(8 * |out| - len);
    forall i | 0 <= i < |r| ensures r[i] == t[i] {
      assert Holds(s, out[i / 8], 8 * (i / 8), len - 8 * (i / 8));
      FlatAt(out, i / 8, i % 8);
    }
  }

  // A byte made of two neighbours.
  lemma PairHolds(buf: seq<Byte>, at: nat, left: nat, off: nat, k: nat, n: nat)
    requires Sits(buf, at, left, off) && off > 0 && k + 1 < left && n <= 8
    ensures var val := Xor(Shr(buf[at + k], off), Shl(buf[at + k + 1], 8 - off));
            && Holds(Ahead(buf, at, left, off), Mask(val, n), 8 * k, n)
            && (n == 8 ==> Mask(val, n) == val)
            && (n <= 8 - off ==> Mask(val, n) == Mask(Shr(buf[at + k], off), n))
  {
    hide Ahead;
    AheadSize(buf, at, left, off);
    var s := Ahead(buf, at, left, off);
    var val := Xor(Shr(buf[at + k], off), Shl(buf[at + k + 1], 8 - off));
    forall j | 0 <= j < 8 ensures val[j] == s[8 * k + j] {
      if off + j < 8 { AheadBit(buf, at, left, off, k, off + j); } else { AheadBit(buf, at, left, off, k + 1, off + j - 8); }
    }
  }

  // What is left of the last byte.
  lemma LastHolds(buf: seq<Byte>, at: nat, left: nat, off: nat, n: nat)
    requires Sits(buf, at, left, off) && left > 0
    ensures var m := Shr(buf[at + left - 1], off);
            && Holds(Ahead(buf, at, left, off), Mask(m, n), 8 * (left - 1), n)
            && (n >= 8 - off ==> Mask(m, n) == m && Holds(Ahead(buf, at, left, off), m, 8 * (left - 1), n))
  {
    hide Ahead;
    AheadSize(buf, at, left, off);
    var s, m, from := Ahead(buf, at, left, off), Shr(buf[at + left - 1], off), 8 * (left - 1);
    forall j | 0 <= j < 8 - off ensures m[j] == s[from + j] { AheadBit(buf, at, left, off, left - 1, off + j); }
  }

  // Past the end there are zeros.
  lemma NoneHolds(s: Bits, k: nat, n: int)
    requires 8 * k >= |s|
    ensures Holds(s, NUL, 8 * k, n)
  {
  }

  lemma TakeNone(buf: seq<Byte>, at: nat, len: nat)
    ensures len <= 8 ==> Take(Ahead(buf, at, 0, 0), 0, len) + Zeros(8 - len) == NUL
    ensures len <= 64 ==> Take(Ahead(buf, at, 0, 0), 0, len) + Zeros(64 - len) == Zeros(64)
  {
  }

  lemma Parts(len: nat)
    ensures len == 8 * (len / 8) + len % 8 && Up3(len) == len / 8 + if len % 8 > 0 then 1 else 0
  {
  }

  // What the eight-bit count decides.
  lemma PastCounts(left: nat, off: nat, len: nat)
    requires left > 0 && 0 < off < 8 && Up3(len) >= left
    ensures var need := len - 8 * (left - 1);
            var few := need % 256;
            && left - 1 <= len / 8 && need > 0
            && (few >= 8 - off ==> off + len >= 8 * left && need >= 8 - off)
            && (few < 8 - off && need < 256 ==> need == len % 8 && off + len <= 8 * left)
            && (few < 8 - off ==> off + len % 8 < 8)
            && (Wraps(left, off, len) <==> need >= 256 && few < 8 - off)
  {
    PastNeed(left, len);
    var need := len - 8 * (left - 1);
    PastByte(need);
    PastFew(need, need % 256, 8 - off, len % 8);
  }

  lemma ReallyIs(left: nat, off: nat, len: nat)
    requires left > 0 && 0 < off < 8 && Up3(len) >= left
    ensures var n, few := Really(left, off, len), (len - 8 * (left - 1)) % 256;
            n <= len <= 8 * Up3(len) && n / 8 >= left - 1 && n == if few >= 8 - off then len else 8 * (left - 1) + len % 8
  {
    PastCounts(left, off, len);
    hide Wraps;
  }

  // How many bits of the last byte are needed.
  lemma PastNeed(left: nat, len: nat)
    requires left > 0 && Up3(len) >= left
    ensures var need := len - 8 * (left - 1); left - 1 <= len / 8 && need > 0 && need % 8 == len % 8
  {
  }

  lemma PastFew(need: nat, few: nat, rest: nat, more: nat)
    requires 0 < rest <= 8 && few <= need && few % 8 == need % 8 == more && (need < 256 ==> few == need)
    ensures (few >= rest ==> need >= rest) && (few < rest ==> more == few) && (few < rest && need < 256 ==> need == more)
  {
  }

  // Bits left over in a byte, counted in eight bits.
  lemma PastByte(need: nat)
    ensures need % 256 % 8 == need % 8 && need % 256 <= need && (need < 256 ==> need % 256 == need)
  {
    assert need == 8 * (32 * (need / 256)) + need % 256;
  }

  // Zero bytes after the last byte of a stream.
  lemma Padded(s: Bits, out: seq<Byte>, val: Byte, pad: seq<Byte>, len: nat)
    requires HoldsAll(s, out, |out|, len) && Holds(s, val, 8 * |out|, len - 8 * |out|) && |s| <= 8 * |out| + 8
    requires forall k :: 0 <= k < |pad| ==> pad[k] == NUL
    ensures HoldsAll(s, out + [val] + pad, |out| + 1 + |pad|, len)
  {
    var all := out + [val] + pad;
    hide Holds;
    forall k | 0 <= k < |all| ensures Holds(s, all[k], 8 * k, len - 8 * k) {
      if k > |out| { NoneHolds(s, k, len - 8 * k); }
    }
  }

  lemma HoldsPush(s: Bits, out: seq<Byte>, val: Byte, len: nat)
    requires HoldsAll(s, out, |out|, len) && Holds(s, val, 8 * |out|, len - 8 * |out|)
    ensures HoldsAll(s, out + [val], |out| + 1, len)
  {
    hide Holds;
  }

  lemma HoldsMore(s: Bits, val: Byte, from: nat, n: int, more: int)
    requires Holds(s, val, from, n) && n >= 8 && more >= 8
    ensures Holds(s, val, from, more)
  {
  }

  lemma Whole(buf: seq<Byte>, at: nat, left: nat, len: nat, n: nat)
    requires Sits(buf, at, left, 0) && left > 0 && n <= left && 8 * n <= len
    ensures HoldsAll(Ahead(buf, at, left, 0), buf[at..at + n], n, len)
  {
    hide Ahead;
    AheadSize(buf, at, left, 0);
    forall k | 0 <= k < n ensures Holds(Ahead(buf, at, left, 0), buf[at..at + n][k], 8 * k, len - 8 * k) {
      var b := buf[at + k];
      forall j | 0 <= j < 8 ensures Ahead(buf, at, left, 0)[8 * k + j] == b[j] { AheadBit(buf, at, left, 0, k, j); }
    }
  }

  // All bytes that are left, and nothing after them.
  lemma CopiedPast(buf: seq<Byte>, at: nat, left: nat, len: nat, out: seq<Byte>)
    requires Sits(buf, at, left, 0) && left > 0 && Up3(len) > left
    requires out == buf[at..at + left] + seq(Up3(len) - left, _ => NUL)
    ensures HoldsAll(Ahead(buf, at, left, 0), out, |out|, len)
  {
    hide Ahead, Holds;
    var s := Ahead(buf, at, left, 0);
    AheadSize(buf, at, left, 0);
    Whole(buf, at, left, len, left);
    forall k | 0 <= k < |out| ensures Holds(s, out[k], 8 * k, len - 8 * k) {
      if k < left { assert out[k] == buf[at..at + left][k]; } else { NoneHolds(s, k, len - 8 * k); }
    }
  }

  // Whole bytes, and the first bits of the next.
  lemma CopiedHere(buf: seq<Byte>, at: nat, left: nat, len: nat, out: seq<Byte>)
    requires Sits(buf, at, left, 0) && left > 0 && Up3(len) <= left
    requires var n := len / 8; out == buf[at..at + n] + if len % 8 > 0 then [Mask(buf[at + n], len % 8)] else []
    ensures |out| == Up3(len) && HoldsAll(Ahead(buf, at, left, 0), out, |out|, len)
  {
    hide Ahead, Holds, Mask;
    var s, n := Ahead(buf, at, left, 0), len / 8;
    Whole(buf, at, left, len, n);
    if len % 8 > 0 { PartHolds(buf, at, left, n, len % 8); }
    forall k | 0 <= k < |out| ensures Holds(s, out[k], 8 * k, len - 8 * k) {
      if k < n { assert out[k] == buf[at..at + n][k]; }
    }
  }

  lemma PartHolds(buf: seq<Byte>, at: nat, left: nat, k: nat, n: nat)
    requires Sits(buf, at, left, 0) && k < left && n < 8
    ensures Holds(Ahead(buf, at, left, 0), Mask(buf[at + k], n), 8 * k, n)
  {
    hide Ahead;
    AheadSize(buf, at, left, 0);
    var b := buf[at + k];
    forall j | 0 <= j < 8 ensures Ahead(buf, at, left, 0)[8 * k + j] == b[j] { AheadBit(buf, at, left, 0, k, j); }
  }

  lemma MaskedPair(m: Byte, next: Byte, off: nat, rem: nat)
    requires 0 < off < 8 && rem < 8
    ensures rem > 8 - off ==> Mask(Xor(m, Shl(Mask(next, (off + rem) % 8), 8 - off)), rem) == Mask(Xor(m, Shl(next, 8 - off)), rem)
  {
  }
}
