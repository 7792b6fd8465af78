/** The bitstream writer and reader: bytes, shifts and masks on one side, a
    plain sequence of bits on the other. */
module Bitstream {
  import opened JamCue

  // Eight bits, least significant first.
  type Byte = b: seq<bool> | |b| == 8 witness [false, false, false, false, false, false, false, false]

  const NUL: Byte := [false, false, false, false, false, false, false, false]

  // a << k
  function Shl(a: Byte, k: nat): (r: Byte)
    ensures forall i :: 0 <= i < 8 ==> r[i] == (i >= k && a[i - k])
  {
    seq(8, i requires 0 <= i < 8 => i >= k && a[i - k])
  }

  // a >> k
  function Shr(a: Byte, k: nat): (r: Byte)
    ensures forall i :: 0 <= i < 8 ==> r[i] == (i + k < 8 && a[i + k])
  {
    seq(8, i requires 0 <= i < 8 => i + k < 8 && a[i + k])
  }

  // a ^ b
  function Xor(a: Byte, b: Byte): (r: Byte)
    ensures forall i :: 0 <= i < 8 ==> r[i] == (a[i] != b[i])
  {
    seq(8, i requires 0 <= i < 8 => a[i] != b[i])
  }

  // a & ((1 << k) - 1)
  function Mask(a: Byte, k: nat): (r: Byte)
    ensures forall i :: 0 <= i < 8 ==> r[i] == (i < k && a[i])
  {
    seq(8, i requires 0 <= i < 8 => i < k && a[i])
  }

  // Bit `i` of a buffer.
  predicate At(bytes: seq<Byte>, i: nat) { i / 8 < |bytes| && bytes[i / 8][i % 8] }

  // The first `n` bits of a buffer.
  function Prefix(bytes: seq<Byte>, n: nat): (r: Bits)
    ensures |r| == n && forall i :: 0 <= i < n ==> r[i] == At(bytes, i)
  {
    seq(n, i requires 0 <= i < n => At(bytes, i))
  }

  // Nothing but zeros from bit `n` on.
  ghost predicate Clear(bytes: seq<Byte>, n: nat) {
    forall i: nat :: i >= n ==> !At(bytes, i)
  }

  // Bit `j` of byte `k`.
  lemma AtByte(bytes: seq<Byte>, k: nat, j: nat)
    requires j < 8
    ensures At(bytes, 8 * k + j) == (k < |bytes| && bytes[k][j])
  {
    assert (8 * k + j) / 8 == k && (8 * k + j) % 8 == j;
  }

  /** Two buffers that differ only from byte `fill` on, where the second has
      `part` written at bit offset `off`. */
  lemma Wrote(a: seq<Byte>, b: seq<Byte>, n: nat, part: Bits)
    requires Clear(a, n)
    requires forall i: nat :: i < n ==> At(b, i) == At(a, i)
    requires forall i: nat :: n <= i < n + |part| ==> At(b, i) == part[i - n]
    requires forall i: nat :: i >= n + |part| ==> !At(b, i)
    ensures Prefix(b, n + |part|) == Prefix(a, n) + part && Clear(b, n + |part|)
  {
  }

  lemma FillWrote(a: seq<Byte>, b: seq<Byte>, fill: nat, off: nat, part: Bits)
    requires |a| == |b| && off < 8 && off + |part| <= 8 && fill < |a| && Clear(a, 8 * fill + off)
    requires forall i :: 0 <= i < |a| && i != fill ==> b[i] == a[i]
    requires forall j :: 0 <= j < 8 ==> b[fill][j] == if off <= j < off + |part| then part[j - off] else a[fill][j]
    ensures Prefix(b, 8 * fill + off + |part|) == Prefix(a, 8 * fill + off) + part && Clear(b, 8 * fill + off + |part|)
  {
    var n := 8 * fill + off;
    forall i: nat
      ensures At(b, i) == if n <= i < n + |part| then part[i - n] else At(a, i)
    {
      AtByte(a, i / 8, i % 8);
      AtByte(b, i / 8, i % 8);
    }
    Wrote(a, b, n, part);
  }

  lemma ClearByte(a: seq<Byte>, fill: nat, off: nat, k: nat, j: nat)
    requires Clear(a, 8 * fill + off) && off <= 8 && j < 8 && k < |a| && (k > fill || (k == fill && j >= off))
    ensures !a[k][j]
  {
    var i := 8 * k + j;
    assert i >= 8 * fill + off;
    AtByte(a, k, j);
  }

  lemma ClearMore(a: seq<Byte>, step: nat, n: nat)
    requires Clear(a, n)
    ensures var b := a + seq(step, _ => NUL); Prefix(b, n) == Prefix(a, n) && Clear(b, n)
  {
    var b := a + seq(step, _ => NUL);
    forall i: nat ensures At(b, i) == At(a, i) {
      AtByte(a, i / 8, i % 8);
      AtByte(b, i / 8, i % 8);
    }
  }

  // All the bits of a byte string.
  function Flat(src: seq<Byte>): (r: Bits)
    ensures |r| == 8 * |src|
  {
    seq(8 * |src|, i requires 0 <= i < 8 * |src| => src[i / 8][i % 8])
  }

  // Byte `k` of the flattened string, shifted by `by` bits.
  lemma FlatAt(src: seq<Byte>, k: nat, j: nat)
    requires k < |src| && j < 8
    ensures 8 * k + j < |Flat(src)| && Flat(src)[8 * k + j] == src[k][j]
  {
    assert (8 * k + j) / 8 == k && (8 * k + j) % 8 == j;
  }

  // The bytes two source bytes straddle.
  lemma FlatStraddle(src: seq<Byte>, k: nat, rest: nat, len: nat, low: Byte, high: Byte)
    requires rest <= 8 && len <= 8 && 8 * k + rest + len <= 8 * |src| && k < |src|
    requires low == src[k]
    requires rest + len > 8 ==> high == src[k + 1]
    ensures Xor(Shr(low, rest), Shl(high, 8 - rest))[..len] == Flat(src)[8 * k + rest..8 * k + rest + len]
  {
    var both := Xor(Shr(low, rest), Shl(high, 8 - rest));
    forall j | 0 <= j < len ensures both[j] == Flat(src)[8 * k + rest + j] {
      if rest + j < 8 { FlatAt(src, k, rest + j); } else { FlatAt(src, k + 1, rest + j - 8); }
    }
  }

  lemma FlatWhole(src: seq<Byte>, k: nat, len: nat)
    requires k < |src| && len <= 8
    ensures src[k][..len] == Flat(src)[8 * k..8 * k + len]
  {
    forall j | 0 <= j < len ensures src[k][j] == Flat(src)[8 * k + j] { FlatAt(src, k, j); }
  }

  lemma Append(was: Bits, all: Bits, at: nat, to: nat)
    requires at <= to <= |all|
    ensures (was + all[..at]) + all[at..to] == was + all[..to]
  {
  }

  lemma SliceSlice(all: Bits, a: nat, b: nat, i: nat, j: nat)
    requires a <= b <= |all| && i <= j <= b - a
    ensures all[a..b][i..j] == all[a + i..a + j]
  {
    forall k | 0 <= k < j - i ensures all[a..b][i..j][k] == all[a + i..a + j][k] {
      assert all[a..b][i + k] == all[a + i + k];
    }
  }

  function Up3(n: nat): nat { (n + 7) / 8 }
  function Max(a: nat, b: nat): nat { if a > b then a else b }

  /** The writer: `fill` whole bytes and `off` bits of the next. */
  class Writer {
    var prev: nat
    var bytes: seq<Byte>
    var fill: nat
    var off: nat
    var bits: nat

    ghost predicate Valid()
      reads this
    {
      && prev >= 1 && off < 8 && 8 * fill + off == bits
      && fill < |bytes| && Clear(bytes, bits)
    }

    // The stream written so far.
    ghost function Contents(): Bits
      reads this
    {
      Prefix(bytes, bits)
    }

    // Room for `len` bits more, and for the byte after them.
    ghost predicate Room(len: nat)
      reads this
    {
      Up3(bits + len) < |bytes|
    }

    constructor (before: nat, size: nat)
      requires before >= 1 && size >= 1
      ensures Valid() && Contents() == []
    {
      prev := before;
      bytes := seq(size, _ => NUL);
      fill, off, bits := 0, 0, 0;
      new;
      forall i: nat ensures !At(bytes, i) { AtByte(bytes, i / 8, i % 8); }
    }

    // Make the buffer `step` bytes longer.
    method Grow(step: nat)
      requires Valid() && step >= 1
      modifies this
      ensures Valid() && Contents() == old(Contents()) && |bytes| == old(|bytes|) + step
      ensures fill == old(fill) && off == old(off) && bits == old(bits)
    {
      ClearMore(bytes, step, bits);
      prev := |bytes|;
      bytes := bytes + seq(step, _ => NUL);
    }

    // Make room once for all of `len` bits.
    method Reserve(len: nat)
      requires Valid()
      modifies this
      ensures Valid() && Contents() == old(Contents()) && Room(len)
      ensures fill == old(fill) && off == old(off) && bits == old(bits)
    {
      var need := Up3(off + len);
      assert need + fill == Up3(bits + len);
      if fill + need >= |bytes| {
        Grow(Max(need, prev));
      }
    }

    // `len` bits that fit in the current byte with a bit to spare.
    method Part(len: nat, val: Byte)
      requires Valid() && off + len < 8
      modifies this
      ensures Valid() && Contents() == old(Contents()) + val[..len]
      ensures bits == old(bits) + len && |bytes| == old(|bytes|) && prev == old(prev)
    {
      ghost var was := bytes;
      forall j | off <= j < 8 ensures !bytes[fill][j] { ClearByte(bytes, fill, off, fill, j); }
      bytes := bytes[fill := Xor(bytes[fill], Shl(Mask(val, len), off))];
      FillWrote(was, bytes, fill, off, val[..len]);
      off := off + len;
      bits := bits + len;
    }

    // Fill up the current byte.
    method Top(val: Byte)
      requires Valid() && fill + 1 < |bytes|
      modifies this
      ensures Valid() && Contents() == old(Contents()) + val[..8 - old(off)]
      ensures bits == old(bits) + 8 - old(off) && off == 0 && |bytes| == old(|bytes|) && prev == old(prev)
    {
      ghost var was := bytes;
      var rest := 8 - off;
      forall j | off <= j < 8 ensures !bytes[fill][j] { ClearByte(bytes, fill, off, fill, j); }
      bytes := bytes[fill := Xor(bytes[fill], Shl(Mask(val, rest), off))];
      FillWrote(was, bytes, fill, off, val[..rest]);
      fill := fill + 1;
      off := 0;
      bits := bits + rest;
    }

    // A whole byte on a byte boundary.
    method Whole(val: Byte)
      requires Valid() && off == 0 && fill + 1 < |bytes|
      modifies this
      ensures Valid() && Contents() == old(Contents()) + val
      ensures bits == old(bits) + 8 && off == 0 && |bytes| == old(|bytes|) && prev == old(prev)
    {
      hide Prefix, Clear;
      ghost var was := bytes;
      bytes := bytes[fill := val];
      FillWrote(was, bytes, fill, 0, val);
      fill := fill + 1;
      bits := bits + 8;
    }

    // The last bits on a byte boundary.
    method Tail(len: nat, val: Byte)
      requires Valid() && off == 0 && len < 8
      modifies this
      ensures Valid() && Contents() == old(Contents()) + val[..len]
      ensures bits == old(bits) + len && |bytes| == old(|bytes|) && prev == old(prev)
    {
      ghost var was := bytes;
      forall j | 0 <= j < 8 ensures !was[fill][j] { ClearByte(was, fill, 0, fill, j); }
      if len > 0 {
        bytes := bytes[fill := Mask(val, len)];
      }
      FillWrote(was, bytes, fill, 0, val[..len]);
      off := len;
      bits := bits + len;
    }

    // One bit, with room made.
    method PutBit(bit: bool)
      requires Valid() && fill + (off + 1) / 8 < |bytes|
      modifies this
      ensures Valid() && Contents() == old(Contents()) + [bit]
      ensures bits == old(bits) + 1 && |bytes| == old(|bytes|) && prev == old(prev)
    {
      var val: Byte := [bit] + NUL[1..];
      assert val[..1] == [bit];
      if off == 7 {
        Top(val);
      } else {
        Part(1, val);
      }
    }

    /** One bit. */
    method WriteBit(bit: bool)
      requires Valid()
      modifies this
      ensures Valid() && Contents() == old(Contents()) + [bit]
    {
      if off == 7 && fill + 1 == |bytes| {
        Grow(prev);
      }
      PutBit(bit);
    }

    // Up to eight bits, split over two bytes where they straddle.
    method Put8(len: nat, val: Byte)
      requires Valid() && len <= 8 && fill + (off + len) / 8 < |bytes|
      modifies this
      ensures Valid() && Contents() == old(Contents()) + val[..len]
      ensures bits == old(bits) + len && |bytes| == old(|bytes|) && prev == old(prev)
    {
      var rest := 8 - off;
      if len < rest {
        Part(len, val);
      } else {
        Top(val);
        var more := Shr(val, rest);
        Tail(len - rest, more);
        assert val[..len] == val[..rest] + more[..len - rest];
      }
    }

    /** Up to eight bits. */
    method Write8(count: nat, val: Byte)
      requires Valid()
      modifies this
      ensures Valid() && Contents() == old(Contents()) + val[..if count > 8 then 8 else count]
    {
      var len := if count > 8 then 8 else count;
      if fill + (off + len) / 8 >= |bytes| {
        Grow(prev);
      }
      Put8(len, val);
    }

    // Room for one byte more of `len` bits.
    static lemma RoomLeft(start: nat, fill: nat, at: nat, len: nat, size: nat)
      requires start + at == 8 * fill && at + 8 <= len && Up3(start + len) < size
      ensures fill + 1 < size
    {
    }

    // Bits `at..len` of a word on a byte boundary.
    method PutRest(at: nat, len: nat, word: Bits)
      requires Valid() && off == 0 && at <= len <= |word| && Room(len - at)
      modifies this
      ensures Valid() && Contents() == old(Contents()) + word[at..len]
      ensures bits == old(bits) + len - at && |bytes| == old(|bytes|) && prev == old(prev)
    {
      hide Prefix, Clear;
      ghost var was, all := Contents(), word[at..len];
      var i := at;
      assert was + all[..0] == was;
      while len - i >= 8
        invariant Valid() && off == 0 && at <= i <= len && |bytes| == old(|bytes|) && prev == old(prev)
        invariant Contents() == was + all[..i - at]
        invariant bits == old(bits) + i - at
      {
        RoomLeft(old(bits), fill, i - at, len - at, |bytes|);
        var val: Byte := word[i..i + 8];
        Whole(val);
        SliceSlice(word, at, len, i - at, i - at + 8);
        Append(was, all, i - at, i - at + 8);
        i := i + 8;
      }
      var more := (word[i..len] + NUL)[..8];
      Tail(len - i, more);
      SliceSlice(word, at, len, i - at, len - at);
      assert more[..len - i] == word[i..len];
      Append(was, all, i - at, len - at);
      assert all[..len - at] == all;
    }

    // The low bits of a word: what the current byte has room for, whole bytes,
    // and the rest.
    method PutWord(len: nat, word: Bits)
      requires Valid() && len <= |word| <= 64 && Room(len)
      modifies this
      ensures Valid() && Contents() == old(Contents()) + word[..len]
      ensures bits == old(bits) + len && |bytes| == old(|bytes|) && prev == old(prev)
    {
      hide Prefix, Clear;
      var val := (word + NUL)[..8];
      if off == 0 {
        PutRest(0, len, word);
        assert word[0..len] == word[..len];
        return;
      }
      var rest := 8 - off;
      if len < rest {
        Part(len, val);
        assert val[..len] == word[..len];
        return;
      }
      Top(val);
      assert val[..rest] == word[..rest];
      PutRest(rest, len, word);
      assert word[..rest] + word[rest..len] == word[..len];
    }

    /** The low `count` bits of a 32- or 64-bit word. */
    method WriteWord(count: nat, word: Bits)
      requires Valid() && |word| <= 64
      modifies this
      ensures Valid() && Contents() == old(Contents()) + word[..if count > |word| then |word| else count]
    {
      var len := if count > |word| then |word| else count;
      Reserve(len);
      PutWord(len, word);
    }

    // The first `len` bits of a byte string, from a byte boundary.
    method PutAligned(len: nat, src: seq<Byte>)
      requires Valid() && off == 0 && len <= 8 * |src| && Room(len)
      modifies this
      ensures Valid() && Contents() == old(Contents()) + Flat(src)[..len]
      ensures bits == old(bits) + len && |bytes| == old(|bytes|) && prev == old(prev)
    {
      hide Flat, Prefix, Clear;
      ghost var was, all := Contents(), Flat(src);
      var n, i := len / 8, 0;
      assert was + all[..0] == was;
      while i < n
        invariant Valid() && off == 0 && i <= n && |bytes| == old(|bytes|) && prev == old(prev)
        invariant Contents() == was + all[..8 * i] && bits == old(bits) + 8 * i
      {
        RoomLeft(old(bits), fill, 8 * i, len, |bytes|);
        Whole(src[i]);
        FlatWhole(src, i, 8);
        Append(was, all, 8 * i, 8 * i + 8);
        i := i + 1;
      }
      if len % 8 > 0 {
        Tail(len % 8, src[n]);
        FlatWhole(src, n, len % 8);
      }
      Append(was, all, 8 * n, len);
    }

    // The same from inside a byte; `beyond` is whatever follows the string,
    // which is read when the last output byte takes all of the last source byte.
    method PutShifted(len: nat, src: seq<Byte>, beyond: Byte)
      requires Valid() && off > 0 && len <= 8 * |src| && Room(len)
      requires len > 8 - off
      modifies this
      ensures Valid() && Contents() == old(Contents()) + Flat(src)[..len]
      ensures bits == old(bits) + len && |bytes| == old(|bytes|) && prev == old(prev)
    {
      hide Flat, Prefix, Clear, Xor, Shl, Shr;
      ghost var was, all := Contents(), Flat(src);
      var rest := 8 - off;
      var nel := len - rest;
      var n, more := nel / 8, nel % 8;
      Top(src[0]);
      FlatWhole(src, 0, rest);
      PutPairs(n, rest, src);
      Append(was, all, rest, rest + 8 * n);
      PutRemnant(n, rest, more, src, beyond);
      Append(was, all, rest + 8 * n, len);
    }

    // Fewer than eight bits from byte `n` and the one after it.
    method PutRemnant(n: nat, rest: nat, more: nat, src: seq<Byte>, beyond: Byte)
      requires Valid() && off == 0 && 0 < rest < 8 && more < 8 && n < |src| && 8 * n + rest + more <= 8 * |src|
      modifies this
      ensures Valid() && Contents() == old(Contents()) + Flat(src)[8 * n + rest..8 * n + rest + more]
      ensures bits == old(bits) + more && |bytes| == old(|bytes|) && prev == old(prev)
    {
      hide Flat, Prefix, Clear, Xor, Shl, Shr;
      var skew := 8 - rest;
      var high := if skew > more then NUL else if n + 1 < |src| then src[n + 1] else beyond;
      FlatStraddle(src, n, rest, more, src[n], high);
      Tail(more, Xor(Shr(src[n], rest), Shl(high, skew)));
    }

    // `n` bytes, each from two neighbours in the string.
    method PutPairs(n: nat, rest: nat, src: seq<Byte>)
      requires Valid() && off == 0 && 0 < rest < 8 && rest + 8 * n <= 8 * |src| && Room(8 * n)
      modifies this
      ensures Valid() && off == 0 && Contents() == old(Contents()) + Flat(src)[rest..rest + 8 * n]
      ensures bits == old(bits) + 8 * n && |bytes| == old(|bytes|) && prev == old(prev)
    {
      hide Flat, Prefix, Clear, Xor, Shl, Shr;
      ghost var was, all := Contents(), Flat(src)[rest..rest + 8 * n];
      var i := 0;
      assert was + all[..0] == was;
      while i < n
        invariant Valid() && off == 0 && i <= n && |bytes| == old(|bytes|) && prev == old(prev)
        invariant Contents() == was + all[..8 * i] && bits == old(bits) + 8 * i
      {
        RoomLeft(old(bits), fill, 8 * i, 8 * n, |bytes|);
        var val := Xor(Shr(src[i], rest), Shl(src[i + 1], 8 - rest));
        FlatStraddle(src, i, rest, 8, src[i], src[i + 1]);
        assert val[..8] == val;
        Whole(val);
        SliceSlice(Flat(src), rest, rest + 8 * n, 8 * i, 8 * i + 8);
        Append(was, all, 8 * i, 8 * i + 8);
        i := i + 1;
      }
      assert all[..8 * n] == all;
    }

    // The first `len` bits of a byte string.
    method PutBytes(len: nat, src: seq<Byte>, beyond: Byte)
      requires Valid() && len <= 8 * |src| && Room(len) && |src| > 0
      modifies this
      ensures Valid() && Contents() == old(Contents()) + Flat(src)[..len]
      ensures bits == old(bits) + len && |bytes| == old(|bytes|) && prev == old(prev)
    {
      if off == 0 {
        PutAligned(len, src);
      } else if 8 - off >= len {
        FlatStraddle(src, 0, 0, len, src[0], NUL);
        assert Xor(Shr(src[0], 0), Shl(NUL, 8)) == src[0];
        if off + len == 8 { Top(src[0]); } else { Part(len, src[0]); }
      } else {
        PutShifted(len, src, beyond);
      }
    }

    /** The first `len` bits of a byte string, whatever lies beyond it. */
    method WriteBytes(len: nat, src: seq<Byte>, beyond: Byte)
      requires Valid() && len <= 8 * |src| && |src| > 0
      modifies this
      ensures Valid() && Contents() == old(Contents()) + Flat(src)[..len]
    {
      Reserve(len);
      PutBytes(len, src, beyond);
    }

    // `n` zeros and a one: the bits past the cursor are zero already.
    method PutBex(n: nat)
      requires Valid() && Room(n + 1)
      modifies this
      ensures Valid() && Contents() == old(Contents()) + (Zeros(n) + [true])
      ensures bits == old(bits) + n + 1 && |bytes| == old(|bytes|) && prev == old(prev)
    {
      SkipZeros(bytes, bits, n);
      fill, off := fill + (n + off) / 8, (n + off) % 8;
      bits := bits + n;
      PutBit(true);
    }

    /** `n` zeros and a one. */
    method WriteBex(n: nat)
      requires Valid()
      modifies this
      ensures Valid() && Contents() == old(Contents()) + (Zeros(n) + [true])
    {
      Reserve(n + 1);
      PutBex(n);
    }

    // The run length in front of `len` bits.
    method PutRun(len: nat)
      requires Valid() && 0 < len && Met(len) <= 64 && Room(2 * Met(len))
      modifies this
      ensures Valid() && Contents() == old(Contents()) + Run(len)
      ensures bits == old(bits) + |Run(len)| && |bytes| == old(|bytes|) && prev == old(prev)
    {
      hide Prefix, Clear, Zeros, Met, Low;
      var nel := Met(len);
      MetSmall(len);
      PutBex(nel);
      LowLow(len, 64, nel - 1);
      PutWord(nel - 1, Low(len, 64));
    }

    // A length-prefixed number below 2^64.
    method PutMat64(len: nat, val: nat)
      requires Valid() && len <= 64 && Room(MatLen(len))
      modifies this
      ensures Valid() && Contents() == old(Contents()) + MatOf(len, Low(val, len))
      ensures bits == old(bits) + MatLen(len) && |bytes| == old(|bytes|) && prev == old(prev)
    {
      hide Prefix, Clear, Met, Low, Run;
      if len == 0 {
        PutBit(true);
      } else {
        LenSmall(len);
        PutRun(len);
        LowLow(val, 64, len);
        PutWord(len, Low(val, 64));
      }
    }

    // A length-prefixed byte string.
    method PutMatBytes(len: nat, src: seq<Byte>, beyond: Byte)
      requires Valid() && len <= 8 * |src| && Met(len) <= 64 && Room(MatLen(len))
      modifies this
      ensures Valid() && Contents() == old(Contents()) + MatOf(len, Flat(src)[..len])
      ensures bits == old(bits) + MatLen(len) && |bytes| == old(|bytes|) && prev == old(prev)
    {
      hide Prefix, Clear, Met, Low, Run, Flat;
      if len == 0 {
        PutBit(true);
      } else {
        RunSize(len);
        PutRun(len);
        PutBytes(len, src, beyond);
      }
    }

    /** An atom of at most 64 bits. */
    method WriteAtom64(len: nat, val: nat)
      requires Valid() && len <= 64
      modifies this
      ensures Valid() && Contents() == old(Contents()) + ([false] + MatOf(len, Low(val, len)))
    {
      hide Prefix, Clear, Met, Low, MatOf;
      Reserve(1 + MatLen(len));
      PutBit(false);
      PutMat64(len, val);
    }

    /** A back-reference. */
    method WriteBack64(len: nat, val: nat)
      requires Valid() && len <= 64
      modifies this
      ensures Valid() && Contents() == old(Contents()) + ([true, true] + MatOf(len, Low(val, len)))
    {
      hide Prefix, Clear, Met, Low, MatOf;
      Reserve(2 + MatLen(len));
      Put8(2, BACK);
      assert BACK[..2] == [true, true];
      PutMat64(len, val);
    }

    /** An atom as a byte string. */
    method WriteAtomBytes(len: nat, src: seq<Byte>, beyond: Byte)
      requires Valid() && len <= 8 * |src| && Met(len) <= 64
      modifies this
      ensures Valid() && Contents() == old(Contents()) + ([false] + MatOf(len, Flat(src)[..len]))
    {
      hide Prefix, Clear, Met, Low, MatOf, Flat;
      Reserve(1 + MatLen(len));
      PutBit(false);
      PutMatBytes(len, src, beyond);
    }

    /** A cell tag. */
    method WriteCell()
      requires Valid()
      modifies this
      ensures Valid() && Contents() == old(Contents()) + CELL
    {
      hide Prefix, Clear;
      Reserve(2);
      Put8(2, ONE);
      assert ONE[..2] == CELL;
    }

    /** The finished buffer: whole bytes, the last one padded with zeros. */
    method Done() returns (out: seq<Byte>)
      requires Valid()
      ensures Flat(out) == Pad(Contents())
    {
      out := bytes[..fill + if off > 0 then 1 else 0];
      forall i | 0 <= i < 8 * |out| ensures Flat(out)[i] == At(bytes, i) {
        AtByte(bytes, i / 8, i % 8);
      }
      assert |Pad(Contents())| == 8 * |out|;
    }
  }

  const ONE: Byte := [true] + NUL[1..]
  const BACK: Byte := [true, true] + NUL[2..]

  lemma SkipZeros(bytes: seq<Byte>, n: nat, more: nat)
    requires Clear(bytes, n)
    ensures Clear(bytes, n + more) && Prefix(bytes, n + more) == Prefix(bytes, n) + Zeros(more)
  {
  }

  // The whole length of a length-prefixed body.
  function MatLen(len: nat): nat {
    if len == 0 then 1 else len + 2 * Met(len)
  }

  lemma LenSmall(len: nat)
    requires 0 < len <= 64
    ensures Met(len) <= 7 && |Run(len)| == 2 * Met(len)
  {
    assert Pow2(7) == 128 by { assert Pow2(3) == 8; }
    MetBound(len, 7);
  }

  lemma {:induction false} LowLow(val: nat, n: nat, k: nat)
    requires k <= n
    ensures Low(val, n)[..k] == Low(val, k)
    decreases n
  {
    if k > 0 {
      LowLow(val / 2, n - 1, k - 1);
      assert Low(val, n)[..k] == [val % 2 == 1] + Low(val / 2, n - 1)[..k - 1];
    }
  }
}
