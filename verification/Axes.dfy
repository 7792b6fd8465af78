/** Fragments as the runtime finds them: the bits of an axis below its highest,
    word by word, highest first. */
module Axes {
  import opened Nouns
  import opened JamCue
  import opened Heap

  // A direct atom, an indirect one by its words, or no atom at all.
  datatype Axis = Cat(v: nat) | Pug(ws: seq<Word>) | Pom

  // Direct atoms have 31 bits; the last word of an indirect one is not zero.
  predicate Normal(a: Axis) {
    match a
    case Cat(v) => v < PUG
    case Pug(ws) => ws != [] && ws[|ws| - 1] != 0
    case Pom => true
  }

  lemma {:induction false} HalfNext(v: nat, n: nat)
    ensures Half(v, n + 1) == Half(v, n) / 2
    decreases n
  {
    if n > 0 { HalfNext(v / 2, n - 1); }
  }

  lemma {:induction false} HalfTop(v: nat)
    requires v > 0
    ensures Met(v) > 0 && Half(v, Met(v) - 1) == 1
  {
    if v > 1 { HalfTop(v / 2); }
  }

  lemma {:induction false} HalfHigh(up: nat, v: nat, n: nat, k: nat)
    requires k <= n && v < Pow2(n)
    ensures Half(up * Pow2(n) + v, k) == up * Pow2(n - k) + Half(v, k)
    decreases k
  {
    if k > 0 {
      assert Pow2(n) == 2 * Pow2(n - 1);
      HalfOnce(up * Pow2(n) + v, k);
      HalfOnce(v, k);
      hide Pow2, Half;
      Twice(up, Pow2(n - 1), v);
      HalfHigh(up, v / 2, n - 1, k - 1);
    }
  }

  lemma HalfOnce(v: nat, k: nat)
    requires k > 0
    ensures Half(v, k) == Half(v / 2, k - 1)
  {
  }

  lemma Twice(up: nat, p: nat, v: nat)
    ensures (up * (2 * p) + v) / 2 == up * p + v / 2
  {
    var w := up * p;
    assert up * (2 * p) == 2 * w && (2 * w + v) / 2 == w + v / 2;
  }

  lemma Even(up: nat, p: nat, v: nat)
    ensures (up * (2 * p) + v) % 2 == v % 2
  {
    var w := up * p;
    assert up * (2 * p) == 2 * w && (2 * w + v) % 2 == v % 2;
  }

  // A bit of the low word is that bit of the axis.
  lemma LowBit(up: nat, v: nat, n: nat, k: nat)
    requires k < n && v < Pow2(n)
    ensures Half(up * Pow2(n) + v, k) % 2 == Half(v, k) % 2
  {
    HalfHigh(up, v, n, k);
    Even(up, Pow2(n - k - 1), Half(v, k));
  }

  lemma {:induction false} HalfAll(v: nat, n: nat)
    requires v < Pow2(n)
    ensures Half(v, n) == 0
    decreases n
  {
    if n > 0 { HalfAll(v / 2, n - 1); }
  }

  lemma WordBits(w: Word)
    ensures w < Pow2(32) && Pow2(32) == 0x1_0000_0000
  {
    assert Pow2(4) == 16;
    hide Pow2;
    Pow2Sum(4, 4);
    Pow2Sum(8, 8);
    Pow2Sum(16, 16);
  }

  // Nothing is below an atom, or below nothing.
  lemma {:induction false} Blocked(x: nat, k: nat, n: Noun)
    requires k > 0 && Half(x, k) > 0 && (Slot(Half(x, k), n).None? || Slot(Half(x, k), n).value.Atom?)
    ensures Slot(x, n) == None
    decreases k
  {
    HalfPos(x / 2, k - 1);
    if k > 1 { Blocked(x / 2, k - 1, n); }
  }

  lemma {:induction false} HalfPos(v: nat, n: nat)
    requires Half(v, n) > 0
    ensures v > 0
    decreases n
  {
    if n > 0 { HalfPos(v / 2, n - 1); }
  }

  // One bit further down.
  lemma SlotBit(x: nat, k: nat, n: Noun)
    requires k > 0 && Half(x, k) > 0 && Slot(Half(x, k), n).Some? && Slot(Half(x, k), n).value.Cell?
    ensures var up := Slot(Half(x, k), n).value;
            Slot(Half(x, k - 1), n) == Some(if Half(x, k - 1) % 2 == 0 then up.head else up.tail) && Half(x, k - 1) > 0
  {
    HalfNext(x, k - 1);
  }

  // The top word of an axis.
  method FragWord(a: nat, b: Noun) returns (r: Option<Noun>)
    requires a > 0
    ensures r == Slot(a, b)
  {
    hide Slot, Half, Met;
    HalfTop(a);
    var dep := Met(a) - 1;
    SlotOne(b);
    var n := b;
    while dep > 0
      invariant dep >= 0 && Slot(Half(a, dep), b) == Some(n) && Half(a, dep) > 0
    {
      if n.Atom? {
        Blocked(a, dep, b);
        return None;
      }
      SlotBit(a, dep, b);
      n := if Half(a, dep - 1) % 2 == 0 then n.head else n.tail;
      dep := dep - 1;
    }
    HalfNone(a);
    r := Some(n);
  }

  lemma SlotOne(b: Noun)
    ensures Slot(1, b) == Some(b)
  {
  }

  lemma HalfNone(a: nat)
    ensures Half(a, 0) == a
  {
  }

  // A word further down.
  method FragDeep(a: Word, b: Noun, ghost up: nat, ghost all: Noun) returns (r: Option<Noun>)
    requires up > 0 && Slot(up, all) == Some(b)
    ensures r == Slot(up * 0x1_0000_0000 + a, all)
  {
    hide Slot, Half, Pow2;
    ghost var x := up * Pow2(32) + a;
    WordBits(a);
    HalfHigh(up, a, 32, 32);
    HalfAll(a, 32);
    PowNone();
    var dep := 32;
    var n := b;
    while dep > 0
      invariant 0 <= dep <= 32 && Slot(Half(x, dep), all) == Some(n) && Half(x, dep) > 0
    {
      if n.Atom? {
        Blocked(x, dep, all);
        return None;
      }
      SlotBit(x, dep, all);
      LowBit(up, a, 32, dep - 1);
      n := if Half(a, dep - 1) % 2 == 0 then n.head else n.tail;
      dep := dep - 1;
    }
    HalfNone(x);
    r := Some(n);
  }

  lemma PowNone()
    ensures Pow2(0) == 1
  {
  }

  // Words put together, most significant first.
  lemma {:induction false} ValueSplit(ws: seq<Word>, i: nat)
    requires i < |ws|
    ensures Value(ws[i..]) == ws[i] + 0x1_0000_0000 * Value(ws[i + 1..])
  {
    assert ws[i..][1..] == ws[i + 1..];
  }

  lemma {:induction false} ValueTop(ws: seq<Word>)
    requires ws != [] && ws[|ws| - 1] != 0
    ensures forall i :: 0 <= i < |ws| ==> Value(ws[i..]) > 0
    ensures Value(ws[|ws| - 1..]) == ws[|ws| - 1]
  {
    var n := |ws| - 1;
    ValueSplit(ws, n);
    assert ws[n + 1..] == [];
    var i := n;
    while i > 0
      invariant 0 <= i <= n && forall j :: i <= j < |ws| ==> Value(ws[j..]) > 0
    {
      i := i - 1;
      ValueSplit(ws, i);
    }
  }

  function AxisOf(a: Axis): nat { match a case Cat(v) => v case Pug(ws) => Value(ws) case Pom => 0 }

  // Blocked a word up, blocked altogether.
  lemma WordBlocked(up: nat, w: Word, n: Noun)
    requires up > 0 && Slot(up, n) == None
    ensures Slot(up * 0x1_0000_0000 + w, n) == None
  {
    hide Slot, Pow2, Half;
    WordBits(w);
    HalfHigh(up, w, 32, 32);
    HalfAll(w, 32);
    PowNone();
    Blocked(up * Pow2(32) + w, 32, n);
  }

  lemma {:induction false} AllBlocked(ws: seq<Word>, i: nat, n: Noun)
    requires i < |ws| && ws[|ws| - 1] != 0 && Slot(Value(ws[i..]), n) == None
    ensures Slot(Value(ws), n) == None
  {
    hide Slot;
    if i == 0 {
      assert ws[0..] == ws;
    } else {
      ValueTop(ws);
      ValueSplit(ws, i - 1);
      WordBlocked(Value(ws[i..]), ws[i - 1], n);
      AllBlocked(ws, i - 1, n);
    }
  }

  /** The part of a noun at an axis, for direct and indirect axes; nothing for
      zero and for what is no atom. */
  method At(a: Axis, b: Noun) returns (r: Option<Noun>)
    requires Normal(a)
    ensures r == Slot(AxisOf(a), b)
  {
    hide Slot, Value;
    SlotZero(b);
    if a == Cat(0) || a.Pom? { return None; }
    if a.Cat? {
      r := FragWord(a.v, b);
      return;
    }
    var len := |a.ws| - 1;
    ValueTop(a.ws);
    r := FragWord(a.ws[len], b);
    while r.Some? && len > 0
      invariant len < |a.ws| && r == Slot(Value(a.ws[len..]), b)
    {
      ValueSplit(a.ws, len - 1);
      r := FragDeep(a.ws[len - 1], r.value, Value(a.ws[len..]), b);
      len := len - 1;
    }
    if r.None? { AllBlocked(a.ws, len, b); } else { assert a.ws[0..] == a.ws; }
  }

  lemma SlotZero(b: Noun)
    ensures Slot(0, b) == None
  {
  }
}
