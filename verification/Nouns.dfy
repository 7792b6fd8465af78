/** Nouns and tree addressing, as Nock 4K defines them, together with the
    top-down traversals that the runtime uses instead. */
module Nouns {

  datatype Option<+T> = None | Some(value: T)

  datatype Noun = Atom(val: nat) | Cell(head: Noun, tail: Noun)

  function Size(n: Noun): nat {
    match n
    case Atom(_) => 1
    case Cell(h, t) => 1 + Size(h) + Size(t)
  }

  const YES := Atom(0)
  const NO := Atom(1)

  function Loob(b: bool): Noun {
    if b then YES else NO
  }

  // The `/` operator of Nock 4K: the last step of the path is the low bit.
  function Slot(axis: nat, n: Noun): Option<Noun> {
    if axis == 0 then None
    else if axis == 1 then Some(n)
    else
      var up := Slot(axis / 2, n);
      if up.None? || up.value.Atom? then None
      else if axis % 2 == 0 then Some(up.value.head) else Some(up.value.tail)
  }

  // The `#` operator of Nock 4K, replacing one address bottom-up.
  function Hax(axis: nat, som: Noun, n: Noun): Option<Noun> {
    if axis == 0 then None
    else if axis == 1 then Some(som)
    else
      var other := Slot(if axis % 2 == 0 then axis + 1 else axis - 1, n);
      if other.None? then None
      else if axis % 2 == 0 then Hax(axis / 2, Cell(som, other.value), n)
      else Hax(axis / 2, Cell(other.value, som), n)
  }

  // First step of an axis, 2 for the head and 3 for the tail.
  function Cap(axis: nat): (r: nat)
    requires axis >= 2
    ensures r == 2 || r == 3
  {
    if axis < 4 then axis else Cap(axis / 2)
  }

  // The rest of an axis after its first step.
  function Mas(axis: nat): (r: nat)
    requires axis >= 2
    ensures 1 <= r < axis
  {
    if axis < 4 then 1 else 2 * Mas(axis / 2) + axis % 2
  }

  // Top-down fragment: one step per bit of the axis, highest first.
  function Frag(axis: nat, n: Noun): Option<Noun>
    decreases axis
  {
    if axis == 0 then None
    else if axis == 1 then Some(n)
    else if n.Atom? then None
    else Frag(Mas(axis), if Cap(axis) == 2 then n.head else n.tail)
  }

  // Top-down edit.
  function Edit(big: Noun, axis: nat, som: Noun): Option<Noun>
    decreases axis
  {
    if axis == 0 then None
    else if axis == 1 then Some(som)
    else if big.Atom? then None
    else if Cap(axis) == 2 then
      var h := Edit(big.head, Mas(axis), som);
      if h.None? then None else Some(Cell(h.value, big.tail))
    else
      var t := Edit(big.tail, Mas(axis), som);
      if t.None? then None else Some(Cell(big.head, t.value))
  }

  lemma {:induction false} MasHalf(axis: nat)
    requires axis >= 4
    ensures Cap(axis / 2) == Cap(axis)
    ensures Mas(axis) / 2 == Mas(axis / 2) && Mas(axis) % 2 == axis % 2
  {
    var m := Mas(axis / 2);
    assert (2 * m + axis % 2) / 2 == m;
  }

  // Taking the first step of an axis before the rest agrees with `/`.
  lemma {:induction false} SlotTopDown(axis: nat, n: Noun)
    requires axis >= 2
    ensures Slot(axis, n) ==
            if n.Atom? then None
            else Slot(Mas(axis), if Cap(axis) == 2 then n.head else n.tail)
  {
    if axis < 4 {
      assert Slot(1, n) == Some(n);
    } else {
      MasHalf(axis);
      SlotTopDown(axis / 2, n);
    }
  }

  // The runtime's traversal computes `/`.
  lemma {:induction false} FragIsSlot(axis: nat, n: Noun)
    ensures Frag(axis, n) == Slot(axis, n)
    decreases axis
  {
    if axis >= 2 {
      SlotTopDown(axis, n);
      if n.Cell? {
        FragIsSlot(Mas(axis), if Cap(axis) == 2 then n.head else n.tail);
      }
    }
  }

  // A cell with one side replaced, if there is something to put there.
  function Graft(n: Noun, left: bool, side: Option<Noun>): Option<Noun>
    requires n.Cell?
  {
    if side.None? then None else if left then Some(Cell(side.value, n.tail)) else Some(Cell(n.head, side.value))
  }

  // Replacing through a two-step axis is replacing in the child first.
  lemma {:induction false} HaxTopDown(axis: nat, som: Noun, n: Noun)
    requires axis >= 2
    ensures Hax(axis, som, n) ==
            if n.Atom? then None
            else Graft(n, Cap(axis) == 2, Hax(Mas(axis), som, if Cap(axis) == 2 then n.head else n.tail))
  {
    var sib := if axis % 2 == 0 then axis + 1 else axis - 1;
    SlotTopDown(sib, n);
    if axis < 4 {
      assert Slot(1, n) == Some(n);
    } else {
      SiblingDown(axis, sib);
      hide Slot, Cap, Mas;
      var other := Slot(sib, n);
      if other.Some? {
        HaxTopDown(axis / 2, if axis % 2 == 0 then Cell(som, other.value) else Cell(other.value, som), n);
      }
    }
  }

  // One step down, siblings are still siblings.
  lemma SiblingDown(axis: nat, sib: nat)
    requires axis >= 4 && sib == if axis % 2 == 0 then axis + 1 else axis - 1
    ensures Cap(axis) == Cap(sib) == Cap(axis / 2) && (Cap(axis) == 2 || Cap(axis) == 3) && Mas(axis) >= 2
    ensures Mas(axis) / 2 == Mas(axis / 2) && Mas(axis) % 2 == axis % 2
    ensures Mas(sib) == if Mas(axis) % 2 == 0 then Mas(axis) + 1 else Mas(axis) - 1
  {
    MasHalf(axis);
    MasHalf(sib);
    assert sib / 2 == axis / 2;
  }

  // The runtime's recursive edit computes `#`.
  lemma {:induction false} EditIsHax(big: Noun, axis: nat, som: Noun)
    ensures Edit(big, axis, som) == Hax(axis, som, big)
    decreases axis
  {
    if axis >= 2 {
      HaxTopDown(axis, som, big);
      if big.Cell? {
        EditIsHax(if Cap(axis) == 2 then big.head else big.tail, Mas(axis), som);
      }
    }
  }

  // An edit can be read back at its own axis.
  lemma {:induction false} EditThenFrag(big: Noun, axis: nat, som: Noun)
    ensures var r := Edit(big, axis, som);
            r.Some? ==> Frag(axis, r.value) == Some(som)
    decreases axis
  {
    if axis >= 2 && big.Cell? {
      EditThenFrag(if Cap(axis) == 2 then big.head else big.tail, Mas(axis), som);
    }
  }

  // A noun can be edited at exactly the addresses that exist in it.
  lemma {:induction false} EditDefined(big: Noun, axis: nat, som: Noun)
    ensures Edit(big, axis, som).Some? <==> Frag(axis, big).Some?
    decreases axis
  {
    if axis >= 2 && big.Cell? {
      EditDefined(if Cap(axis) == 2 then big.head else big.tail, Mas(axis), som);
    }
  }
}
