/** The Nock 4K specification, one reduction rule per case, with a bound on the
    depth of nested reductions.  `None` means "no value within this bound". */
module Nock4K {
  import opened Nouns
  import opened Formulas

  // The value of formula `f` on subject `a`.
  function Star(a: Noun, f: Noun, fuel: nat): Option<Noun>
    decreases fuel
  {
    if fuel == 0 then None else
    var k := fuel - 1;
    match View(f)
    // a formula that is a pair of formulas makes a pair
    case Pair(bc, d) =>
      var x, y := Star(a, bc, k), Star(a, d, k);
      if x.Some? && y.Some? then Some(Cell(x.value, y.value)) else None
    // 0: part of the subject
    case Op0(b) => if b.Atom? then Slot(b.val, a) else None
    // 1: a constant
    case Op1(b) => Some(b)
    // 2: a computed formula on a computed subject
    case Op2(b, c) =>
      var x, y := Star(a, b, k), Star(a, c, k);
      if x.Some? && y.Some? then Star(x.value, y.value, k) else None
    // 3: is it a cell
    case Op3(b) =>
      var x := Star(a, b, k);
      if x.Some? then Some(Loob(x.value.Cell?)) else None
    // 4: increment
    case Op4(b) =>
      var x := Star(a, b, k);
      if x.Some? && x.value.Atom? then Some(Atom(x.value.val + 1)) else None
    // 5: equality
    case Op5(b, c) =>
      var x, y := Star(a, b, k), Star(a, c, k);
      if x.Some? && y.Some? then Some(Loob(x.value == y.value)) else None
    // 6: branch, by two increments and two lookups as the rule has it
    case Op6(b, c, d) =>
      var x := Star(a, Cell(Atom(4), Cell(Atom(4), b)), k);
      if x.None? then None else
      var y := Star(Cell(Atom(2), Atom(3)), Cell(Atom(0), x.value), k);
      if y.None? then None else
      var z := Star(Cell(c, d), Cell(Atom(0), y.value), k);
      if z.None? then None else Star(a, z.value, k)
    // 7: one after the other
    case Op7(b, c) =>
      var x := Star(a, b, k);
      if x.Some? then Star(x.value, c, k) else None
    // 8: with a value pushed on the subject
    case Op8(b, c) =>
      var x := Star(a, b, k);
      if x.Some? then Star(Cell(x.value, a), c, k) else None
    // 9: run an arm of a core
    case Op9(b, c) =>
      var x := Star(a, c, k);
      if x.Some? then Star(x.value, Pull(b), k) else None
    // 10: replace part of a noun
    case Op10(b, c, d) =>
      var x, y := Star(a, c, k), Star(a, d, k);
      if x.Some? && y.Some? && b.Atom? then Hax(b.val, x.value, y.value) else None
    // 11: a hint with a clue, which is computed and dropped
    case Hint(_, c, d) =>
      var x, y := Star(a, c, k), Star(a, d, k);
      if x.Some? && y.Some?
      then Star(Cell(x.value, y.value), Cell(Atom(0), Atom(3)), k) else None
    // 11: a bare hint
    case Mark(_, c) => Star(a, c, k)
    // scrying and everything else have no rule
    case Op12(_, _) => None
    case Junk => None
  }

  // The formula that runs the arm at axis b of its subject.
  function Pull(b: Noun): Noun {
    Cell(Atom(2), Cell(Cell(Atom(0), Atom(1)), Cell(Atom(0), b)))
  }

  // Nock 4K gives `v` for formula `f` on subject `a`.
  ghost predicate Gives(a: Noun, f: Noun, v: Noun) {
    exists fuel: nat :: Star(a, f, fuel) == Some(v)
  }

  // A larger bound never changes a value.
  lemma {:induction false} StarMono(a: Noun, f: Noun, k: nat, j: nat)
    requires Star(a, f, k).Some? && k <= j
    ensures Star(a, f, j) == Star(a, f, k)
    decreases k
  {
    hide View, Slot, Hax;
    var m, n := k - 1, j - 1;
    match View(f)
    case Pair(b, c) => StarMono(a, b, m, n); StarMono(a, c, m, n);
    case Op2(b, c) =>
      StarMono(a, b, m, n); StarMono(a, c, m, n);
      StarMono(Star(a, b, m).value, Star(a, c, m).value, m, n);
    case Op3(b) => StarMono(a, b, m, n);
    case Op4(b) => StarMono(a, b, m, n);
    case Op5(b, c) => StarMono(a, b, m, n); StarMono(a, c, m, n);
    case Op6(b, c, d) => StarMono6(a, f, k, j);
    case Op7(b, c) =>
      StarMono(a, b, m, n);
      StarMono(Star(a, b, m).value, c, m, n);
    case Op8(b, c) =>
      StarMono(a, b, m, n);
      StarMono(Cell(Star(a, b, m).value, a), c, m, n);
    case Op9(b, c) =>
      StarMono(a, c, m, n);
      StarMono(Star(a, c, m).value, Pull(b), m, n);
    case Op10(_, c, d) => StarMono(a, c, m, n); StarMono(a, d, m, n);
    case Hint(_, c, d) =>
      StarMono(a, c, m, n); StarMono(a, d, m, n);
      StarMono(Cell(Star(a, c, m).value, Star(a, d, m).value), Cell(Atom(0), Atom(3)), m, n);
    case Mark(_, c) => StarMono(a, c, m, n);
    case _ =>
  }

  lemma {:induction false} StarMono6(a: Noun, f: Noun, k: nat, j: nat)
    requires Star(a, f, k).Some? && k <= j && View(f).Op6?
    ensures Star(a, f, j) == Star(a, f, k)
    decreases k, 0
  {
    hide View, Slot, Hax;
    var m, n, v := k - 1, j - 1, View(f);
    var g := Cell(Atom(4), Cell(Atom(4), v.b));
    StarMono(a, g, m, n);
    var x := Star(a, g, m).value;
    StarMono(Cell(Atom(2), Atom(3)), Cell(Atom(0), x), m, n);
    var y := Star(Cell(Atom(2), Atom(3)), Cell(Atom(0), x), m).value;
    StarMono(Cell(v.c, v.d), Cell(Atom(0), y), m, n);
    StarMono(a, Star(Cell(v.c, v.d), Cell(Atom(0), y), m).value, m, n);
  }

  // Nock 4K is deterministic.
  lemma GivesUnique(a: Noun, f: Noun, v: Noun, w: Noun)
    requires Gives(a, f, v) && Gives(a, f, w)
    ensures v == w
  {
    hide Star;
    var j: nat :| Star(a, f, j) == Some(v);
    var k: nat :| Star(a, f, k) == Some(w);
    StarMono(a, f, j, j + k);
    StarMono(a, f, k, j + k);
  }
}
