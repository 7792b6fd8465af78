/** Nock 4K on literal nouns: one law for each line of the specification, and
    that there are no others. */
module Rules {
  import opened Nouns
  import opened Formulas
  import opened Nock4K

  // [n p]
  function Op(n: nat, p: Noun): Noun { Cell(Atom(n), p) }

  // ---- the operators ----

  lemma SlotLaw(a: nat, b: Noun, c: Noun, n: nat)
    requires a > 0
    ensures Slot(1, b) == Some(b) && Slot(2, Cell(b, c)) == Some(b) && Slot(3, Cell(b, c)) == Some(c)
    ensures var up := Slot(a, b); Slot(a + a, b) == (if up.Some? then Slot(2, up.value) else None)
    ensures var up := Slot(a, b); Slot(a + a + 1, b) == (if up.Some? then Slot(3, up.value) else None)
    ensures Slot(0, b) == None && Slot(2, Atom(n)) == Slot(3, Atom(n)) == None
  {
    Halves(a);
    assert Slot(1, Cell(b, c)) == Some(Cell(b, c)) && Slot(1, Atom(n)) == Some(Atom(n));
    assert Slot(a, b).Some? ==> Slot(1, Slot(a, b).value) == Slot(a, b);
  }

  lemma Halves(a: nat)
    ensures (a + a) / 2 == a && (a + a) % 2 == 0 && (a + a + 1) / 2 == a && (a + a + 1) % 2 == 1
  {
  }

  lemma HaxLaw(a: nat, b: Noun, c: Noun)
    requires a > 0
    ensures Hax(1, b, c) == Some(b) && Hax(0, b, c) == None
    ensures var w := Slot(a + a + 1, c); Hax(a + a, b, c) == (if w.Some? then Hax(a, Cell(b, w.value), c) else None)
    ensures var w := Slot(a + a, c); Hax(a + a + 1, b, c) == (if w.Some? then Hax(a, Cell(w.value, b), c) else None)
  {
    hide Slot;
    Halves(a);
  }

  // ---- depths ----

  // A depth that will do for two values.
  lemma Deep(a: Noun, f: Noun, x: Noun, b: Noun, g: Noun, y: Noun) returns (k: nat)
    requires Gives(a, f, x) && Gives(b, g, y)
    ensures forall m: nat :: m >= k ==> Star(a, f, m) == Some(x) && Star(b, g, m) == Some(y)
  {
    hide Star;
    var i: nat :| Star(a, f, i) == Some(x);
    var j: nat :| Star(b, g, j) == Some(y);
    k := i + j;
    forall m: nat | m >= k ensures Star(a, f, m) == Some(x) && Star(b, g, m) == Some(y) {
      StarMono(a, f, i, m);
      StarMono(b, g, j, m);
    }
  }

  lemma Found(a: Noun, f: Noun, k: nat)
    requires Star(a, f, k).Some?
    ensures Gives(a, f, Star(a, f, k).value)
  {
  }

  // One step of the formulas with the most parts.
  lemma Star2(a: Noun, f: Noun, b: Noun, c: Noun, k: nat)
    requires View(f) == Op2(b, c)
    ensures var x, y := Star(a, b, k), Star(a, c, k);
            Star(a, f, k + 1) == if x.Some? && y.Some? then Star(x.value, y.value, k) else None
  {
    hide View, Slot, Hax, Loob, Pull;
  }

  lemma Star10(a: Noun, f: Noun, b: Noun, c: Noun, d: Noun, k: nat)
    requires View(f) == Op10(b, c, d)
    ensures var x, y := Star(a, c, k), Star(a, d, k);
            Star(a, f, k + 1) == if x.Some? && y.Some? && b.Atom? then Hax(b.val, x.value, y.value) else None
  {
    hide View, Slot, Hax, Loob, Pull;
  }

  lemma Star11(a: Noun, f: Noun, b: Noun, c: Noun, d: Noun, k: nat)
    requires View(f) == Hint(b, c, d)
    ensures var x, y := Star(a, c, k), Star(a, d, k);
            Star(a, f, k + 1) == if x.Some? && y.Some? then Star(Cell(x.value, y.value), Op(0, Atom(3)), k) else None
  {
    hide View, Slot, Hax, Loob, Pull;
  }

  // ---- the rules ----

  lemma RulePair(a: Noun, b: Noun, c: Noun, d: Noun, v: Noun)
    ensures Gives(a, Cell(Cell(b, c), d), v)
       <==> exists x, y :: Gives(a, Cell(b, c), x) && Gives(a, d, y) && v == Cell(x, y)
  {
    var f := Cell(Cell(b, c), d);
    assert View(f) == Pair(Cell(b, c), d);
    hide View, Gives, Slot, Hax, Loob, Pull;
    if Gives(a, f, v) {
      var k := Deep(a, f, v, a, f, v);
      assert Star(a, f, k) == Some(v);
      Found(a, Cell(b, c), k - 1);
      Found(a, d, k - 1);
    }
    if x, y :| Gives(a, Cell(b, c), x) && Gives(a, d, y) && v == Cell(x, y) {
      var k := Deep(a, Cell(b, c), x, a, d, y);
      assert Star(a, Cell(b, c), k) == Some(x);
      Found(a, f, k + 1);
    }
  }

  lemma Rule0(a: Noun, b: Noun, v: Noun)
    ensures Gives(a, Op(0, b), v) <==> b.Atom? && Slot(b.val, a) == Some(v)
  {
    assert View(Op(0, b)) == Op0(b);
    hide View, Slot;
    if b.Atom? && Slot(b.val, a) == Some(v) { assert Star(a, Op(0, b), 1) == Some(v); }
  }

  lemma Rule1(a: Noun, b: Noun, v: Noun)
    ensures Gives(a, Op(1, b), v) <==> v == b
  {
    assert View(Op(1, b)) == Op1(b);
    hide View;
    assert Star(a, Op(1, b), 1) == Some(b);
  }

  lemma Rule2(a: Noun, b: Noun, c: Noun, v: Noun)
    ensures Gives(a, Op(2, Cell(b, c)), v) <==> exists x, y :: Gives(a, b, x) && Gives(a, c, y) && Gives(x, y, v)
  {
    var f := Op(2, Cell(b, c));
    assert View(f) == Op2(b, c);
    hide View, Gives, Star;
    if Gives(a, f, v) {
      var k := Deep(a, f, v, a, f, v);
      assert Star(a, f, k + 1) == Some(v);
      Star2(a, f, b, c, k);
      Found(a, b, k);
      Found(a, c, k);
      Found(Star(a, b, k).value, Star(a, c, k).value, k);
    }
    if x, y :| Gives(a, b, x) && Gives(a, c, y) && Gives(x, y, v) {
      var j := Deep(a, b, x, a, c, y);
      var k := Deep(x, y, v, x, y, v);
      assert Star(a, b, j + k) == Some(x) && Star(a, c, j + k) == Some(y) && Star(x, y, j + k) == Some(v);
      Star2(a, f, b, c, j + k);
      Found(a, f, j + k + 1);
    }
  }

  lemma Rule3(a: Noun, b: Noun, v: Noun)
    ensures Gives(a, Op(3, b), v) <==> exists x :: Gives(a, b, x) && v == Atom(if x.Cell? then 0 else 1)
  {
    var f := Op(3, b);
    assert View(f) == Op3(b);
    hide View, Gives, Slot, Hax, Pull;
    if Gives(a, f, v) {
      var k := Deep(a, f, v, a, f, v);
      assert Star(a, f, k) == Some(v);
      Found(a, b, k - 1);
    }
    if x :| Gives(a, b, x) && v == Atom(if x.Cell? then 0 else 1) {
      var k := Deep(a, b, x, a, b, x);
      assert Star(a, b, k) == Some(x);
      Found(a, f, k + 1);
    }
  }

  lemma Rule4(a: Noun, b: Noun, v: Noun)
    ensures Gives(a, Op(4, b), v) <==> exists n: nat :: Gives(a, b, Atom(n)) && v == Atom(1 + n)
  {
    var f := Op(4, b);
    assert View(f) == Op4(b);
    hide View, Gives, Slot, Hax, Loob, Pull;
    if Gives(a, f, v) {
      var k := Deep(a, f, v, a, f, v);
      assert Star(a, f, k) == Some(v) && Star(a, b, k - 1).Some? && Star(a, b, k - 1).value.Atom?;
      var n := Star(a, b, k - 1).value.val;
      assert v == Atom(1 + n);
      hide Star;
      Found(a, b, k - 1);
      assert Gives(a, b, Atom(n));
    }
    if n: nat :| Gives(a, b, Atom(n)) && v == Atom(1 + n) {
      var k := Deep(a, b, Atom(n), a, b, Atom(n));
      assert Star(a, b, k) == Some(Atom(n));
      assert Star(a, f, k + 1) == Some(v);
      hide Star;
      Found(a, f, k + 1);
    }
  }

  lemma Rule5(a: Noun, b: Noun, c: Noun, v: Noun)
    ensures Gives(a, Op(5, Cell(b, c)), v)
       <==> exists x, y :: Gives(a, b, x) && Gives(a, c, y) && v == Atom(if x == y then 0 else 1)
  {
    var f := Op(5, Cell(b, c));
    assert View(f) == Op5(b, c);
    hide View, Gives, Slot, Hax, Pull;
    if Gives(a, f, v) {
      var k := Deep(a, f, v, a, f, v);
      assert Star(a, f, k) == Some(v);
      Found(a, b, k - 1);
      Found(a, c, k - 1);
    }
    if x, y :| Gives(a, b, x) && Gives(a, c, y) && v == Atom(if x == y then 0 else 1) {
      var k := Deep(a, b, x, a, c, y);
      assert Star(a, b, k) == Some(x);
      Found(a, f, k + 1);
    }
  }

  // The steps that the rule for 6 goes through, as it is written.
  ghost predicate Steps6(a: Noun, b: Noun, c: Noun, d: Noun, x: Noun, y: Noun, z: Noun, v: Noun) {
    && Gives(a, Op(4, Op(4, b)), x) && Gives(Cell(Atom(2), Atom(3)), Op(0, x), y)
    && Gives(Cell(c, d), Op(0, y), z) && Gives(a, z, v)
  }

  lemma Rule6(a: Noun, b: Noun, c: Noun, d: Noun, v: Noun)
    ensures Gives(a, Op(6, Cell(b, Cell(c, d))), v) <==> exists x, y, z :: Steps6(a, b, c, d, x, y, z, v)
  {
    hide Gives, Steps6;
    if Gives(a, Op(6, Cell(b, Cell(c, d))), v) { var x, y, z := Apart6(a, b, c, d, v); }
    if x, y, z :| Steps6(a, b, c, d, x, y, z, v) { Together6(a, b, c, d, x, y, z, v); }
  }

  lemma Apart6(a: Noun, b: Noun, c: Noun, d: Noun, v: Noun) returns (x: Noun, y: Noun, z: Noun)
    requires Gives(a, Op(6, Cell(b, Cell(c, d))), v)
    ensures Steps6(a, b, c, d, x, y, z, v)
  {
    var f, two := Op(6, Cell(b, Cell(c, d))), Cell(Atom(2), Atom(3));
    assert View(f) == Op6(b, c, d);
    hide View, Gives, Slot, Hax, Loob, Pull;
    var k := Deep(a, f, v, a, f, v);
    assert Star(a, f, k) == Some(v);
    x := Star(a, Op(4, Op(4, b)), k - 1).value;
    y := Star(two, Op(0, x), k - 1).value;
    z := Star(Cell(c, d), Op(0, y), k - 1).value;
    hide Star;
    Found(a, Op(4, Op(4, b)), k - 1);
    Found(two, Op(0, x), k - 1);
    Found(Cell(c, d), Op(0, y), k - 1);
    Found(a, z, k - 1);
  }

  lemma Together6(a: Noun, b: Noun, c: Noun, d: Noun, x: Noun, y: Noun, z: Noun, v: Noun)
    requires Steps6(a, b, c, d, x, y, z, v)
    ensures Gives(a, Op(6, Cell(b, Cell(c, d))), v)
  {
    var f, two := Op(6, Cell(b, Cell(c, d))), Cell(Atom(2), Atom(3));
    assert View(f) == Op6(b, c, d);
    hide View, Gives, Slot, Hax, Loob, Pull;
    var j := Deep(a, Op(4, Op(4, b)), x, two, Op(0, x), y);
    var k := Deep(Cell(c, d), Op(0, y), z, a, z, v);
    assert Star(a, Op(4, Op(4, b)), j + k) == Some(x) && Star(two, Op(0, x), j + k) == Some(y);
    assert Star(Cell(c, d), Op(0, y), j + k) == Some(z) && Star(a, z, j + k) == Some(v);
    assert Star(a, f, j + k + 1) == Some(v);
    Found(a, f, j + k + 1);
  }

  // And what it comes to.
  lemma Branch(a: Noun, b: Noun, c: Noun, d: Noun, v: Noun)
    ensures Gives(a, Op(6, Cell(b, Cell(c, d))), v)
       <==> (Gives(a, b, Atom(0)) && Gives(a, c, v)) || (Gives(a, b, Atom(1)) && Gives(a, d, v))
  {
    hide Gives;
    Rule6(a, b, c, d, v);
    var two := Cell(Atom(2), Atom(3));
    var g := Op(4, b);
    if x, y, z :| Steps6(a, b, c, d, x, y, z, v) {
      Rule4(a, g, x);
      var m: nat :| Gives(a, g, Atom(m)) && x == Atom(1 + m);
      Rule4(a, b, Atom(m));
      Rule0(two, x, y);
      Rule0(Cell(c, d), y, z);
      Pick(x.val, Atom(2), Atom(3));
      Pick(x.val, c, d);
    }
    if n: nat :| n < 2 && Gives(a, b, Atom(n)) && Gives(a, if n == 0 then c else d, v) {
      Rule4(a, b, Atom(1 + n));
      Rule4(a, g, Atom(1 + (1 + n)));
      Pick(2 + n, Atom(2), Atom(3));
      Pick(2 + n, c, d);
      Rule0(two, Atom(2 + n), Atom(2 + n));
      Rule0(Cell(c, d), Atom(2 + n), if n == 0 then c else d);
      assert Steps6(a, b, c, d, Atom(2 + n), Atom(2 + n), if n == 0 then c else d, v);
    }
  }

  // Of a pair of atoms only 1, 2 and 3 can be looked up.
  lemma Pick(n: nat, c: Noun, d: Noun)
    ensures Slot(2, Cell(c, d)) == Some(c) && Slot(3, Cell(c, d)) == Some(d)
    ensures n > 3 && c.Atom? && d.Atom? ==> Slot(n, Cell(c, d)) == None
  {
    SlotLaw(1, c, d, 0);
    if n > 3 && c.Atom? && d.Atom? { Shallow(n, c, d); }
  }

  lemma {:induction false} Shallow(n: nat, c: Noun, d: Noun)
    requires n > 3 && c.Atom? && d.Atom?
    ensures Slot(n, Cell(c, d)) == None
  {
    if n < 8 {
      assert n / 2 == 2 || n / 2 == 3;
      SlotLaw(1, c, d, 0);
    } else {
      Shallow(n / 2, c, d);
    }
  }

  lemma Rule7(a: Noun, b: Noun, c: Noun, v: Noun)
    ensures Gives(a, Op(7, Cell(b, c)), v) <==> exists x :: Gives(a, b, x) && Gives(x, c, v)
  {
    var f := Op(7, Cell(b, c));
    assert View(f) == Op7(b, c);
    hide View, Gives, Slot, Hax, Loob, Pull;
    if Gives(a, f, v) {
      var k := Deep(a, f, v, a, f, v);
      assert Star(a, f, k) == Some(v);
      Found(a, b, k - 1);
      Found(Star(a, b, k - 1).value, c, k - 1);
    }
    if x :| Gives(a, b, x) && Gives(x, c, v) {
      var k := Deep(a, b, x, x, c, v);
      assert Star(a, b, k) == Some(x);
      Found(a, f, k + 1);
    }
  }

  lemma Rule8(a: Noun, b: Noun, c: Noun, v: Noun)
    ensures Gives(a, Op(8, Cell(b, c)), v) <==> exists x :: Gives(a, b, x) && Gives(Cell(x, a), c, v)
  {
    var f := Op(8, Cell(b, c));
    assert View(f) == Op8(b, c);
    hide View, Gives, Slot, Hax, Loob, Pull;
    if Gives(a, f, v) {
      var k := Deep(a, f, v, a, f, v);
      assert Star(a, f, k) == Some(v);
      Found(a, b, k - 1);
      Found(Cell(Star(a, b, k - 1).value, a), c, k - 1);
    }
    if x :| Gives(a, b, x) && Gives(Cell(x, a), c, v) {
      var k := Deep(a, b, x, Cell(x, a), c, v);
      assert Star(a, b, k) == Some(x);
      Found(a, f, k + 1);
    }
  }

  lemma Rule9(a: Noun, b: Noun, c: Noun, v: Noun)
    ensures Gives(a, Op(9, Cell(b, c)), v)
       <==> exists x :: Gives(a, c, x) && Gives(x, Op(2, Cell(Op(0, Atom(1)), Op(0, b))), v)
  {
    var f, g := Op(9, Cell(b, c)), Op(2, Cell(Op(0, Atom(1)), Op(0, b)));
    assert View(f) == Op9(b, c);
    hide View, Gives, Slot, Hax, Loob;
    if Gives(a, f, v) {
      var k := Deep(a, f, v, a, f, v);
      assert Star(a, f, k) == Some(v);
      Found(a, c, k - 1);
      Found(Star(a, c, k - 1).value, g, k - 1);
    }
    if x :| Gives(a, c, x) && Gives(x, g, v) {
      var k := Deep(a, c, x, x, g, v);
      assert Star(a, c, k) == Some(x);
      Found(a, f, k + 1);
    }
  }

  lemma Rule10(a: Noun, b: Noun, c: Noun, d: Noun, v: Noun)
    ensures Gives(a, Op(10, Cell(Cell(b, c), d)), v)
       <==> exists x, y :: Gives(a, c, x) && Gives(a, d, y) && b.Atom? && Hax(b.val, x, y) == Some(v)
  {
    var f := Op(10, Cell(Cell(b, c), d));
    assert View(f) == Op10(b, c, d);
    hide View, Gives, Hax, Star;
    if Gives(a, f, v) {
      var k := Deep(a, f, v, a, f, v);
      assert Star(a, f, k + 1) == Some(v);
      Star10(a, f, b, c, d, k);
      Found(a, c, k);
      Found(a, d, k);
    }
    if x, y :| Gives(a, c, x) && Gives(a, d, y) && b.Atom? && Hax(b.val, x, y) == Some(v) {
      var k := Deep(a, c, x, a, d, y);
      Star10(a, f, b, c, d, k);
      Found(a, f, k + 1);
    }
  }

  lemma Rule11(a: Noun, b: Noun, c: Noun, d: Noun, v: Noun)
    ensures Gives(a, Op(11, Cell(Cell(b, c), d)), v)
       <==> exists x, y :: Gives(a, c, x) && Gives(a, d, y) && Gives(Cell(x, y), Op(0, Atom(3)), v)
  {
    var f, g := Op(11, Cell(Cell(b, c), d)), Op(0, Atom(3));
    assert View(f) == Hint(b, c, d);
    hide View, Gives, Star;
    if Gives(a, f, v) {
      var k := Deep(a, f, v, a, f, v);
      assert Star(a, f, k + 1) == Some(v);
      Star11(a, f, b, c, d, k);
      Found(a, c, k);
      Found(a, d, k);
      Found(Cell(Star(a, c, k).value, Star(a, d, k).value), g, k);
    }
    if x, y :| Gives(a, c, x) && Gives(a, d, y) && Gives(Cell(x, y), g, v) {
      var j := Deep(a, c, x, a, d, y);
      var k := Deep(Cell(x, y), g, v, Cell(x, y), g, v);
      assert Star(a, c, j + k) == Some(x) && Star(a, d, j + k) == Some(y) && Star(Cell(x, y), g, j + k) == Some(v);
      Star11(a, f, b, c, d, j + k);
      Found(a, f, j + k + 1);
    }
  }

  lemma Rule11Bare(a: Noun, b: nat, c: Noun, v: Noun)
    ensures Gives(a, Op(11, Cell(Atom(b), c)), v) <==> Gives(a, c, v)
  {
    var f := Op(11, Cell(Atom(b), c));
    assert View(f) == Mark(Atom(b), c);
    hide View, Gives, Slot, Hax, Loob, Pull;
    if Gives(a, f, v) {
      var k := Deep(a, f, v, a, f, v);
      assert Star(a, f, k) == Some(v);
      Found(a, c, k - 1);
    }
    if Gives(a, c, v) {
      var k := Deep(a, c, v, a, c, v);
      assert Star(a, c, k) == Some(v);
      Found(a, f, k + 1);
    }
  }

  // The left-hand sides of the rules.
  predicate Ruled(f: Noun) {
    f.Cell? && (f.head.Cell? || match f.head.val
    case 0 => true case 1 => true case 3 => true case 4 => true
    case 2 => f.tail.Cell? case 5 => f.tail.Cell? case 7 => f.tail.Cell? case 8 => f.tail.Cell? case 9 => f.tail.Cell?
    case 6 => f.tail.Cell? && f.tail.tail.Cell?
    case 10 => f.tail.Cell? && f.tail.head.Cell?
    case 11 => f.tail.Cell?
    case _ => false)
  }

  // A formula that no rule matches has no value.
  lemma NoRule(a: Noun, f: Noun, v: Noun)
    requires !Ruled(f)
    ensures !Gives(a, f, v)
  {
    assert View(f).Junk? || View(f).Op12?;
    hide View;
  }
}
