/** Formulas by their leading opcode. */
module Formulas {
  import opened Nouns

  datatype Form =
    | Pair(b: Noun, c: Noun)
    | Op0(a: Noun) | Op1(a: Noun)
    | Op2(b: Noun, c: Noun)
    | Op3(b: Noun) | Op4(b: Noun)
    | Op5(b: Noun, c: Noun)
    | Op6(b: Noun, c: Noun, d: Noun)
    | Op7(b: Noun, c: Noun) | Op8(b: Noun, c: Noun)
    | Op9(a: Noun, c: Noun)
    | Op10(a: Noun, b: Noun, c: Noun)
    | Hint(a: Noun, b: Noun, c: Noun)
    | Mark(a: Noun, c: Noun)
    | Op12(b: Noun, c: Noun)
    | Junk

  function View(f: Noun): (r: Form)
    ensures r.Pair? || r.Op2? || r.Op5? || r.Op6? || r.Op7? || r.Op8? || r.Op10? || r.Hint? || r.Op12?
            ==> Size(r.b) < Size(f) && Size(r.c) < Size(f) && Size(r.b) + Size(r.c) < Size(f)
    ensures r.Op3? || r.Op4? ==> Size(r.b) < Size(f)
    ensures r.Op9? || r.Mark? ==> Size(r.c) < Size(f)
    ensures r.Op6? ==> Size(r.d) < Size(f)
  {
    match f
    case Atom(_) => Junk
    case Cell(Cell(_, _), d) => Pair(f.head, d)
    case Cell(Atom(op), arg) =>
      if op == 0 then Op0(arg)
      else if op == 1 then Op1(arg)
      else if op == 3 then Op3(arg)
      else if op == 4 then Op4(arg)
      else if arg.Atom? then Junk
      else
      assert Size(f) == 2 + Size(arg);
      assert arg.tail.Cell? ==> Size(arg.tail) == 1 + Size(arg.tail.head) + Size(arg.tail.tail);
      assert arg.head.Cell? ==> Size(arg.head) == 1 + Size(arg.head.head) + Size(arg.head.tail);
      if op == 2 then Op2(arg.head, arg.tail)
      else if op == 5 then Op5(arg.head, arg.tail)
      else if op == 6 then if arg.tail.Cell? then Op6(arg.head, arg.tail.head, arg.tail.tail) else Junk
      else if op == 7 then Op7(arg.head, arg.tail)
      else if op == 8 then Op8(arg.head, arg.tail)
      else if op == 9 then Op9(arg.head, arg.tail)
      else if op == 10 then if arg.head.Cell? then Op10(arg.head.head, arg.head.tail, arg.tail) else Junk
      else if op == 11 then
        if arg.head.Cell? then Hint(arg.head.head, arg.head.tail, arg.tail) else Mark(arg.head, arg.tail)
      else if op == 12 then Op12(arg.head, arg.tail)
      else Junk
  }
}
