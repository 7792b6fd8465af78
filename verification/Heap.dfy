/** The loom as words: references, and heap boxes that stand side by side. */
module Heap {
  import opened Nouns

  type Word = w: nat | w < 0x1_0000_0000

  // ---- references ----

  const PUG: nat := 0x8000_0000
  const POM: nat := 0xc000_0000
  const MASK: nat := 0x4000_0000

  // A direct atom, an indirect atom, a cell.
  predicate IsCat(som: Word) { som < PUG }
  predicate IsPug(som: Word) { PUG <= som < POM }
  predicate IsPom(som: Word) { som >= POM }

  // The offset of an indirect noun.
  function Off(som: Word): nat { som % MASK }

  function Tag(som: Word): nat { som - som % MASK }

  // ---- boxes ----

  // A box: its first word, its size in words, its use count.
  datatype Box = Box(at: nat, size: nat, use: nat)

  const MIN: nat := 6

  // Boxes one after another from `lo` to `hi`.
  ghost predicate Tiled(bs: seq<Box>, lo: nat, hi: nat) {
    && lo <= hi
    && (if bs == [] then lo == hi else bs[0].at == lo && bs[|bs| - 1].at + bs[|bs| - 1].size == hi)
    && (forall i :: 0 <= i < |bs| ==> bs[i].size >= MIN)
    && (forall i {:trigger bs[i]} :: 0 <= i < |bs| - 1 ==> bs[i].at + bs[i].size == bs[i + 1].at)
  }

  // Boxes later in the list are further up.
  lemma {:induction false} Ascending(bs: seq<Box>, lo: nat, hi: nat, i: nat, j: nat)
    requires Tiled(bs, lo, hi) && i < j < |bs|
    ensures bs[i].at + bs[i].size <= bs[j].at
    decreases j
  {
    if i < j - 1 { Ascending(bs, lo, hi, i, j - 1); }
    assert bs[j - 1].at + bs[j - 1].size == bs[j].at;
  }

  lemma Inside(bs: seq<Box>, lo: nat, hi: nat, i: nat)
    requires Tiled(bs, lo, hi) && i < |bs|
    ensures lo <= bs[i].at && bs[i].at + bs[i].size <= hi
  {
    if i > 0 { Ascending(bs, lo, hi, 0, i); }
    if i < |bs| - 1 { Ascending(bs, lo, hi, i, |bs| - 1); }
  }

  // The header of a box.
  predicate Headed(m: seq<Word>, b: Box) {
    b.at + 1 < |m| && m[b.at] == b.size && m[b.at + 1] == b.use
  }

  ghost predicate AllHeaded(m: seq<Word>, bs: seq<Box>) {
    forall i :: 0 <= i < |bs| ==> Headed(m, bs[i])
  }

  // ---- what a reference denotes ----

  // The number in some words, least significant first.
  function Value(ws: seq<Word>): nat {
    if ws == [] then 0 else ws[0] + 0x1_0000_0000 * Value(ws[1..])
  }

  // Cells keep their hash, head and tail after the header; indirect atoms
  // their hash, length and words.
  ghost predicate Denotes(m: seq<Word>, som: Word, n: Noun)
    decreases n
  {
    match n
    case Atom(v) =>
      || (IsCat(som) && v == som)
      || (IsPug(som) && var p := Off(som); p + 1 < |m| && p + 2 + m[p + 1] <= |m| && v == Value(m[p + 2..p + 2 + m[p + 1]]))
    case Cell(h, t) =>
      && IsPom(som) && Off(som) + 2 < |m|
      && Denotes(m, m[Off(som) + 1], h) && Denotes(m, m[Off(som) + 2], t)
  }

  // A reference denotes one noun.
  lemma {:induction false} DenotesOne(m: seq<Word>, som: Word, n: Noun, o: Noun)
    requires Denotes(m, som, n) && Denotes(m, som, o)
    ensures n == o
    decreases n
  {
    if n.Cell? && o.Cell? {
      DenotesOne(m, m[Off(som) + 1], n.head, o.head);
      DenotesOne(m, m[Off(som) + 2], n.tail, o.tail);
    }
  }
}
