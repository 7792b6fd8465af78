/** The trie as a cache: a root table with a use count, and a clock arm that
    cools warm entries and evicts cold ones. */
module HamtCache {
  import opened Nouns
  import opened Hamt

  // ---- what trimming may do to the lines ----

  // Some lines gone, the others with the same value and no warmer.
  ghost predicate Cooled(m: Lines, n: Lines, gone: set<Noun>) {
    && gone <= m.Keys && n.Keys == m.Keys - gone
    && forall k :: k in n ==> n[k].val == m[k].val && (n[k].warm ==> m[k].warm)
  }

  // One line gone, and a cold one.
  ghost predicate Evicted(m: Lines, gone: set<Noun>) {
    exists k :: k in m && gone == {k} && !m[k].warm
  }

  // Some line colder than before.
  ghost predicate Chilled(m: Lines, n: Lines) {
    exists k :: k in m && k in n && m[k].warm && !n[k].warm
  }

  // A part of a map changed and the whole with it.
  lemma CooledWhole(all: Lines, part: Lines, part': Lines, gone: set<Noun>)
    requires (forall k :: k in part ==> k in all && all[k] == part[k]) && Cooled(part, part', gone)
    ensures var all' := (all - part.Keys) + part';
            && Cooled(all, all', gone)
            && (Evicted(part, gone) ==> Evicted(all, gone))
            && (Chilled(part, part') ==> Chilled(all, all'))
            && (part' == part ==> all' == all)
  {
  }

  // ---- the arm ----

  datatype Arm = Arm(mug: nat, inx: nat)

  // How many prefixes there are with `e` groups of bits left.
  function Turns(e: nat): (r: nat)
    requires e <= 5
    ensures r >= 1
    decreases 5 - e
  {
    if e == 5 then 64 else 32 * Turns(e + 1)
  }

  // Over all hashes that share the arm's prefix, around the clock.
  function Skip(mug: nat, e: nat): int
    requires e <= 5
  {
    (mug / Span(e) + 1) % Turns(e) * Span(e)
  }

  lemma {:induction false} TurnsSpan(e: nat)
    requires e <= 5
    ensures Turns(e) * Span(e) == TOP
    decreases 5 - e
  {
    if e == 5 {
      SpanTop();
    } else {
      TurnsSpan(e + 1);
      Swap32(Turns(e + 1), Span(e));
    }
  }

  lemma Swap32(a: nat, b: nat)
    ensures a * (32 * b) == 32 * a * b
  {
  }

  // How far the arm has to go to reach a hash.
  function Dist(mug: nat, to: nat): nat
    requires mug < TOP && to < TOP
  {
    if to >= mug then to - mug else to + TOP - mug
  }

  // The arm lands on the next prefix, or on the first.
  lemma SkipLands(mug: nat, e: nat)
    requires mug < TOP && e <= 5
    ensures 0 <= Skip(mug, e) < TOP
    ensures var next := (mug / Span(e) + 1) * Span(e);
            next > mug && (Skip(mug, e) == if next < TOP then next else 0)
  {
    TurnsSpan(e);
    hide Turns;
    Lands(mug, Span(e), Turns(e));
  }

  lemma Lands(mug: nat, p: nat, t: nat)
    requires p > 0 && t > 0 && t * p == TOP && mug < TOP
    ensures var q := mug / p;
            (q + 1) * p > mug && (q + 1) % t * p == if (q + 1) * p < TOP then (q + 1) * p else 0
  {
    var q := mug / p;
    DivMod(mug, p);
    MulLess(t, q, p);
    MulLess(q + 1, t, p);
    Wrapped(q, t);
  }

  lemma Wrapped(q: nat, t: nat)
    requires q < t
    ensures (q + 1) % t == if q + 1 < t then q + 1 else 0
  {
    if q + 1 < t { DivIs(q + 1, t, 0, q + 1); } else { DivIs(t, t, 1, 0); }
  }

  // Skipping a prefix brings every other hash nearer.
  lemma SkipNearer(mug: nat, e: nat, to: nat)
    requires mug < TOP && to < TOP && e <= 5 && to / Span(e) != mug / Span(e)
    ensures 0 <= Skip(mug, e) < TOP && Dist(Skip(mug, e), to) < Dist(mug, to)
  {
    hide Span, Turns, Skip;
    SkipLands(mug, e);
    var p := Span(e);
    DivMod(mug, p);
    DivMod(to, p);
    MulLess(mug / p, to / p, p);
    MulLess(to / p, mug / p, p);
    MulLess(mug / p + 1, to / p, p);
  }

  lemma DivMod(x: nat, p: nat)
    requires p > 0
    ensures x == x / p * p + x % p && 0 <= x % p < p && x / p >= 0 && (x / p + 1) * p == x / p * p + p
  {
  }

  /** A step of the arm that evicts nothing: it chills a line, or goes back to
      the front of a bucket, or skips a prefix that no line has. */
  ghost predicate Progress(h: Hash, d: nat, m: Lines, n: Lines, arm: Arm, arm': Arm)
    requires arm.mug < TOP
  {
    || Chilled(m, n)
    || (n == m && arm'.inx < arm.inx)
    || (n == m && arm'.inx == arm.inx && Passes(h, d, m, arm.mug, arm'.mug))
  }

  ghost predicate Passes(h: Hash, d: nat, m: Lines, mug: nat, mug': nat)
    requires mug < TOP
  {
    exists e: nat :: e <= d && e <= 5 && mug' == Skip(mug, e) && forall k :: k in m ==> Mug(h, k) / Span(e) != mug / Span(e)
  }

  // Hashes with different prefixes differ in every longer prefix.
  lemma {:induction false} Longer(x: nat, y: nat, d: nat, e: nat)
    requires e <= d && x / Span(d) != y / Span(d)
    ensures x / Span(e) != y / Span(e)
    decreases d - e
  {
    if e < d {
      Cut(x, d);
      Cut(y, d);
      Longer(x, y, d - 1, e);
    }
  }

  // What a child's arm passes, the parent's does.
  lemma PassesWhole(h: Hash, d: nat, part: Lines, all: Lines, mug: nat, mug': nat)
    requires mug < TOP && Passes(h, d, part, mug, mug')
    requires forall k :: k in all && k !in part ==> Mug(h, k) / Span(d) != mug / Span(d)
    ensures Passes(h, d, all, mug, mug') && Passes(h, d + 1, all, mug, mug')
  {
    hide Mug, Span;
    var e: nat :| e <= d && e <= 5 && mug' == Skip(mug, e) && forall k :: k in part ==> Mug(h, k) / Span(e) != mug / Span(e);
    forall k | k in all ensures Mug(h, k) / Span(e) != mug / Span(e) {
      if k !in part { Longer(Mug(h, k), mug, d, e); }
    }
  }

  // ---- one step of the clock, as the table's lines see it ----

  // The keys whose hashes share the arm's prefix.
  ghost function Near(h: Hash, m: Lines, e: nat, mug: nat): set<Noun> {
    set k | k in m && Mug(h, k) / Span(e) == mug / Span(e)
  }

  // No line has the prefix: the arm goes on past it.
  ghost predicate TickHole(h: Hash, e: nat, m: Lines, n: Lines, arm: Arm, arm': Arm, did: bool)
    requires e <= 5
  {
    Near(h, m, e, arm.mug) == {} && !did && n == m && arm' == Arm(Skip(arm.mug, e), arm.inx)
  }

  // One line has it: a warm one is cooled, a cold one evicted, and the arm goes
  // on either way.
  ghost predicate TickOne(h: Hash, e: nat, k: Noun, m: Lines, n: Lines, arm: Arm, arm': Arm, did: bool)
    requires e <= 5
  {
    && k in m && Near(h, m, e, arm.mug) == {k} && arm' == Arm(Skip(arm.mug, e), arm.inx)
    && (if m[k].warm then !did && n == m[k := Line(m[k].val, false)] else did && n == m - {k})
  }

  // Lines `ks` share the arm's whole hash: those from the arm on are cooled up
  // to the first cold one, `i`, which is evicted.
  ghost predicate TickMany(h: Hash, ks: seq<Noun>, i: nat, m: Lines, n: Lines, arm: Arm, arm': Arm, did: bool)
  {
    && |ks| >= 2 && (forall a, b :: 0 <= a < |ks| && 0 <= b < |ks| && ks[a] == ks[b] ==> a == b)
    && (forall k :: k in ks <==> k in Near(h, m, 0, arm.mug))
    && arm.inx <= i && (forall j :: arm.inx <= j < |ks| && j < i ==> ks[j] in m && m[ks[j]].warm)
    && (did <==> i < |ks|) && (did ==> ks[i] in m && !m[ks[i]].warm) && (!did ==> i == if arm.inx < |ks| then |ks| else arm.inx)
    && n.Keys == m.Keys - (if did then {ks[i]} else {})
    && (forall k :: k in n ==> n[k] == if exists j :: arm.inx <= j < |ks| && j < i && ks[j] == k then Line(m[k].val, false) else m[k])
    && arm' == if !did then Arm(Skip(arm.mug, 0), 0) else if |ks| == 2 then Arm(arm.mug, 0) else Arm(arm.mug, i + 1)
  }

  /** What one step does, exactly: one of the three, at some depth. */
  ghost predicate Ticks(h: Hash, d: nat, m: Lines, n: Lines, arm: Arm, arm': Arm, did: bool) {
    || (exists e: nat :: e <= d && e <= 5 && TickHole(h, e, m, n, arm, arm', did))
    || (exists e: nat, k :: e <= d && e <= 5 && TickOne(h, e, k, m, n, arm, arm', did))
    || (exists ks, i: nat :: TickMany(h, ks, i, m, n, arm, arm', did))
  }

  // A line that a step finds warm is still there after it.
  lemma SecondChance(h: Hash, d: nat, m: Lines, n: Lines, arm: Arm, arm': Arm, did: bool, k: Noun)
    requires Ticks(h, d, m, n, arm, arm', did) && k in m && m[k].warm
    ensures k in n && n[k].val == m[k].val
  {
    hide Near, Skip;
  }

  lemma NearWhole(h: Hash, d: nat, e: nat, part: Lines, all: Lines, mug: nat)
    requires e <= d && forall k :: k in part ==> k in all && all[k] == part[k]
    requires forall k :: k in all && k !in part ==> Mug(h, k) / Span(d) != mug / Span(d)
    ensures Near(h, all, e, mug) == Near(h, part, e, mug)
  {
    hide Mug, Span;
    forall k | k in all && k !in part ensures Mug(h, k) / Span(e) != mug / Span(e) { Longer(Mug(h, k), mug, d, e); }
  }

  // What a part of the lines sees, all of them see.
  lemma TicksWhole(h: Hash, d: nat, part: Lines, part': Lines, all: Lines, arm: Arm, arm': Arm, did: bool)
    requires Ticks(h, d, part, part', arm, arm', did) && forall k :: k in part ==> k in all && all[k] == part[k]
    requires forall k :: k in all && k !in part ==> Mug(h, k) / Span(d) != arm.mug / Span(d)
    ensures Ticks(h, d, all, (all - part.Keys) + part', arm, arm', did) && Ticks(h, d + 1, all, (all - part.Keys) + part', arm, arm', did)
  {
    hide Near, Skip, Mug, Span;
    var all' := (all - part.Keys) + part';
    if e: nat :| e <= d && e <= 5 && TickHole(h, e, part, part', arm, arm', did) {
      NearWhole(h, d, e, part, all, arm.mug);
      assert TickHole(h, e, all, all', arm, arm', did);
    } else if e: nat, k :| e <= d && e <= 5 && TickOne(h, e, k, part, part', arm, arm', did) {
      NearWhole(h, d, e, part, all, arm.mug);
      assert TickOne(h, e, k, all, all', arm, arm', did);
    } else {
      var ks, i: nat :| TickMany(h, ks, i, part, part', arm, arm', did);
      NearWhole(h, d, 0, part, all, arm.mug);
      ManyWhole(h, ks, i, part, part', all, arm, arm', did);
    }
  }

  lemma ManyWhole(h: Hash, ks: seq<Noun>, i: nat, part: Lines, part': Lines, all: Lines, arm: Arm, arm': Arm, did: bool)
    requires TickMany(h, ks, i, part, part', arm, arm', did) && (forall k :: k in part ==> k in all && all[k] == part[k])
    requires Near(h, all, 0, arm.mug) == Near(h, part, 0, arm.mug)
    ensures TickMany(h, ks, i, all, (all - part.Keys) + part', arm, arm', did)
  {
    hide Skip;
    forall k | k in ks ensures k in part { assert k in Near(h, part, 0, arm.mug); }
    hide Near;
  }

  // ---- buckets ----

  lemma BuckOwner(kids: seq<Slot>, k: Noun) returns (i: nat)
    requires k in Holds(Buck(kids)) && forall j :: 0 <= j < |kids| ==> kids[j].Kev?
    ensures i < |kids| && kids[i].key == k
  {
    i := UnionOwner(All(kids), k);
  }

  // A bucket whose entries `a` to `b` were warm and are cold now.
  ghost predicate Chills(kids: seq<Slot>, kids': seq<Slot>, a: nat, b: nat) {
    && |kids'| == |kids| && a <= b && (b <= |kids| || a == b)
    && (forall j :: 0 <= j < |kids| ==> kids[j].Kev?)
    && (forall j :: 0 <= j < |kids| && !(a <= j < b) ==> kids'[j] == kids[j])
    && (forall j :: a <= j < b ==> kids[j].line.warm && kids'[j] == Kev(kids[j].key, Line(kids[j].line.val, false)))
  }

  lemma ChillGood(h: Hash, kids: seq<Slot>, kids': seq<Slot>, a: nat, b: nat, pre: nat)
    requires Good(h, Buck(kids), 0, pre) && Chills(kids, kids', a, b)
    ensures Good(h, Buck(kids'), 0, pre)
  {
    hide Union, Mug;
    var ms, ns := All(kids), All(kids');
    forall j, k | 0 <= j < |ns| && k in ns[j] ensures k in ms[j] { assert kids'[j].key == kids[j].key; }
    assert forall j :: 0 <= j < |kids| ==> kids'[j].key == kids[j].key;
  }

  lemma ChillCools(h: Hash, kids: seq<Slot>, kids': seq<Slot>, a: nat, b: nat, pre: nat)
    requires Good(h, Buck(kids), 0, pre) && Chills(kids, kids', a, b)
    ensures var m, n := Holds(Buck(kids)), Holds(Buck(kids'));
            Cooled(m, n, {}) && (a < b ==> Chilled(m, n)) && (a >= b ==> n == m)
  {
    hide Good, Holds, Disjoint, Union;
    ChillGood(h, kids, kids', a, b, pre);
    HoldsFew(h, Buck(kids), 0, pre);
    HoldsFew(h, Buck(kids'), 0, pre);
    var m, n := Holds(Buck(kids)), Holds(Buck(kids'));
    forall k | k in n ensures k in m && n[k].val == m[k].val && (n[k].warm ==> m[k].warm) {
      var i := BuckOwner(kids', k);
      ChillLine(kids, kids', a, b, i);
    }
    forall k | k in m ensures k in n {
      var i := BuckOwner(kids, k);
      ChillLine(kids, kids', a, b, i);
    }
    if a < b { ChillLine(kids, kids', a, b, a); }
    if a >= b { assert kids' == kids; }
  }

  lemma ChillLine(kids: seq<Slot>, kids': seq<Slot>, a: nat, b: nat, i: nat)
    requires Chills(kids, kids', a, b) && i < |kids| && Disjoint(All(kids)) && Disjoint(All(kids'))
    ensures kids[i].Kev? && kids'[i].Kev? && kids'[i].key == kids[i].key
    ensures var m, n, k := Holds(Buck(kids)), Holds(Buck(kids')), kids[i].key;
            k in m && k in n && m[k] == kids[i].line && n[k] == kids'[i].line
  {
    hide Disjoint, Holds;
    BuckHas(kids, i);
    BuckHas(kids', i);
  }

  // One entry taken out of a bucket.
  lemma BuckDrop(h: Hash, kids: seq<Slot>, i: nat, pre: nat)
    requires Good(h, Buck(kids), 0, pre) && i < |kids|
    ensures kids[i].Kev? && kids[i].key in Holds(Buck(kids)) && Holds(Buck(kids))[kids[i].key] == kids[i].line
    ensures var rest := kids[..i] + kids[i + 1..];
            var t := if |kids| == 2 then rest[0] else Buck(rest);
            Good(h, t, 0, pre) && Holds(t) == Holds(Buck(kids)) - {kids[i].key}
  {
    hide Union, Disjoint, Mug;
    BuckHas(kids, i);
    var rest := kids[..i] + kids[i + 1..];
    UnionRemove(All(kids), i);
    assert All(rest) == All(kids)[..i] + All(kids)[i + 1..];
    if |kids| == 2 {
      assert rest == [rest[0]];
      AllTwo(rest[0], rest[0]);
      UnionTwo(Holds(rest[0]), map[]);
    }
  }

  lemma UnionRemove(ms: seq<Lines>, i: nat)
    requires i < |ms| && Disjoint(ms)
    ensures Disjoint(ms[..i] + ms[i + 1..]) && Union(ms[..i] + ms[i + 1..]) == Union(ms) - ms[i].Keys
  {
    hide Union;
    var ns := ms[i := map[]];
    UnionSwap(ms, i, map[]);
    UnionDrop(ns, i);
    assert ns[..i] + ns[i + 1..] == ms[..i] + ms[i + 1..];
  }

  // The keys of a bucket, in its order.
  function KeysOf(kids: seq<Slot>): (ks: seq<Noun>)
    requires forall j :: 0 <= j < |kids| ==> kids[j].Kev?
    ensures |ks| == |kids| && forall j :: 0 <= j < |kids| ==> ks[j] == kids[j].key
  {
    seq(|kids|, j requires 0 <= j < |kids| => kids[j].key)
  }

  lemma BuckKeys(h: Hash, kids: seq<Slot>, pre: nat)
    requires Good(h, Buck(kids), 0, pre)
    ensures forall j :: 0 <= j < |kids| ==> kids[j].Kev?
    ensures var ks, m := KeysOf(kids), Holds(Buck(kids));
            && (forall a, b :: 0 <= a < |ks| && 0 <= b < |ks| && ks[a] == ks[b] ==> a == b)
            && (forall j :: 0 <= j < |ks| ==> ks[j] in m && m[ks[j]] == kids[j].line)
            && (forall k :: k in ks <==> k in Near(h, m, 0, pre)) && Near(h, m, 0, pre) == m.Keys
  {
    hide Union, Mug;
    var ks, m := KeysOf(kids), Holds(Buck(kids));
    forall j | 0 <= j < |ks| ensures ks[j] in m && m[ks[j]] == kids[j].line { BuckHas(kids, j); }
    forall a, b | 0 <= a < |ks| && 0 <= b < |ks| && ks[a] == ks[b] ensures a == b {
      assert ks[a] in All(kids)[a] && ks[a] in All(kids)[b];
    }
    forall k | k in m ensures k in ks && Mug(h, k) / Span(0) == pre / Span(0) {
      var i := BuckOwner(kids, k);
      assert ks[i] == k && Mug(h, kids[i].key) / Span(0) == pre && Span(0) == 1;
    }
  }

  // What the bucket's lines are after the entries from the arm to `i` are cooled.
  ghost predicate CoolsTo(ks: seq<Noun>, m: Lines, m': Lines, a: nat, i: nat) {
    && m'.Keys == m.Keys && forall j :: 0 <= j < |ks| ==>
         ks[j] in m && m'[ks[j]] == (if a <= j < i then Line(m[ks[j]].val, false) else m[ks[j]]) && (a <= j < i ==> m[ks[j]].warm)
  }

  lemma BuckCools(h: Hash, kids: seq<Slot>, now: seq<Slot>, a: nat, i: nat, pre: nat)
    requires Good(h, Buck(kids), 0, pre) && Chills(kids, now, a, i)
    ensures forall j :: 0 <= j < |kids| ==> kids[j].Kev?
    ensures CoolsTo(KeysOf(kids), Holds(Buck(kids)), Holds(Buck(now)), a, i)
  {
    ChillGood(h, kids, now, a, i, pre);
    SameKeys(kids, now, a, i);
    BuckKeyed(h, kids, pre);
    BuckKeyed(h, now, pre);
    KeyedCools(KeysOf(kids), kids, now, Holds(Buck(kids)), Holds(Buck(now)), a, i);
  }

  // The lines of a bucket, entry by entry.
  ghost predicate Keyed(ks: seq<Noun>, kids: seq<Slot>, m: Lines) {
    && |ks| == |kids| && (forall k :: k in ks <==> k in m)
    && forall j :: 0 <= j < |ks| ==> kids[j].Kev? && ks[j] in m && m[ks[j]] == kids[j].line
  }

  lemma BuckKeyed(h: Hash, kids: seq<Slot>, pre: nat)
    requires Good(h, Buck(kids), 0, pre)
    ensures (forall j :: 0 <= j < |kids| ==> kids[j].Kev?) && Keyed(KeysOf(kids), kids, Holds(Buck(kids)))
  {
    hide Good, Holds, Near;
    BuckKeys(h, kids, pre);
  }

  lemma KeyedCools(ks: seq<Noun>, kids: seq<Slot>, now: seq<Slot>, m: Lines, m': Lines, a: nat, i: nat)
    requires Keyed(ks, kids, m) && Keyed(ks, now, m') && Chills(kids, now, a, i)
    ensures CoolsTo(ks, m, m', a, i)
  {
    assert m'.Keys == m.Keys by { forall k ensures k in m' <==> k in m { assert k in m <==> k in ks; } }
    forall j | 0 <= j < |ks|
      ensures ks[j] in m && m'[ks[j]] == (if a <= j < i then Line(m[ks[j]].val, false) else m[ks[j]]) && (a <= j < i ==> m[ks[j]].warm)
    {
      assert kids[j].line == m[ks[j]] && now[j].line == m'[ks[j]];
    }
  }

  lemma SameKeys(kids: seq<Slot>, now: seq<Slot>, a: nat, i: nat)
    requires Chills(kids, now, a, i)
    ensures (forall j :: 0 <= j < |kids| ==> now[j].Kev?) && KeysOf(now) == KeysOf(kids)
  {
  }

  lemma CoolsMany(h: Hash, ks: seq<Noun>, i: nat, m: Lines, m': Lines, n: Lines, arm: Arm, arm': Arm, did: bool)
    requires CoolsTo(ks, m, m', arm.inx, i) && |ks| >= 2 && (forall a, b :: 0 <= a < |ks| && 0 <= b < |ks| && ks[a] == ks[b] ==> a == b)
    requires (forall k :: k in ks <==> k in Near(h, m, 0, arm.mug)) && Near(h, m, 0, arm.mug) == m.Keys
    requires arm.inx <= i && (did <==> i < |ks|) && (!did ==> i == if arm.inx < |ks| then |ks| else arm.inx)
    requires if did then !m[ks[i]].warm && n == m' - {ks[i]} else n == m'
    requires arm' == if !did then Arm(Skip(arm.mug, 0), 0) else if |ks| == 2 then Arm(arm.mug, 0) else Arm(arm.mug, i + 1)
    ensures TickMany(h, ks, i, m, n, arm, arm', did)
  {
    hide Near, Skip;
    forall k | k in n ensures n[k] == if exists j :: arm.inx <= j < |ks| && j < i && ks[j] == k then Line(m[k].val, false) else m[k] {
      assert k in ks;
      var j :| 0 <= j < |ks| && ks[j] == k;
      if q :| arm.inx <= q < |ks| && q < i && ks[q] == k { assert q == j; }
    }
  }

  // A bucket gone through from the arm to `i`, where it evicts or ends.
  lemma BuckTicks(h: Hash, kids: seq<Slot>, now: seq<Slot>, i: nat, n: Lines, arm: Arm, arm': Arm, did: bool, pre: nat)
    requires Good(h, Buck(kids), 0, pre) && arm.mug == pre && Chills(kids, now, arm.inx, i) && (forall j :: 0 <= j < |kids| ==> kids[j].Kev?)
    requires (did <==> i < |kids|) && (!did ==> i == if arm.inx < |kids| then |kids| else arm.inx)
    requires if did then !kids[i].line.warm && n == Holds(Buck(now)) - {kids[i].key} else n == Holds(Buck(now))
    requires arm' == if !did then Arm(Skip(arm.mug, 0), 0) else if |kids| == 2 then Arm(arm.mug, 0) else Arm(arm.mug, i + 1)
    ensures Ticks(h, 0, Holds(Buck(kids)), n, arm, arm', did)
  {
    assert arm.inx <= i;
    hide Good, Holds, Near, Skip, Mug, CoolsTo, TickMany, Chills;
    BuckSize(h, kids, pre);
    BuckKeys(h, kids, pre);
    BuckCools(h, kids, now, arm.inx, i, pre);
    var ks, m := KeysOf(kids), Holds(Buck(kids));
    CoolsMany(h, ks, i, m, Holds(Buck(now)), n, arm, arm', did);
  }

  /** Go on through a bucket from where the arm left it: cool warm entries,
      and evict the first cold one. */
  method TrimBuck(h: Hash, kids: seq<Slot>, arm: Arm, ghost pre: nat)
      returns (t: Slot, did: bool, arm': Arm, ghost gone: set<Noun>)
    requires Good(h, Buck(kids), 0, pre) && arm.mug < TOP && arm.mug == pre
    ensures Good(h, t, 0, pre) && arm'.mug < TOP
    ensures Cooled(Holds(Buck(kids)), Holds(t), gone)
    ensures Ticks(h, 0, Holds(Buck(kids)), Holds(t), arm, arm', did)
    ensures if did then Evicted(Holds(Buck(kids)), gone) else gone == {} && Progress(h, 0, Holds(Buck(kids)), Holds(t), arm, arm')
  {
    hide Union, Disjoint, Mug, Good, Holds, Skip, Ticks;
    HoldsFew(h, Buck(kids), 0, pre);
    var now, i: nat := kids, arm.inx;
    while i < |now|
      invariant Chills(kids, now, arm.inx, i)
      decreases |now| - i
    {
      if now[i].line.warm {
        now := now[i := Kev(now[i].key, Line(now[i].line.val, false))];
        i := i + 1;
      } else {
        ChillGood(h, kids, now, arm.inx, i, pre);
        ChillCools(h, kids, now, arm.inx, i, pre);
        BuckDrop(h, now, i, pre);
        gone := {now[i].key};
        DropCools(Holds(Buck(kids)), Holds(Buck(now)), now[i].key);
        BuckDrop(h, kids, i, pre);
        var rest := now[..i] + now[i + 1..];
        if |now| == 2 {
          t, arm' := rest[0], Arm(arm.mug, 0);
        } else {
          t, arm' := Buck(rest), Arm(arm.mug, i + 1);
        }
        did := true;
        BuckTicks(h, kids, now, i, Holds(t), arm, arm', true, pre);
        return;
      }
    }
    ChillGood(h, kids, now, arm.inx, i, pre);
    ChillCools(h, kids, now, arm.inx, i, pre);
    SkipTop(arm.mug);
    BuckSize(h, kids, pre);
    t, did, arm', gone := Buck(now), false, Arm(Skip(arm.mug, 0), 0), {};
    BuckTicks(h, kids, now, i, Holds(t), arm, arm', false, pre);
  }

  lemma BuckSize(h: Hash, kids: seq<Slot>, pre: nat)
    requires Good(h, Buck(kids), 0, pre)
    ensures |kids| >= 2
  {
  }

  lemma SkipTop(mug: nat)
    requires mug < TOP
    ensures Skip(mug, 0) == (mug + 1) % TOP
  {
    hide Skip;
    SkipLands(mug, 0);
    assert Span(0) == 1;
  }

  lemma DropCools(m: Lines, n: Lines, k: Noun)
    requires Cooled(m, n, {}) && k in n
    ensures Cooled(m, n - {k}, {k})
  {
  }

  // ---- nodes ----

  // A node with one child taken out.
  lemma DropGood(h: Hash, s: Slot, d: nat, pre: nat, bit: nat, i: nat)
    requires s.Node? && Good(h, s, d, pre) && bit < 32 && |s.bits| == 32 && s.bits[bit] && d > 0
    requires i == Rank(s.bits, bit) && i < |s.kids|
    ensures Good(h, Node(s.bits[bit := false], s.kids[..i] + s.kids[i + 1..]), d, pre)
  {
    hide Good, Rank;
    NodeSize(h, s, d, pre);
    var bits, kids := s.bits[bit := false], s.kids[..i] + s.kids[i + 1..];
    RankFlip(s.bits, bit, false, 32);
    forall b: nat | b < 32 ensures KidAt(h, bits, kids, d, pre, b) {
      KidGood(h, s, d, pre, b);
      RankFlip(s.bits, bit, false, b);
      if b < bit { RankLess(s.bits, b, bit); }
      if b > bit { RankLess(s.bits, bit, b); }
    }
    NodeGood(h, bits, kids, d, pre);
  }

  // What is left of a node after a child is emptied: its only other child,
  // when that is an entry, or a smaller node.
  function Shrink(s: Slot, bit: nat, i: nat): Slot
    requires s.Node? && bit < |s.bits| && i < |s.kids|
  {
    if |s.kids| == 2 && s.kids[1 - i].Kev? then s.kids[1 - i]
    else Node(s.bits[bit := false], s.kids[..i] + s.kids[i + 1..])
  }

  lemma ShrinkGood(h: Hash, s: Slot, d: nat, pre: nat, bit: nat, i: nat)
    requires s.Node? && Good(h, s, d, pre) && bit < 32 && |s.bits| == 32 && s.bits[bit] && d > 0
    requires i == Rank(s.bits, bit) && i < |s.kids|
    ensures Good(h, Shrink(s, bit, i), d, pre) && Holds(Shrink(s, bit, i)) == Holds(s) - Holds(s.kids[i]).Keys
  {
    hide Good, Rank, Union, Disjoint, Mug;
    DropGood(h, s, d, pre, bit, i);
    KidsApart(h, s, d, pre);
    UnionRemove(All(s.kids), i);
    var rest := s.kids[..i] + s.kids[i + 1..];
    assert All(rest) == All(s.kids)[..i] + All(s.kids)[i + 1..];
    if |s.kids| == 2 && s.kids[1 - i].Kev? {
      var kid := s.kids[1 - i];
      assert rest == [kid];
      AllTwo(kid, kid);
      UnionTwo(Holds(kid), map[]);
      OnlyEntry(h, s, d, pre, 1 - i);
    }
  }

  lemma OnlyEntry(h: Hash, s: Slot, d: nat, pre: nat, i: nat)
    requires s.Node? && Good(h, s, d, pre) && i < |s.kids| && s.kids[i].Kev?
    ensures Good(h, s.kids[i], d, pre)
  {
    var k := s.kids[i].key;
    hide Mug, Rank;
    var b := KidPath(h, s, d, pre, i, k);
    Cut(Mug(h, k), d);
  }

  /** What trimming a slot does: nothing is lost but one cold line, values
      stay, lines get no warmer, and the arm gets somewhere. */
  ghost predicate Trimmed(h: Hash, s: Slot, d: nat, pre: nat, arm: Arm, t: Slot, did: bool, arm': Arm, gone: set<Noun>)
    requires arm.mug < TOP
  {
    && arm'.mug < TOP
    && (if t.Null? then did && s.Kev? else Good(h, t, d, pre))
    && Cooled(Holds(s), Holds(t), gone)
    && (if did then Evicted(Holds(s), gone) else gone == {} && Progress(h, d, Holds(s), Holds(t), arm, arm'))
  }

  // One entry: cooled when it is warm, evicted when it is cold.
  method TrimKev(h: Hash, s: Slot, d: nat, arm: Arm, ghost pre: nat) returns (t: Slot, did: bool, arm': Arm, ghost gone: set<Noun>)
    requires s.Kev? && Good(h, s, d, pre) && d <= 5 && arm.mug < TOP && arm.mug / Span(d) == pre
    ensures Trimmed(h, s, d, pre, arm, t, did, arm', gone)
    ensures Ticks(h, d, Holds(s), Holds(t), arm, arm', did)
  {
    hide Skip, Mug, Span;
    SkipLands(arm.mug, d);
    arm' := Arm(Skip(arm.mug, d), arm.inx);
    if s.line.warm {
      t, did, gone := Kev(s.key, Line(s.line.val, false)), false, {};
      assert Chilled(Holds(s), Holds(t)) by { assert s.key in Holds(s) && s.key in Holds(t); }
    } else {
      t, did, gone := Null, true, {s.key};
      assert Evicted(Holds(s), gone) by { assert s.key in Holds(s); }
    }
    assert TickOne(h, d, s.key, Holds(s), Holds(t), arm, arm', did);
  }

  // No key of the node is under a bit that is not set.
  lemma PassesHole(h: Hash, s: Slot, d: nat, pre: nat, bit: nat, mug: nat)
    requires s.Node? && Good(h, s, d, pre) && 0 < d <= 5 && bit < 32 && |s.bits| == 32 && !s.bits[bit]
    requires mug < TOP && mug / Span(d - 1) == pre * 32 + bit
    ensures Passes(h, d, Holds(s), mug, Skip(mug, d - 1))
  {
    hide Mug, Rank, Span, Good, Holds, Skip;
    forall k | k in Holds(s) ensures Mug(h, k) / Span(d - 1) != mug / Span(d - 1) {
      if Mug(h, k) / Span(d - 1) == pre * 32 + bit { KidHas(h, s, d, pre, k, bit); }
    }
  }

  lemma KidApart(h: Hash, s: Slot, d: nat, pre: nat, bit: nat, mug: nat)
    requires s.Node? && Good(h, s, d, pre) && 0 < d && bit < 32 && |s.bits| == 32 && s.bits[bit] && Rank(s.bits, bit) < |s.kids|
    requires mug / Span(d - 1) == pre * 32 + bit
    ensures forall k :: k in Holds(s) && k !in Holds(s.kids[Rank(s.bits, bit)]) ==> Mug(h, k) / Span(d - 1) != mug / Span(d - 1)
  {
    hide Mug, Rank, Span, Good, Holds;
    forall k | k in Holds(s) && k !in Holds(s.kids[Rank(s.bits, bit)]) ensures Mug(h, k) / Span(d - 1) != mug / Span(d - 1) {
      if Mug(h, k) / Span(d - 1) == pre * 32 + bit { KidHas(h, s, d, pre, k, bit); }
    }
  }

  lemma HoleTick(h: Hash, d: nat, e: nat, m: Lines, arm: Arm)
    requires e <= d && e <= 5 && arm.mug < TOP && forall k :: k in m ==> Mug(h, k) / Span(e) != arm.mug / Span(e)
    ensures Skip(arm.mug, e) >= 0 && Ticks(h, d, m, m, arm, Arm(Skip(arm.mug, e), arm.inx), false)
  {
    SkipLands(arm.mug, e);
    hide Mug, Span, Skip;
    assert TickHole(h, e, m, m, arm, Arm(Skip(arm.mug, e), arm.inx), false);
  }

  // No key of a node is on the path of a bit that is not set.
  lemma HoleFree(h: Hash, s: Slot, d: nat, pre: nat, bit: nat, mug: nat)
    requires s.Node? && Good(h, s, d, pre) && d > 0 && bit < 32 && |s.bits| == 32 && !s.bits[bit]
    requires mug / Span(d - 1) == pre * 32 + bit
    ensures forall k :: k in Holds(s) ==> Mug(h, k) / Span(d - 1) != mug / Span(d - 1)
  {
    hide Mug, Rank, Span, Good, Holds;
    forall k | k in Holds(s) ensures Mug(h, k) / Span(d - 1) != mug / Span(d - 1) {
      if Mug(h, k) / Span(d - 1) == pre * 32 + bit { KidHas(h, s, d, pre, k, bit); }
    }
  }

  lemma NodeTicks(h: Hash, s: Slot, d: nat, pre: nat, bit: nat, arm: Arm, part': Lines, did: bool, arm': Arm, n: Lines)
    requires s.Node? && Good(h, s, d, pre) && 0 < d && bit < 32 && |s.bits| == 32 && s.bits[bit] && Rank(s.bits, bit) < |s.kids|
    requires arm.mug / Span(d - 1) == pre * 32 + bit
    requires var part := Holds(s.kids[Rank(s.bits, bit)]); Ticks(h, d - 1, part, part', arm, arm', did) && n == (Holds(s) - part.Keys) + part'
    ensures Ticks(h, d, Holds(s), n, arm, arm', did)
  {
    hide Mug, Rank, Span, Good, Holds, Ticks;
    KidWithin(h, s, d, pre, bit);
    KidApart(h, s, d, pre, bit, arm.mug);
    TicksWhole(h, d - 1, Holds(s.kids[Rank(s.bits, bit)]), part', Holds(s), arm, arm', did);
  }

  // A child trimmed and the node with it.
  lemma TrimmedNode(h: Hash, s: Slot, d: nat, pre: nat, bit: nat, arm: Arm, kid: Slot, did: bool, arm': Arm, gone: set<Noun>, t: Slot)
    requires s.Node? && Good(h, s, d, pre) && 0 < d && bit < 32 && |s.bits| == 32 && s.bits[bit] && Rank(s.bits, bit) < |s.kids|
    requires arm.mug < TOP && arm.mug / Span(d - 1) == pre * 32 + bit
    requires Trimmed(h, s.kids[Rank(s.bits, bit)], d - 1, pre * 32 + bit, arm, kid, did, arm', gone)
    requires !t.Null? && Good(h, t, d, pre)
    requires Holds(t) == (Holds(s) - Holds(s.kids[Rank(s.bits, bit)]).Keys) + Holds(kid)
    ensures Trimmed(h, s, d, pre, arm, t, did, arm', gone)
  {
    hide Mug, Rank, Span, Good, Holds, Cooled, Evicted, Chilled, Passes;
    var part := Holds(s.kids[Rank(s.bits, bit)]);
    KidWithin(h, s, d, pre, bit);
    KidApart(h, s, d, pre, bit, arm.mug);
    CooledWhole(Holds(s), part, Holds(kid), gone);
    if !did && !Chilled(part, Holds(kid)) && arm'.inx == arm.inx {
      PassesWhole(h, d - 1, part, Holds(s), arm.mug, arm'.mug);
    }
  }

  /** Trim below the child that the arm points to. */
  method TrimNode(h: Hash, s: Slot, d: nat, rem: nat, arm: Arm, ghost pre: nat) returns (t: Slot, did: bool, arm': Arm, ghost gone: set<Noun>)
    requires s.Node? && Good(h, s, d, pre) && d <= 5 && arm.mug < TOP && arm.mug / Span(d) == pre && rem == arm.mug % Span(d)
    ensures Trimmed(h, s, d, pre, arm, t, did, arm', gone)
    ensures Ticks(h, d, Holds(s), Holds(t), arm, arm', did)
    decreases s, 0
  {
    hide Mug, Rank, Good, Holds, Skip, Union, Disjoint, Trimmed, Ticks;
    KidGood(h, s, d, pre, 0);
    Cut(arm.mug, d);
    var bit, rem' := rem / Span(d - 1), rem % Span(d - 1);
    KidGood(h, s, d, pre, bit);
    if !s.bits[bit] {
      SkipLands(arm.mug, d - 1);
      PassesHole(h, s, d, pre, bit, arm.mug);
      t, did, arm', gone := s, false, Arm(Skip(arm.mug, d - 1), arm.inx), {};
      TrimmedHole(h, s, d, pre, arm, arm');
      HoleFree(h, s, d, pre, bit, arm.mug);
      HoleTick(h, d, d - 1, Holds(s), arm);
      return;
    }
    var i := Rank(s.bits, bit);
    var kid;
    kid, did, arm', gone := TrimSlot(h, s.kids[i], d - 1, rem', arm, pre * 32 + bit);
    TrimmedSlot(h, s.kids[i], d - 1, pre * 32 + bit, arm, kid, did, arm', gone);
    if kid.Null? {
      ShrinkGood(h, s, d, pre, bit, i);
      t := Shrink(s, bit, i);
      NullNone((Holds(s) - Holds(s.kids[i]).Keys));
    } else {
      NodeSwap(h, s, d, pre, bit, kid);
      t := Node(s.bits, s.kids[i := kid]);
    }
    TrimmedNode(h, s, d, pre, bit, arm, kid, did, arm', gone, t) by { NotNull(h, t, d, pre); }
    NodeTicks(h, s, d, pre, bit, arm, Holds(kid), did, arm', Holds(t));
  }

  lemma NotNull(h: Hash, t: Slot, d: nat, pre: nat)
    requires Good(h, t, d, pre)
    ensures !t.Null?
  {
  }

  lemma NullNone(m: Lines)
    ensures m + Holds(Null) == m
  {
  }

  lemma TrimmedHole(h: Hash, s: Slot, d: nat, pre: nat, arm: Arm, arm': Arm)
    requires arm.mug < TOP && arm'.mug < TOP && arm'.inx == arm.inx && Good(h, s, d, pre)
    requires Passes(h, d, Holds(s), arm.mug, arm'.mug)
    ensures Trimmed(h, s, d, pre, arm, s, false, arm', {})
  {
    hide Passes, Holds;
    NotNull(h, s, d, pre);
  }

  lemma TrimmedSlot(h: Hash, s: Slot, d: nat, pre: nat, arm: Arm, t: Slot, did: bool, arm': Arm, gone: set<Noun>)
    requires arm.mug < TOP && Trimmed(h, s, d, pre, arm, t, did, arm', gone)
    ensures !t.Null? ==> Good(h, t, d, pre)
  {
  }

  /** Trim a filled slot. */
  method TrimSlot(h: Hash, s: Slot, d: nat, rem: nat, arm: Arm, ghost pre: nat) returns (t: Slot, did: bool, arm': Arm, ghost gone: set<Noun>)
    requires Good(h, s, d, pre) && d <= 5 && arm.mug < TOP && arm.mug / Span(d) == pre && rem == arm.mug % Span(d)
    ensures Trimmed(h, s, d, pre, arm, t, did, arm', gone)
    ensures Ticks(h, d, Holds(s), Holds(t), arm, arm', did)
    decreases s, 1
  {
    hide Mug, Good, Holds, Union, Disjoint, Cooled, Evicted, Progress, Span, Ticks;
    HoldsFew(h, s, d, pre);
    if s.Kev? {
      t, did, arm', gone := TrimKev(h, s, d, arm, pre);
    } else if s.Buck? {
      BuckFlat(h, s, d, pre, arm.mug);
      t, did, arm', gone := TrimBuck(h, s.kids, arm, pre);
      NotNull(h, t, d, pre);
    } else {
      t, did, arm', gone := TrimNode(h, s, d, rem, arm, pre);
    }
  }

  // A bucket has the whole hash.
  lemma BuckFlat(h: Hash, s: Slot, d: nat, pre: nat, mug: nat)
    requires s.Buck? && Good(h, s, d, pre) && mug / Span(d) == pre
    ensures d == 0 && mug == pre
  {
  }

  // ---- the root ----

  ghost predicate Rooted(h: Hash, slots: seq<Slot>) {
    |slots| == 64 && forall i :: 0 <= i < 64 ==> slots[i].Null? || Good(h, slots[i], 5, i)
  }

  lemma RootIndex(mug: nat)
    requires mug < TOP
    ensures 0 <= mug / Span(5) < 64
  {
    SpanTop();
  }

  lemma RootPath(h: Hash, slots: seq<Slot>, i: nat, k: Noun)
    requires Rooted(h, slots) && i < 64 && k in Holds(slots[i])
    ensures i == Mug(h, k) / Span(5)
  {
    hide Good, Mug, Span;
    if !slots[i].Null? { OnPath(h, slots[i], 5, i, k); }
  }

  lemma RootApart(h: Hash, slots: seq<Slot>)
    requires Rooted(h, slots)
    ensures Disjoint(All(slots))
  {
    hide Good, Mug, Span, Holds, Rooted;
    forall i, j, k | 0 <= i < |slots| && 0 <= j < |slots| && k in All(slots)[i] && k in All(slots)[j] ensures i == j {
      RootBoth(h, slots, i, j, k);
    }
  }

  lemma RootBoth(h: Hash, slots: seq<Slot>, i: nat, j: nat, k: Noun)
    requires Rooted(h, slots) && i < |slots| && j < |slots| && k in Holds(slots[i]) && k in Holds(slots[j])
    ensures i == j
  {
    hide Good, Mug, Span, Holds;
    RootPath(h, slots, i, k);
    RootPath(h, slots, j, k);
  }

  // A key is in the slot its first bits name, or nowhere.
  lemma RootHas(h: Hash, slots: seq<Slot>, k: Noun, i: nat)
    requires Rooted(h, slots) && i == Mug(h, k) / Span(5) && i < 64
    ensures k in Holds(slots[i]) <==> k in Union(All(slots))
    ensures k in Holds(slots[i]) ==> Union(All(slots))[k] == Holds(slots[i])[k]
  {
    hide Good, Mug, Span, Holds, Union, Disjoint;
    RootApart(h, slots);
    if k in Union(All(slots)) {
      var j := UnionOwner(All(slots), k);
      RootPath(h, slots, j, k);
    }
    if k in Holds(slots[i]) { UnionHas(All(slots), i, k); }
  }

  lemma RootWithin(h: Hash, slots: seq<Slot>, i: nat)
    requires Rooted(h, slots) && i < 64
    ensures var part := Holds(slots[i]); forall k :: k in part ==> k in Union(All(slots)) && Union(All(slots))[k] == part[k]
  {
    hide Good, Mug, Span, Holds, Union, Disjoint;
    RootApart(h, slots);
    forall k | k in Holds(slots[i]) ensures k in Union(All(slots)) && Union(All(slots))[k] == Holds(slots[i])[k] {
      UnionHas(All(slots), i, k);
    }
  }

  // One slot of the root replaced.
  lemma RootSwap(h: Hash, slots: seq<Slot>, i: nat, s: Slot)
    requires Rooted(h, slots) && i < 64 && (s.Null? || Good(h, s, 5, i))
    ensures Rooted(h, slots[i := s])
    ensures Union(All(slots[i := s])) == (Union(All(slots)) - Holds(slots[i]).Keys) + Holds(s)
  {
    hide Good, Mug, Span, Holds, Union, Disjoint;
    RootApart(h, slots);
    RootApart(h, slots[i := s]);
    assert All(slots[i := s]) == All(slots)[i := Holds(s)];
    UnionSwap(All(slots), i, Holds(s));
  }

  ghost function WarmKeys(m: Lines): set<Noun> { set k | k in m && m[k].warm }

  // Some key of a table that has one.
  ghost function Pick(m: Lines): Noun
  {
    if |m| == 0 then Atom(0) else var k :| k in m; k
  }

  lemma ChilledFewer(m: Lines, n: Lines)
    requires Cooled(m, n, {})
    ensures |WarmKeys(n)| <= |WarmKeys(m)| && (Chilled(m, n) ==> |WarmKeys(n)| < |WarmKeys(m)|)
  {
    var a, b := WarmKeys(m), WarmKeys(n);
    assert b <= a;
    assert |a| == |b| + |a - b| by { assert b + (a - b) == a; }
    if Chilled(m, n) {
      var k :| k in m && k in n && m[k].warm && !n[k].warm;
      assert k in a - b;
    }
  }

  lemma CooledSize(m: Lines, n: Lines, gone: set<Noun>)
    requires Cooled(m, n, gone)
    ensures |n| == |m| - |gone|
  {
    assert |m.Keys| == |n.Keys| + |gone| by { assert n.Keys + gone == m.Keys && n.Keys !! gone; }
  }

  // Lines that were there before with the same value, no warmer.
  ghost predicate Survives(m: Lines, n: Lines) {
    forall k :: k in n ==> k in m && n[k].val == m[k].val && (n[k].warm ==> m[k].warm)
  }

  // The slot itself is an entry with that key.
  predicate InRoot(slots: seq<Slot>, i: nat, key: Noun) { i < |slots| && slots[i].Kev? && slots[i].key == key }

  // Lines, and where the arm is.
  datatype Moment = Moment(lines: Lines, arm: Arm)

  ghost predicate Stepped(h: Hash, a: Moment, b: Moment) { exists did :: Ticks(h, 5, a.lines, b.lines, a.arm, b.arm, did) }

  // The clock turned step by step, while there are more than `limit` lines.
  ghost predicate Winds(h: Hash, trail: seq<Moment>, limit: nat) {
    |trail| > 0 && forall i {:trigger trail[i]} :: 0 <= i < |trail| - 1 ==> |trail[i].lines| > limit && Stepped(h, trail[i], trail[i + 1])
  }

  ghost predicate Wound(h: Hash, a: Moment, b: Moment, limit: nat) {
    |b.lines| <= limit && exists trail :: Winds(h, trail, limit) && trail[0] == a && trail[|trail| - 1] == b
  }

  lemma WindsOne(h: Hash, a: Moment, limit: nat)
    ensures Winds(h, [a], limit)
  {
  }

  lemma WindsMore(h: Hash, trail: seq<Moment>, limit: nat, b: Moment)
    requires Winds(h, trail, limit) && |trail[|trail| - 1].lines| > limit && Stepped(h, trail[|trail| - 1], b)
    ensures Winds(h, trail + [b], limit)
  {
    hide Stepped;
    var more := trail + [b];
    forall i | 0 <= i < |more| - 1 ensures |more[i].lines| > limit && Stepped(h, more[i], more[i + 1]) {
      assert more[i] == trail[i] && (i < |trail| - 1 ==> more[i + 1] == trail[i + 1]);
    }
  }

  /** The root table. */
  class Table {
    const h: Hash
    const max: nat
    var slots: seq<Slot>
    var use: nat
    var arm: Arm

    ghost predicate Valid()
      reads this
    {
      Rooted(h, slots) && arm.mug < TOP && use == |Contents()|
    }

    ghost function Contents(): Lines
      reads this
    {
      Union(All(slots))
    }

    // An empty table; `limit` is the number of lines to keep, 0 for all.
    constructor (hash: Hash, limit: nat)
      ensures Valid() && Contents() == map[] && h == hash && max == limit && arm == Arm(0, 0)
    {
      h, max := hash, limit;
      slots, use, arm := seq(64, _ => Null), 0, Arm(0, 0);
      new;
      forall k ensures k !in Union(All(slots)) { UnionNot(All(slots), k); }
    }

    // Put an entry in, without trimming.
    method Add(key: Noun, val: Noun)
      requires Valid()
      modifies this`slots, this`use
      ensures Valid() && Contents() == old(Contents())[key := Line(val, true)]
    {
      hide Good, Mug, Holds, Union, Rooted;
      var mug := Mug(h, key);
      var i, rem := mug / Span(5), mug % Span(5);
      RootIndex(mug);
      RootSize(h, slots);
      RootHas(h, slots, key, i);
      RootWithin(h, slots, i);
      var s, more := slots[i], 1;
      if s.Null? {
        s := Kev(key, Line(val, true));
        KevGood(h, key, s.line, 5, i);
        NullHolds();
      } else {
        RootGood(h, slots, i);
        s, more := SlotPut(h, s, key, val, 5, rem, i);
      }
      RootSwap(h, slots, i, s);
      SwapAdds(Contents(), Holds(slots[i]), key, Line(val, true));
      slots := slots[i := s];
      use := use + more;
    }

    /** Put an entry in; a cache is then trimmed to its limit. */
    method Put(key: Noun, val: Noun)
      requires Valid()
      modifies this
      ensures Valid()
      ensures max == 0 ==> Contents() == old(Contents())[key := Line(val, true)]
      ensures max > 0 ==>
                var full := old(Contents())[key := Line(val, true)];
                && Survives(full, Contents()) && use == (if |full| > max then max else |full|)
                && Wound(h, Moment(full, old(arm)), Moment(Contents(), arm), max)
    {
      Add(key, val);
      if max > 0 {
        TrimTo(max);
      }
    }

    /** Look a key up; an entry found in the root itself is warmed. */
    method Git(key: Noun) returns (r: Option<Noun>)
      requires Valid()
      modifies this`slots
      ensures Valid() && r == Get(old(Contents()), key)
      ensures InRoot(old(slots), Mug(h, key) / Span(5), key) ==> r.Some? && Contents() == old(Contents())[key := Line(r.value, true)]
      ensures !InRoot(old(slots), Mug(h, key) / Span(5), key) ==> Contents() == old(Contents())
    {
      hide Good, Mug, Holds, Union, Rooted;
      var mug := Mug(h, key);
      var i, rem := mug / Span(5), mug % Span(5);
      RootIndex(mug);
      RootSize(h, slots);
      RootHas(h, slots, key, i);
      RootWithin(h, slots, i);
      var s := slots[i];
      if s.Null? {
        NullHolds();
        return None;
      }
      RootGood(h, slots, i);
      HoldsFew(h, s, 5, i);
      if s.Node? {
        r := NodeGit(h, s, 5, rem, key, i);
      } else if s.key != key {
        r := None;
      } else {
        r := Some(s.line.val);
        Warmed(h, slots, i, key, s.line.val);
        slots := slots[i := Kev(key, Line(s.line.val, true))];
      }
    }

    /** One step of the clock: evict one cold entry, or move on. */
    method TrimRoot() returns (did: bool, ghost gone: set<Noun>)
      requires Valid()
      modifies this`slots, this`arm
      ensures Rooted(h, slots) && arm.mug < TOP && Cooled(old(Contents()), Contents(), gone)
      ensures Ticks(h, 5, old(Contents()), Contents(), old(arm), arm, did)
      ensures if did then Evicted(old(Contents()), gone) else gone == {} && Progress(h, 5, old(Contents()), Contents(), old(arm), arm)
    {
      hide Good, Mug, Holds, Union, Rooted, Skip, Trimmed, Passes, Cooled, Chilled, Evicted, Ticks;
      var i, rem := arm.mug / Span(5), arm.mug % Span(5);
      RootIndex(arm.mug);
      RootSize(h, slots);
      var s := slots[i];
      if s.Null? {
        PassesEmpty(h, slots, i, arm.mug);
        SkipLands(arm.mug, 5);
        CooledSame(Contents());
        EmptyTicks(h, slots, i, arm);
        arm := Arm(Skip(arm.mug, 5), arm.inx);
        return false, {};
      }
      RootGood(h, slots, i);
      var t, arm';
      t, did, arm', gone := TrimSlot(h, s, 5, rem, arm, i);
      RootTrimmed(h, slots, i, arm, t, did, arm', gone);
      TrimmedSlot(h, s, 5, i, arm, t, did, arm', gone);
      RootTicks(h, slots, i, arm, t, did, arm');
      slots, arm := slots[i := t], arm';
    }

    /** Turn the clock until at most `n` entries are left. */
    method TrimTo(n: nat)
      requires Valid()
      modifies this`slots, this`use, this`arm
      ensures Valid() && use == (if old(use) > n then n else old(use))
      ensures Survives(old(Contents()), Contents())
      ensures old(use) <= n ==> Contents() == old(Contents())
      ensures Wound(h, Moment(old(Contents()), old(arm)), Moment(Contents(), arm), n)
    {
      hide Good, Mug, Holds, Union, Rooted, Skip, Evicted, Chilled, Passes, Cooled, Progress, WarmKeys, Pick, Dist, Survives, Ticks, Winds;
      SurvivesAll(Contents());
      ghost var trail := [Moment(Contents(), arm)];
      WindsOne(h, trail[0], n);
      while use > n
        invariant Valid() && use <= old(use) && (old(use) > n ==> use >= n)
        invariant Survives(old(Contents()), Contents()) && (old(use) <= n ==> Contents() == old(Contents()))
        invariant |trail| > 0 && Winds(h, trail, n) && trail[0] == Moment(old(Contents()), old(arm)) && trail[|trail| - 1] == Moment(Contents(), arm)
        decreases use, |WarmKeys(Contents())|, arm.inx, Dist(arm.mug, Mug(h, Pick(Contents())))
      {
        ghost var was, arm0 := Contents(), arm;
        var did, gone := TrimRoot();
        assert Stepped(h, Moment(was, arm0), Moment(Contents(), arm));
        WindsMore(h, trail, n, Moment(Contents(), arm));
        trail := trail + [Moment(Contents(), arm)];
        CooledSize(was, Contents(), gone);
        SurvivesMore(old(Contents()), was, Contents(), gone);
        if did {
          EvictedOne(was, gone);
          use := use - 1;
        } else {
          Turned(h, was, Contents(), arm0, arm);
        }
      }
    }
  }

  lemma Warmed(h: Hash, slots: seq<Slot>, i: nat, key: Noun, val: Noun)
    requires Rooted(h, slots) && i < 64 && slots[i].Kev? && slots[i].key == key && Mug(h, key) / Span(5) == i
    ensures var now, t := Union(All(slots)), slots[i := Kev(key, Line(val, true))];
            Rooted(h, t) && key in now && Union(All(t)) == now[key := Line(val, true)] && |Union(All(t))| == |now|
  {
    hide Good, Mug, Holds, Union;
    RootHas(h, slots, key, i);
    RootWithin(h, slots, i);
    HoldsFew(h, slots[i], 5, i);
    KevGood(h, key, Line(val, true), 5, i);
    RootSwap(h, slots, i, Kev(key, Line(val, true)));
    SwapAdds(Union(All(slots)), Holds(slots[i]), key, Line(val, true));
    var m := Union(All(slots));
    assert m[key := Line(val, true)].Keys == m.Keys;
  }

  lemma SurvivesAll(m: Lines)
    ensures Survives(m, m)
  {
  }

  lemma SurvivesMore(m: Lines, n: Lines, o: Lines, gone: set<Noun>)
    requires Survives(m, n) && Cooled(n, o, gone)
    ensures Survives(m, o)
  {
  }

  /** A step that evicts nothing leaves fewer warm lines, or an arm that is
      nearer to its next stop. */
  lemma Turned(h: Hash, m: Lines, n: Lines, arm: Arm, arm': Arm)
    requires arm.mug < TOP && arm'.mug < TOP && |m| > 0 && Cooled(m, n, {}) && Progress(h, 5, m, n, arm, arm')
    ensures || |WarmKeys(n)| < |WarmKeys(m)|
            || (n == m && arm'.inx < arm.inx)
            || (n == m && arm'.inx == arm.inx && Dist(arm'.mug, Mug(h, Pick(n))) < Dist(arm.mug, Mug(h, Pick(m))))
  {
    hide Mug, Skip, Passes, Cooled, Chilled, WarmKeys, Pick, Dist;
    ChilledFewer(m, n);
    if !Chilled(m, n) && arm'.inx >= arm.inx { Nearer(h, m, arm.mug, arm'.mug); }
  }

  lemma RootSize(h: Hash, slots: seq<Slot>)
    requires Rooted(h, slots)
    ensures |slots| == 64
  {
  }

  lemma NullHolds()
    ensures Holds(Null) == map[]
  {
  }

  lemma RootGood(h: Hash, slots: seq<Slot>, i: nat)
    requires Rooted(h, slots) && i < 64 && !slots[i].Null?
    ensures Good(h, slots[i], 5, i) && !slots[i].Buck?
  {
  }

  lemma CooledSame(m: Lines)
    ensures Cooled(m, m, {})
  {
  }

  lemma EvictedOne(m: Lines, gone: set<Noun>)
    requires Evicted(m, gone)
    ensures |gone| == 1
  {
  }

  // An empty slot of the root.
  lemma PassesEmpty(h: Hash, slots: seq<Slot>, i: nat, mug: nat)
    requires Rooted(h, slots) && mug < TOP && i == mug / Span(5) && i < 64 && slots[i].Null?
    ensures Passes(h, 5, Union(All(slots)), mug, Skip(mug, 5))
  {
    hide Mug, Span, Good, Union, Skip, Rooted;
    RootSize(h, slots);
    forall k | k in Union(All(slots)) ensures Mug(h, k) / Span(5) != mug / Span(5) {
      var j := UnionOwner(All(slots), k);
      RootPath(h, slots, j, k);
    }
  }

  lemma EmptyTicks(h: Hash, slots: seq<Slot>, i: nat, arm: Arm)
    requires Rooted(h, slots) && arm.mug < TOP && i == arm.mug / Span(5) && i < 64 && slots[i].Null?
    ensures var m := Union(All(slots)); Skip(arm.mug, 5) >= 0 && Ticks(h, 5, m, m, arm, Arm(Skip(arm.mug, 5), arm.inx), false)
  {
    SkipLands(arm.mug, 5);
    hide Mug, Span, Good, Union, Skip, Rooted;
    RootSize(h, slots);
    var m := Union(All(slots));
    forall k | k in m ensures Mug(h, k) / Span(5) != arm.mug / Span(5) {
      var j := UnionOwner(All(slots), k);
      RootPath(h, slots, j, k);
    }
    hide Ticks;
    HoleTick(h, 5, 5, m, arm);
  }

  lemma RootTicks(h: Hash, slots: seq<Slot>, i: nat, arm: Arm, t: Slot, did: bool, arm': Arm)
    requires Rooted(h, slots) && arm.mug < TOP && i == arm.mug / Span(5) && i < 64 && (t.Null? || Good(h, t, 5, i))
    requires Ticks(h, 5, Holds(slots[i]), Holds(t), arm, arm', did)
    ensures Ticks(h, 5, Union(All(slots)), Union(All(slots[i := t])), arm, arm', did)
  {
    hide Mug, Span, Good, Union, Skip, Rooted, Holds, Ticks;
    RootSize(h, slots);
    RootSwap(h, slots, i, t);
    RootWithin(h, slots, i);
    var m, part := Union(All(slots)), Holds(slots[i]);
    forall k | k in m && k !in part ensures Mug(h, k) / Span(5) != arm.mug / Span(5) {
      if Mug(h, k) / Span(5) == i { RootHas(h, slots, k, i); }
    }
    TicksWhole(h, 5, part, Holds(t), m, arm, arm', did);
  }

  lemma RootTrimmed(h: Hash, slots: seq<Slot>, i: nat, arm: Arm, t: Slot, did: bool, arm': Arm, gone: set<Noun>)
    requires Rooted(h, slots) && arm.mug < TOP && i == arm.mug / Span(5) && i < 64
    requires Trimmed(h, slots[i], 5, i, arm, t, did, arm', gone)
    ensures var m, n := Union(All(slots)), Union(All(slots[i := t]));
            && Rooted(h, slots[i := t]) && arm'.mug < TOP && Cooled(m, n, gone)
            && (if did then Evicted(m, gone) else gone == {} && Progress(h, 5, m, n, arm, arm'))
  {
    hide Mug, Span, Good, Union, Skip, Rooted, Holds, Cooled, Evicted, Chilled, Passes;
    RootSize(h, slots);
    TrimmedSlot(h, slots[i], 5, i, arm, t, did, arm', gone);
    RootSwap(h, slots, i, t);
    RootWithin(h, slots, i);
    var m, part := Union(All(slots)), Holds(slots[i]);
    CooledWhole(m, part, Holds(t), gone);
    if !did && !Chilled(part, Holds(t)) && arm'.inx == arm.inx {
      forall k | k in m && k !in part ensures Mug(h, k) / Span(5) != arm.mug / Span(5) {
        if Mug(h, k) / Span(5) == i { RootHas(h, slots, k, i); }
      }
      PassesWhole(h, 5, part, m, arm.mug, arm'.mug);
    }
  }

  lemma Nearer(h: Hash, m: Lines, mug: nat, mug': nat)
    requires mug < TOP && |m| > 0 && mug' < TOP && Passes(h, 5, m, mug, mug')
    ensures Dist(mug', Mug(h, Pick(m))) < Dist(mug, Mug(h, Pick(m)))
  {
    hide Mug, Span, Skip;
    var e: nat :| e <= 5 && mug' == Skip(mug, e) && forall k :: k in m ==> Mug(h, k) / Span(e) != mug / Span(e);
    SkipNearer(mug, e, Mug(h, Pick(m)));
  }

  // ---- whole runs ----

  // A plain map after a sequence of puts.
  function Plain(kvs: seq<(Noun, Noun)>): map<Noun, Noun> {
    if kvs == [] then map[] else Plain(kvs[..|kvs| - 1])[kvs[|kvs| - 1].0 := kvs[|kvs| - 1].1]
  }

  // The same keys with the same values.
  ghost predicate Agrees(m: Lines, p: map<Noun, Noun>) {
    m.Keys == p.Keys && forall k :: k in p ==> m[k].val == p[k]
  }

  /** After any sequence of puts an untrimmed table is the plain map: every
      lookup agrees, and so does the count. */
  method PutAll(t: Table, kvs: seq<(Noun, Noun)>, key: Noun) returns (r: Option<Noun>)
    requires t.Valid() && t.max == 0 && t.Contents() == map[]
    modifies t
    ensures t.Valid() && Agrees(t.Contents(), Plain(kvs)) && t.use == |Plain(kvs)|
    ensures r == if key in Plain(kvs) then Some(Plain(kvs)[key]) else None
  {
    hide Rooted, Union, Agrees, Plain;
    var i := 0;
    PlainNone(kvs);
    while i < |kvs|
      invariant i <= |kvs| && t.Valid() && Agrees(t.Contents(), Plain(kvs[..i]))
    {
      PlainNext(kvs, i, t.Contents());
      t.Put(kvs[i].0, kvs[i].1);
      i := i + 1;
    }
    assert kvs[..|kvs|] == kvs;
    SameSize(t.Contents(), Plain(kvs));
    ghost var m := t.Contents();
    r := t.Git(key);
    Looked(m, t.Contents(), Plain(kvs), key, r);
  }

  lemma PlainNone(kvs: seq<(Noun, Noun)>)
    ensures Agrees(map[], Plain(kvs[..0]))
  {
  }

  lemma PlainNext(kvs: seq<(Noun, Noun)>, i: nat, m: Lines)
    requires i < |kvs| && Agrees(m, Plain(kvs[..i]))
    ensures Agrees(m[kvs[i].0 := Line(kvs[i].1, true)], Plain(kvs[..i + 1]))
  {
    assert kvs[..i + 1][..i] == kvs[..i];
  }

  // A lookup gives what the plain map gives and leaves it agreeing.
  lemma Looked(m: Lines, n: Lines, p: map<Noun, Noun>, key: Noun, r: Option<Noun>)
    requires Agrees(m, p) && r == Get(m, key)
    requires n == m || (key in m && n == m[key := Line(r.value, true)])
    ensures Agrees(n, p) && r == if key in p then Some(p[key]) else None
  {
  }

  lemma SameSize(m: Lines, p: map<Noun, Noun>)
    requires Agrees(m, p)
    ensures |m| == |p|
  {
    assert |m.Keys| == |p.Keys|;
  }
}
