/** The snapshot patch protocol: saving and recovering a pair of image files
    through a patch.  The process may die or power may fail after any step, and
    file contents reach the disk late, in any order. */
module Snapshot {
  import opened Nouns

  type Page = seq<nat>
  const ZERO: Page := []

  datatype Images = Images(north: seq<Page>, south: seq<Page>)
  datatype Line = Line(pag: nat, mug: nat)
  datatype Control = Control(ver: nat, nor: nat, sou: nat, lines: seq<Line>)
  datatype Patch = Patch(c: Control, pages: seq<Page>)

  // control.bin: absent, not completely written, or a control block.
  datatype CtlFile = NoCtl | Torn | Ctl(c: Control)
  // memory.bin
  datatype MemFile = NoMem | Mem(pages: seq<Page>)

  datatype Disk = Disk(img: Images, ctl: CtlFile, mem: MemFile)

  /** Pages of the loom, and the checksum of a page. */
  datatype Env = Env(total: nat, mug: Page -> nat)

  /** Where the process is: saving, applying a patch, or starting up. */
  datatype Pc =
    | Idle
    | NewCtl | NewMem | PutPage(i: nat) | PutCtl | SyncCtl | SyncMem | Check
    | CutN | CutS | PutImg(i: nat) | SyncN | SyncS
    | DelCtl | DelMem
    | Open
    | Aborted

  /** `cache` is what a process sees, `dur` what survives a power failure.  The
      last three fields are history: the last images known to be whole, the
      last patch begun, and the images it leads to. */
  datatype State = State(cache: Disk, dur: Disk, pc: Pc, patch: Patch,
                         base: Images, job: Patch, target: Images)

  // ---- patches ----

  // The image and page that line `i` goes to.
  function North(c: Control, i: nat): bool
    requires i < |c.lines|
  {
    c.lines[i].pag < c.nor
  }

  function Place(e: Env, c: Control, i: nat): int
    requires i < |c.lines|
  {
    if North(c, i) then c.lines[i].pag else e.total - (c.lines[i].pag + 1)
  }

  // The page that the first `n` lines leave at place `j` of an image.
  function Over(e: Env, p: Patch, n: nat, north: bool, j: nat): Option<Page>
    requires n <= |p.c.lines| <= |p.pages|
  {
    if n == 0 then None
    else if North(p.c, n - 1) == north && Place(e, p.c, n - 1) == j then Some(p.pages[n - 1])
    else Over(e, p, n - 1, north, j)
  }

  function Len(c: Control, north: bool): nat { if north then c.nor else c.sou }
  function Side(img: Images, north: bool): seq<Page> { if north then img.north else img.south }

  // An image with all of a patch in it.
  function FinalSide(e: Env, img: seq<Page>, p: Patch, north: bool): (r: seq<Page>)
    requires |p.c.lines| <= |p.pages|
    ensures |r| == Len(p.c, north)
  {
    seq(Len(p.c, north), j requires 0 <= j < Len(p.c, north) =>
      var o := Over(e, p, |p.c.lines|, north, j);
      if o.Some? then o.value else if j < |img| then img[j] else ZERO)
  }

  function Final(e: Env, img: Images, p: Patch): Images
    requires |p.c.lines| <= |p.pages|
  {
    Images(FinalSide(e, img.north, p, true), FinalSide(e, img.south, p, false))
  }

  // Every page that the patch does not carry is in the image already.
  ghost predicate Covers(e: Env, img: seq<Page>, p: Patch, north: bool)
    requires |p.c.lines| <= |p.pages|
  {
    forall j: nat :: j < Len(p.c, north) && Over(e, p, |p.c.lines|, north, j).None? ==> j < |img|
  }

  /** A patch that takes the images `base` to `target`. */
  ghost predicate JobOk(e: Env, base: Images, p: Patch, target: Images) {
    && p.c.ver == 1 && |p.c.lines| == |p.pages|
    && (forall i: nat :: i < |p.pages| ==> e.mug(p.pages[i]) == p.c.lines[i].mug)
    && (forall i: nat :: i < |p.pages| ==> 0 <= Place(e, p.c, i) < Len(p.c, North(p.c, i)))
    && (forall i: nat, k: nat :: i < k < |p.pages| ==> p.c.lines[i].pag != p.c.lines[k].pag)
    && Covers(e, base.north, p, true) && Covers(e, base.south, p, false)
    && target == Final(e, base, p)
  }

  // The version matches and every page of the control block is there.
  predicate Verified(e: Env, c: Control, mem: MemFile) {
    && c.ver == 1 && mem.Mem? && |c.lines| <= |mem.pages|
    && forall i :: 0 <= i < |c.lines| ==> e.mug(mem.pages[i]) == c.lines[i].mug
  }

  // ---- the process ----

  function Cut(img: seq<Page>, n: nat): seq<Page> { if |img| > n then img[..n] else img }

  function Zeros(n: nat): (r: seq<Page>)
    ensures |r| == n
  {
    seq(n, _ => ZERO)
  }

  // Write one page at a place, past the end if need be.
  function Write(img: seq<Page>, at: nat, page: Page): (r: seq<Page>)
    ensures |r| == if at < |img| then |img| else at + 1
    ensures r[at] == page
    ensures forall j :: 0 <= j < |img| && j != at ==> r[j] == img[j]
  {
    if at < |img| then img[at := page] else img + Zeros(at - |img|) + [page]
  }

  function SetSide(img: Images, north: bool, s: seq<Page>): Images {
    if north then img.(north := s) else img.(south := s)
  }

  // Write line `i` of the patch from memory.bin into its image.
  function PutLine(e: Env, d: Disk, c: Control, i: nat): Disk {
    if i < |c.lines| && d.mem.Mem? && i < |d.mem.pages| && Place(e, c, i) >= 0 then
      var north := North(c, i);
      d.(img := SetSide(d.img, north, Write(Side(d.img, north), Place(e, c, i), d.mem.pages[i])))
    else d
  }

  /** One step of the process. */
  function Proc(e: Env, s: State): State {
    match s.pc
    case Idle => s
    case Aborted => s
    // create the patch files; both must be new
    case NewCtl =>
      if s.cache.ctl.NoCtl?
      then s.(cache := s.cache.(ctl := Torn), dur := s.dur.(ctl := Torn), pc := NewMem)
      else s.(pc := Aborted)
    case NewMem =>
      if s.cache.mem.NoMem?
      then s.(cache := s.cache.(mem := Mem([])), dur := s.dur.(mem := Mem([])), pc := PutPage(0))
      else s.(pc := Aborted)
    // write the dirty pages, then the control block
    case PutPage(i) =>
      if i < |s.patch.pages| && s.cache.mem.Mem?
      then s.(cache := s.cache.(mem := Mem(s.cache.mem.pages + [s.patch.pages[i]])), pc := PutPage(i + 1))
      else s.(pc := PutCtl)
    case PutCtl => s.(cache := s.cache.(ctl := Ctl(s.patch.c)), pc := SyncCtl)
    case SyncCtl => s.(dur := s.dur.(ctl := s.cache.ctl), pc := SyncMem)
    case SyncMem => s.(dur := s.dur.(mem := s.cache.mem), pc := Check)
    case Check => s.(pc := if Verified(e, s.patch.c, s.cache.mem) then CutN else Aborted)
    // apply it
    case CutN =>
      s.(cache := s.cache.(img := s.cache.img.(north := Cut(s.cache.img.north, s.patch.c.nor))), pc := CutS)
    case CutS =>
      s.(cache := s.cache.(img := s.cache.img.(south := Cut(s.cache.img.south, s.patch.c.sou))), pc := PutImg(0))
    case PutImg(i) =>
      if i < |s.patch.c.lines|
      then s.(cache := PutLine(e, s.cache, s.patch.c, i), pc := PutImg(i + 1))
      else s.(pc := SyncN)
    case SyncN => s.(dur := s.dur.(img := s.dur.img.(north := s.cache.img.north)), pc := SyncS)
    case SyncS =>
      s.(dur := s.dur.(img := s.dur.img.(south := s.cache.img.south)), pc := DelCtl, base := s.target)
    case DelCtl => s.(cache := s.cache.(ctl := NoCtl), dur := s.dur.(ctl := NoCtl), pc := DelMem)
    case DelMem => s.(cache := s.cache.(mem := NoMem), dur := s.dur.(mem := NoMem), pc := Idle)
    // start up: look for a patch
    case Open =>
      if s.cache.ctl.NoCtl? then s.(pc := Idle)
      else if s.cache.ctl.Ctl? && Verified(e, s.cache.ctl.c, s.cache.mem)
      then s.(patch := Patch(s.cache.ctl.c, s.cache.mem.pages), pc := CutN)
      else s.(pc := DelCtl)
  }

  /** What can happen: the process moves, the operating system writes something
      back (control block whole or torn, memory.bin in any state, one page or
      one length of an image), the process dies and is started again, power
      fails, or a save begins. */
  datatype Action =
    | Move
    | Kill
    | Crash
    | FlushCtl(torn: bool)
    | FlushMem(exact: bool, junk: seq<Page>)
    | FlushPage(north: bool, j: nat)
    | FlushLen(north: bool, filler: Page)
    | Save(patch: Patch, to: Images)

  function FlushSideLen(dur: seq<Page>, cache: seq<Page>, junk: Page): seq<Page> {
    if |dur| > |cache| then dur[..|cache|] else if |dur| < |cache| then dur + [junk] else dur
  }

  ghost function Next(e: Env, s: State, a: Action): State {
    match a
    case Move => Proc(e, s)
    case Kill => s.(pc := Open)
    case Crash => s.(cache := s.dur, pc := Open, base := if s.dur.img == s.target then s.target else s.base)
    case FlushCtl(torn) =>
      if s.dur.ctl == s.cache.ctl then s
      else s.(dur := s.dur.(ctl := if torn && s.cache.ctl.Ctl? then Torn else s.cache.ctl))
    case FlushMem(exact, junk) =>
      if s.dur.mem == s.cache.mem then s
      else s.(dur := s.dur.(mem := if exact then s.cache.mem else Mem(junk)))
    case FlushPage(north, j) =>
      var d, c := Side(s.dur.img, north), Side(s.cache.img, north);
      if j < |d| && j < |c| then s.(dur := s.dur.(img := SetSide(s.dur.img, north, d[j := c[j]]))) else s
    case FlushLen(north, filler) =>
      var d, c := Side(s.dur.img, north), Side(s.cache.img, north);
      s.(dur := s.dur.(img := SetSide(s.dur.img, north, FlushSideLen(d, c, filler))))
    // with no page dirty there is no patch, and nothing happens
    case Save(p, to) =>
      if s.pc == Idle && JobOk(e, s.base, p, to) && p.pages != []
      then s.(pc := NewCtl, patch := p, job := p, target := to) else s
  }

  ghost function RunAll(e: Env, s: State, as_: seq<Action>): State
    decreases |as_|
  {
    if as_ == [] then s else RunAll(e, Next(e, s, as_[0]), as_[1..])
  }

  // ---- the invariant ----

  // Each page is the old one or will be overwritten.
  ghost predicate Mixed(e: Env, img: seq<Page>, base: seq<Page>, p: Patch, north: bool)
    requires |p.c.lines| <= |p.pages|
  {
    forall j: nat :: j < Len(p.c, north) && Over(e, p, |p.c.lines|, north, j).None? ==>
      j < |img| && j < |base| && img[j] == base[j]
  }

  ghost predicate MixedImages(e: Env, img: Images, base: Images, p: Patch)
    requires |p.c.lines| <= |p.pages|
  {
    Mixed(e, img.north, base.north, p, true) && Mixed(e, img.south, base.south, p, false)
  }

  // The first `n` lines are in the image.
  ghost predicate Written(e: Env, img: seq<Page>, p: Patch, n: nat, north: bool)
    requires n <= |p.c.lines| <= |p.pages|
  {
    forall j: nat :: WrittenAt(e, img, p, n, north, j)
  }

  predicate WrittenAt(e: Env, img: seq<Page>, p: Patch, n: nat, north: bool, j: nat)
    requires n <= |p.c.lines| <= |p.pages|
  {
    var o := Over(e, p, n, north, j);
    o.Some? ==> j < |img| && img[j] == o.value
  }

  // memory.bin has the pages of a patch.
  predicate Whole(p: Patch, mem: MemFile) { mem.Mem? && p.pages <= mem.pages }

  ghost predicate WholePatch(s: State, d: Disk) { d.ctl == Ctl(s.job.c) && Whole(s.job, d.mem) }

  predicate CtlKnown(s: State, f: CtlFile) { f == NoCtl || f == Torn || f == Ctl(s.job.c) }

  ghost predicate Settled(s: State) { s.cache.img == s.base && s.dur.img == s.base }

  // The checksums do not take something else for the pages of the patch.
  ghost predicate Tells(e: Env, p: Patch, mem: MemFile) { Verified(e, p.c, mem) ==> Whole(p, mem) }

  // A patch is being applied, and the images are mixed.
  ghost predicate Applying(e: Env, s: State) {
    && WholePatch(s, s.cache) && s.patch.c == s.job.c && |s.job.c.lines| <= |s.job.pages|
    && MixedImages(e, s.cache.img, s.base, s.job) && MixedImages(e, s.dur.img, s.base, s.job)
  }

  // What is known of the control file.
  ghost predicate CtlOk(e: Env, s: State) {
    && CtlKnown(s, s.cache.ctl) && CtlKnown(s, s.dur.ctl)
    && (s.cache.ctl.NoCtl? <==> s.dur.ctl.NoCtl?) && (s.dur.ctl.Ctl? ==> s.cache.ctl.Ctl?)
    && (s.cache.ctl.Ctl? ==> Tells(e, s.job, s.cache.mem) && Tells(e, s.job, s.dur.mem))
  }

  ghost predicate Begun(s: State) { Settled(s) && s.patch == s.job && s.job.pages != [] }

  ghost predicate Inv(e: Env, s: State) {
    && JobOk(e, s.base, s.job, s.target) && CtlOk(e, s)
    && match s.pc
       case Idle => Settled(s) && s.cache.ctl.NoCtl?
       case NewCtl => Begun(s) && s.cache.ctl.NoCtl?
       case NewMem => Begun(s) && s.cache.ctl.Torn?
       case PutPage(i) =>
         && Begun(s) && s.cache.ctl.Torn? && Tells(e, s.job, s.dur.mem)
         && i <= |s.job.pages| && s.cache.mem == Mem(s.job.pages[..i])
       case PutCtl => Begun(s) && s.cache.ctl.Torn? && Tells(e, s.job, s.dur.mem) && s.cache.mem == Mem(s.job.pages)
       case SyncCtl => Begun(s) && s.cache.mem == Mem(s.job.pages) && s.cache.ctl.Ctl?
       case SyncMem => Begun(s) && s.cache.mem == Mem(s.job.pages) && s.dur.ctl.Ctl?
       case Check => Begun(s) && Applying(e, s)
       case CutN => Applying(e, s)
       case CutS => Applying(e, s) && |s.cache.img.north| <= s.job.c.nor
       case PutImg(i) =>
         && Applying(e, s) && i <= |s.job.c.lines|
         && |s.cache.img.north| <= s.job.c.nor && |s.cache.img.south| <= s.job.c.sou
         && Written(e, s.cache.img.north, s.job, i, true) && Written(e, s.cache.img.south, s.job, i, false)
       case SyncN => Applying(e, s) && s.cache.img == s.target
       case SyncS => Applying(e, s) && s.cache.img == s.target && s.dur.img.north == s.target.north
       case DelCtl => Settled(s)
       case DelMem => Settled(s) && s.cache.ctl.NoCtl?
       case Open =>
         || Settled(s)
         || (WholePatch(s, s.cache) && MixedImages(e, s.cache.img, s.base, s.job) && MixedImages(e, s.dur.img, s.base, s.job))
       case Aborted => Settled(s) && s.cache.ctl.Torn?
  }

  /** The images on disk are neither the old nor the new ones, and the patch
      that would finish them is not there. */
  ghost predicate Lost(s: State) { !WholePatch(s, s.dur) && s.dur.img != s.base && s.dur.img != s.target }

  // A write-back of memory.bin, in whatever state, passes for whole only if it
  // is; everything else is unrestricted.
  ghost predicate Told(e: Env, s: State, a: Action) { a.FlushMem? && !a.exact ==> Tells(e, s.job, Mem(a.junk)) }

  // ---- every step keeps the invariant ----

  // What has the patch's own pages is verified.
  lemma WholeVerified(e: Env, base: Images, p: Patch, target: Images, mem: MemFile)
    requires JobOk(e, base, p, target) && Whole(p, mem)
    ensures Verified(e, p.c, mem)
  {
    hide Covers, Final, Place;
    forall i | 0 <= i < |p.c.lines| ensures e.mug(mem.pages[i]) == p.c.lines[i].mug { assert mem.pages[i] == p.pages[i]; }
  }

  // A first part of the pages is not verified, unless it is all of them.
  lemma PrefixTells(e: Env, base: Images, p: Patch, target: Images, i: nat)
    requires JobOk(e, base, p, target) && i <= |p.pages|
    ensures Tells(e, p, Mem(p.pages[..i]))
  {
  }

  lemma BaseMixed(e: Env, s: State)
    requires JobOk(e, s.base, s.job, s.target)
    ensures |s.job.c.lines| == |s.job.pages| && MixedImages(e, s.base, s.base, s.job)
  {
  }

  lemma CutMixed(e: Env, img: seq<Page>, base: seq<Page>, p: Patch, north: bool)
    requires |p.c.lines| <= |p.pages| && Mixed(e, img, base, p, north)
    ensures Mixed(e, Cut(img, Len(p.c, north)), base, p, north)
  {
    hide Over;
  }

  // Writing the next line.
  lemma LineWritten(e: Env, img: seq<Page>, base: seq<Page>, p: Patch, i: nat, north: bool)
    requires i < |p.c.lines| == |p.pages| && 0 <= Place(e, p.c, i) < Len(p.c, North(p.c, i))
    requires |img| <= Len(p.c, north) && Mixed(e, img, base, p, north) && Written(e, img, p, i, north)
    ensures var w := if North(p.c, i) == north then Write(img, Place(e, p.c, i), p.pages[i]) else img;
            |w| <= Len(p.c, north) && Mixed(e, w, base, p, north) && Written(e, w, p, i + 1, north)
  {
    var at := Place(e, p.c, i);
    var w := if North(p.c, i) == north then Write(img, at, p.pages[i]) else img;
    hide Write;
    forall j: nat | j < Len(p.c, north) && Over(e, p, |p.c.lines|, north, j).None?
      ensures j < |w| && j < |base| && w[j] == base[j]
    {
      if Over(e, p, i + 1, north, j).Some? { OverKept(e, p, i + 1, |p.c.lines|, north, j); }
    }
    var n := i + 1;
    forall j: nat ensures WrittenAt(e, w, p, n, north, j) {
      assert WrittenAt(e, img, p, i, north, j);
      assert (North(p.c, i) == north && j == at) || Over(e, p, n, north, j) == Over(e, p, i, north, j);
    }
  }

  // A place written by some line stays written.
  lemma {:induction false} OverKept(e: Env, p: Patch, m: nat, n: nat, north: bool, j: nat)
    requires m <= n <= |p.c.lines| <= |p.pages| && Over(e, p, m, north, j).Some?
    ensures Over(e, p, n, north, j).Some?
    decreases n
  {
    if m < n { OverKept(e, p, m, n - 1, north, j); }
  }

  lemma OverAt(e: Env, p: Patch, n: nat, i: nat)
    requires i < n <= |p.c.lines| <= |p.pages| && Place(e, p.c, i) >= 0
    ensures Over(e, p, n, North(p.c, i), Place(e, p.c, i)).Some?
  {
    OverKept(e, p, i + 1, n, North(p.c, i), Place(e, p.c, i));
  }

  // With every line written, a mixed image is the final one.
  lemma AllWritten(e: Env, img: seq<Page>, base: seq<Page>, p: Patch, north: bool)
    requires |p.c.lines| <= |p.pages| && |img| <= Len(p.c, north)
    requires Mixed(e, img, base, p, north) && Written(e, img, p, |p.c.lines|, north)
    ensures img == FinalSide(e, base, p, north)
  {
    hide Over;
    var f, n := FinalSide(e, base, p, north), |p.c.lines|;
    forall j: nat | j < Len(p.c, north) ensures j < |img| && img[j] == f[j] {
      assert WrittenAt(e, img, p, n, north, j);
    }
    assert Len(p.c, north) > 0 ==> WrittenAt(e, img, p, n, north, Len(p.c, north) - 1);
  }

  // Applying a patch twice is applying it once.
  lemma FinalAgain(e: Env, base: Images, p: Patch, target: Images)
    requires JobOk(e, base, p, target)
    ensures JobOk(e, target, p, target)
  {
    hide Over;
    assert FinalSide(e, target.north, p, true) == target.north;
    assert FinalSide(e, target.south, p, false) == target.south;
  }

  lemma PutImgInv(e: Env, s: State)
    requires Inv(e, s) && s.pc.PutImg?
    ensures Inv(e, Proc(e, s))
  {
    hide Inv, Proc;
    PutImgJob(e, s);
    if s.pc.i < |s.job.c.lines| { PutImgNext(e, s); } else { PutImgDone(e, s); }
  }

  lemma PutImgJob(e: Env, s: State)
    requires Inv(e, s)
    ensures JobOk(e, s.base, s.job, s.target)
  {
  }

  lemma PutImgNext(e: Env, s: State)
    requires Inv(e, s) && s.pc.PutImg? && s.pc.i < |s.job.c.lines| && JobOk(e, s.base, s.job, s.target)
    ensures Inv(e, Proc(e, s))
  {
    hide Verified, Mixed, FinalSide;
    var i, p := s.pc.i, s.job;
    assert s.cache.mem.pages[i] == p.pages[i];
    LineWritten(e, s.cache.img.north, s.base.north, p, i, true);
    LineWritten(e, s.cache.img.south, s.base.south, p, i, false);
    hide Written, PutLine, Over, JobOk;
  }

  lemma PutImgDone(e: Env, s: State)
    requires Inv(e, s) && s.pc.PutImg? && s.pc.i >= |s.job.c.lines| && JobOk(e, s.base, s.job, s.target)
    ensures Inv(e, Proc(e, s))
  {
    hide Verified, Over, PutLine;
    AllWritten(e, s.cache.img.north, s.base.north, s.job, true);
    AllWritten(e, s.cache.img.south, s.base.south, s.job, false);
  }

  lemma ProcInv(e: Env, s: State)
    requires Inv(e, s)
    ensures Inv(e, Proc(e, s))
  {
    hide Over, Verified, Written, Mixed, JobOk, FinalSide, PutLine, Tells;
    match s.pc
    case PutImg(_) => PutImgInv(e, s);
    case NewMem => PrefixTells(e, s.base, s.job, s.target, 0);
    case PutPage(i) =>
      if i < |s.job.pages| { assert s.job.pages[..i] + [s.job.pages[i]] == s.job.pages[..i + 1]; }
      else { assert s.job.pages[..i] == s.job.pages; }
    case PutCtl =>
      PrefixTells(e, s.base, s.job, s.target, |s.job.pages|);
      assert s.job.pages[..|s.job.pages|] == s.job.pages;
    case SyncMem => BaseMixed(e, s);
    case Check => WholeVerified(e, s.base, s.job, s.target, s.cache.mem);
    case CutN => CutMixed(e, s.cache.img.north, s.base.north, s.job, true);
    case CutS =>
      CutMixed(e, s.cache.img.south, s.base.south, s.job, false);
      NothingWritten(e, s.cache.img.north, s.job, true);
      NothingWritten(e, Cut(s.cache.img.south, s.job.c.sou), s.job, false);
    case SyncS => FinalAgain(e, s.base, s.job, s.target);
    case Open => OpenInv(e, s);
    case _ =>
  }

  lemma OpenInv(e: Env, s: State)
    requires Inv(e, s) && s.pc == Open
    ensures Inv(e, Proc(e, s))
  {
    if s.cache.ctl.Ctl? {
      BaseMixed(e, s);
      if Whole(s.job, s.cache.mem) { WholeVerified(e, s.base, s.job, s.target, s.cache.mem); }
    }
    hide Over, Verified, Written, Mixed, JobOk, FinalSide, PutLine;
  }

  lemma NothingWritten(e: Env, img: seq<Page>, p: Patch, north: bool)
    requires |p.c.lines| <= |p.pages|
    ensures Written(e, img, p, 0, north)
  {
  }

  lemma FlushPageMixed(e: Env, d: seq<Page>, c: seq<Page>, base: seq<Page>, p: Patch, north: bool, j: nat)
    requires |p.c.lines| <= |p.pages| && Mixed(e, d, base, p, north) && Mixed(e, c, base, p, north)
    requires j < |d| && j < |c|
    ensures Mixed(e, d[j := c[j]], base, p, north)
  {
    hide Over;
  }

  lemma FlushLenMixed(e: Env, d: seq<Page>, c: seq<Page>, base: seq<Page>, p: Patch, north: bool, filler: Page)
    requires |p.c.lines| <= |p.pages| && Mixed(e, d, base, p, north) && Mixed(e, c, base, p, north)
    ensures Mixed(e, FlushSideLen(d, c, filler), base, p, north)
  {
    hide Over;
  }

  // Images on disk that differ from those in the cache may be mixed otherwise.
  lemma MixedDur(e: Env, s: State, img: Images)
    requires Inv(e, s) && s.dur.img != s.cache.img && |s.job.c.lines| <= |s.job.pages| && MixedImages(e, img, s.base, s.job)
    requires s.pc.SyncS? ==> img.north == s.target.north
    ensures Inv(e, s.(dur := s.dur.(img := img)))
  {
    hide MixedImages, Written, JobOk, Tells, Len;
  }

  lemma FlushInv(e: Env, s: State, a: Action)
    requires Inv(e, s) && (a.FlushPage? || a.FlushLen?)
    ensures Inv(e, Next(e, s, a))
  {
    hide Inv, MixedImages;
    if s.dur.img == s.cache.img {
      NoFlush(e, s, a);
    } else {
      InvMixed(e, s);
      if s.pc.SyncS? { FlushedNorth(e, s, a); }
      FlushMixed(e, s, a);
      MixedDur(e, s, Next(e, s, a).dur.img);
    }
  }

  lemma NoFlush(e: Env, s: State, a: Action)
    requires s.dur.img == s.cache.img && (a.FlushPage? || a.FlushLen?)
    ensures Next(e, s, a) == s
  {
    var d, c := Side(s.dur.img, a.north), Side(s.cache.img, a.north);
    if a.FlushPage? && a.j < |d| { assert d[a.j := c[a.j]] == d; }
  }

  lemma InvMixed(e: Env, s: State)
    requires Inv(e, s) && s.dur.img != s.cache.img
    ensures |s.job.c.lines| <= |s.job.pages| && MixedImages(e, s.cache.img, s.base, s.job) && MixedImages(e, s.dur.img, s.base, s.job)
  {
    hide Covers, Final, Verified, Written, Mixed, Tells, Place;
  }

  lemma FlushMixed(e: Env, s: State, a: Action)
    requires |s.job.c.lines| <= |s.job.pages| && MixedImages(e, s.cache.img, s.base, s.job) && MixedImages(e, s.dur.img, s.base, s.job)
    requires a.FlushPage? || a.FlushLen?
    ensures var t := Next(e, s, a); MixedImages(e, t.dur.img, s.base, s.job) && t == s.(dur := s.dur.(img := t.dur.img))
  {
    hide Mixed;
    var d, c, b := Side(s.dur.img, a.north), Side(s.cache.img, a.north), Side(s.base, a.north);
    if a.FlushPage? && a.j < |d| && a.j < |c| {
      FlushPageMixed(e, d, c, b, s.job, a.north, a.j);
    } else if a.FlushLen? {
      FlushLenMixed(e, d, c, b, s.job, a.north, a.filler);
    }
  }

  // What is on disk stays there.
  lemma FlushedNorth(e: Env, s: State, a: Action)
    requires Inv(e, s) && (a.FlushPage? || a.FlushLen?) && s.pc.SyncS?
    ensures Next(e, s, a).dur.img.north == s.target.north
  {
    hide JobOk, Tells, MixedImages;
    var d := s.dur.img.north;
    if a.FlushPage? && a.j < |d| { assert d[a.j := d[a.j]] == d; }
  }

  lemma FlushMemInv(e: Env, s: State, a: Action)
    requires Inv(e, s) && a.FlushMem? && Told(e, s, a)
    ensures Inv(e, Next(e, s, a))
  {
    if s.pc.PutPage? { PrefixTells(e, s.base, s.job, s.target, s.pc.i); }
    if s.pc.PutCtl? {
      PrefixTells(e, s.base, s.job, s.target, |s.job.pages|);
      assert s.job.pages[..|s.job.pages|] == s.job.pages;
    }
    hide Over, Verified, Written, MixedImages, JobOk, FinalSide, Tells;
  }

  // After a power failure at a time when nothing is lost.
  lemma CrashInv(e: Env, s: State)
    requires Inv(e, s) && !Lost(s)
    ensures Inv(e, Next(e, s, Crash))
  {
    hide Over, Verified, Written, Mixed, FinalSide, Tells;
    if s.dur.img == s.target { FinalAgain(e, s.base, s.job, s.target); }
    hide JobOk;
  }

  lemma NextInv(e: Env, s: State, a: Action)
    requires Inv(e, s) && Told(e, s, a) && (a.Crash? ==> !Lost(s))
    ensures Inv(e, Next(e, s, a))
  {
    hide Over, Verified, Written, Mixed, FinalSide, Proc, Tells, Lost;
    match a
    case Move => ProcInv(e, s);
    case FlushPage(_, _) => FlushInv(e, s, a);
    case FlushLen(_, _) => FlushInv(e, s, a);
    case FlushMem(_, _) => FlushMemInv(e, s, a);
    case Crash => CrashInv(e, s);
    case _ => hide JobOk;
  }

  // Write-backs pass for whole only if they are, all along a run.
  ghost predicate Honest(e: Env, s: State, as_: seq<Action>)
    decreases |as_|
  {
    as_ != [] ==> Told(e, s, as_[0]) && Honest(e, Next(e, s, as_[0]), as_[1..])
  }

  // Power fails only when nothing is lost.
  ghost predicate Powered(e: Env, s: State, as_: seq<Action>)
    decreases |as_|
  {
    as_ != [] ==> (as_[0].Crash? ==> !Lost(s)) && Powered(e, Next(e, s, as_[0]), as_[1..])
  }

  /** Whatever happens, in whatever order, the protocol's invariant holds, until
      power fails at a time when the images on disk are mixed and the patch is
      not there. */
  lemma {:induction false} RunInv(e: Env, s: State, as_: seq<Action>)
    requires Inv(e, s) && Honest(e, s, as_) && Powered(e, s, as_)
    ensures Inv(e, RunAll(e, s, as_))
    decreases |as_|
  {
    hide Next, Inv, Told, Lost;
    if as_ != [] {
      NextInv(e, s, as_[0]);
      RunInv(e, Next(e, s, as_[0]), as_[1..]);
    }
  }

  // ---- recovery and saving, left alone, come to an end ----

  function Lines(s: State): nat {
    if s.pc.Open? && s.cache.ctl.Ctl? then |s.cache.ctl.c.lines| else |s.patch.c.lines|
  }

  // Steps left before the process is idle or has aborted.
  function Rank(s: State): nat {
    var n, m := Lines(s), |s.patch.pages|;
    match s.pc
    case Idle => 0
    case Aborted => 0
    case DelMem => 1
    case DelCtl => 2
    case SyncS => 3
    case SyncN => 4
    case PutImg(i) => 5 + if i < n then n - i else 0
    case CutS => 6 + n
    case CutN => 7 + n
    case Open => 8 + n
    case Check => 8 + n
    case SyncMem => 9 + n
    case SyncCtl => 10 + n
    case PutCtl => 11 + n
    case PutPage(i) => 12 + n + if i < m then m - i else 0
    case NewMem => 13 + n + m
    case NewCtl => 14 + n + m
  }

  lemma RankFalls(e: Env, s: State)
    requires s.pc != Idle && s.pc != Aborted
    ensures Rank(Proc(e, s)) < Rank(s)
  {
    hide Verified, PutLine, Cut;
  }

  // Run the process, undisturbed, until it stops.
  function Settle(e: Env, s: State): State
    decreases Rank(s)
  {
    if s.pc == Idle || s.pc == Aborted then s
    else hide Proc, Rank; RankFalls(e, s); Settle(e, Proc(e, s))
  }

  lemma SettleStep(e: Env, s: State)
    requires s.pc != Idle && s.pc != Aborted
    ensures Settle(e, s) == Settle(e, Proc(e, s))
  {
    hide Proc, Rank;
  }

  lemma SettleIdle(e: Env, s: State)
    requires s.pc == Idle || s.pc == Aborted
    ensures Settle(e, s) == s
  {
  }

  // What the process never forgets.
  lemma ProcKeeps(e: Env, s: State)
    ensures var t := Proc(e, s); t.job == s.job && t.target == s.target && (t.base == s.base || t.base == s.target)
  {
    hide Verified, PutLine, Cut;
  }

  lemma {:induction false} SettleInv(e: Env, s: State)
    requires Inv(e, s)
    ensures var r := Settle(e, s);
            && Inv(e, r) && r.job == s.job && r.target == s.target
            && (r.base == s.base || r.base == s.target) && (r.pc == Idle || r.pc == Aborted)
    decreases Rank(s)
  {
    hide Inv, Proc, Rank, Settle;
    if s.pc != Idle && s.pc != Aborted {
      RankFalls(e, s);
      SettleStep(e, s);
      ProcInv(e, s);
      ProcKeeps(e, s);
      SettleInv(e, Proc(e, s));
    } else {
      SettleIdle(e, s);
    }
  }

  // Starting up is no save: it does not abort.
  predicate Restarting(pc: Pc) {
    pc.Open? || pc.CutN? || pc.CutS? || pc.PutImg? || pc.SyncN? || pc.SyncS? || pc.DelCtl? || pc.DelMem? || pc.Idle?
  }

  lemma {:induction false} RestartIdles(e: Env, s: State)
    requires Restarting(s.pc)
    ensures Settle(e, s).pc == Idle
    decreases Rank(s)
  {
    if s.pc != Idle && s.pc != Aborted { RankFalls(e, s); }
    if s.pc != Idle { RestartIdles(e, Proc(e, s)); }
  }

  /** Any pair of images with no patch files beside them is a place to begin. */
  lemma FreshInv(e: Env, img: Images)
    ensures Inv(e, Begin(img)) && Guarded(Begin(img))
  {
    var none := Patch(Control(1, |img.north|, |img.south|, []), []);
    assert Final(e, img, none) == img;
  }

  // No control block has been written for the save in progress, if there is one.
  predicate Uncommitted(pc: Pc) {
    pc.Idle? || pc.NewCtl? || pc.NewMem? || pc.PutPage? || pc.PutCtl? || pc.Aborted? || pc.DelMem?
  }

  // Without a control block that is verified, starting up only clears away.
  lemma ClearsAway(e: Env, s: State)
    requires s.pc == Open && (s.cache.ctl.Ctl? ==> !Verified(e, s.cache.ctl.c, s.cache.mem))
    ensures var r := Settle(e, s); r.pc == Idle && r.base == s.base && r.cache.img == s.cache.img && r.dur.img == s.dur.img
  {
    hide Verified, Rank;
    var a := Proc(e, s);
    if s.cache.ctl.NoCtl? {
      SettleStep(e, s);
      SettleIdle(e, a);
    } else {
      SettleStep(e, s);
      SettleStep(e, a);
      SettleStep(e, Proc(e, a));
      SettleIdle(e, Proc(e, Proc(e, a)));
    }
  }

  /** Starting up after `a` ends with the same images on disk as in the cache,
      and they are exactly those of the last completed save or exactly those of
      the save in progress; and the former whenever no save is in progress or
      its control block is not written yet. */
  ghost predicate Safe(e: Env, s: State, a: Action) {
    var r := Settle(e, Next(e, s, a));
    && r.pc == Idle && r.cache.img == r.dur.img && (r.cache.img == s.base || r.cache.img == s.target)
    && (Uncommitted(s.pc) ==> r.cache.img == s.base)
  }

  lemma Restarted(e: Env, s: State, a: Action)
    requires Inv(e, s) && (a.Kill? || (a.Crash? && !Lost(s)))
    ensures Safe(e, s, a)
  {
    hide Settle, Verified, Lost, JobOk, Tells;
    NextInv(e, s, a);
    SettleInv(e, Next(e, s, a));
    RestartIdles(e, Next(e, s, a));
    if Uncommitted(s.pc) { ClearsAway(e, Next(e, s, a)); }
  }

  /** Power failing at some moment is safe if and only if the images on disk
      are whole or the patch that completes them is there too. */
  lemma CrashExact(e: Env, s: State)
    requires Inv(e, s)
    ensures Safe(e, s, Crash) <==> !Lost(s)
  {
    hide Settle, Verified, JobOk;
    if Lost(s) { ClearsAway(e, Next(e, s, Crash)); } else { Restarted(e, s, Crash); }
  }

  lemma {:induction false} NoCrashPowered(e: Env, s: State, as_: seq<Action>)
    requires Crash !in as_
    ensures Powered(e, s, as_)
    decreases |as_|
  {
    if as_ != [] { NoCrashPowered(e, Next(e, s, as_[0]), as_[1..]); }
  }

  /** Deaths of the process alone are harmless: whatever a run did before, as
      long as power did not fail in it, starting up again is safe. */
  lemma KillSafe(e: Env, s: State, as_: seq<Action>)
    requires Inv(e, s) && Honest(e, s, as_) && Crash !in as_
    ensures Safe(e, RunAll(e, s, as_), Kill)
  {
    hide Safe, RunAll, Inv, Honest, Powered;
    NoCrashPowered(e, s, as_);
    RunInv(e, s, as_);
    Restarted(e, RunAll(e, s, as_), Kill);
  }

  // ---- death of the process, and then power failure ----

  // The patch files are on disk as they are in the cache.
  predicate Synced(s: State) { s.dur.ctl == s.cache.ctl && s.dur.mem == s.cache.mem }

  // The control block is written, and not known to be on disk with its pages.
  predicate Syncing(pc: Pc) { pc.SyncCtl? || pc.SyncMem? }

  // Past that, the patch is on disk.
  predicate Guarded(s: State) { s.cache.ctl.Ctl? && !Syncing(s.pc) ==> Synced(s) }

  // The process dies only when it is not syncing its patch, or when that is on
  // disk already.
  predicate Warded(s: State, a: Action) { a.Kill? && Syncing(s.pc) ==> Synced(s) }

  ghost predicate Careful(e: Env, s: State, as_: seq<Action>)
    decreases |as_|
  {
    as_ != [] ==> Warded(s, as_[0]) && Careful(e, Next(e, s, as_[0]), as_[1..])
  }

  lemma GuardedNotLost(e: Env, s: State)
    requires Inv(e, s) && Guarded(s)
    ensures !Lost(s)
  {
    hide Over, Verified, Written, Mixed, JobOk, FinalSide, Tells;
  }

  lemma GuardedNext(e: Env, s: State, a: Action)
    requires Inv(e, s) && Guarded(s) && Warded(s, a)
    ensures Guarded(Next(e, s, a))
  {
    hide Over, Verified, Written, MixedImages, JobOk, FinalSide, Tells, Cut, Write;
  }

  lemma {:induction false} CarefulInv(e: Env, s: State, as_: seq<Action>)
    requires Inv(e, s) && Guarded(s) && Honest(e, s, as_) && Careful(e, s, as_)
    ensures Inv(e, RunAll(e, s, as_)) && Guarded(RunAll(e, s, as_))
    decreases |as_|
  {
    hide Next, Inv, Told, Lost, Guarded, Warded;
    if as_ != [] {
      GuardedNotLost(e, s);
      NextInv(e, s, as_[0]);
      GuardedNext(e, s, as_[0]);
      CarefulInv(e, Next(e, s, as_[0]), as_[1..]);
    }
  }

  /** Crash safety: after any run of saves, write-backs, power failures, deaths
      of the process and restarts, in which the process did not die between
      writing the control block and having the patch on disk, power failing
      right now is safe, and so is the process dying. */
  lemma CrashSafe(e: Env, s: State, as_: seq<Action>)
    requires Inv(e, s) && Guarded(s) && Honest(e, s, as_) && Careful(e, s, as_)
    ensures Safe(e, RunAll(e, s, as_), Crash) && Safe(e, RunAll(e, s, as_), Kill)
  {
    hide Safe, RunAll, Inv, Honest, Careful, Guarded, Lost;
    var t := RunAll(e, s, as_);
    CarefulInv(e, s, as_);
    GuardedNotLost(e, t);
    Restarted(e, t, Crash);
    Restarted(e, t, Kill);
  }

  // ---- what the process dying while syncing can do ----

  // A patch that changes one page of an image, or only makes it shorter.
  predicate AtOnceSide(b: seq<Page>, t: seq<Page>) {
    t <= b || (|b| == |t| && exists k :: 0 <= k < |b| && t == b[k := t[k]])
  }

  /** Nothing lies between the old images and the new ones: at most one image
      changes, and that in one page, or only by becoming shorter. */
  predicate AtOnce(base: Images, target: Images) {
    || (base.south == target.south && AtOnceSide(base.north, target.north))
    || (base.north == target.north && AtOnceSide(base.south, target.south))
  }

  /** However the run goes on, with no second such death, power failing is safe. */
  ghost predicate SafeAfter(e: Env, s: State) {
    forall as_: seq<Action> :: Honest(e, s, as_) && Careful(e, s, as_) ==> Safe(e, RunAll(e, s, as_), Crash)
  }

  function Moves(n: nat): seq<Action> { seq(n, _ => Move) }

  lemma {:induction false} RunAdd(e: Env, s: State, a: seq<Action>, b: seq<Action>)
    ensures RunAll(e, s, a + b) == RunAll(e, RunAll(e, s, a), b)
    ensures Honest(e, s, a) && Honest(e, RunAll(e, s, a), b) ==> Honest(e, s, a + b)
    ensures Careful(e, s, a) && Careful(e, RunAll(e, s, a), b) ==> Careful(e, s, a + b)
    decreases |a|
  {
    hide Next, Told, Warded;
    if a == [] {
      assert a + b == b;
    } else {
      assert (a + b)[0] == a[0] && (a + b)[1..] == a[1..] + b;
      RunAdd(e, Next(e, s, a[0]), a[1..], b);
    }
  }

  // One action more.
  lemma RunOne(e: Env, s: State, a: Action)
    requires Told(e, s, a) && Warded(s, a)
    ensures RunAll(e, s, [a]) == Next(e, s, a) && Honest(e, s, [a]) && Careful(e, s, [a])
  {
    hide Next;
    assert [a][1..] == [];
  }

  // The patch is being applied after a restart, or about to be.
  predicate Working(s: State) {
    s.pc.CutN? || s.pc.CutS? || s.pc.PutImg? || s.pc.SyncN? || (s.pc.Open? && s.cache.ctl == Ctl(s.job.c) && Whole(s.job, s.cache.mem))
  }

  lemma WorkStep(e: Env, s: State)
    requires Inv(e, s) && Working(s) && s.pc != SyncN
    ensures var t := Proc(e, s); Working(t) && t.dur == s.dur && t.base == s.base && t.target == s.target && t.job == s.job
  {
    hide Over, Verified, Written, MixedImages, FinalSide, Tells, PutLine, Cut;
    if s.pc == Open { WholeVerified(e, s.base, s.job, s.target, s.cache.mem); }
    hide JobOk;
  }

  // Left alone, the process comes to where the new images are in the cache.
  lemma {:induction false} ReachSyncN(e: Env, s: State) returns (n: nat)
    requires Inv(e, s) && Working(s)
    ensures var t := RunAll(e, s, Moves(n));
            && t.pc == SyncN && Inv(e, t) && t.dur == s.dur && t.base == s.base && t.target == s.target && t.job == s.job
    ensures Honest(e, s, Moves(n)) && Careful(e, s, Moves(n))
    decreases Rank(s)
  {
    hide Proc, Inv, Rank;
    if s.pc == SyncN {
      n := 0;
    } else {
      RankFalls(e, s);
      ProcInv(e, s);
      WorkStep(e, s);
      var m := ReachSyncN(e, Proc(e, s));
      n := m + 1;
      assert Moves(n) == [Move] + Moves(m);
      RunOne(e, s, Move);
      RunAdd(e, s, [Move], Moves(m));
    }
  }

  // A step from there after which the images on disk are neither.
  lemma MixStep(e: Env, s: State) returns (a: Action)
    requires Inv(e, s) && s.pc == SyncN && s.dur.img == s.base && !AtOnce(s.base, s.target)
    ensures (a.Move? || a.FlushPage? || a.FlushLen?)
    ensures var t := Next(e, s, a); t.base == s.base && t.target == s.target && t.dur.img != s.base && t.dur.img != s.target
  {
    assert s.cache.img == s.target;
    hide Inv;
    if s.base.north != s.target.north && s.base.south != s.target.south {
      a := Move;
    } else {
      a := MixSide(Side(s.base, s.base.north != s.target.north), Side(s.target, s.base.north != s.target.north), s.base.north != s.target.north);
    }
  }

  // One page written back, or room made for one.
  lemma MixSide(b: seq<Page>, t: seq<Page>, north: bool) returns (a: Action)
    requires !AtOnceSide(b, t)
    ensures (a.FlushPage? || a.FlushLen?) && a.north == north
    ensures a.FlushPage? ==> a.j < |b| && a.j < |t| && b[a.j := t[a.j]] != b && b[a.j := t[a.j]] != t
    ensures a.FlushLen? ==> FlushSideLen(b, t, a.filler) != b && FlushSideLen(b, t, a.filler) != t
  {
    if |t| > |b| {
      var filler := t[|b|] + [0];
      a := FlushLen(north, filler);
      assert (b + [filler])[|b|] == filler && |filler| != |t[|b|]|;
    } else {
      var j :| 0 <= j < |t| && t[j] != b[j];
      a := FlushPage(north, j);
      assert b[j := t[j]][j] != b[j];
    }
  }

  lemma Mixes(e: Env, s: State) returns (as_: seq<Action>)
    requires Inv(e, s) && Working(s) && s.dur.img == s.base && !WholePatch(s, s.dur) && !AtOnce(s.base, s.target)
    ensures Honest(e, s, as_) && Careful(e, s, as_) && Inv(e, RunAll(e, s, as_)) && Lost(RunAll(e, s, as_))
  {
    hide Inv, Proc, Working, Honest, Careful, RunAll, AtOnce;
    var n := ReachSyncN(e, s);
    var t := RunAll(e, s, Moves(n));
    var a := MixStep(e, t);
    as_ := Moves(n) + [a];
    RunOne(e, t, a);
    RunAdd(e, s, Moves(n), [a]);
    NextInv(e, t, a);
    SyncKeepsPatch(e, t, a);
  }

  lemma SyncKeepsPatch(e: Env, s: State, a: Action)
    requires s.pc == SyncN && (a.Move? || a.FlushPage? || a.FlushLen?)
    ensures var t := Next(e, s, a); t.job == s.job && t.dur.ctl == s.dur.ctl && t.dur.mem == s.dur.mem
  {
  }

  // The process dying while it syncs a patch that is not on disk.
  lemma KillMixes(e: Env, s: State) returns (as_: seq<Action>)
    requires Inv(e, s) && Syncing(s.pc) && !Synced(s) && !AtOnce(s.base, s.target)
    ensures var k := Next(e, s, Kill); Honest(e, k, as_) && Careful(e, k, as_) && !Safe(e, RunAll(e, k, as_), Crash)
  {
    var k := Next(e, s, Kill);
    KillWorking(e, s);
    hide Safe, Inv, Honest, Careful, RunAll, AtOnce, Working, JobOk, Lost, WholePatch;
    if WholePatch(k, k.dur) {
      var a := FlushMem(false, []);
      NoneTells(e, s);
      NextInv(e, k, a);
      KillFlushed(e, s);
      RunOne(e, k, a);
      var rest := Mixes(e, Next(e, k, a));
      as_ := [a] + rest;
      RunAdd(e, k, [a], rest);
    } else {
      as_ := Mixes(e, k);
    }
    CrashExact(e, RunAll(e, k, as_));
  }

  lemma KillWorking(e: Env, s: State)
    requires Inv(e, s) && Syncing(s.pc)
    ensures var k := Next(e, s, Kill); Inv(e, k) && Working(k) && k.dur.img == k.base == s.base && k.target == s.target
  {
    hide JobOk, Tells;
  }

  lemma NoneTells(e: Env, s: State)
    requires Inv(e, s) && Syncing(s.pc)
    ensures Tells(e, s.job, Mem([]))
  {
    PrefixTells(e, s.base, s.job, s.target, 0);
  }

  // memory.bin not yet as it should be can still be anything on disk.
  lemma KillFlushed(e: Env, s: State)
    requires Inv(e, s) && Syncing(s.pc) && !Synced(s) && WholePatch(s, s.dur)
    ensures var k := Next(e, Next(e, s, Kill), FlushMem(false, []));
            Working(k) && k.dur.img == k.base == s.base && k.target == s.target && !WholePatch(k, k.dur)
  {
    hide JobOk, Tells;
  }

  // ---- patches with nothing in between ----

  // The images are old or new throughout, on disk not newer than in the cache.
  predicate Quick(s: State) {
    && s.cache.ctl.Ctl? && AtOnce(s.base, s.target)
    && (s.dur.img == s.base || s.dur.img == s.target) && (s.cache.img == s.base || s.cache.img == s.target)
    && (s.dur.img == s.target ==> s.cache.img == s.target)
  }

  predicate OneOf(c: seq<Page>, b: seq<Page>, t: seq<Page>) { c == b || c == t }

  lemma CutQuick(c: seq<Page>, b: seq<Page>, t: seq<Page>)
    requires AtOnceSide(b, t) && OneOf(c, b, t)
    ensures OneOf(Cut(c, |t|), b, t) && (c == t ==> Cut(c, |t|) == t)
  {
  }

  lemma WriteQuick(c: seq<Page>, b: seq<Page>, t: seq<Page>, at: nat, page: Page)
    requires AtOnceSide(b, t) && OneOf(c, b, t) && |c| <= |t| && at < |t| && page == t[at]
    ensures OneOf(Write(c, at, page), b, t) && (c == t ==> Write(c, at, page) == t)
  {
    if t <= b { assert |c| == |t| ==> c == t; }
    assert at < |c|;
    hide AtOnceSide;
  }

  lemma FlushQuick(d: seq<Page>, c: seq<Page>, b: seq<Page>, t: seq<Page>, j: nat, filler: Page)
    requires AtOnceSide(b, t) && OneOf(c, b, t) && OneOf(d, b, t) && (d == t ==> c == t)
    ensures j < |d| && j < |c| ==> OneOf(d[j := c[j]], b, t)
    ensures OneOf(FlushSideLen(d, c, filler), b, t)
  {
  }

  // A line's place ends up with the line's page.
  lemma {:induction false} OverIs(e: Env, base: Images, p: Patch, target: Images, n: nat, i: nat)
    requires JobOk(e, base, p, target) && i < n <= |p.c.lines|
    ensures Over(e, p, n, North(p.c, i), Place(e, p.c, i)) == Some(p.pages[i])
    decreases n
  {
    if i < n - 1 {
      assert p.c.lines[i].pag != p.c.lines[n - 1].pag;
      OverIs(e, base, p, target, n - 1, i);
    }
  }

  lemma LineFinal(e: Env, base: Images, p: Patch, target: Images, i: nat)
    requires JobOk(e, base, p, target) && i < |p.c.lines|
    ensures var at, t := Place(e, p.c, i), Side(target, North(p.c, i)); 0 <= at < |t| && t[at] == p.pages[i]
  {
    OverIs(e, base, p, target, |p.c.lines|, i);
    hide Over;
  }

  lemma SidesQuick(b: Images, t: Images, c: Images)
    requires AtOnce(b, t)
    ensures AtOnceSide(b.north, t.north) && AtOnceSide(b.south, t.south) && (b.north == t.north || b.south == t.south)
    ensures c == b || c == t <==> OneOf(c.north, b.north, t.north) && OneOf(c.south, b.south, t.south)
  {
  }

  lemma FinalLengths(e: Env, base: Images, p: Patch, target: Images)
    requires JobOk(e, base, p, target)
    ensures |target.north| == p.c.nor && |target.south| == p.c.sou
  {
  }

  // Each image stays the old or the new one while the patch is applied.
  lemma QuickCut(e: Env, s: State)
    requires Inv(e, s) && Quick(s) && (s.pc.CutN? || s.pc.CutS?)
    ensures Quick(Proc(e, s))
  {
    hide Over, Verified, Written, MixedImages, FinalSide, Tells, Cut, AtOnce, AtOnceSide;
    var b, t, c := s.base, s.target, s.cache.img;
    SidesQuick(b, t, c);
    FinalLengths(e, b, s.job, t);
    hide JobOk;
    if s.pc.CutN? { CutQuick(c.north, b.north, t.north); } else { CutQuick(c.south, b.south, t.south); }
    SidesQuick(b, t, Proc(e, s).cache.img);
  }

  lemma QuickLine(e: Env, s: State)
    requires Inv(e, s) && Quick(s) && s.pc.PutImg? && s.pc.i < |s.patch.c.lines|
    ensures Quick(Proc(e, s))
  {
    hide Over, Verified, Written, MixedImages, FinalSide, Tells, Write, AtOnce, AtOnceSide;
    var b, t, c, p, i := s.base, s.target, s.cache.img, s.job, s.pc.i;
    SidesQuick(b, t, c);
    FinalLengths(e, b, p, t);
    LineFinal(e, b, p, t, i);
    hide JobOk;
    var north, at := North(p.c, i), Place(e, p.c, i);
    assert s.cache.mem.pages[i] == p.pages[i];
    WriteQuick(Side(c, north), Side(b, north), Side(t, north), at, p.pages[i]);
    SidesQuick(b, t, Proc(e, s).cache.img);
  }

  lemma QuickFlush(e: Env, s: State, a: Action)
    requires Quick(s) && (a.FlushPage? || a.FlushLen?)
    ensures Quick(Next(e, s, a))
  {
    hide AtOnce, AtOnceSide, FlushSideLen;
    var b, t, c, d, n := s.base, s.target, s.cache.img, s.dur.img, a.north;
    SidesQuick(b, t, c);
    SidesQuick(b, t, d);
    FlushQuick(Side(d, n), Side(c, n), Side(b, n), Side(t, n), if a.FlushPage? then a.j else 0, if a.FlushLen? then a.filler else ZERO);
    FlushQuickLast(Side(d, n), Side(c, n), Side(b, n), Side(t, n), if a.FlushPage? then a.j else 0, if a.FlushLen? then a.filler else ZERO);
    SidesQuick(b, t, Next(e, s, a).dur.img);
  }

  // The disk becomes new only by what is in the cache.
  lemma FlushQuickLast(d: seq<Page>, c: seq<Page>, b: seq<Page>, t: seq<Page>, j: nat, filler: Page)
    requires AtOnceSide(b, t) && OneOf(c, b, t) && OneOf(d, b, t)
    ensures j < |d| && j < |c| && d[j := c[j]] == t ==> d == t || c == t
    ensures FlushSideLen(d, c, filler) == t ==> d == t || c == t
  {
  }

  predicate Fine(s: State) { Guarded(s) || Quick(s) }

  lemma FineProc(e: Env, s: State)
    requires Inv(e, s) && Quick(s)
    ensures Fine(Proc(e, s))
  {
    hide Over, Verified, Written, MixedImages, JobOk, FinalSide, Tells, PutLine, Cut, AtOnce, AtOnceSide;
    match s.pc
    case CutN => QuickCut(e, s);
    case CutS => QuickCut(e, s);
    case PutImg(i) => if i < |s.patch.c.lines| { QuickLine(e, s); }
    case SyncN => SidesQuick(s.base, s.target, s.dur.img);
    case SyncS => OnceSame(s.target);
    case _ =>
  }

  lemma OnceSame(t: Images)
    ensures AtOnce(t, t)
  {
  }

  lemma FineNext(e: Env, s: State, a: Action)
    requires Inv(e, s) && Fine(s) && Warded(s, a)
    ensures Fine(Next(e, s, a))
  {
    if Guarded(s) {
      GuardedNext(e, s, a);
    } else {
      hide Proc, Quick, Inv;
      match a
      case Move => FineProc(e, s);
      case FlushPage(_, _) => QuickFlush(e, s, a);
      case FlushLen(_, _) => QuickFlush(e, s, a);
      case _ => FineRest(e, s, a);
    }
  }

  lemma FineRest(e: Env, s: State, a: Action)
    requires Inv(e, s) && Quick(s) && !a.Move? && !a.FlushPage? && !a.FlushLen?
    ensures Fine(Next(e, s, a))
  {
    hide Over, Verified, Written, MixedImages, JobOk, FinalSide, Tells, AtOnce, AtOnceSide;
  }

  lemma FineNotLost(e: Env, s: State)
    requires Inv(e, s) && Fine(s)
    ensures !Lost(s)
  {
    hide Inv, AtOnce;
    if Guarded(s) { GuardedNotLost(e, s); }
  }

  lemma {:induction false} FineSafe(e: Env, s: State, as_: seq<Action>)
    requires Inv(e, s) && Fine(s) && Honest(e, s, as_) && Careful(e, s, as_)
    ensures Safe(e, RunAll(e, s, as_), Crash)
    decreases |as_|
  {
    hide Next, Inv, Told, Lost, Fine, Warded, Safe;
    FineNotLost(e, s);
    if as_ == [] {
      Restarted(e, s, Crash);
    } else {
      NextInv(e, s, as_[0]);
      FineNext(e, s, as_[0]);
      FineSafe(e, Next(e, s, as_[0]), as_[1..]);
    }
  }

  lemma KillFine(e: Env, s: State)
    requires Inv(e, s) && Guarded(s) && (!Syncing(s.pc) || Synced(s) || AtOnce(s.base, s.target))
    ensures Fine(Next(e, s, Kill))
  {
    hide JobOk, Tells, AtOnce;
  }

  /** The process dying does no harm, whatever follows, if and only if it was
      not syncing its patch, or the patch was on disk already, or nothing lies
      between the old images and the new. */
  lemma KillExact(e: Env, s: State)
    requires Inv(e, s) && Guarded(s)
    ensures SafeAfter(e, Next(e, s, Kill)) <==> !Syncing(s.pc) || Synced(s) || AtOnce(s.base, s.target)
  {
    hide Inv, Safe, Honest, Careful, RunAll, AtOnce, Fine;
    var k := Next(e, s, Kill);
    if !Syncing(s.pc) || Synced(s) || AtOnce(s.base, s.target) {
      KillFine(e, s);
      NextInv(e, s, Kill);
      forall as_: seq<Action> | Honest(e, k, as_) && Careful(e, k, as_) ensures Safe(e, RunAll(e, k, as_), Crash) { FineSafe(e, k, as_); }
    } else {
      var as_ := KillMixes(e, s);
    }
  }

  // ---- such a death, step by step ----

  // A patch for two images of one page.
  function Small(e: Env, c: Page, d: Page): Patch { Patch(Control(1, 1, 1, [Line(0, e.mug(c)), Line(1, e.mug(d))]), [c, d]) }

  function Begin(img: Images): State {
    var none := Patch(Control(1, |img.north|, |img.south|, []), []);
    State(Disk(img, NoCtl, NoMem), Disk(img, NoCtl, NoMem), Idle, none, img, none, img)
  }

  // Where the example is after `Save` and six moves, and seven moves after
  // it is started again.
  function Written6(e: Env, a: Page, b: Page, c: Page, d: Page): State {
    var p := Small(e, c, d);
    State(Disk(Images([a], [b]), Ctl(p.c), Mem([c, d])), Disk(Images([a], [b]), Torn, Mem([])), SyncCtl, p, Images([a], [b]), p, Images([c], [d]))
  }

  function Redone7(e: Env, a: Page, b: Page, c: Page, d: Page): State {
    var p := Small(e, c, d);
    State(Disk(Images([c], [d]), Ctl(p.c), Mem([c, d])), Disk(Images([c], [b]), Torn, Mem([])), SyncS, p, Images([a], [b]), p, Images([c], [d]))
  }

  lemma SmallOk(e: Env, a: Page, b: Page, c: Page, d: Page)
    requires e.total == 2
    ensures var p := Small(e, c, d);
            && JobOk(e, Images([a], [b]), p, Images([c], [d]))
            && North(p.c, 0) && !North(p.c, 1) && Place(e, p.c, 0) == Place(e, p.c, 1) == 0
  {
    var p := Small(e, c, d);
    assert Over(e, p, 1, true, 0) == Some(c) && Over(e, p, 2, true, 0) == Some(c) && Over(e, p, 2, false, 0) == Some(d);
    assert Final(e, Images([a], [b]), p) == Images([c], [d]);
  }

  lemma SmallLines(e: Env, img: Images, ctl: CtlFile, c: Page, d: Page)
    requires e.total == 2 && |img.north| == |img.south| == 1
    ensures var p, mem := Small(e, c, d), Mem([c, d]);
            && PutLine(e, Disk(img, ctl, mem), p.c, 0) == Disk(Images([c], img.south), ctl, mem)
            && PutLine(e, Disk(Images([c], img.south), ctl, mem), p.c, 1) == Disk(Images([c], [d]), ctl, mem)
  {
    assert Write(img.north, 0, c) == [c] && Write(img.south, 0, d) == [d];
  }

  // One move fewer.
  lemma MoveOn(e: Env, s: State, n: nat, t: State)
    requires n > 0 && t == Proc(e, s)
    ensures RunAll(e, s, Moves(n)) == RunAll(e, t, Moves(n - 1)) && (Honest(e, t, Moves(n - 1)) ==> Honest(e, s, Moves(n)))
  {
    hide Proc;
    assert Moves(n)[1..] == Moves(n - 1);
  }

  // The two pages and the control block are written.
  lemma FourMoves(e: Env, s: State, c: Page, d: Page)
    requires s.pc == PutPage(0) && s.patch.pages == [c, d] && s.cache.mem == Mem([])
    ensures RunAll(e, s, Moves(4)) == s.(cache := s.cache.(ctl := Ctl(s.patch.c), mem := Mem([c, d])), pc := SyncCtl) && Honest(e, s, Moves(4))
  {
    hide Next, Honest, RunAll, Verified, Cut, PutLine;
    assert [] + [c] == [c] && [c] + [d] == [c, d];
    var s1 := s.(cache := s.cache.(mem := Mem([c])), pc := PutPage(1));
    var s2 := s.(cache := s.cache.(mem := Mem([c, d])), pc := PutPage(2));
    var s3 := s2.(pc := PutCtl);
    var s4 := s.(cache := s.cache.(ctl := Ctl(s.patch.c), mem := Mem([c, d])), pc := SyncCtl);
    MoveOn(e, s, 4, s1);
    MoveOn(e, s1, 3, s2);
    MoveOn(e, s2, 2, s3);
    MoveOn(e, s3, 1, s4);
    NoMoves(e, s4);
  }

  lemma SixMoves(e: Env, a: Page, b: Page, c: Page, d: Page)
    requires e.total == 2
    ensures var s := Next(e, Begin(Images([a], [b])), Save(Small(e, c, d), Images([c], [d])));
            RunAll(e, s, Moves(6)) == Written6(e, a, b, c, d) && Honest(e, s, Moves(6))
  {
    SmallOk(e, a, b, c, d);
    hide JobOk, Over, Final, Verified, Cut, PutLine;
    var p := Small(e, c, d);
    var s := Next(e, Begin(Images([a], [b])), Save(p, Images([c], [d])));
    hide Next, Honest, RunAll;
    var s1 := s.(cache := s.cache.(ctl := Torn), dur := s.dur.(ctl := Torn), pc := NewMem);
    var s2 := s1.(cache := s1.cache.(mem := Mem([])), dur := s1.dur.(mem := Mem([])), pc := PutPage(0));
    MoveOn(e, s, 6, s1);
    MoveOn(e, s1, 5, s2);
    FourMoves(e, s2, c, d);
  }

  lemma NoMoves(e: Env, s: State)
    ensures RunAll(e, s, Moves(0)) == s && Honest(e, s, Moves(0))
  {
  }

  lemma SevenMoves(e: Env, a: Page, b: Page, c: Page, d: Page)
    requires e.total == 2
    ensures var k := Next(e, Written6(e, a, b, c, d), Kill);
            RunAll(e, k, Moves(7)) == Redone7(e, a, b, c, d) && Honest(e, k, Moves(7))
  {
    SmallOk(e, a, b, c, d);
    var p := Small(e, c, d);
    var k := Next(e, Written6(e, a, b, c, d), Kill);
    assert Verified(e, p.c, Mem([c, d]));
    SmallLines(e, k.cache.img, Ctl(p.c), c, d);
    hide PutLine;
    hide JobOk, Over, Final, Verified, Next, Honest, RunAll, Place, North;
    var s1, s2, s3 := k.(pc := CutN), k.(pc := CutS), k.(pc := PutImg(0));
    var s4 := k.(cache := k.cache.(img := Images([c], [b])), pc := PutImg(1));
    var s5 := k.(cache := k.cache.(img := Images([c], [d])), pc := PutImg(2));
    var s6 := s5.(pc := SyncN);
    assert s3.cache == Disk(Images([a], [b]), Ctl(p.c), Mem([c, d]));
    assert s4.cache == PutLine(e, s3.cache, p.c, 0);
    assert s5.cache == PutLine(e, s4.cache, p.c, 1);
    MoveOn(e, k, 7, s1);
    MoveOn(e, s1, 6, s2);
    MoveOn(e, s2, 5, s3);
    MoveOn(e, s3, 4, s4);
    MoveOn(e, s4, 3, s5);
    MoveOn(e, s5, 2, s6);
    MoveOn(e, s6, 1, Redone7(e, a, b, c, d));
    NoMoves(e, Redone7(e, a, b, c, d));
  }

  /** Two images of one page, both changed: the process dies when the control
      block is written and not synced, is started again, and power fails just
      after the north image is synced.  What is left is the new north image
      beside the old south image. */
  lemma Mixture(e: Env, a: Page, b: Page, c: Page, d: Page)
    requires e.total == 2 && a != c && b != d
    ensures var s, save := Begin(Images([a], [b])), Save(Small(e, c, d), Images([c], [d]));
            var run := [save] + (Moves(6) + ([Kill] + Moves(7)));
            && Inv(e, s) && JobOk(e, Images([a], [b]), Small(e, c, d), Images([c], [d])) && Honest(e, s, run)
            && Settle(e, Next(e, RunAll(e, s, run), Crash)).dur.img == Images([c], [b])
  {
    var s, save := Begin(Images([a], [b])), Save(Small(e, c, d), Images([c], [d]));
    var w, r := Written6(e, a, b, c, d), Redone7(e, a, b, c, d);
    FreshInv(e, Images([a], [b]));
    SmallOk(e, a, b, c, d);
    SixMoves(e, a, b, c, d);
    SevenMoves(e, a, b, c, d);
    ClearsAway(e, Next(e, r, Crash));
    hide JobOk, Inv, Proc, Settle, Small, Honest, RunAll, Written6, Redone7;
    OneHonest(e, s, save);
    OneHonest(e, w, Kill);
    RunAdd(e, w, [Kill], Moves(7));
    RunAdd(e, Next(e, s, save), Moves(6), [Kill] + Moves(7));
    RunAdd(e, s, [save], Moves(6) + ([Kill] + Moves(7)));
  }

  lemma OneHonest(e: Env, s: State, a: Action)
    requires !a.FlushMem?
    ensures RunAll(e, s, [a]) == Next(e, s, a) && Honest(e, s, [a])
  {
    hide Next;
    assert [a][1..] == [];
  }

  // ---- a save that is not interrupted ----

  predicate OnTrack(s: State) {
    match s.pc
    case NewCtl => s.cache.mem == NoMem
    case NewMem => s.cache.mem == NoMem
    case Open => false
    case Aborted => false
    case Idle => s.base == s.target
    case DelCtl => s.base == s.target
    case DelMem => s.base == s.target
    case _ => true
  }

  lemma TrackStep(e: Env, s: State)
    requires Inv(e, s) && OnTrack(s) && s.pc != Idle
    ensures OnTrack(Proc(e, s))
  {
    hide JobOk, Over, Verified, Written, MixedImages, PutLine, Cut;
    if s.pc == Check { WholeVerified(e, s.base, s.job, s.target, s.cache.mem); }
  }

  lemma {:induction false} StaysOnTrack(e: Env, s: State)
    requires Inv(e, s) && OnTrack(s)
    ensures OnTrack(Settle(e, s)) && Settle(e, s).target == s.target
    decreases Rank(s)
  {
    hide Inv, Proc, Rank, Settle;
    if s.pc == Idle {
      SettleIdle(e, s);
    } else {
      RankFalls(e, s);
      SettleStep(e, s);
      ProcInv(e, s);
      ProcKeeps(e, s);
      TrackStep(e, s);
      StaysOnTrack(e, Proc(e, s));
    }
  }

  /** A save with a dirty page goes through, leaving exactly the new images, if
      and only if no memory.bin was left behind; otherwise it aborts and changes
      no image. */
  lemma SaveWorks(e: Env, s: State, p: Patch, to: Images)
    requires Inv(e, s) && s.pc == Idle && JobOk(e, s.base, p, to) && p.pages != []
    ensures var r := Settle(e, Next(e, s, Save(p, to)));
            && (r.pc == Idle <==> s.cache.mem == NoMem)
            && (r.pc == Idle ==> r.cache.img == r.dur.img == r.base == to)
            && (r.pc == Aborted ==> r.cache.img == r.dur.img == s.base)
  {
    hide JobOk, Over;
    var t := Next(e, s, Save(p, to));
    NextInv(e, s, Save(p, to));
    SettleInv(e, t);
    if s.cache.mem == NoMem {
      StaysOnTrack(e, t);
    } else {
      SaveAborts(e, t);
    }
  }

  lemma SaveAborts(e: Env, t: State)
    requires t.pc == NewCtl && t.cache.ctl == NoCtl && t.cache.mem.Mem?
    ensures Settle(e, t) == t.(cache := t.cache.(ctl := Torn), dur := t.dur.(ctl := Torn), pc := Aborted)
  {
    hide Settle;
    SettleStep(e, t);
    SettleStep(e, Proc(e, t));
    SettleIdle(e, Proc(e, Proc(e, t)));
  }

  /** A save with no dirty page does nothing at all: no file is created, none is
      cut and it does not abort, memory.bin or not.  What is on disk is then
      what is in memory if and only if memory has not become shorter. */
  lemma SaveNothing(e: Env, s: State, p: Patch, to: Images)
    requires Inv(e, s) && s.pc == Idle && JobOk(e, s.base, p, to) && p.pages == []
    ensures Next(e, s, Save(p, to)) == s && to.north <= s.dur.img.north && to.south <= s.dur.img.south
    ensures s.dur.img == to <==> |s.base.north| == |to.north| && |s.base.south| == |to.south|
  {
    FinalNothing(e, s.base.north, p, true);
    FinalNothing(e, s.base.south, p, false);
  }

  lemma FinalNothing(e: Env, img: seq<Page>, p: Patch, north: bool)
    requires p.pages == [] && p.c.lines == [] && Covers(e, img, p, north)
    ensures Len(p.c, north) <= |img| && FinalSide(e, img, p, north) == img[..Len(p.c, north)]
  {
    var n := Len(p.c, north);
    if n > 0 { assert Over(e, p, 0, north, n - 1).None?; }
  }

  // A crash between the two deletions leaves memory.bin behind for the next save.
  lemma OrphanLeft(e: Env, s: State)
    requires Inv(e, s) && s.pc == DelMem && s.dur.mem.Mem?
    ensures var r := Settle(e, Next(e, s, Crash)); r.pc == Idle && r.cache.mem.Mem?
  {
    hide JobOk, Over, Settle;
    var t := Next(e, s, Crash);
    SettleStep(e, t);
    SettleIdle(e, Proc(e, t));
  }

  // The restart after the save that it aborts clears it away.
  lemma OrphanCleared(e: Env, s: State, p: Patch, to: Images)
    requires Inv(e, s) && s.pc == Idle && JobOk(e, s.base, p, to) && p.pages != [] && s.cache.mem.Mem?
    ensures var r := Settle(e, Next(e, s, Save(p, to)));
            var q := Settle(e, Next(e, r, Crash));
            q.pc == Idle && q.cache.mem == NoMem && q.cache.img == s.base
  {
    hide JobOk, Over, Settle;
    var t := Next(e, s, Save(p, to));
    SaveAborts(e, t);
    TornCleared(e, Next(e, Settle(e, t), Crash));
  }

  lemma TornCleared(e: Env, c: State)
    requires c.pc == Open && c.cache.ctl == Torn
    ensures var q := Settle(e, c); q.pc == Idle && q.cache.mem == NoMem && q.cache.img == c.cache.img
  {
    hide Settle;
    SettleStep(e, c);
    SettleStep(e, Proc(e, c));
    SettleStep(e, Proc(e, Proc(e, c)));
    SettleIdle(e, Proc(e, Proc(e, Proc(e, c))));
  }

  // ---- composing a patch from memory ----

  // Extending a patch does not change what its first lines leave.
  lemma {:induction false} OverPrefix(e: Env, p: Patch, q: Patch, n: nat, north: bool, j: nat)
    requires n <= |p.c.lines| <= |p.pages| && |p.c.lines| <= |q.c.lines| && |p.pages| <= |q.pages| && |q.c.lines| <= |q.pages|
    requires p.c.nor == q.c.nor && q.c.lines[..|p.c.lines|] == p.c.lines && q.pages[..|p.pages|] == p.pages
    ensures Over(e, q, n, north, j) == Over(e, p, n, north, j)
  {
    if n > 0 {
      assert q.c.lines[n - 1] == q.c.lines[..|p.c.lines|][n - 1] == p.c.lines[n - 1];
      assert q.pages[n - 1] == q.pages[..|p.pages|][n - 1] == p.pages[n - 1];
      OverPrefix(e, p, q, n - 1, north, j);
    }
  }

  // The page of the loom that is page `j` of the south image.
  function SouthPage(e: Env, j: nat): int { e.total - (j + 1) }

  // What the patch should carry for one place, `nor` and `sou` pages in.
  function Wanted(e: Env, mem: Images, dirty: set<nat>, nor: nat, sou: nat, north: bool, j: nat): Option<Page>
    requires nor <= |mem.north| && sou <= |mem.south|
  {
    if north then if j < nor && j in dirty then Some(mem.north[j]) else None
    else if j < sou && SouthPage(e, j) in dirty then Some(mem.south[j]) else None
  }

  ghost predicate Carries(e: Env, p: Patch, mem: Images, dirty: set<nat>, nor: nat, sou: nat, north: bool, j: nat)
    requires |p.c.lines| <= |p.pages| && nor <= |mem.north| && sou <= |mem.south|
  {
    Over(e, p, |p.c.lines|, north, j) == Wanted(e, mem, dirty, nor, sou, north, j)
  }

  ghost predicate Composed(e: Env, p: Patch, mem: Images, dirty: set<nat>, nor: nat, sou: nat) {
    && p.c.ver == 1 && p.c.nor == |mem.north| && p.c.sou == |mem.south| && |p.c.lines| == |p.pages|
    && nor <= |mem.north| && sou <= |mem.south|
    && (forall i: nat :: i < |p.pages| ==> e.mug(p.pages[i]) == p.c.lines[i].mug)
    && (forall i: nat :: i < |p.pages| ==> 0 <= Place(e, p.c, i) < Len(p.c, North(p.c, i)))
    && (forall i: nat, k: nat :: i < k < |p.pages| ==> p.c.lines[i].pag != p.c.lines[k].pag)
    && (forall north: bool, j: nat :: Carries(e, p, mem, dirty, nor, sou, north, j))
  }

  // Add the dirty page `pag`, which belongs at place `j` of one image.
  method SavePage(e: Env, p: Patch, pag: nat, page: Page, ghost north: bool, ghost j: nat) returns (q: Patch)
    requires |p.c.lines| == |p.pages|
    requires north == (pag < p.c.nor) && j == (if north then pag else e.total - (pag + 1))
    ensures q.c == p.c.(lines := p.c.lines + [Line(pag, e.mug(page))]) && q.pages == p.pages + [page]
    ensures forall n: bool, i: nat :: Over(e, q, |q.c.lines|, n, i) ==
              if n == north && i == j then Some(page) else Over(e, p, |p.c.lines|, n, i)
  {
    q := Patch(p.c.(lines := p.c.lines + [Line(pag, e.mug(page))]), p.pages + [page]);
    forall n: bool, i: nat
      ensures Over(e, q, |q.c.lines|, n, i) == if n == north && i == j then Some(page) else Over(e, p, |p.c.lines|, n, i)
    {
      OverPrefix(e, p, q, |p.c.lines|, n, i);
    }
  }

  lemma ComposedStep(e: Env, p: Patch, q: Patch, mem: Images, dirty: set<nat>, nor: nat, sou: nat, pag: nat, north: bool)
    requires Composed(e, p, mem, dirty, nor, sou) && |mem.north| + |mem.south| <= e.total
    requires if north then pag == nor < |mem.north| else sou < |mem.south| && pag == e.total - (sou + 1)
    requires pag in dirty
    requires var page := if north then mem.north[nor] else mem.south[sou];
             && q.c == p.c.(lines := p.c.lines + [Line(pag, e.mug(page))]) && q.pages == p.pages + [page]
             && forall n: bool, i: nat :: Over(e, q, |q.c.lines|, n, i) ==
                  if n == north && i == (if north then nor else sou) then Some(page) else Over(e, p, |p.c.lines|, n, i)
    ensures Composed(e, q, mem, dirty, if north then nor + 1 else nor, if north then sou else sou + 1)
  {
    hide Over;
    var nor', sou' := if north then nor + 1 else nor, if north then sou else sou + 1;
    forall n: bool, j: nat ensures Carries(e, q, mem, dirty, nor', sou', n, j) {
      assert Carries(e, p, mem, dirty, nor, sou, n, j);
    }
    forall i: nat | i < |q.pages|
      ensures e.mug(q.pages[i]) == q.c.lines[i].mug && 0 <= Place(e, q.c, i) < Len(q.c, North(q.c, i))
    {
      if i < |p.pages| { assert q.c.lines[i] == p.c.lines[i] && Place(e, q.c, i) == Place(e, p.c, i); }
    }
    forall i: nat | i < |p.pages| ensures p.c.lines[i].pag != pag {
      assert Carries(e, p, mem, dirty, nor, sou, north, if north then nor else sou);
      if p.c.lines[i].pag == pag { OverAt(e, p, |p.c.lines|, i); }
    }
  }

  lemma ComposedSkip(e: Env, p: Patch, mem: Images, dirty: set<nat>, nor: nat, sou: nat, north: bool)
    requires Composed(e, p, mem, dirty, nor, sou)
    requires if north then nor < |mem.north| && nor !in dirty else sou < |mem.south| && SouthPage(e, sou) !in dirty
    ensures Composed(e, p, mem, dirty, if north then nor + 1 else nor, if north then sou else sou + 1)
  {
    hide Over;
    var nor', sou' := if north then nor + 1 else nor, if north then sou else sou + 1;
    forall n: bool, j: nat ensures Carries(e, p, mem, dirty, nor', sou', n, j) {
      assert Carries(e, p, mem, dirty, nor, sou, n, j);
    }
  }

  // Pages that are not dirty are what the last images hold.
  ghost predicate CleanPages(e: Env, base: Images, mem: Images, dirty: set<nat>) {
    && (forall j: nat :: j < |mem.north| && j !in dirty ==> j < |base.north| && base.north[j] == mem.north[j])
    && (forall j: nat :: j < |mem.south| && SouthPage(e, j) !in dirty ==> j < |base.south| && base.south[j] == mem.south[j])
  }

  // Some page of memory is dirty.
  ghost predicate Dirty(e: Env, mem: Images, dirty: set<nat>, nor: nat, sou: nat) {
    (exists j: nat :: j < nor && j in dirty) || (exists j: nat :: j < sou && SouthPage(e, j) in dirty)
  }

  // Count the dirty pages.
  method CountPages(e: Env, mem: Images, dirty: set<nat>) returns (pgs: nat)
    ensures pgs > 0 <==> Dirty(e, mem, dirty, |mem.north|, |mem.south|)
  {
    pgs := 0;
    for i := 0 to |mem.north|
      invariant pgs > 0 <==> Dirty(e, mem, dirty, i, 0)
    {
      if i in dirty { pgs := pgs + 1; }
    }
    for i := 0 to |mem.south|
      invariant pgs > 0 <==> Dirty(e, mem, dirty, |mem.north|, i)
    {
      if SouthPage(e, i) in dirty { pgs := pgs + 1; }
      assert Dirty(e, mem, dirty, |mem.north|, i + 1) <==> Dirty(e, mem, dirty, |mem.north|, i) || SouthPage(e, i) in dirty;
    }
  }

  /** Compose a patch from the dirty pages, if there are any: applied to the
      last images, it gives exactly what is in memory.  If there are none,
      memory is a first part of those images. */
  method Compose(e: Env, mem: Images, dirty: set<nat>, ghost base: Images) returns (r: Option<Patch>)
    requires |mem.north| + |mem.south| <= e.total && CleanPages(e, base, mem, dirty)
    ensures r.None? <==> !Dirty(e, mem, dirty, |mem.north|, |mem.south|)
    ensures r.None? ==> mem.north <= base.north && mem.south <= base.south
    ensures r.Some? ==> JobOk(e, base, r.value, mem) && r.value.pages != []
  {
    hide Over, Composed, JobOk, Covers;
    var pgs := CountPages(e, mem, dirty);
    if pgs == 0 {
      NoneDirty(e, base, mem, dirty);
      return None;
    }
    var p := Patch(Control(1, |mem.north|, |mem.south|, []), []);
    ComposedNone(e, p, mem, dirty);
    for i := 0 to |mem.north|
      invariant Composed(e, p, mem, dirty, i, 0) && p.c.nor == |mem.north| && |p.c.lines| == |p.pages|
    {
      if i in dirty {
        var q := SavePage(e, p, i, mem.north[i], true, i);
        ComposedStep(e, p, q, mem, dirty, i, 0, i, true);
        p := q;
      } else {
        ComposedSkip(e, p, mem, dirty, i, 0, true);
      }
    }
    for i := 0 to |mem.south|
      invariant Composed(e, p, mem, dirty, |mem.north|, i) && p.c.nor == |mem.north| && |p.c.lines| == |p.pages|
    {
      var pag := SouthPage(e, i);
      if pag in dirty {
        var q := SavePage(e, p, pag, mem.south[i], false, i);
        ComposedStep(e, p, q, mem, dirty, |mem.north|, i, pag, false);
        p := q;
      } else {
        ComposedSkip(e, p, mem, dirty, |mem.north|, i, false);
      }
    }
    ComposedAll(e, base, p, mem, dirty);
    ComposedSome(e, p, mem, dirty);
    r := Some(p);
  }

  lemma NoneDirty(e: Env, base: Images, mem: Images, dirty: set<nat>)
    requires CleanPages(e, base, mem, dirty) && !Dirty(e, mem, dirty, |mem.north|, |mem.south|)
    ensures mem.north <= base.north && mem.south <= base.south
  {
    if |mem.north| > 0 { var j := |mem.north| - 1; assert j !in dirty; }
    if |mem.south| > 0 { var j := |mem.south| - 1; assert SouthPage(e, j) !in dirty; }
  }

  lemma ComposedNone(e: Env, p: Patch, mem: Images, dirty: set<nat>)
    requires p == Patch(Control(1, |mem.north|, |mem.south|, []), [])
    ensures Composed(e, p, mem, dirty, 0, 0)
  {
  }

  // A dirty page is carried.
  lemma ComposedSome(e: Env, p: Patch, mem: Images, dirty: set<nat>)
    requires Composed(e, p, mem, dirty, |mem.north|, |mem.south|) && Dirty(e, mem, dirty, |mem.north|, |mem.south|)
    ensures p.pages != []
  {
    if j: nat :| j < |mem.north| && j in dirty {
      assert Carries(e, p, mem, dirty, |mem.north|, |mem.south|, true, j);
    } else {
      var j: nat :| j < |mem.south| && SouthPage(e, j) in dirty;
      assert Carries(e, p, mem, dirty, |mem.north|, |mem.south|, false, j);
    }
  }

  // What a composed patch carries for a page, and what it leaves to the image.
  lemma ComposedPage(e: Env, base: Images, p: Patch, mem: Images, dirty: set<nat>, north: bool, j: nat)
    requires Composed(e, p, mem, dirty, |mem.north|, |mem.south|) && CleanPages(e, base, mem, dirty) && j < |Side(mem, north)|
    ensures var o, img := Over(e, p, |p.c.lines|, north, j), Side(base, north);
            if o.Some? then o.value == Side(mem, north)[j] else j < |img| && img[j] == Side(mem, north)[j]
  {
    hide Over;
    assert Carries(e, p, mem, dirty, |mem.north|, |mem.south|, north, j);
  }

  lemma ComposedCovers(e: Env, base: Images, p: Patch, mem: Images, dirty: set<nat>, north: bool)
    requires Composed(e, p, mem, dirty, |mem.north|, |mem.south|) && CleanPages(e, base, mem, dirty)
    ensures Len(p.c, north) == |Side(mem, north)| && Covers(e, Side(base, north), p, north)
  {
    hide Over, Carries, CleanPages;
    forall j: nat | j < Len(p.c, north) && Over(e, p, |p.c.lines|, north, j).None? ensures j < |Side(base, north)| {
      ComposedPage(e, base, p, mem, dirty, north, j);
    }
  }

  lemma ComposedFinal(e: Env, base: Images, p: Patch, mem: Images, dirty: set<nat>, north: bool)
    requires Composed(e, p, mem, dirty, |mem.north|, |mem.south|) && CleanPages(e, base, mem, dirty)
    requires Covers(e, Side(base, north), p, north) && Len(p.c, north) == |Side(mem, north)|
    ensures FinalSide(e, Side(base, north), p, north) == Side(mem, north)
  {
    var r, m := FinalSide(e, Side(base, north), p, north), Side(mem, north);
    hide Over, Carries, CleanPages, FinalSide, Covers;
    forall j: nat | j < |m| ensures r[j] == m[j] {
      FinalAt(e, Side(base, north), p, north, j);
      ComposedPage(e, base, p, mem, dirty, north, j);
    }
  }

  lemma FinalAt(e: Env, img: seq<Page>, p: Patch, north: bool, j: nat)
    requires |p.c.lines| <= |p.pages| && Covers(e, img, p, north) && j < Len(p.c, north)
    ensures var o, r := Over(e, p, |p.c.lines|, north, j), FinalSide(e, img, p, north);
            |r| == Len(p.c, north) && (if o.Some? then r[j] == o.value else j < |img| && r[j] == img[j])
  {
    hide Over;
  }

  lemma ComposedAll(e: Env, base: Images, p: Patch, mem: Images, dirty: set<nat>)
    requires Composed(e, p, mem, dirty, |mem.north|, |mem.south|) && CleanPages(e, base, mem, dirty)
    ensures JobOk(e, base, p, mem)
  {
    hide Over, Carries, CleanPages, FinalSide, Covers;
    ComposedCovers(e, base, p, mem, dirty, true);
    ComposedCovers(e, base, p, mem, dirty, false);
    ComposedFinal(e, base, p, mem, dirty, true);
    ComposedFinal(e, base, p, mem, dirty, false);
  }
}
