/**
  What an image holds of the memory of the checkpointed process, and what restoring it does
  to the memory of the restarted one (xnd/writeckpt.c, xnd/vm_restore.c).
 */
module ImageContents {
  import opened Wrappers
  import opened ImageFormat

  /**
    The process being checkpointed: its readable pages by address, the pages the kernel
    reports dirty, and for an unreadable page the bytes a failing write puts into the file.
   */
  datatype Vm = Vm(pages: map<nat, Page>, dirty: set<nat>, partial: map<nat, seq<byte>>)

  function ZeroPage(): Page { seq(PAGE_SIZE, _ => 0) }

  function Content(vm: Vm, a: nat): Page { if a in vm.pages then vm.pages[a] else ZeroPage() }

  /** What a failing write of this page leaves in the file. */
  function Left(vm: Vm, a: nat): seq<byte> { if a in vm.partial then vm.partial[a] else [] }

  function Address(start: nat, i: nat): nat { start + i * PAGE_SIZE }

  function PageCount(r: Region): nat { r.size / PAGE_SIZE }

  predicate Aligned(r: Region) { r.size % PAGE_SIZE == 0 }

  // ----- what is saved -----

  /** How many pages of the region can be written before the first one that cannot. */
  function Prefix(vm: Vm, start: nat, n: nat): (k: nat)
    ensures k <= n && (k < n ==> Address(start, k) !in vm.pages)
    ensures forall i :: 0 <= i < k ==> Address(start, i) in vm.pages
  {
    if n == 0 then 0
    else
      var k := Prefix(vm, start, n - 1);
      if k == n - 1 && Address(start, k) in vm.pages then n else k
  }

  function PageBytes(vm: Vm, start: nat, k: nat): (bs: seq<byte>)
    ensures |bs| == k * PAGE_SIZE
  {
    if k == 0 then [] else PageBytes(vm, start, k - 1) + Content(vm, Address(start, k - 1))
  }

  /** The whole region, or as much as can be written; then its size says so. */
  function SaveFull(vm: Vm, r: Region): Record {
    var k := Prefix(vm, r.start, PageCount(r));
    Full(if k == PageCount(r) then r else r.(size := k * PAGE_SIZE), PageBytes(vm, r.start, k))
  }

  predicate IsDirty(vm: Vm, r: Region, i: nat) { Address(r.start, i) in vm.dirty }

  /** Page `i` of the region, as it is saved. */
  function PageAt(vm: Vm, r: Region, i: nat): SavedPage { SavedPage(i * PAGE_SIZE, Content(vm, Address(r.start, i))) }

  function DirtyPages(vm: Vm, r: Region, n: nat): seq<SavedPage> {
    if n == 0 then []
    else
      DirtyPages(vm, r, n - 1) +
      (if IsDirty(vm, r, n - 1) then [PageAt(vm, r, n - 1)] else [])
  }

  function SaveDirty(vm: Vm, r: Region): Record {
    var ps := DirtyPages(vm, r, PageCount(r));
    ByPage(r.(dirtyOnly := true, pagesDirtied := |ps|), ps)
  }

  /** The kernel's count decides whether saving by page is worth it. */
  predicate WorthIt(r: Region) { r.pagesDirtied * PAGE_LEN < r.size + REGION_LEN }

  predicate SavedByPage(r: Region) { DirtyPagesOnly(r) && WorthIt(r) }

  predicate DirtyReadable(vm: Vm, r: Region) {
    forall i :: 0 <= i < PageCount(r) && IsDirty(vm, r, i) ==> Address(r.start, i) in vm.pages
  }

  /** What write_vm_region saves; it fails if a dirty page cannot be written. */
  function Save(vm: Vm, r: Region): Option<Record> {
    if SavedByPage(r) then if DirtyReadable(vm, r) then Some(SaveDirty(vm, r)) else None
    else Some(SaveFull(vm, if DirtyPagesOnly(r) then r.(dirtyOnly := false) else r))
  }

  // ----- the dirty pages -----

  lemma {:induction false} DirtyPagesAscend(vm: Vm, r: Region, n: nat)
    ensures var ps := DirtyPages(vm, r, n);
            && |ps| <= n
            && (forall p | p in ps :: p.offset + PAGE_SIZE <= n * PAGE_SIZE)
            && (forall i, j :: 0 <= i < j < |ps| ==> ps[i].offset < ps[j].offset)
  {
    if n > 0 { DirtyPagesAscend(vm, r, n - 1); }
  }

  /** The saved page is page `i` of the region, which is dirty. */
  predicate IsPage(vm: Vm, r: Region, p: SavedPage, i: nat) {
    p == PageAt(vm, r, i) && IsDirty(vm, r, i)
  }

  predicate IsSomePage(vm: Vm, r: Region, p: SavedPage) { IsPage(vm, r, p, p.offset / PAGE_SIZE) }

  lemma {:induction false} DirtyPagesExact(vm: Vm, r: Region, n: nat)
    ensures forall p | p in DirtyPages(vm, r, n) :: IsSomePage(vm, r, p)
    ensures forall i :: 0 <= i < n && IsDirty(vm, r, i) ==> PageAt(vm, r, i) in DirtyPages(vm, r, n)
  {
    if n > 0 {
      DirtyPagesExact(vm, r, n - 1);
      assert ((n - 1) * PAGE_SIZE) / PAGE_SIZE == n - 1;
    }
  }

  /** Exactly the dirty pages are saved, in ascending order and with their contents. */
  lemma DirtyPagesAre(vm: Vm, r: Region, n: nat)
    ensures var ps := DirtyPages(vm, r, n);
            && |ps| <= n
            && (forall p | p in ps :: IsSomePage(vm, r, p) && p.offset + PAGE_SIZE <= n * PAGE_SIZE)
            && (forall i, j :: 0 <= i < j < |ps| ==> ps[i].offset < ps[j].offset)
            && (forall i :: 0 <= i < n && IsDirty(vm, r, i) ==> PageAt(vm, r, i) in ps)
  {
    DirtyPagesAscend(vm, r, n);
    DirtyPagesExact(vm, r, n);
  }

  lemma PrintPagesLen(abi: Abi, ps: seq<SavedPage>)
    requires Lawful(abi)
    ensures |PrintPages(abi, ps)| == |ps| * PAGE_LEN
  {
    if ps != [] {
      PrintPagesLen(abi, ps[..|ps| - 1]);
    }
  }

  /**
    When the kernel's count is right, the writer saves by page exactly if that costs less
    than one header more than the whole region.
   */
  lemma ByPageIsNotLonger(abi: Abi, vm: Vm, r: Region)
    requires Lawful(abi) && r.pagesDirtied == |DirtyPages(vm, r, PageCount(r))|
    ensures WorthIt(r) <==> |PrintRecord(abi, SaveDirty(vm, r))| < REGION_LEN + r.size + REGION_LEN
  {
    PrintPagesLen(abi, SaveDirty(vm, r).pages);
  }

  // ----- the reader's decision -----

  /** A region the kernel can report. */
  predicate WellFormed(r: Region) { Fits(r) && Aligned(r) && PageCount(r) < 0x1_0000_0000 }

  /**
    dirty_only was never set for this region, happens to be true, and the pages that could
    be written all lie in the shared cache while the region as a whole does not.
   */
  predicate Misread(vm: Vm, r: Region) {
    && !DirtyPagesOnly(r) && r.dirtyOnly && CACHE_BASE <= r.start
    && r.start + Prefix(vm, r.start, PageCount(r)) * PAGE_SIZE < CACHE_END
  }

  /** A region that the writer saves whole and the reader takes for a list of pages. */
  lemma MisreadRegion() returns (vm: Vm, r: Region)
    ensures WellFormed(r) && Save(vm, r).Some? && Save(vm, r).value.Full? && ReadByPage(Save(vm, r).value.r)
  {
    var start: nat := CACHE_END - 2 * PAGE_SIZE;
    r := Region(start, 4 * PAGE_SIZE, 0, 3, 7, 0, 0, 0, true);
    vm := Vm(map[start := ZeroPage()], {}, map[]);
    assert PageCount(r) == 4 && !DirtyPagesOnly(r);
    assert Prefix(vm, start, 1) == 1 && Address(start, 1) !in vm.pages;
    assert Prefix(vm, start, 2) == 1 && Prefix(vm, start, 3) == 1 && Prefix(vm, start, 4) == 1;
  }

  /** A saved region is read back the way it was written, except in that case. */
  lemma FramedIff(vm: Vm, r: Region)
    requires WellFormed(r) && Save(vm, r).Some?
    ensures Framed(Save(vm, r).value) <==> !Misread(vm, r)
  {
    if SavedByPage(r) {
      DirtyPagesAre(vm, r, PageCount(r));
      var ps := DirtyPages(vm, r, PageCount(r));
      forall p | p in ps
        ensures U64(p.offset)
      {
        assert p.offset < PageCount(r) * PAGE_SIZE <= r.size;
      }
    } else {
      var k := Prefix(vm, r.start, PageCount(r));
      assert k * PAGE_SIZE <= PageCount(r) * PAGE_SIZE == r.size;
    }
  }

  // ----- restoring -----

  type Memory = map<nat, Page>

  /** Page `i` of the bytes; the rest of the last one is zero. */
  function PageOf(bytes: seq<byte>, i: nat): Page {
    var from := i * PAGE_SIZE;
    if from + PAGE_SIZE <= |bytes| then bytes[from..from + PAGE_SIZE]
    else if from < |bytes| then bytes[from..] + seq(PAGE_SIZE - (|bytes| - from), _ => 0)
    else ZeroPage()
  }

  predicate InRegion(r: Region, a: nat) {
    r.start <= a < r.start + r.size && (a - r.start) % PAGE_SIZE == 0
  }

  /** ckpt_vm_map_region and one read of the whole region. */
  function RestoreFull(mem: Memory, r: Region, bytes: seq<byte>): Memory {
    mem + map a: nat | r.start <= a < r.start + r.size && InRegion(r, a) :: PageOf(bytes, (a - r.start) / PAGE_SIZE)
  }

  /** Fresh pages, except in the shared cache, which every process has. */
  function Baseline(mem: Memory, r: Region): Memory {
    if InCache(r.start, r.size) then mem
    else mem + map a: nat | r.start <= a < r.start + r.size && InRegion(r, a) :: ZeroPage()
  }

  function RestorePages(mem: Memory, r: Region, ps: seq<SavedPage>): Memory {
    if ps == [] then mem
    else
      var p := ps[|ps| - 1];
      RestorePages(mem, r, ps[..|ps| - 1])[r.start + p.offset := p.page]
  }

  function Restore(mem: Memory, rec: Record): Memory {
    match rec
    case Full(r, bytes) => RestoreFull(mem, r, bytes)
    case ByPage(r, pages) => RestorePages(Baseline(mem, r), r, pages)
  }

  lemma AddressIn(r: Region, i: nat)
    requires i < PageCount(r)
    ensures InRegion(r, Address(r.start, i)) && (Address(r.start, i) - r.start) / PAGE_SIZE == i
  {
    assert (i * PAGE_SIZE) / PAGE_SIZE == i && (i * PAGE_SIZE) % PAGE_SIZE == 0;
    assert i * PAGE_SIZE < PageCount(r) * PAGE_SIZE <= r.size;
  }

  lemma {:induction false} PageBytesAt(vm: Vm, start: nat, k: nat, i: nat)
    requires i < k
    ensures PageOf(PageBytes(vm, start, k), i) == Content(vm, Address(start, i))
  {
    var before, last := PageBytes(vm, start, k - 1), Content(vm, Address(start, k - 1));
    if i == k - 1 {
      assert (before + last)[i * PAGE_SIZE..i * PAGE_SIZE + PAGE_SIZE] == last;
    } else {
      PageBytesAt(vm, start, k - 1, i);
      assert i * PAGE_SIZE + PAGE_SIZE <= (k - 1) * PAGE_SIZE;
      var from := i * PAGE_SIZE;
      assert (before + last)[from..from + PAGE_SIZE] == before[from..from + PAGE_SIZE];
    }
  }

  /** Every page that was written is restored byte for byte at its address. */
  lemma FullIsRestored(vm: Vm, r: Region, mem: Memory, i: nat)
    requires i < Prefix(vm, r.start, PageCount(r))
    ensures var m, a := Restore(mem, SaveFull(vm, r)), Address(r.start, i); a in m && m[a] == vm.pages[a]
  {
    var k := Prefix(vm, r.start, PageCount(r));
    var rec := SaveFull(vm, r);
    if k < PageCount(r) { assert PageCount(rec.r) == (k * PAGE_SIZE) / PAGE_SIZE == k; }
    AddressIn(rec.r, i);
    PageBytesAt(vm, r.start, k, i);
  }

  /** Restoring a record changes nothing outside of its region. */
  lemma {:induction false} PagesStayInside(mem: Memory, r: Region, ps: seq<SavedPage>, a: nat)
    requires forall p | p in ps :: r.start + p.offset != a
    ensures a in RestorePages(mem, r, ps) <==> a in mem
    ensures a in mem ==> RestorePages(mem, r, ps)[a] == mem[a]
  {
    if ps != [] {
      PagesStayInside(mem, r, ps[..|ps| - 1], a);
    }
  }

  lemma {:induction false} PageIsRestored(mem: Memory, r: Region, ps: seq<SavedPage>, p: SavedPage)
    requires p in ps && forall i, j :: 0 <= i < j < |ps| ==> ps[i].offset < ps[j].offset
    ensures var m := RestorePages(mem, r, ps); r.start + p.offset in m && m[r.start + p.offset] == p.page
  {
    var last := ps[|ps| - 1];
    if p != last {
      PageIsRestored(mem, r, ps[..|ps| - 1], p);
    }
  }

  /**
    Clean page `i` is what the restarted process has there anyway: the page of the shared
    cache, which every process maps, or a fresh page.
   */
  predicate CleanIsThere(vm: Vm, r: Region, mem: Memory, i: nat) {
    var a := Address(r.start, i);
    || IsDirty(vm, r, i)
    || if InCache(r.start, r.size) then a in mem && mem[a] == Content(vm, a) else Content(vm, a) == ZeroPage()
  }

  /** A region saved by page is restored exactly if its clean pages are there. */
  lemma ByPageIsRestoredIff(vm: Vm, r: Region, mem: Memory, i: nat)
    requires i < PageCount(r)
    ensures var m, a := Restore(mem, SaveDirty(vm, r)), Address(r.start, i);
            (a in m && m[a] == Content(vm, a)) <==> CleanIsThere(vm, r, mem, i)
  {
    var rec := SaveDirty(vm, r);
    assert Baseline(mem, rec.r) == Baseline(mem, r);
    if IsDirty(vm, r, i) {
      DirtyIsRestored(vm, r, Baseline(mem, r), rec.r, i);
    } else {
      CleanIsUntouched(vm, r, Baseline(mem, r), rec.r, i);
      AddressIn(r, i);
    }
  }

  /**
    What the reader does to a page that is not in the list: outside of the shared cache
    there is a fresh page then, inside of it nothing has changed.
   */
  lemma UnsavedPage(mem: Memory, r: Region, ps: seq<SavedPage>, i: nat)
    requires i < PageCount(r) && forall p | p in ps :: p.offset != i * PAGE_SIZE
    ensures var m, a := Restore(mem, ByPage(r, ps)), Address(r.start, i);
            if InCache(r.start, r.size) then (a in m <==> a in mem) && (a in mem ==> m[a] == mem[a])
            else a in m && m[a] == ZeroPage()
  {
    AddressIn(r, i);
    PagesStayInside(Baseline(mem, r), r, ps, Address(r.start, i));
  }

  lemma DirtyIsRestored(vm: Vm, r: Region, base: Memory, r': Region, i: nat)
    requires i < PageCount(r) && IsDirty(vm, r, i) && r'.start == r.start
    ensures var m := RestorePages(base, r', DirtyPages(vm, r, PageCount(r)));
            Address(r.start, i) in m && m[Address(r.start, i)] == Content(vm, Address(r.start, i))
  {
    DirtyPagesAre(vm, r, PageCount(r));
    PageIsRestored(base, r', DirtyPages(vm, r, PageCount(r)), PageAt(vm, r, i));
  }

  lemma CleanIsUntouched(vm: Vm, r: Region, base: Memory, r': Region, i: nat)
    requires i < PageCount(r) && !IsDirty(vm, r, i) && r'.start == r.start
    ensures var m, a := RestorePages(base, r', DirtyPages(vm, r, PageCount(r))), Address(r.start, i);
            (a in m <==> a in base) && (a in base ==> m[a] == base[a])
  {
    DirtyPagesAre(vm, r, PageCount(r));
    assert (i * PAGE_SIZE) / PAGE_SIZE == i;
    forall p | p in DirtyPages(vm, r, PageCount(r))
      ensures r'.start + p.offset != Address(r.start, i)
    {
      assert IsSomePage(vm, r, p);
    }
    PagesStayInside(base, r', DirtyPages(vm, r, PageCount(r)), Address(r.start, i));
  }

  // ----- a whole image -----

  predicate Disjoint(r: Region, s: Region) { r.start + r.size <= s.start || s.start + s.size <= r.start }

  /** The saved records of regions that could all be saved. */
  function SaveAll(vm: Vm, rs: seq<Region>): Option<seq<Record>> {
    if rs == [] then Some([])
    else
      match SaveAll(vm, rs[..|rs| - 1])
      case None => None
      case Some(recs) =>
        match Save(vm, rs[|rs| - 1])
        case None => None
        case Some(rec) => Some(recs + [rec])
  }

  function RestoreAll(mem: Memory, recs: seq<Record>): Memory {
    if recs == [] then mem else Restore(RestoreAll(mem, recs[..|recs| - 1]), recs[|recs| - 1])
  }

  /** Page `i` of a region is one that the image is good for. */
  predicate Covered(vm: Vm, r: Region, mem: Memory, i: nat) {
    i < PageCount(r) &&
    if SavedByPage(r) then DirtyReadable(vm, r) && CleanIsThere(vm, r, mem, i)
    else i < Prefix(vm, r.start, PageCount(r))
  }

  lemma CoveredIsRestored(vm: Vm, r: Region, mem: Memory, i: nat)
    requires Save(vm, r).Some? && Covered(vm, r, mem, i)
    ensures var m, a := Restore(mem, Save(vm, r).value), Address(r.start, i); a in m && m[a] == Content(vm, a)
  {
    if SavedByPage(r) {
      ByPageIsRestoredIff(vm, r, mem, i);
    } else {
      FullIsRestored(vm, if DirtyPagesOnly(r) then r.(dirtyOnly := false) else r, mem, i);
    }
  }

  /** A record touches nothing outside of the region it was saved from. */
  lemma RestoreStaysInside(vm: Vm, r: Region, mem: Memory, a: nat)
    requires Save(vm, r).Some? && !(r.start <= a < r.start + r.size)
    ensures var m := Restore(mem, Save(vm, r).value); (a in m <==> a in mem) && (a in mem ==> m[a] == mem[a])
  {
    if SavedByPage(r) {
      var rec := SaveDirty(vm, r);
      DirtyPagesAre(vm, r, PageCount(r));
      forall p | p in rec.pages
        ensures rec.r.start + p.offset != a
      {
        assert p.offset < PageCount(r) * PAGE_SIZE <= r.size;
      }
      PagesStayInside(Baseline(mem, rec.r), rec.r, rec.pages, a);
    } else {
      var k := Prefix(vm, r.start, PageCount(r));
      assert k * PAGE_SIZE <= PageCount(r) * PAGE_SIZE <= r.size;
    }
  }

  lemma SaveAllLast(vm: Vm, rs: seq<Region>)
    requires rs != [] && SaveAll(vm, rs).Some?
    ensures var n := |rs| - 1;
            && SaveAll(vm, rs[..n]).Some? && Save(vm, rs[n]).Some?
            && SaveAll(vm, rs).value == SaveAll(vm, rs[..n]).value + [Save(vm, rs[n]).value]
  {}

  lemma RestoreAllLast(mem: Memory, recs: seq<Record>, rec: Record)
    ensures RestoreAll(mem, recs + [rec]) == Restore(RestoreAll(mem, recs), rec)
  {
    assert (recs + [rec])[..|recs|] == recs;
  }

  /** Regions elsewhere leave a page alone. */
  lemma {:induction false} OthersStayOutside(vm: Vm, rs: seq<Region>, mem: Memory, a: nat)
    requires SaveAll(vm, rs).Some? && forall r | r in rs :: !(r.start <= a < r.start + r.size)
    ensures var m := RestoreAll(mem, SaveAll(vm, rs).value); (a in m <==> a in mem) && (a in mem ==> m[a] == mem[a])
  {
    if rs != [] {
      var n := |rs| - 1;
      SaveAllLast(vm, rs);
      OthersStayOutside(vm, rs[..n], mem, a);
      RestoreAllLast(mem, SaveAll(vm, rs[..n]).value, Save(vm, rs[n]).value);
      RestoreStaysInside(vm, rs[n], RestoreAll(mem, SaveAll(vm, rs[..n]).value), a);
    }
  }

  /** What is there of a page is not changed by the restoration of other regions. */
  lemma CoveredLater(vm: Vm, r: Region, mem: Memory, m: Memory, i: nat)
    requires Covered(vm, r, mem, i)
    requires var a := Address(r.start, i); a in mem ==> a in m && m[a] == mem[a]
    ensures Covered(vm, r, m, i)
  {}

  /**
    Restoring all records of an image puts every covered page of every region back, byte
    for byte, where it was.
   */
  lemma {:induction false} ImageIsRestored(vm: Vm, rs: seq<Region>, mem: Memory, j: nat, i: nat)
    requires SaveAll(vm, rs).Some? && j < |rs| && Covered(vm, rs[j], mem, i)
    requires forall k, l :: 0 <= k < l < |rs| ==> Disjoint(rs[k], rs[l])
    ensures var m, a := RestoreAll(mem, SaveAll(vm, rs).value), Address(rs[j].start, i);
            a in m && m[a] == Content(vm, a)
  {
    var n := |rs| - 1;
    SaveAllLast(vm, rs);
    RestoreAllLast(mem, SaveAll(vm, rs[..n]).value, Save(vm, rs[n]).value);
    if j == n {
      LastIsRestored(vm, rs, mem, i);
    } else {
      ImageIsRestored(vm, rs[..n], mem, j, i);
      StaysRestored(vm, rs[j], rs[n], RestoreAll(mem, SaveAll(vm, rs[..n]).value), i);
    }
  }

  /** A page of one region survives the restoration of another region. */
  lemma StaysRestored(vm: Vm, r: Region, s: Region, m: Memory, i: nat)
    requires Disjoint(r, s) && Save(vm, s).Some? && i < PageCount(r)
    requires var a := Address(r.start, i); a in m && m[a] == Content(vm, a)
    ensures var m', a := Restore(m, Save(vm, s).value), Address(r.start, i); a in m' && m'[a] == Content(vm, a)
  {
    AddressIn(r, i);
    OutsideOf(r, s, Address(r.start, i));
    RestoreStaysInside(vm, s, m, Address(r.start, i));
  }

  lemma OutsideOf(r: Region, s: Region, a: nat)
    requires Disjoint(r, s) && InRegion(r, a)
    ensures !(s.start <= a < s.start + s.size)
  {}

  lemma LastIsRestored(vm: Vm, rs: seq<Region>, mem: Memory, i: nat)
    requires rs != [] && SaveAll(vm, rs[..|rs| - 1]).Some? && Save(vm, rs[|rs| - 1]).Some?
    requires Covered(vm, rs[|rs| - 1], mem, i)
    requires forall k :: 0 <= k < |rs| - 1 ==> Disjoint(rs[k], rs[|rs| - 1])
    ensures var m := Restore(RestoreAll(mem, SaveAll(vm, rs[..|rs| - 1]).value), Save(vm, rs[|rs| - 1]).value);
            var a := Address(rs[|rs| - 1].start, i); a in m && m[a] == Content(vm, a)
  {
    var others, r := rs[..|rs| - 1], rs[|rs| - 1];
    var a := Address(r.start, i);
    AddressIn(r, i);
    OthersStayOutside(vm, others, mem, a);
    CoveredLater(vm, r, mem, RestoreAll(mem, SaveAll(vm, others).value), i);
    CoveredIsRestored(vm, r, RestoreAll(mem, SaveAll(vm, others).value), i);
  }

  // ----- entries -----

  /**
    The entries of an image: one per kind, regions in order, always the same context. None
    if a kind is unknown, a region is missing or a region cannot be saved.
   */
  function SavedEntries(vm: Vm, kinds: seq<nat>, rs: seq<Region>, ctx: seq<byte>): Option<seq<Entry>> {
    if kinds == [] then Some([])
    else
      var n := |kinds| - 1;
      match SavedEntries(vm, kinds[..n], rs, ctx)
      case None => None
      case Some(es) =>
        match SavedEntry(vm, kinds[n], rs, RegionsIn(kinds[..n]), ctx)
        case None => None
        case Some(e) => Some(es + [e])
  }

  function SavedEntry(vm: Vm, kind: nat, rs: seq<Region>, i: nat, ctx: seq<byte>): Option<Entry> {
    if kind == CONTEXT_KIND then Some(ContextEntry(ctx))
    else if kind != REGION_KIND || i >= |rs| then None
    else
      match Save(vm, rs[i])
      case None => None
      case Some(rec) => Some(RegionEntry(rec))
  }

  function RegionsIn(kinds: seq<nat>): (n: nat)
    ensures n <= |kinds|
  {
    if kinds == [] then 0
    else RegionsIn(kinds[..|kinds| - 1]) + (if kinds[|kinds| - 1] == REGION_KIND then 1 else 0)
  }

  function RestoreEntry(mem: Memory, e: Entry): Memory {
    if e.RegionEntry? then Restore(mem, e.rec) else mem
  }

  function RestoreEntries(mem: Memory, es: seq<Entry>): Memory {
    if es == [] then mem else RestoreEntry(RestoreEntries(mem, es[..|es| - 1]), es[|es| - 1])
  }

  /** The entries restore what the records of the regions restore. */
  lemma {:induction false} EntriesRestoreAll(vm: Vm, kinds: seq<nat>, rs: seq<Region>, ctx: seq<byte>, mem: Memory)
    requires SavedEntries(vm, kinds, rs, ctx).Some?
    ensures RegionsIn(kinds) <= |rs| && SaveAll(vm, rs[..RegionsIn(kinds)]).Some?
    ensures RestoreEntries(mem, SavedEntries(vm, kinds, rs, ctx).value) ==
            RestoreAll(mem, SaveAll(vm, rs[..RegionsIn(kinds)]).value)
  {
    if kinds != [] {
      var n := |kinds| - 1;
      var i := RegionsIn(kinds[..n]);
      var es := SavedEntries(vm, kinds[..n], rs, ctx).value;
      var e := SavedEntry(vm, kinds[n], rs, i, ctx).value;
      EntriesRestoreAll(vm, kinds[..n], rs, ctx, mem);
      RestoreEntriesLast(mem, es, e);
      if kinds[n] == REGION_KIND { OneMoreRegion(vm, rs, i, mem); }
    }
  }

  lemma RestoreEntriesLast(mem: Memory, es: seq<Entry>, e: Entry)
    ensures RestoreEntries(mem, es + [e]) == RestoreEntry(RestoreEntries(mem, es), e)
  {
    assert (es + [e])[..|es|] == es;
  }

  lemma OneMoreRegion(vm: Vm, rs: seq<Region>, i: nat, mem: Memory)
    requires i < |rs| && SaveAll(vm, rs[..i]).Some? && Save(vm, rs[i]).Some?
    ensures SaveAll(vm, rs[..i + 1]).Some?
    ensures RestoreAll(mem, SaveAll(vm, rs[..i + 1]).value) ==
            Restore(RestoreAll(mem, SaveAll(vm, rs[..i]).value), Save(vm, rs[i]).value)
  {
    assert rs[..i + 1][..i] == rs[..i] && rs[..i + 1][i] == rs[i];
    RestoreAllLast(mem, SaveAll(vm, rs[..i]).value, Save(vm, rs[i]).value);
  }

  lemma {:induction false} SavedEntriesLen(vm: Vm, kinds: seq<nat>, rs: seq<Region>, ctx: seq<byte>)
    requires SavedEntries(vm, kinds, rs, ctx).Some?
    ensures |SavedEntries(vm, kinds, rs, ctx).value| == |kinds|
  {
    if kinds != [] { SavedEntriesLen(vm, kinds[..|kinds| - 1], rs, ctx); }
  }

  /** What is saved of well-formed regions is read back the way it was written. */
  lemma {:induction false} SavedAreFramed(vm: Vm, kinds: seq<nat>, rs: seq<Region>, ctx: seq<byte>)
    requires |ctx| == CONTEXT_LEN && forall r | r in rs :: WellFormed(r) && !Misread(vm, r)
    requires SavedEntries(vm, kinds, rs, ctx).Some?
    ensures forall e | e in SavedEntries(vm, kinds, rs, ctx).value :: EntryFramed(e)
  {
    if kinds != [] {
      var n := |kinds| - 1;
      var i := RegionsIn(kinds[..n]);
      SavedAreFramed(vm, kinds[..n], rs, ctx);
      if kinds[n] == REGION_KIND { FramedIff(vm, rs[i]); }
    }
  }

  /**
    The whole way: the reader finds in the file, after its header, exactly the entries that
    were saved, uses all bytes, and puts every covered page of every region back.
   */
  lemma ImageRoundTrip(
    abi: Abi, vm: Vm, kinds: seq<nat>, rs: seq<Region>, ctx: seq<byte>, header: seq<byte>, mem: Memory, j: nat, i: nat)
    requires Lawful(abi) && SavedEntries(vm, kinds, rs, ctx).Some? && RegionsIn(kinds) == |rs|
    requires |ctx| == CONTEXT_LEN && forall r | r in rs :: WellFormed(r) && !Misread(vm, r)
    requires forall k, l :: 0 <= k < l < |rs| ==> Disjoint(rs[k], rs[l])
    requires j < |rs| && Covered(vm, rs[j], mem, i)
    ensures var es := SavedEntries(vm, kinds, rs, ctx).value;
            var file := header + PrintEntries(abi, es);
            var m, a := RestoreEntries(mem, es), Address(rs[j].start, i);
            && ParseEntries(abi, file, |header|, |kinds|) == Some(Parsed(es, |file|))
            && a in m && m[a] == Content(vm, a)
  {
    SavedEntriesLen(vm, kinds, rs, ctx);
    SavedAreFramed(vm, kinds, rs, ctx);
    FileRoundTrip(abi, header, SavedEntries(vm, kinds, rs, ctx).value);
    EntriesRestoreAll(vm, kinds, rs, ctx, mem);
    assert rs[..|rs|] == rs;
    ImageIsRestored(vm, rs, mem, j, i);
  }

  lemma FileRoundTrip(abi: Abi, header: seq<byte>, es: seq<Entry>)
    requires Lawful(abi) && forall e | e in es :: EntryFramed(e)
    ensures var file := header + PrintEntries(abi, es);
            ParseEntries(abi, file, |header|, |es|) == Some(Parsed(es, |file|))
  {
    assert HasAt(header + PrintEntries(abi, es), |header|, PrintEntries(abi, es));
    EntriesRoundTrip(abi, header + PrintEntries(abi, es), |header|, es);
  }
}
