/**
  The writer and the reader of an image, on a file with a position
  (xnd/writeckpt.c, xnd/readckpt.c and xnd/vm_restore.c), proved against ImageContents
  and ImageFormat.
 */
module ImageIO {
  import opened Wrappers
  import opened ImageFormat
  import opened ImageContents
  import A = ImageAbi

  class File {
    var data: seq<byte>
    var pos: nat

    constructor (bytes: seq<byte>)
      ensures data == bytes && pos == 0
    {
      data, pos := bytes, 0;
    }

    predicate AtEnd()
      reads this
    {
      pos == |data|
    }

    /** writeall: overwrites, and extends the file if necessary. */
    method Write(bs: seq<byte>)
      requires pos <= |data|
      modifies this
      ensures pos == old(pos) + |bs| && pos <= |data|
      ensures data == old(data)[..old(pos)] + bs + (if pos <= |old(data)| then old(data)[pos..] else [])
    {
      data := data[..pos] + bs + (if pos + |bs| <= |data| then data[pos + |bs|..] else []);
      pos := pos + |bs|;
    }

    /** lseek */
    method Seek(p: nat)
      modifies this`pos
      ensures pos == p
    {
      pos := p;
    }

    /** sys_readall: up to `n` bytes, fewer only at the end of the file. */
    method Read(n: nat) returns (bs: seq<byte>)
      requires pos <= |data|
      modifies this`pos
      ensures var m := if old(pos) + n <= |data| then n else |data| - old(pos);
              bs == data[old(pos)..old(pos) + m] && pos == old(pos) + m
    {
      var end := if pos + n <= |data| then pos + n else |data|;
      bs := data[pos..end];
      pos := end;
    }
  }

  /** What a failing page write leaves in the file is less than a page. */
  predicate PartialPages(vm: Vm) { forall a | a in vm.partial :: |vm.partial[a]| < PAGE_SIZE }

  // ----- the writer -----

  /** Writes page `a` of memory, or what can be written of it; `n` is the return value of writeall. */
  method WritePageAt(f: File, vm: Vm, a: nat) returns (n: nat)
    requires f.AtEnd()
    modifies f
    ensures f.AtEnd() && f.data == old(f.data) + (if a in vm.pages then vm.pages[a] else Left(vm, a))
    ensures n == |f.data| - |old(f.data)|
  {
    var bs := if a in vm.pages then vm.pages[a] else Left(vm, a);
    f.Write(bs);
    n := |bs|;
  }

  /**
    write_vm_region_all_pages. Afterwards the position is behind the pages, unless part of
    a page was written: the code then goes back as far again as that part is long.
   */
  method WriteAllPages(f: File, vm: Vm, region: Region) returns (ok: bool, p: nat)
    requires f.AtEnd() && PartialPages(vm)
    modifies f
    ensures p == Prefix(vm, region.start, PageCount(region))
    ensures f.data == old(f.data) + PageBytes(vm, region.start, p) + LeftOver(vm, region)
    ensures ok <==> |LeftOver(vm, region)| <= |old(f.data)| + p * PAGE_SIZE
    ensures ok ==> f.pos == |old(f.data)| + p * PAGE_SIZE - |LeftOver(vm, region)|
  {
    ok := true;
    var seek := f.pos;
    p := 0;
    while p < PageCount(region)
      invariant p <= PageCount(region) && p == Prefix(vm, region.start, p)
      invariant f.AtEnd() && f.data == old(f.data) + PageBytes(vm, region.start, p)
      invariant seek == f.pos == |old(f.data)| + p * PAGE_SIZE
    {
      var bytes := WritePageAt(f, vm, Address(region.start, p));
      if bytes != PAGE_SIZE {
        PrefixStops(vm, region.start, p, PageCount(region));
        if bytes != 0 {
          if bytes > seek {
            return false, p;
          }
          f.Seek(seek - bytes);
        }
        return;
      }
      seek := seek + PAGE_SIZE;
      p := p + 1;
    }
  }

  lemma {:induction false} PrefixStops(vm: Vm, start: nat, p: nat, n: nat)
    requires p < n && p == Prefix(vm, start, p) && Address(start, p) !in vm.pages
    ensures Prefix(vm, start, n) == p
  {
    if n > p + 1 { PrefixStops(vm, start, p, n - 1); }
  }

  /** write_vm_page */
  method WritePage(f: File, abi: Abi, vm: Vm, region: Region, offset: nat) returns (ok: bool)
    requires Lawful(abi) && f.AtEnd() && PartialPages(vm)
    modifies f
    ensures ok <==> region.start + offset in vm.pages
    ensures ok ==>
              var saved := SavedPage(offset, Content(vm, region.start + offset));
              f.AtEnd() && f.data == old(f.data) + PrintPage(abi, saved)
  {
    f.Write(abi.word(offset));
    var bytes := WritePageAt(f, vm, region.start + offset);
    ok := bytes == PAGE_SIZE;
  }

  /** write_vm_region_dirty; `None` if a page could not be written. */
  method WriteDirty(f: File, abi: Abi, vm: Vm, region: Region) returns (saved: Option<Region>)
    requires Lawful(abi) && f.AtEnd() && Aligned(region) && region.dirtyOnly
    requires PartialPages(vm)
    modifies f
    ensures saved.Some? <==> DirtyReadable(vm, region)
    ensures saved.Some? ==>
              && saved.value == SaveDirty(vm, region).r && f.AtEnd()
              && f.data == old(f.data) + PrintRecord(abi, SaveDirty(vm, region))
  {
    var dirty := CountDirty(vm, region);
    var r := region.(pagesDirtied := dirty);
    f.Write(abi.region(r));
    var ok := WriteDirtyPages(f, abi, vm, region, dirty);
    saved := if ok then Some(r) else None;
  }

  /** The first pass over the vector of the kernel. */
  method CountDirty(vm: Vm, region: Region) returns (dirty: nat)
    ensures dirty == |DirtyPages(vm, region, PageCount(region))|
  {
    dirty := 0;
    for idx := 0 to PageCount(region)
      invariant dirty == |DirtyPages(vm, region, idx)|
    {
      if IsDirty(vm, region, idx) {
        dirty := dirty + 1;
      }
    }
  }

  /** The dirty ones of the first `idx` pages could be read, and are in the file after `start`. */
  ghost predicate Written(abi: Abi, vm: Vm, r: Region, idx: nat, written: nat, start: seq<byte>, data: seq<byte>) {
    && written == |DirtyPages(vm, r, idx)| && data == start + PrintPages(abi, DirtyPages(vm, r, idx))
    && forall i :: 0 <= i < idx && IsDirty(vm, r, i) ==> Address(r.start, i) in vm.pages
  }

  /** The second pass; it stops as soon as all dirty pages are written, and loses none. */
  method WriteDirtyPages(f: File, abi: Abi, vm: Vm, region: Region, dirty: nat) returns (ok: bool)
    requires Lawful(abi) && f.AtEnd() && dirty == |DirtyPages(vm, region, PageCount(region))|
    requires PartialPages(vm)
    modifies f
    ensures ok <==> DirtyReadable(vm, region)
    ensures ok ==> f.AtEnd() && f.data == old(f.data) + PrintPages(abi, DirtyPages(vm, region, PageCount(region)))
  {
    var vecLen := PageCount(region);
    var written, idx := 0, 0;
    while idx < vecLen
      invariant 0 <= idx <= vecLen && 0 <= written && f.AtEnd()
      invariant Written(abi, vm, region, idx, written, old(f.data), f.data)
    {
      if written >= dirty {
        AllWritten(abi, vm, region, idx, written, old(f.data), f.data);
        assert idx >= dirty;
        break;
      }
      var done, n := WriteIfDirty(f, abi, vm, region, idx, written, old(f.data));
      if !done {
        return false;
      }
      written, idx := written + n, idx + 1;
    }
    assert written == dirty;
    ok := true;
  }

  lemma AllWritten(abi: Abi, vm: Vm, r: Region, idx: nat, written: nat, start: seq<byte>, data: seq<byte>)
    requires idx <= PageCount(r) && Written(abi, vm, r, idx, written, start, data)
    requires written >= |DirtyPages(vm, r, PageCount(r))|
    ensures Written(abi, vm, r, PageCount(r), written, start, data) && written <= idx
  {
    AllSeen(vm, r, idx, PageCount(r));
  }

  /** One turn of that loop. */
  method WriteIfDirty(f: File, abi: Abi, vm: Vm, region: Region, idx: nat, ghost written: nat, ghost start: seq<byte>)
    returns (ok: bool, n: nat)
    requires Lawful(abi) && f.AtEnd() && PartialPages(vm) && Written(abi, vm, region, idx, written, start, f.data)
    modifies f
    ensures ok <==> (IsDirty(vm, region, idx) ==> Address(region.start, idx) in vm.pages)
    ensures ok ==> f.AtEnd() && Written(abi, vm, region, idx + 1, written + n, start, f.data)
  {
    ok, n := true, 0;
    OnePageMore(abi, vm, region, idx);
    if IsDirty(vm, region, idx) {
      ok := WritePage(f, abi, vm, region, idx * PAGE_SIZE);
      n := 1;
    }
  }

  /** When as many dirty pages have been seen as there are, the rest is clean. */
  lemma {:induction false} AllSeen(vm: Vm, r: Region, i: nat, n: nat)
    requires i <= n && |DirtyPages(vm, r, i)| >= |DirtyPages(vm, r, n)|
    ensures DirtyPages(vm, r, i) == DirtyPages(vm, r, n) && |DirtyPages(vm, r, n)| <= i
    ensures forall j :: i <= j < n ==> !IsDirty(vm, r, j)
  {
    if i < n {
      Grows(vm, r, i, n - 1);
      AllSeen(vm, r, i, n - 1);
    } else {
      DirtyPagesAscend(vm, r, i);
    }
  }

  lemma {:induction false} Grows(vm: Vm, r: Region, i: nat, n: nat)
    requires i <= n
    ensures |DirtyPages(vm, r, i)| <= |DirtyPages(vm, r, n)|
  {
    if i < n { Grows(vm, r, i, n - 1); }
  }

  lemma OnePageMore(abi: Abi, vm: Vm, r: Region, i: nat)
    ensures PrintPages(abi, DirtyPages(vm, r, i + 1)) ==
            PrintPages(abi, DirtyPages(vm, r, i)) +
            (if IsDirty(vm, r, i) then PrintPage(abi, PageAt(vm, r, i)) else [])
    ensures |DirtyPages(vm, r, i + 1)| == |DirtyPages(vm, r, i)| + if IsDirty(vm, r, i) then 1 else 0
  {
    if IsDirty(vm, r, i) {
      PrintOneMore(PagePrinter(abi), DirtyPages(vm, r, i), PageAt(vm, r, i));
    } else {
      assert DirtyPages(vm, r, i + 1) == DirtyPages(vm, r, i);
    }
  }

  /** What is left in the file of the page at which writing the whole region stops. */
  function LeftOver(vm: Vm, r: Region): seq<byte> {
    var k := Prefix(vm, r.start, PageCount(r));
    if k < PageCount(r) then Left(vm, Address(r.start, k)) else []
  }

  /** What ends up behind the record of the region: part of a page, if the region is saved whole. */
  function WrongBytes(vm: Vm, r: Region): seq<byte> { if SavedByPage(r) then [] else LeftOver(vm, r) }

  predicate PartialFailure(vm: Vm, r: Region) { WrongBytes(vm, r) != [] }

  /**
    write_vm_region. If a page was written in part, these bytes follow the record, and the
    position is as far in front of the end of the record as there are such bytes. The code
    aborts if that is in front of the file.
   */
  method WriteRegion(f: File, abi: Abi, vm: Vm, region0: Region) returns (saved: Option<Region>)
    requires Lawful(abi) && f.AtEnd() && Aligned(region0) && PartialPages(vm)
    modifies f
    ensures Save(vm, region0).None? ==> saved.None?
    ensures Save(vm, region0).Some? ==>
              var record, left := PrintRecord(abi, Save(vm, region0).value), WrongBytes(vm, region0);
              && (saved.Some? <==> |left| <= |old(f.data)| + |record|)
              && (saved.Some? ==>
                    saved.value == Save(vm, region0).value.r && f.data == old(f.data) + record + left &&
                    f.pos == |old(f.data)| + |record| - |left|)
  {
    var region := region0;
    if DirtyPagesOnly(region) {
      var cost := region.pagesDirtied * (WORD_LEN + PAGE_SIZE);
      if cost < region.size + REGION_LEN {
        region := region.(dirtyOnly := true);
        saved := WriteDirty(f, abi, vm, region);
        SameDirty(vm, region0, region, PageCount(region));
        return;
      }
      region := region.(dirtyOnly := false);
    }

    saved := WriteFull(f, abi, vm, region);
  }

  /** The rest of write_vm_region: all pages, with the size corrected afterwards. */
  method WriteFull(f: File, abi: Abi, vm: Vm, region0: Region) returns (saved: Option<Region>)
    requires Lawful(abi) && f.AtEnd() && Aligned(region0) && PartialPages(vm)
    modifies f
    ensures var record, left := PrintRecord(abi, SaveFull(vm, region0)), LeftOver(vm, region0);
            && (saved.Some? <==> |left| <= |old(f.data)| + |record|)
            && (saved.Some? ==>
                  saved.value == SaveFull(vm, region0).r && f.data == old(f.data) + record + left &&
                  f.pos == |old(f.data)| + |record| - |left|)
  {
    var region := region0;
    var before := f.pos;
    f.Write(abi.region(region));
    var ok, n := WriteAllPages(f, vm, region);
    if !ok {
      return None;
    }
    ghost var pages, left := PageBytes(vm, region.start, n), LeftOver(vm, region0);
    assert f.data == old(f.data) + abi.region(region) + (pages + left);
    if n < PageCount(region) {
      region := region.(size := n * PAGE_SIZE);
      CorrectHeader(f, abi, before, region, old(f.data), abi.region(region0), pages + left);
    }
    RecordAndRest(old(f.data), abi.region(region), pages, left);
    saved := Some(region);
  }

  lemma RecordAndRest(start: seq<byte>, header: seq<byte>, pages: seq<byte>, left: seq<byte>)
    ensures start + header + (pages + left) == start + (header + pages) + left
  {}

  /** Writes the struct of the region again in its old place, and comes back. */
  method CorrectHeader(
    f: File, abi: Abi, before: nat, region: Region,
    ghost start: seq<byte>, ghost header: seq<byte>, ghost rest: seq<byte>)
    requires Lawful(abi) && f.data == start + header + rest && before == |start| && |header| == REGION_LEN
    modifies f
    ensures f.data == start + abi.region(region) + rest && f.pos == old(f.pos)
  {
    var after := f.pos;
    f.Seek(before);
    f.Write(abi.region(region));
    f.Seek(after);
  }

  lemma {:induction false} SameDirty(vm: Vm, r: Region, r': Region, n: nat)
    requires r' == r.(dirtyOnly := true)
    ensures DirtyPages(vm, r', n) == DirtyPages(vm, r, n) && DirtyReadable(vm, r') == DirtyReadable(vm, r)
    ensures n == PageCount(r) ==> SaveDirty(vm, r') == SaveDirty(vm, r)
  {
    if n > 0 { SameDirty(vm, r, r', n - 1); }
  }

  /** write_ckpt, after the header: it succeeds exactly if every entry can be saved. */
  method WriteCkpt(f: File, abi: Abi, vm: Vm, kinds: seq<nat>, regions: seq<Region>, ctx: seq<byte>) returns (ok: bool)
    requires Lawful(abi) && f.AtEnd() && PartialPages(vm)
    requires forall r | r in regions :: Aligned(r) && !PartialFailure(vm, r)
    modifies f
    ensures ok <==> SavedEntries(vm, kinds, regions, ctx).Some?
    ensures ok ==> f.AtEnd() && f.data == old(f.data) + PrintEntries(abi, SavedEntries(vm, kinds, regions, ctx).value)
  {
    var region := 0;
    for i := 0 to |kinds|
      invariant f.AtEnd() && region == RegionsIn(kinds[..i]) && SavedEntries(vm, kinds[..i], regions, ctx).Some?
      invariant f.data == old(f.data) + PrintEntries(abi, SavedEntries(vm, kinds[..i], regions, ctx).value)
    {
      assert kinds[..i + 1][..i] == kinds[..i];
      ghost var before := f.data;
      var done := WriteEntry(f, abi, vm, kinds[i], regions, region, ctx);
      if !done {
        NotSavedLater(vm, kinds, regions, ctx, i + 1);
        return false;
      }
      EntryAppended(abi, old(f.data), before, f.data, SavedEntries(vm, kinds[..i], regions, ctx).value,
                    SavedEntry(vm, kinds[i], regions, region, ctx).value);
      if kinds[i] == REGION_KIND {
        region := region + 1;
      }
    }
    assert kinds[..|kinds|] == kinds;
    ok := true;
  }

  lemma EntryAppended(abi: Abi, start: seq<byte>, before: seq<byte>, after: seq<byte>, es: seq<Entry>, e: Entry)
    requires before == start + PrintEntries(abi, es) && after == before + PrintEntry(abi, e)
    ensures after == start + PrintEntries(abi, es + [e])
  {
    PrintOneMore(EntryPrinter(abi), es, e);
  }

  lemma {:induction false} NotSavedLater(vm: Vm, kinds: seq<nat>, rs: seq<Region>, ctx: seq<byte>, i: nat)
    requires i <= |kinds| && SavedEntries(vm, kinds[..i], rs, ctx).None?
    ensures SavedEntries(vm, kinds, rs, ctx).None?
  {
    if i == |kinds| {
      assert kinds[..i] == kinds;
    } else {
      assert kinds[..|kinds| - 1][..i] == kinds[..i];
      NotSavedLater(vm, kinds[..|kinds| - 1], rs, ctx, i);
    }
  }

  /** write_vm_region when no page is written in part. */
  method WriteWholeRegion(f: File, abi: Abi, vm: Vm, region: Region) returns (ok: bool)
    requires Lawful(abi) && f.AtEnd() && PartialPages(vm) && Aligned(region) && !PartialFailure(vm, region)
    modifies f
    ensures ok <==> Save(vm, region).Some?
    ensures ok ==> f.AtEnd() && f.data == old(f.data) + PrintRecord(abi, Save(vm, region).value)
  {
    var saved := WriteRegion(f, abi, vm, region);
    ok := saved.Some?;
  }

  /** One turn of the loop of write_ckpt; an unknown kind or a missing region ends it. */
  method WriteEntry(f: File, abi: Abi, vm: Vm, kind: nat, regions: seq<Region>, i: nat, ctx: seq<byte>)
    returns (ok: bool)
    requires Lawful(abi) && f.AtEnd() && PartialPages(vm)
    requires forall r | r in regions :: Aligned(r) && !PartialFailure(vm, r)
    modifies f
    ensures ok <==> SavedEntry(vm, kind, regions, i, ctx).Some?
    ensures ok ==> f.AtEnd() && f.data == old(f.data) + PrintEntry(abi, SavedEntry(vm, kind, regions, i, ctx).value)
  {
    f.Write(abi.kind(kind));
    ok := WriteContent(f, abi, vm, kind, regions, i, ctx);
    if ok { KindFirst(abi, kind, SavedEntry(vm, kind, regions, i, ctx).value, old(f.data), f.data); }
  }

  lemma KindFirst(abi: Abi, kind: nat, e: Entry, start: seq<byte>, after: seq<byte>)
    requires kind == KindOf(e) && after == start + abi.kind(kind) + PrintContent(abi, e)
    ensures after == start + PrintEntry(abi, e)
  {}

  method WriteContent(f: File, abi: Abi, vm: Vm, kind: nat, regions: seq<Region>, i: nat, ctx: seq<byte>)
    returns (ok: bool)
    requires Lawful(abi) && f.AtEnd() && PartialPages(vm)
    requires forall r | r in regions :: Aligned(r) && !PartialFailure(vm, r)
    modifies f
    ensures ok <==> SavedEntry(vm, kind, regions, i, ctx).Some?
    ensures ok ==>
              var e := SavedEntry(vm, kind, regions, i, ctx).value;
              kind == KindOf(e) && f.AtEnd() && f.data == old(f.data) + PrintContent(abi, e)
  {
    if kind == REGION_KIND && i < |regions| {
      ok := WriteWholeRegion(f, abi, vm, regions[i]);
    } else if kind == CONTEXT_KIND {
      f.Write(ctx);
      ok := true;
    } else {
      ok := false;
    }
  }

  // ----- a page written in part -----

  /**
    What is written next lands on the end of the record. The record stays whole exactly if
    its last bytes happen to be the same.
   */
  method WriteRegionThen(f: File, abi: Abi, vm: Vm, region: Region, next: seq<byte>) returns (ok: bool)
    requires Lawful(abi) && f.AtEnd() && Aligned(region) && PartialPages(vm)
    requires Save(vm, region).Some? && |WrongBytes(vm, region)| <= |next|
    modifies f
    ensures var record, n := PrintRecord(abi, Save(vm, region).value), |WrongBytes(vm, region)|;
            && (ok <==> n <= |old(f.data)| + |record|)
            && (ok ==> n <= |record| ==>
                  (HasAt(f.data, |old(f.data)|, record) <==> record[|record| - n..] == next[..n]))
  {
    ghost var start, record, n := f.data, PrintRecord(abi, Save(vm, region).value), |WrongBytes(vm, region)|;
    var saved := WriteRegion(f, abi, vm, region);
    ok := saved.Some?;
    if ok {
      ghost var before := f.data;
      f.Write(next);
      if n <= |record| {
        Overwritten(start, record, before[|start| + |record|..], next, f.data);
      }
    }
  }

  lemma Overwritten(start: seq<byte>, record: seq<byte>, left: seq<byte>, next: seq<byte>, after: seq<byte>)
    requires |left| <= |record| && |left| <= |next|
    requires var pos := |start| + |record| - |left|;
             var full := start + record + left;
             after == full[..pos] + next + (if pos + |next| <= |full| then full[pos + |next|..] else [])
    ensures HasAt(after, |start|, record) <==> record[|record| - |left|..] == next[..|left|]
  {
    var n := |record| - |left|;
    assert after[|start|..|start| + |record|] == record[..n] + next[..|left|];
    assert record == record[..n] + record[n..];
    if record[..n] + next[..|left|] == record {
      assert (record[..n] + next[..|left|])[n..] == next[..|left|];
    }
  }

  /** Two pages; the first one holds ones, and of the second one a single byte can be written. */
  function PartialRegion(): Region { Region(0, 2 * PAGE_SIZE, 0, 3, 7, 0, 0, 0, false) }

  function PartialMemory(): Vm { Vm(map[0 := seq(PAGE_SIZE, _ => 1)], {}, map[PAGE_SIZE := [1]]) }

  lemma PartialRegionFails()
    ensures var vm, r := PartialMemory(), PartialRegion();
            && WellFormed(r) && PartialPages(vm) && |WrongBytes(vm, r)| == 1
            && Save(vm, r).Some? && Save(vm, r).value.Full? && Save(vm, r).value.bytes == seq(PAGE_SIZE, _ => 1)
  {
    var vm, r := PartialMemory(), PartialRegion();
    assert PageCount(r) == 2 && !SavedByPage(r) && Address(0, 0) == 0 && Address(0, 1) == PAGE_SIZE;
    assert Prefix(vm, 0, 0) == 0 && Prefix(vm, 0, 1) == 1 && Prefix(vm, 0, 2) == 1;
    assert PageBytes(vm, 0, 0) == [] && PageBytes(vm, 0, 1) == [] + vm.pages[0];
  }

  lemma EndsInOne(abi: Abi)
    ensures var rec := Save(PartialMemory(), PartialRegion());
            && rec.Some? && PrintRecord(abi, rec.value) != []
            && PrintRecord(abi, rec.value)[|PrintRecord(abi, rec.value)| - 1..] == [1]
  {
    PartialRegionFails();
    var rec := Save(PartialMemory(), PartialRegion()).value;
    LastByte(abi.region(rec.r), rec.bytes);
  }

  lemma LastByte(a: seq<byte>, b: seq<byte>)
    requires b != []
    ensures (a + b)[|a + b| - 1..] == [b[|b| - 1]]
  {}

  /** The bytes of the next entry do not begin with a 1 and take the place of the last 1 of the page. */
  method PartialWriteLosesAByte(abi: Abi, next: seq<byte>) returns (f: File)
    requires Lawful(abi) && next != [] && next[0] != 1
    ensures !HasAt(f.data, 0, PrintRecord(abi, Save(PartialMemory(), PartialRegion()).value))
  {
    PartialRegionFails();
    EndsInOne(abi);
    f := new File([]);
    var ok := WriteRegionThen(f, abi, PartialMemory(), PartialRegion(), next);
    assert next[..1][0] == next[0];
  }

  /** On arm64 the next entry begins with its kind, 2 for the context. */
  lemma NextEntryBegins()
    ensures Lawful(A.Arm64()) && A.Arm64().kind(CONTEXT_KIND)[..1] == [2]
  {
    A.Arm64IsLawful();
    assert A.ToBytes(CONTEXT_KIND, KIND_LEN)[0] == 2;
  }

  // ----- the reader -----

  class Loader {
    const abi: Abi
    var mem: Memory

    constructor (abi: Abi, mem: Memory)
      ensures this.abi == abi && this.mem == mem
    {
      this.abi, this.mem := abi, mem;
    }

    /** ckpt_vm_restore_pages */
    method RestoreSavedPages(f: File, r: Region) returns (ok: bool)
      requires f.pos <= |f.data|
      modifies f`pos, this
      ensures f.pos <= |f.data|
      ensures match ParsePages(abi, f.data, old(f.pos), r.pagesDirtied)
              case Some(p) => ok && f.pos == p.next && mem == RestorePages(old(mem), r, p.value)
              case None => !ok
    {
      for idx := 0 to r.pagesDirtied
        invariant f.pos <= |f.data|
        invariant var p := ParsePages(abi, f.data, old(f.pos), idx);
                  p.Some? && f.pos == p.value.next && mem == RestorePages(old(mem), r, p.value.value)
      {
        ghost var p := ParsePages(abi, f.data, old(f.pos), idx).value;
        var saved := ReadPage(f);
        if saved.None? {
          NotParsedLater(PageParser(abi), f.data, old(f.pos), idx + 1, r.pagesDirtied);
          return false;
        }
        RestoreOneMore(old(mem), r, p.value, saved.value);
        mem := mem[r.start + saved.value.offset := saved.value.page];
      }
      ok := true;
    }

    /** An offset and the page that belongs there. */
    method ReadPage(f: File) returns (p: Option<SavedPage>)
      requires f.pos <= |f.data|
      modifies f`pos
      ensures f.pos <= |f.data|
      ensures match ParsePage(abi, f.data, old(f.pos))
              case Some(q) => p == Some(q.value) && f.pos == q.next
              case None => p == None
    {
      var word := f.Read(WORD_LEN);
      if |word| != WORD_LEN {
        return None;
      }
      var page := f.Read(PAGE_SIZE);
      if |page| != PAGE_SIZE {
        return None;
      }
      p := Some(SavedPage(abi.wordOf(word), page));
    }

    /** read_vm_region; `None` on any error. */
    method ReadRegion(f: File) returns (region: Option<Region>)
      requires f.pos <= |f.data|
      modifies f`pos, this
      ensures f.pos <= |f.data|
      ensures match ParseRecord(abi, f.data, old(f.pos))
              case Some(p) => region == Some(p.value.r) && f.pos == p.next && mem == Restore(old(mem), p.value)
              case None => region == None
    {
      var bytes := f.Read(REGION_LEN);
      if |bytes| != REGION_LEN {
        return None;
      }
      var r := abi.regionOf(bytes);
      var ok := RestoreRegion(f, r);
      region := if ok then Some(r) else None;
    }

    /** ckpt_vm_restore_region */
    method RestoreRegion(f: File, r: Region) returns (ok: bool)
      requires f.pos <= |f.data|
      modifies f`pos, this
      ensures f.pos <= |f.data|
      ensures match ParseBody(abi, f.data, old(f.pos), r)
              case Some(p) => ok && p.value.r == r && f.pos == p.next && mem == Restore(old(mem), p.value)
              case None => !ok
      ensures ok && !ReadByPage(r) ==> forall i: nat :: i < PageCount(r) ==>
                var a := Address(r.start, i);
                a in mem && HasAt(f.data, old(f.pos) + i * PAGE_SIZE, mem[a])
      ensures ok && ReadByPage(r) ==> forall i: nat :: i < PageCount(r) && !Listed(f.data, old(f.pos), r, i) ==>
                var a := Address(r.start, i);
                if InCache(r.start, r.size) then (a in mem <==> a in old(mem)) && (a in mem ==> mem[a] == old(mem)[a])
                else a in mem && mem[a] == ZeroPage()
    {
      if DirtyPagesOnly(r) && r.dirtyOnly {
        mem := Baseline(mem, r);
        ok := RestoreSavedPages(f, r);
        if ok {
          UnlistedPages(f.data, old(f.pos), r, old(mem));
        }
      } else {
        var bytes := f.Read(r.size);
        if |bytes| != r.size {
          return false;
        }
        mem := RestoreFull(mem, r, bytes);
        PagesOfBytes(f.data, old(f.pos), r, old(mem));
        ok := true;
      }
    }

    /** Page `i` is in the list of pages at `at`. */
    ghost predicate Listed(data: seq<byte>, at: nat, r: Region, i: nat) {
      var p := ParsePages(abi, data, at, r.pagesDirtied);
      p.Some? && exists q | q in p.value.value :: q.offset == i * PAGE_SIZE
    }

    lemma UnlistedPages(data: seq<byte>, at: nat, r: Region, before: Memory)
      requires ParsePages(abi, data, at, r.pagesDirtied).Some?
      ensures var m := Restore(before, ByPage(r, ParsePages(abi, data, at, r.pagesDirtied).value.value));
              forall i: nat :: i < PageCount(r) && !Listed(data, at, r, i) ==>
                var a := Address(r.start, i);
                if InCache(r.start, r.size) then (a in m <==> a in before) && (a in m ==> m[a] == before[a])
                else a in m && m[a] == ZeroPage()
    {
      forall i: nat | i < PageCount(r) && !Listed(data, at, r, i) {
        UnsavedPage(before, r, ParsePages(abi, data, at, r.pagesDirtied).value.value, i);
      }
    }

    lemma PagesOfBytes(data: seq<byte>, at: nat, r: Region, before: Memory)
      requires at + r.size <= |data|
      ensures var m := RestoreFull(before, r, data[at..at + r.size]);
              forall i: nat :: i < PageCount(r) ==>
                var a := Address(r.start, i);
                a in m && HasAt(data, at + i * PAGE_SIZE, m[a])
    {
      var bytes := data[at..at + r.size];
      forall i: nat | i < PageCount(r)
        ensures var m, a := RestoreFull(before, r, bytes), Address(r.start, i);
                a in m && HasAt(data, at + i * PAGE_SIZE, m[a])
      {
        AddressIn(r, i);
        var from := i * PAGE_SIZE;
        assert from + PAGE_SIZE <= PageCount(r) * PAGE_SIZE <= r.size;
        assert PageOf(bytes, i) == bytes[from..from + PAGE_SIZE] == data[at + from..at + from + PAGE_SIZE];
      }
    }

    /** One turn of the loop of read_ckpt. */
    method ReadEntry(f: File) returns (ok: bool, kind: nat, region: Option<Region>, ctx: seq<byte>)
      requires f.pos <= |f.data|
      modifies f`pos, this
      ensures f.pos <= |f.data|
      ensures match ParseEntry(abi, f.data, old(f.pos))
              case Some(p) =>
                && ok && f.pos == p.next && kind == KindOf(p.value) && mem == RestoreEntry(old(mem), p.value)
                && (if p.value.RegionEntry? then region == Some(p.value.rec.r) else ctx == p.value.ctx)
              case None => !ok
    {
      ok, kind, region, ctx := false, 0, None, [];
      var bytes := f.Read(KIND_LEN);
      if |bytes| != KIND_LEN {
        return;
      }
      kind := abi.kindOf(bytes);
      if kind == REGION_KIND {
        region := ReadRegion(f);
        ok := region.Some?;
      } else if kind == CONTEXT_KIND {
        ctx := f.Read(CONTEXT_LEN);
        ok := |ctx| == CONTEXT_LEN;
      }
    }

    /** read_ckpt: succeeds exactly if the file holds `n` entries, and then restores them. */
    method ReadCkpt(f: File, n: nat) returns (ok: bool, kinds: seq<nat>, regions: seq<Region>, ctx: seq<byte>)
      requires f.pos <= |f.data|
      modifies f`pos, this
      ensures match ParseEntries(abi, f.data, old(f.pos), n)
              case Some(p) =>
                && ok && f.pos == p.next && mem == RestoreEntries(old(mem), p.value)
                && kinds == Kinds(p.value) && regions == Regions(p.value)
                && ctx == LastContext(p.value)
              case None => !ok
    {
      kinds, regions, ctx := [], [], [];
      for i := 0 to n
        invariant f.pos <= |f.data|
        invariant var p := ParseEntries(abi, f.data, old(f.pos), i);
                  && p.Some? && f.pos == p.value.next && mem == RestoreEntries(old(mem), p.value.value)
                  && kinds == Kinds(p.value.value) && regions == Regions(p.value.value)
                  && ctx == LastContext(p.value.value)
      {
        ghost var p := ParseEntries(abi, f.data, old(f.pos), i).value;
        ghost var e := ParseEntry(abi, f.data, p.next);
        var done, kind, region, c := ReadEntry(f);
        if !done {
          NotParsedLater(EntryParser(abi), f.data, old(f.pos), i + 1, n);
          return false, kinds, regions, ctx;
        }
        OneMoreEntry(old(mem), p.value, e.value.value);
        kinds := kinds + [kind];
        if kind == REGION_KIND {
          regions := regions + [region.value];
        } else {
          ctx := c;
        }
      }
      ok := true;
    }
  }

  lemma {:induction false} NotParsedLater<T>(
    parse: (seq<byte>, nat) -> Option<Parsed<T>>, bs: seq<byte>, at: nat, i: nat, n: nat)
    requires i <= n && ParseAll(parse, bs, at, i).None?
    ensures ParseAll(parse, bs, at, n).None?
  {
    if i < n { NotParsedLater(parse, bs, at, i, n - 1); }
  }

  lemma RestoreOneMore(mem: Memory, r: Region, ps: seq<SavedPage>, p: SavedPage)
    ensures RestorePages(mem, r, ps + [p]) == RestorePages(mem, r, ps)[r.start + p.offset := p.page]
  {
    assert (ps + [p])[..|ps|] == ps;
  }

  function Kinds(es: seq<Entry>): seq<nat> {
    if es == [] then [] else Kinds(es[..|es| - 1]) + [KindOf(es[|es| - 1])]
  }

  function Regions(es: seq<Entry>): seq<Region> {
    if es == [] then []
    else
      var last := es[|es| - 1];
      Regions(es[..|es| - 1]) + (if last.RegionEntry? then [last.rec.r] else [])
  }

  function LastContext(es: seq<Entry>): seq<byte> {
    if es == [] then []
    else if es[|es| - 1].ContextEntry? then es[|es| - 1].ctx
    else LastContext(es[..|es| - 1])
  }

  lemma OneMoreEntry(mem: Memory, es: seq<Entry>, e: Entry)
    ensures Kinds(es + [e]) == Kinds(es) + [KindOf(e)]
    ensures Regions(es + [e]) == Regions(es) + (if e.RegionEntry? then [e.rec.r] else [])
    ensures LastContext(es + [e]) == if e.ContextEntry? then e.ctx else LastContext(es)
    ensures RestoreEntries(mem, es + [e]) == RestoreEntry(RestoreEntries(mem, es), e)
  {
    assert (es + [e])[..|es|] == es;
  }

  lemma {:induction false} SavedKinds(vm: Vm, kinds: seq<nat>, rs: seq<Region>, ctx: seq<byte>)
    requires SavedEntries(vm, kinds, rs, ctx).Some?
    ensures var es := SavedEntries(vm, kinds, rs, ctx).value;
            Kinds(es) == kinds && (CONTEXT_KIND in kinds ==> LastContext(es) == ctx)
  {
    if kinds != [] {
      var n := |kinds| - 1;
      SavedKinds(vm, kinds[..n], rs, ctx);
      LastKind(vm, kinds, rs, ctx);
    }
  }

  lemma {:induction false} SavedRegions(vm: Vm, kinds: seq<nat>, rs: seq<Region>, ctx: seq<byte>)
    requires SavedEntries(vm, kinds, rs, ctx).Some?
    ensures var regions := Regions(SavedEntries(vm, kinds, rs, ctx).value);
            && |regions| == RegionsIn(kinds) <= |rs|
            && forall k :: 0 <= k < |regions| ==> Save(vm, rs[k]).Some? && regions[k] == Save(vm, rs[k]).value.r
  {
    if kinds != [] {
      var n := |kinds| - 1;
      SavedRegions(vm, kinds[..n], rs, ctx);
      LastKind(vm, kinds, rs, ctx);
    }
  }

  lemma LastKind(vm: Vm, kinds: seq<nat>, rs: seq<Region>, ctx: seq<byte>)
    requires kinds != [] && SavedEntries(vm, kinds, rs, ctx).Some?
    ensures var n := |kinds| - 1;
            var first, es := SavedEntries(vm, kinds[..n], rs, ctx), SavedEntries(vm, kinds, rs, ctx).value;
            && first.Some? && kinds == kinds[..n] + [kinds[n]]
            && Kinds(es) == Kinds(first.value) + [kinds[n]]
            && (kinds[n] == REGION_KIND ==>
                  var k := RegionsIn(kinds[..n]);
                  k < |rs| && Save(vm, rs[k]).Some? &&
                  Regions(es) == Regions(first.value) + [Save(vm, rs[k]).value.r] &&
                  LastContext(es) == LastContext(first.value))
            && (kinds[n] != REGION_KIND ==>
                  kinds[n] == CONTEXT_KIND && Regions(es) == Regions(first.value) && LastContext(es) == ctx)
  {
    var first, e := SavedLast(vm, kinds, rs, ctx);
    OneMoreEntry(map[], first, e);
  }

  lemma SavedLast(vm: Vm, kinds: seq<nat>, rs: seq<Region>, ctx: seq<byte>) returns (first: seq<Entry>, e: Entry)
    requires kinds != [] && SavedEntries(vm, kinds, rs, ctx).Some?
    ensures var n := |kinds| - 1;
            && SavedEntries(vm, kinds[..n], rs, ctx) == Some(first)
            && SavedEntries(vm, kinds, rs, ctx) == Some(first + [e])
            && SavedEntry(vm, kinds[n], rs, RegionsIn(kinds[..n]), ctx) == Some(e)
            && kinds == kinds[..n] + [kinds[n]]
  {
    var n := |kinds| - 1;
    first := SavedEntries(vm, kinds[..n], rs, ctx).value;
    e := SavedEntry(vm, kinds[n], rs, RegionsIn(kinds[..n]), ctx).value;
  }

  /**
    Writing an image and reading it in another process: the same kinds of entries, the
    regions with the sizes and counts that were corrected while writing, the context, and
    every covered page of every region.
   */
  method WriteThenRead(
    abi: Abi, vm: Vm, header: seq<byte>, kinds: seq<nat>, regions: seq<Region>, ctx: seq<byte>, mem: Memory)
    returns (ok: bool, kinds': seq<nat>, regions': seq<Region>, ctx': seq<byte>, mem': Memory)
    requires Lawful(abi) && PartialPages(vm) && |ctx| == CONTEXT_LEN && RegionsIn(kinds) == |regions|
    requires forall r | r in regions :: WellFormed(r) && !Misread(vm, r) && !PartialFailure(vm, r)
    requires forall k, l :: 0 <= k < l < |regions| ==> Disjoint(regions[k], regions[l])
    ensures ok <==> SavedEntries(vm, kinds, regions, ctx).Some?
    ensures ok ==> kinds' == kinds && |regions'| == |regions| && (CONTEXT_KIND in kinds ==> ctx' == ctx)
    ensures ok ==> forall k :: 0 <= k < |regions| ==>
              Save(vm, regions[k]).Some? && regions'[k] == Save(vm, regions[k]).value.r
    ensures ok ==> forall j: nat, i: nat :: j < |regions| && Covered(vm, regions[j], mem, i) ==>
              var a := Address(regions[j].start, i); a in mem' && mem'[a] == Content(vm, a)
  {
    kinds', regions', ctx', mem' := [], [], [], mem;
    var f := new File(header);
    f.Seek(|header|);
    ok := WriteCkpt(f, abi, vm, kinds, regions, ctx);
    if !ok {
      return;
    }
    ghost var es := SavedEntries(vm, kinds, regions, ctx).value;
    SavedAreFramed(vm, kinds, regions, ctx);
    SavedEntriesLen(vm, kinds, regions, ctx);
    FileRoundTrip(abi, header, es);
    SavedKinds(vm, kinds, regions, ctx);
    SavedRegions(vm, kinds, regions, ctx);

    f.Seek(|header|);
    var loader := new Loader(abi, mem);
    ok, kinds', regions', ctx' := loader.ReadCkpt(f, |kinds|);
    mem' := loader.mem;
    forall j: nat, i: nat | j < |regions| && Covered(vm, regions[j], mem, i)
      ensures var a := Address(regions[j].start, i); a in mem' && mem'[a] == Content(vm, a)
    {
      ImageRoundTrip(abi, vm, kinds, regions, ctx, header, mem, j, i);
    }
  }
}
