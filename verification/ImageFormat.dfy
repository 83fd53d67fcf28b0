/**
  The format of a checkpoint image after its header (xnd/writeckpt.c, xnd/readckpt.c,
  xnd/vm_region.h): a printer, a parser, and their round trip. How a C struct or number
  lies in memory, and so in the file, is a parameter; ImageAbi has the one of arm64.
 */
module ImageFormat {
  import opened Wrappers

  const PAGE_SIZE: nat := 16384

  type Page = s: seq<byte> | |s| == PAGE_SIZE witness seq(PAGE_SIZE, _ => 0)

  /** struct xnd_vm_region */
  datatype Region = Region(
    start: nat, size: nat, inherit: nat, prot: nat, maxProt: nat,
    mode: nat, tag: nat, pagesDirtied: nat, dirtyOnly: bool)

  const REGION_LEN: nat := 48
  const WORD_LEN: nat := 8                         // struct xnd_vm_page
  const KIND_LEN: nat := 4                         // enum xnd_ckpt_entry
  const CONTEXT_LEN: nat := 880                    // ucontext_t; no proof uses the value

  predicate U64(n: int) { 0 <= n < 0x1_0000_0000_0000_0000 }

  predicate U32(n: int) { 0 <= n < 0x1_0000_0000 }

  predicate Fits(r: Region) {
    && U64(r.start) && U64(r.size)
    && U32(r.inherit) && U32(r.prot) && U32(r.maxProt) && U32(r.mode) && U32(r.tag) && U32(r.pagesDirtied)
  }

  datatype Abi = Abi(
    region: Region -> seq<byte>, regionOf: seq<byte> -> Region,
    word: nat -> seq<byte>, wordOf: seq<byte> -> nat,
    kind: nat -> seq<byte>, kindOf: seq<byte> -> nat)

  ghost predicate Lawful(abi: Abi) {
    && (forall r :: |abi.region(r)| == REGION_LEN && (Fits(r) ==> abi.regionOf(abi.region(r)) == r))
    && (forall n: nat :: |abi.word(n)| == WORD_LEN && (U64(n) ==> abi.wordOf(abi.word(n)) == n))
    && (forall n: nat :: |abi.kind(n)| == KIND_LEN && (U32(n) ==> abi.kindOf(abi.kind(n)) == n))
  }

  // The values of mach/shared_region.h and mach/vm_statistics.h on arm64; no proof uses them.
  const CACHE_BASE: nat := 0x1_8000_0000
  const CACHE_END: nat := 0x2_8000_0000

  predicate MallocTag(tag: nat) { tag == 11 || tag == 7 || tag == 2 || tag == 12 || tag == 3 }

  /** DYLD_SHARED_CACHE_REGION */
  predicate InCache(start: nat, size: nat) { CACHE_BASE <= start && start + size < CACHE_END }

  /** ONLY_SAVE_DIRTY_PAGES and ONLY_RESTORE_DIRTY_PAGES */
  predicate DirtyPagesOnly(r: Region) { InCache(r.start, r.size) || MallocTag(r.tag) }

  /** How the reader decides between the two encodings. */
  predicate ReadByPage(r: Region) { DirtyPagesOnly(r) && r.dirtyOnly }

  // ----- parts of a file -----

  /** `part` is in the file at `at`. */
  predicate HasAt(bs: seq<byte>, at: nat, part: seq<byte>) {
    at + |part| <= |bs| && bs[at..at + |part|] == part
  }

  lemma HasBoth(bs: seq<byte>, at: nat, a: seq<byte>, b: seq<byte>)
    ensures HasAt(bs, at, a + b) <==> HasAt(bs, at, a) && HasAt(bs, at + |a|, b)
  {
    if HasAt(bs, at, a + b) {
      assert bs[at..at + |a|] == (a + b)[..|a|] == a;
      assert bs[at + |a|..at + |a| + |b|] == (a + b)[|a|..] == b;
    }
    if HasAt(bs, at, a) && HasAt(bs, at + |a|, b) {
      assert bs[at..at + |a + b|] == bs[at..at + |a|] + bs[at + |a|..at + |a| + |b|];
    }
  }

  /** What the parser of a part yields: the part and where the next one starts. */
  datatype Parsed<T> = Parsed(value: T, next: nat)

  function PrintAll<T>(enc: T -> seq<byte>, xs: seq<T>): seq<byte> {
    if xs == [] then [] else PrintAll(enc, xs[..|xs| - 1]) + enc(xs[|xs| - 1])
  }

  function ParseAll<T>(parse: (seq<byte>, nat) -> Option<Parsed<T>>, bs: seq<byte>, at: nat, n: nat)
    : Option<Parsed<seq<T>>>
  {
    if n == 0 then Some(Parsed([], at))
    else
      match ParseAll(parse, bs, at, n - 1)
      case None => None
      case Some(p) =>
        match parse(bs, p.next)
        case None => None
        case Some(q) => Some(Parsed(p.value + [q.value], q.next))
  }

  /** Wherever `x` is in the file, it is read back. */
  ghost predicate ReadsBack<T>(enc: T -> seq<byte>, parse: (seq<byte>, nat) -> Option<Parsed<T>>, bs: seq<byte>, x: T) {
    forall i: nat :: HasAt(bs, i, enc(x)) ==> parse(bs, i) == Some(Parsed(x, i + |enc(x)|))
  }

  /** If the parts are read back, so is a row of them. */
  lemma {:induction false} AllRoundTrip<T>(
    enc: T -> seq<byte>, parse: (seq<byte>, nat) -> Option<Parsed<T>>, bs: seq<byte>, at: nat, xs: seq<T>)
    requires HasAt(bs, at, PrintAll(enc, xs))
    requires forall x | x in xs :: ReadsBack(enc, parse, bs, x)
    ensures ParseAll(parse, bs, at, |xs|) == Some(Parsed(xs, at + |PrintAll(enc, xs)|))
  {
    if xs != [] {
      var first, last := xs[..|xs| - 1], xs[|xs| - 1];
      assert xs == first + [last];
      HasBoth(bs, at, PrintAll(enc, first), enc(last));
      AllRoundTrip(enc, parse, bs, at, first);
      assert ReadsBack(enc, parse, bs, last);
    }
  }

  lemma PrintOneMore<T>(enc: T -> seq<byte>, xs: seq<T>, x: T)
    ensures PrintAll(enc, xs + [x]) == PrintAll(enc, xs) + enc(x)
  {
    assert (xs + [x])[..|xs|] == xs;
  }

  // ----- records -----

  datatype SavedPage = SavedPage(offset: nat, page: Page)

  datatype Record =
    | Full(r: Region, bytes: seq<byte>)
    | ByPage(r: Region, pages: seq<SavedPage>)

  datatype Entry = RegionEntry(rec: Record) | ContextEntry(ctx: seq<byte>)

  const REGION_KIND: nat := 0                      // XND_VM_REGION_ENTRY
  const CONTEXT_KIND: nat := 2                     // XND_UCONTEXT_ENTRY
  const PAGE_LEN: nat := WORD_LEN + PAGE_SIZE

  function PrintPage(abi: Abi, p: SavedPage): seq<byte> { abi.word(p.offset) + p.page }

  function PagePrinter(abi: Abi): SavedPage -> seq<byte> { p => PrintPage(abi, p) }

  function PrintPages(abi: Abi, ps: seq<SavedPage>): seq<byte> { PrintAll(PagePrinter(abi), ps) }

  function PrintRecord(abi: Abi, rec: Record): seq<byte> {
    abi.region(rec.r) + PrintBody(abi, rec)
  }

  function PrintBody(abi: Abi, rec: Record): seq<byte> {
    if rec.Full? then rec.bytes else PrintPages(abi, rec.pages)
  }

  function KindOf(e: Entry): nat { if e.RegionEntry? then REGION_KIND else CONTEXT_KIND }

  function PrintEntry(abi: Abi, e: Entry): seq<byte> {
    abi.kind(KindOf(e)) + PrintContent(abi, e)
  }

  function PrintContent(abi: Abi, e: Entry): seq<byte> {
    if e.RegionEntry? then PrintRecord(abi, e.rec) else e.ctx
  }

  function EntryPrinter(abi: Abi): Entry -> seq<byte> { e => PrintEntry(abi, e) }

  function PrintEntries(abi: Abi, es: seq<Entry>): seq<byte> { PrintAll(EntryPrinter(abi), es) }

  function ParsePage(abi: Abi, bs: seq<byte>, at: nat): Option<Parsed<SavedPage>> {
    if at + PAGE_LEN > |bs| then None
    else Some(Parsed(SavedPage(abi.wordOf(bs[at..at + WORD_LEN]), bs[at + WORD_LEN..at + PAGE_LEN]), at + PAGE_LEN))
  }

  function PageParser(abi: Abi): (seq<byte>, nat) -> Option<Parsed<SavedPage>> {
    (bs: seq<byte>, at: nat) => ParsePage(abi, bs, at)
  }

  function ParsePages(abi: Abi, bs: seq<byte>, at: nat, n: nat): Option<Parsed<seq<SavedPage>>> {
    ParseAll(PageParser(abi), bs, at, n)
  }

  function ParseRecord(abi: Abi, bs: seq<byte>, at: nat): Option<Parsed<Record>> {
    if at + REGION_LEN > |bs| then None
    else ParseBody(abi, bs, at + REGION_LEN, abi.regionOf(bs[at..at + REGION_LEN]))
  }

  function ParseBody(abi: Abi, bs: seq<byte>, at: nat, r: Region): Option<Parsed<Record>> {
    if ReadByPage(r) then
      match ParsePages(abi, bs, at, r.pagesDirtied)
      case None => None
      case Some(p) => Some(Parsed(ByPage(r, p.value), p.next))
    else if at + r.size > |bs| then None
    else Some(Parsed(Full(r, bs[at..at + r.size]), at + r.size))
  }

  function ParseEntry(abi: Abi, bs: seq<byte>, at: nat): Option<Parsed<Entry>> {
    if at + KIND_LEN > |bs| then None
    else
      ParseContent(abi, bs, at + KIND_LEN, abi.kindOf(bs[at..at + KIND_LEN]))
  }

  function ParseContent(abi: Abi, bs: seq<byte>, at: nat, kind: nat): Option<Parsed<Entry>> {
    if kind == REGION_KIND then
      match ParseRecord(abi, bs, at)
      case None => None
      case Some(p) => Some(Parsed(RegionEntry(p.value), p.next))
    else if kind == CONTEXT_KIND && at + CONTEXT_LEN <= |bs| then
      Some(Parsed(ContextEntry(bs[at..at + CONTEXT_LEN]), at + CONTEXT_LEN))
    else None
  }

  function EntryParser(abi: Abi): (seq<byte>, nat) -> Option<Parsed<Entry>> {
    (bs: seq<byte>, at: nat) => ParseEntry(abi, bs, at)
  }

  function ParseEntries(abi: Abi, bs: seq<byte>, at: nat, n: nat): Option<Parsed<seq<Entry>>> {
    ParseAll(EntryParser(abi), bs, at, n)
  }

  // ----- the round trip -----

  lemma PageRoundTrip(abi: Abi, bs: seq<byte>, at: nat, p: SavedPage)
    requires Lawful(abi) && U64(p.offset) && HasAt(bs, at, PrintPage(abi, p))
    ensures ParsePage(abi, bs, at) == Some(Parsed(p, at + |PrintPage(abi, p)|))
  {
    HasBoth(bs, at, abi.word(p.offset), p.page);
  }

  lemma PagesRoundTrip(abi: Abi, bs: seq<byte>, at: nat, ps: seq<SavedPage>)
    requires Lawful(abi) && HasAt(bs, at, PrintPages(abi, ps)) && forall p | p in ps :: U64(p.offset)
    ensures ParsePages(abi, bs, at, |ps|) == Some(Parsed(ps, at + |PrintPages(abi, ps)|))
  {
    var enc, parse := PagePrinter(abi), PageParser(abi);
    forall p | p in ps
      ensures ReadsBack(enc, parse, bs, p)
    {
      forall i: nat | HasAt(bs, i, enc(p))
        ensures parse(bs, i) == Some(Parsed(p, i + |enc(p)|))
      {
        PageRoundTrip(abi, bs, i, p);
      }
    }
    AllRoundTrip(enc, parse, bs, at, ps);
  }

  /** The reader recognises the encoding of this record. */
  predicate Framed(rec: Record) {
    && Fits(rec.r)
    && match rec
       case Full(r, bytes) => !ReadByPage(r) && |bytes| == r.size
       case ByPage(r, pages) => ReadByPage(r) && |pages| == r.pagesDirtied && forall p | p in pages :: U64(p.offset)
  }

  predicate EntryFramed(e: Entry) {
    match e
    case RegionEntry(rec) => Framed(rec)
    case ContextEntry(ctx) => |ctx| == CONTEXT_LEN
  }

  lemma RecordRoundTrip(abi: Abi, bs: seq<byte>, at: nat, rec: Record)
    requires Lawful(abi) && Framed(rec) && HasAt(bs, at, PrintRecord(abi, rec))
    ensures ParseRecord(abi, bs, at) == Some(Parsed(rec, at + |PrintRecord(abi, rec)|))
  {
    HasBoth(bs, at, abi.region(rec.r), PrintBody(abi, rec));
    BodyRoundTrip(abi, bs, at + REGION_LEN, rec);
  }

  lemma BodyRoundTrip(abi: Abi, bs: seq<byte>, at: nat, rec: Record)
    requires Lawful(abi) && Framed(rec) && HasAt(bs, at, PrintBody(abi, rec))
    ensures ParseBody(abi, bs, at, rec.r) == Some(Parsed(rec, at + |PrintBody(abi, rec)|))
  {
    if rec.ByPage? { PagesRoundTrip(abi, bs, at, rec.pages); }
  }

  lemma EntryRoundTrip(abi: Abi, bs: seq<byte>, at: nat, e: Entry)
    requires Lawful(abi) && EntryFramed(e) && HasAt(bs, at, PrintEntry(abi, e))
    ensures ParseEntry(abi, bs, at) == Some(Parsed(e, at + |PrintEntry(abi, e)|))
  {
    HasBoth(bs, at, abi.kind(KindOf(e)), PrintContent(abi, e));
    ContentRoundTrip(abi, bs, at + KIND_LEN, e);
  }

  lemma ContentRoundTrip(abi: Abi, bs: seq<byte>, at: nat, e: Entry)
    requires Lawful(abi) && EntryFramed(e) && HasAt(bs, at, PrintContent(abi, e))
    ensures ParseContent(abi, bs, at, KindOf(e)) == Some(Parsed(e, at + |PrintContent(abi, e)|))
  {
    if e.RegionEntry? { RecordRoundTrip(abi, bs, at, e.rec); }
  }

  /** Reading back what was written yields the same entries and uses exactly their bytes. */
  lemma EntriesRoundTrip(abi: Abi, bs: seq<byte>, at: nat, es: seq<Entry>)
    requires Lawful(abi) && (forall e | e in es :: EntryFramed(e)) && HasAt(bs, at, PrintEntries(abi, es))
    ensures ParseEntries(abi, bs, at, |es|) == Some(Parsed(es, at + |PrintEntries(abi, es)|))
  {
    var enc, parse := EntryPrinter(abi), EntryParser(abi);
    forall e | e in es
      ensures ReadsBack(enc, parse, bs, e)
    {
      EntryReadsBack(abi, bs, e);
    }
    AllRoundTrip(enc, parse, bs, at, es);
  }

  lemma EntryReadsBack(abi: Abi, bs: seq<byte>, e: Entry)
    requires Lawful(abi) && EntryFramed(e)
    ensures ReadsBack(EntryPrinter(abi), EntryParser(abi), bs, e)
  {
    forall i: nat | HasAt(bs, i, EntryPrinter(abi)(e))
      ensures EntryParser(abi)(bs, i) == Some(Parsed(e, i + |EntryPrinter(abi)(e)|))
    {
      EntryIsRead(abi, bs, i, e);
    }
  }

  lemma EntryIsRead(abi: Abi, bs: seq<byte>, i: nat, e: Entry)
    requires Lawful(abi) && EntryFramed(e) && HasAt(bs, i, EntryPrinter(abi)(e))
    ensures EntryParser(abi)(bs, i) == Some(Parsed(e, i + |EntryPrinter(abi)(e)|))
  {
    EntryRoundTrip(abi, bs, i, e);
  }

  /** A full record is read back exactly if its region does not look like one saved by page. */
  lemma FullReadBackIff(abi: Abi, bs: seq<byte>, at: nat, rec: Record)
    requires Lawful(abi) && Fits(rec.r) && rec.Full? && |rec.bytes| == rec.r.size
    requires HasAt(bs, at, PrintRecord(abi, rec))
    ensures ParseRecord(abi, bs, at) == Some(Parsed(rec, at + |PrintRecord(abi, rec)|)) <==> !ReadByPage(rec.r)
  {
    HasBoth(bs, at, abi.region(rec.r), rec.bytes);
  }
}
