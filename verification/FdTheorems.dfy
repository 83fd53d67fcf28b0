/**
  A process and its table of tracked descriptors: what the hooks of open, dup2 and close keep
  (xnd/wrappers/file_wrappers.c), and what a checkpoint and a restart make of its descriptors.
 */
module FdTheorems {
  import opened Wrappers
  import opened FdTable

  /** The open file of tracked descriptor `fd` is one its source describes. */
  ghost predicate HasSource(slots: seq<Source?>, fds: map<nat, nat>, files: map<nat, OpenFile>, fd: nat)
    requires IsTracked(slots, fd)
  {
    && fd in fds && fds[fd] in files
    && files[fds[fd]].path == slots[fd].path && files[fds[fd]].mode == slots[fd].mode
  }

  /** Tracked descriptors have the open files of their sources, and share them as they share these. */
  ghost predicate Follows(slots: seq<Source?>, fds: map<nat, nat>, files: map<nat, OpenFile>) {
    && (forall fd: nat :: IsTracked(slots, fd) ==> HasSource(slots, fds, files, fd))
    && (forall a: nat, b: nat :: IsTracked(slots, a) && b < |slots| && b in fds && a in fds ==>
          (fds[a] == fds[b] <==> slots[a] == slots[b]))
  }

  lemma OpenFollows(
    slots: seq<Source?>, fds: map<nat, nat>, files: map<nat, OpenFile>, fd: nat, src: Source, id: nat, f: OpenFile)
    requires Follows(slots, fds, files) && fd < |slots| && fd !in fds && src !in slots && id !in files
    requires f.path == src.path && f.mode == src.mode && forall u | u in fds :: fds[u] in files
    ensures Follows(slots[fd := src], fds[fd := id], files[id := f])
  {
    var slots', fds', files' := slots[fd := src], fds[fd := id], files[id := f];
    forall a: nat | IsTracked(slots', a)
      ensures HasSource(slots', fds', files', a)
    {
      assert a != fd ==> HasSource(slots, fds, files, a);
    }
  }

  lemma CloseFollows(slots: seq<Source?>, fds: map<nat, nat>, files: map<nat, OpenFile>, fd: nat)
    requires Follows(slots, fds, files) && fd < |slots|
    ensures Follows(slots[fd := null], fds - {fd}, files)
  {
    var slots', fds' := slots[fd := null], fds - {fd};
    forall a: nat | IsTracked(slots', a)
      ensures HasSource(slots', fds', files, a)
    {
      assert HasSource(slots, fds, files, a);
    }
  }

  lemma DupFollows(slots: seq<Source?>, fds: map<nat, nat>, files: map<nat, OpenFile>, from: nat, to: nat)
    requires Follows(slots, fds, files) && from < |slots| && to < |slots| && from in fds && slots[from] != null
    ensures Follows(slots[to := slots[from]], fds[to := fds[from]], files)
  {
    var slots', fds' := slots[to := slots[from]], fds[to := fds[from]];
    forall fd: nat | IsTracked(slots', fd)
      ensures HasSource(slots', fds', files, fd)
    {
      assert IsTracked(slots, if fd == to then from else fd);
    }
    forall a: nat, b: nat | IsTracked(slots', a) && b < |slots'| && b in fds' && a in fds'
      ensures fds'[a] == fds'[b] <==> slots'[a] == slots'[b]
    {
      var x, y := if a == to then from else a, if b == to then from else b;
      assert IsTracked(slots, x) && HasSource(slots, fds, files, x);
    }
  }

  /** Of an untracked descriptor the table keeps what it had for `to`. */
  lemma UntrackedDupFollowsIff(slots: seq<Source?>, fds: map<nat, nat>, files: map<nat, OpenFile>, from: nat, to: nat)
    requires Follows(slots, fds, files) && from < |slots| && to < |slots| && from in fds && slots[from] == null
    requires from != to
    ensures Follows(slots, fds[to := fds[from]], files) <==> !IsTracked(slots, to)
  {
    var fds' := fds[to := fds[from]];
    if IsTracked(slots, to) {
      assert fds'[to] == fds'[from] && slots[to] != slots[from];
    } else {
      forall a: nat | IsTracked(slots, a)
        ensures HasSource(slots, fds', files, a)
      {
        assert HasSource(slots, fds, files, a);
      }
    }
  }

  /** The lowest descriptor with the same source. */
  lemma {:induction false} FirstOf(slots: seq<Source?>, fd: nat) returns (first: nat)
    requires fd < |slots|
    ensures first <= fd && slots[first] == slots[fd] && IsFirst(slots, first)
  {
    if k: nat :| k < fd && slots[k] == slots[fd] { first := FirstOf(slots, k); } else { first := fd; }
  }

  lemma SavedIsReopened(flags: set<Flag>, status: set<Flag>, cloexec: bool)
    ensures ReopenedAs(flags, status, SavedFlags(File, flags, status, cloexec))
  {}

  class Process {
    const table: Table
    const kernel: Kernel

    /** A process that starts with some descriptors, none of them tracked. */
    constructor (kernel: Kernel)
      requires kernel.Valid()
      ensures Valid() && this.kernel == kernel && fresh(table) && fresh(SourcesOf(table.slots))
      ensures forall fd: nat :: !Tracked(fd)
      ensures RootsAreIntact(table.slots)
      ensures forall fd: nat :: IsInherited(table.slots, fd) ==> table.slots[fd].root == fd
    {
      this.kernel := kernel;
      table := new Table();
    }

    ghost predicate Tracked(fd: nat)
      reads table
    {
      IsTracked(table.slots, fd)
    }

    ghost predicate Valid()
      reads this, table, kernel, SourcesOf(table.slots)
    {
      table.Valid() && kernel.Valid() && Follows(table.slots, kernel.fds, kernel.files)
    }

    /** The hook of open; a process has at most MAX_FILES descriptors. */
    method Open(path: string, flags: set<Flag>, mode: nat) returns (fd: Option<nat>)
      requires Valid() && exists k: nat :: k < MAX_FILES && k !in kernel.fds
      modifies kernel`fds, kernel`files, kernel`cloexec, table`slots
      ensures Valid() && (fd.Some? <==> path !in kernel.missing)
      ensures fd.Some? ==>
                && fd.value !in old(kernel.fds) && Tracked(fd.value) && fresh(table.slots[fd.value])
                && table.slots[fd.value].kind == File && table.slots[fd.value].state == NoState
                && table.slots[fd.value].flags == flags
                && kernel.files[kernel.fds[fd.value]] == OpenFile(path, flags, mode, 0)
                && (fd.value in kernel.cloexec <==> CloExec in flags)
      ensures forall u: nat :: u < MAX_FILES && fd != Some(u) ==> table.slots[u] == old(table.slots[u])
      ensures forall u: nat :: fd != Some(u) ==> (u in kernel.fds <==> u in old(kernel.fds))
    {
      fd := kernel.Open(path, flags, mode);
      if fd.Some? {
        var n := fd.value;
        table.Open(n, path, flags, mode);
        OpenFollows(old(table.slots), old(kernel.fds), old(kernel.files), n, table.slots[n], kernel.fds[n],
                    OpenFile(path, flags, mode, 0));
        assert table.slots == old(table.slots)[n := table.slots[n]];
      }
    }

    /**
      The hook of dup2 keeps the table right unless an untracked descriptor replaces a
      tracked one: then the entry of the replaced one stays.
     */
    method Dup2(from: nat, to: nat) returns (ok: bool)
      requires Valid() && from < MAX_FILES && to < MAX_FILES
      modifies kernel`fds, kernel`cloexec, table`slots, SourcesOf(table.slots)`ref
      ensures ok == (from in old(kernel.fds)) && table.Valid() && kernel.Valid()
      ensures Valid() <==> !ok || from == to || old(table.slots[from]) != null || !IsTracked(old(table.slots), to)
      ensures kernel.fds == if ok then old(kernel.fds)[to := old(kernel.fds)[from]] else old(kernel.fds)
      ensures table.slots ==
              if ok && old(table.slots[from]) != null then old(table.slots)[to := old(table.slots[from])]
              else old(table.slots)
    {
      ok := kernel.Dup2(from, to);
      if ok {
        ghost var slots, fds := table.slots, old(kernel.fds);
        table.Dup(from, to);
        if slots[from] != null {
          DupFollows(slots, fds, kernel.files, from, to);
        } else if from != to {
          UntrackedDupFollowsIff(slots, fds, kernel.files, from, to);
        }
      }
    }

    /** The hook of close. */
    method Close(fd: nat) returns (ok: bool)
      requires Valid() && fd < MAX_FILES
      modifies kernel`fds, kernel`cloexec, table, SourcesOf(table.slots)`ref
      ensures Valid() && ok == (fd in old(kernel.fds)) && fd !in kernel.fds && !Tracked(fd)
    {
      ok := fd in kernel.fds;
      if ok {
        kernel.Close(fd);
        table.Close(fd);
        CloseFollows(old(table.slots), old(kernel.fds), kernel.files, fd);
      }
    }

    /** fd_table_save, for all descriptors: those that share a source share the file it was saved from. */
    method SaveDescriptors()
      requires Valid()
      modifies SourcesOf(table.slots)`state, SourcesOf(table.slots)`offset, SourcesOf(table.slots)`flags
      ensures Valid()
      ensures forall fd: nat :: Tracked(fd) ==>
                var src, g := table.slots[fd], kernel.files[kernel.fds[fd]];
                && src.state == Saved
                && src.offset == (if old(src.state) == Saved then old(src.offset) else g.offset)
                && (old(src.state) != Saved && src.kind == File ==> ReopenedAs(old(src.flags), g.flags, src.flags))
                && (old(src.state) != Saved && IsFirst(table.slots, fd) ==>
                      (CloExec in src.flags <==> fd in kernel.cloexec))
    {
      assert forall fd: nat :: Tracked(fd) ==> HasSource(table.slots, kernel.fds, kernel.files, fd);
      Save(table.slots, kernel);
      forall fd: nat | Tracked(fd)
        ensures var src, g := table.slots[fd], kernel.files[kernel.fds[fd]];
                && src.state == Saved
                && src.offset == (if old(src.state) == Saved then old(src.offset) else g.offset)
                && (old(src.state) != Saved && src.kind == File ==> ReopenedAs(old(src.flags), g.flags, src.flags))
                && (old(src.state) != Saved && IsFirst(table.slots, fd) ==>
                      (CloExec in src.flags <==> fd in kernel.cloexec))
      {
        var first := FirstOf(table.slots, fd);
        assert Tracked(first) && kernel.fds[first] == kernel.fds[fd];
        var src := table.slots[first];
        if old(src.state) != Saved && src.kind == File {
          SavedIsReopened(old(src.flags), kernel.files[kernel.fds[first]].flags, first in kernel.cloexec);
        }
      }
    }

    /** fd_table_restore in the process that was started from the image. */
    method RestoreDescriptors(after: Kernel) returns (ok: bool)
      requires Valid() && after.Valid() && after != kernel && RootsAreIntact(table.slots)
      requires forall fd: nat :: Tracked(fd) ==> table.slots[fd].state == Saved
      modifies after, SourcesOf(table.slots)`state, SourcesOf(table.slots)`root
      ensures ok <==>
                && (forall fd: nat :: Tracked(fd) ==> table.slots[fd].path !in after.missing)
                && (forall fd: nat :: IsInherited(table.slots, fd) && old(table.slots[fd].root) != fd ==>
                      old(table.slots[fd].root) in old(after.fds))
      ensures ok ==> forall fd: nat :: Tracked(fd) ==>
                && fd in after.fds && after.fds[fd] in after.files
                && var f, src := after.files[after.fds[fd]], table.slots[fd];
                && f == OpenFile(src.path, src.flags, src.mode, src.offset)
                && (fd in after.cloexec <==>
                    CloExec in src.flags &&
                    OpenedInPlace(table.slots, fd, old(UsedThen(table.slots, after.fds.Keys))))
      ensures ok ==> forall a: nat, b: nat :: Tracked(a) && Tracked(b) ==>
                (after.fds[a] == after.fds[b] <==> kernel.fds[a] == kernel.fds[b])
    {
      var restorer := new Restorer(table.slots, after);
      ok := restorer.FdTableRestore();
      assert forall fd: nat :: Tracked(fd) ==> HasSource(table.slots, kernel.fds, kernel.files, fd);
    }

    /**
      fd_table_save, and fd_table_restore in the process that was started from the image:
      the tracked descriptors have files with the same path, mode and offset, and share
      them as before. A source that was saved for an earlier image keeps that offset, and
      only a file that is opened on its own number again is still closed on exec.
     */
    method CheckpointAndRestart(after: Kernel) returns (ok: bool)
      requires Valid() && after.Valid() && after != kernel && RootsAreIntact(table.slots)
      modifies after, SourcesOf(table.slots)
      ensures ok <==>
                && (forall fd: nat :: Tracked(fd) ==> table.slots[fd].path !in after.missing)
                && (forall fd: nat :: IsInherited(table.slots, fd) && old(table.slots[fd].root) != fd ==>
                      old(table.slots[fd].root) in old(after.fds))
      ensures ok ==> forall fd: nat :: Tracked(fd) ==>
                && fd in after.fds && after.fds[fd] in after.files
                && var f, g := after.files[after.fds[fd]], kernel.files[kernel.fds[fd]];
                && f.path == g.path && f.mode == g.mode
                && f.offset == (if old(table.slots[fd].state) == Saved then old(table.slots[fd].offset) else g.offset)
                && (old(table.slots[fd].state) != Saved && table.slots[fd].kind == File ==>
                      ReopenedAs(old(table.slots[fd].flags), g.flags, f.flags))
                && (old(table.slots[fd].state) != Saved ==>
                      (fd in after.cloexec <==>
                       && fd in kernel.cloexec
                       && OpenedInPlace(table.slots, fd, old(UsedThen(table.slots, after.fds.Keys)))))
      ensures ok ==> forall a: nat, b: nat :: Tracked(a) && Tracked(b) ==>
                (after.fds[a] == after.fds[b] <==> kernel.fds[a] == kernel.fds[b])
    {
      SaveDescriptors();
      ok := RestoreDescriptors(after);
    }
  }

  /** What ReopenedAs leaves of the flags if the program did not change them. */
  lemma OnlyHarmlessFlags(was: set<Flag>, flags: set<Flag>)
    requires ReopenedAs(was, was, flags)
    ensures flags - {CloExec} == was - {Trunc, Excl, CloExec}
  {
    forall x: Flag
      ensures x in flags - {CloExec} <==> x in was - {Trunc, Excl, CloExec}
    {
      match x {
        case Other(bit) => assert Other(bit) in flags <==> Other(bit) in was;
        case _ =>
      }
    }
  }

  lemma RootsStayIntact(slots: seq<Source?>, fd: nat, src: Source)
    requires RootsAreIntact(slots) && fd < |slots| && src.kind != Inherited
    ensures RootsAreIntact(slots[fd := src])
  {
    var slots' := slots[fd := src];
    forall u: nat | IsInherited(slots', u)
      ensures RootIsIntact(slots', u)
    {
      assert IsInherited(slots, u) && RootIsIntact(slots, u);
    }
  }

  /** A file opened by the program: what was given to open, less what would damage it, and its offset. */
  method OpenedFileComesBack(p: Process, path: string, flags: set<Flag>, mode: nat, offset: nat, after: Kernel)
    returns (fd: Option<nat>, ok: bool)
    requires p.Valid() && after.Valid() && after != p.kernel && RootsAreIntact(p.table.slots)
    requires exists k: nat :: k < MAX_FILES && k !in p.kernel.fds
    modifies p.kernel, after, p.table, SourcesOf(p.table.slots)
    ensures fd.Some? <==> path !in old(p.kernel.missing)
    ensures fd.Some? && ok ==>
              && fd.value in after.fds && after.fds[fd.value] in after.files
              && var f := after.files[after.fds[fd.value]];
                 f == OpenFile(path, f.flags, mode, offset) && f.flags - {CloExec} == flags - {Trunc, Excl, CloExec}
  {
    ok := false;
    fd := p.Open(path, flags, mode);
    if fd.None? {
      return;
    }
    RootsStayIntact(old(p.table.slots), fd.value, p.table.slots[fd.value]);
    assert p.table.slots == old(p.table.slots)[fd.value := p.table.slots[fd.value]];
    p.kernel.Seek(fd.value, offset);
    assert p.Tracked(fd.value);
    ok := p.CheckpointAndRestart(after);
    if ok {
      OnlyHarmlessFlags(flags, after.files[after.fds[fd.value]].flags);
    }
  }

  // ----- where a restart differs -----

  /** The second checkpoint of a process keeps the offset of the first one, wherever the file is by then. */
  method SecondCheckpointKeepsTheOffset(p: Process, fd: nat, offset: nat, after: Kernel) returns (ok: bool)
    requires p.Valid() && p.Tracked(fd) && p.table.slots[fd].state != Saved
    requires after.Valid() && after != p.kernel && RootsAreIntact(p.table.slots)
    modifies p.kernel`files, after, SourcesOf(p.table.slots)
    ensures p.kernel.fds[fd] in p.kernel.files && p.kernel.files[p.kernel.fds[fd]].offset == offset
    ensures ok ==>
              fd in after.fds && after.fds[fd] in after.files &&
              after.files[after.fds[fd]].offset == old(p.kernel.files[p.kernel.fds[fd]].offset)
  {
    assert HasSource(p.table.slots, p.kernel.fds, p.kernel.files, fd);
    p.SaveDescriptors();
    p.kernel.Seek(fd, offset);
    ok := p.CheckpointAndRestart(after);
  }

  lemma TrackedAreOpen(p: Process)
    requires p.Valid()
    ensures forall fd: nat :: p.Tracked(fd) ==>
              fd in p.kernel.fds && p.kernel.files[p.kernel.fds[fd]].path == p.table.slots[fd].path
  {
    forall fd: nat | p.Tracked(fd)
      ensures fd in p.kernel.fds && p.kernel.files[p.kernel.fds[fd]].path == p.table.slots[fd].path
    {
      assert HasSource(p.table.slots, p.kernel.fds, p.kernel.files, fd);
    }
  }

  /** What replaced a tracked descriptor without being tracked is replaced by the old file on restart. */
  method UntrackedDupIsUndone(p: Process, from: nat, to: nat, after: Kernel) returns (ok: bool)
    requires p.Valid() && from < MAX_FILES && from in p.kernel.fds && p.table.slots[from] == null && p.Tracked(to)
    requires after.Valid() && after != p.kernel && RootsAreIntact(p.table.slots)
    modifies p.kernel, after, p.table, SourcesOf(p.table.slots)
    ensures p.kernel.fds == old(p.kernel.fds)[to := old(p.kernel.fds)[from]]
    ensures ok ==>
              to in after.fds && after.fds[to] in after.files &&
              after.files[after.fds[to]].path == old(p.kernel.files[p.kernel.fds[to]].path)
  {
    TrackedAreOpen(p);
    var done := p.Dup2(from, to);
    ok := SaveAndReopen(p.table.slots, p.kernel, after);
  }

  method SaveAndReopen(slots: seq<Source?>, kernel: Kernel, after: Kernel) returns (ok: bool)
    requires |slots| == MAX_FILES && kernel.Valid() && forall fd: nat :: IsTracked(slots, fd) ==> fd in kernel.fds
    requires after.Valid() && after != kernel && RootsAreIntact(slots)
    modifies after, SourcesOf(slots)
    ensures ok ==> forall fd: nat :: IsTracked(slots, fd) ==>
              fd in after.fds && after.fds[fd] in after.files && after.files[after.fds[fd]].path == slots[fd].path
  {
    Save(slots, kernel);
    var restorer := new Restorer(slots, after);
    ok := restorer.FdTableRestore();
  }

  /**
    Nothing is truncated or created anew, appending and not blocking are switched on if they
    ever were; apart from FD_CLOEXEC all other flags are those the file was opened with.
   */
  ghost predicate ReopenedAs(was: set<Flag>, status: set<Flag>, flags: set<Flag>) {
    && Trunc !in flags && Excl !in flags
    && (Append in flags <==> Append in was || Append in status)
    && (NonBlock in flags <==> NonBlock in was || NonBlock in status)
    && (Creat in flags <==> Creat in was)
    && forall bit :: Other(bit) in flags <==> Other(bit) in was
  }
}
