/**
  The table of tracked file descriptors (xnd/fd_table.c): sources shared by duplicates, what
  is saved of them, and how a restart opens them again.
 */
module FdTable {
  import opened Wrappers

  datatype FdType = Inherited | File | Directory

  datatype FdState = NoState | Saved | Restored

  const MAX_FILES: nat := 512

  /** The bits of an open(2) flag word; `Other` stands for the access mode and the rest. */
  datatype Flag = Append | NonBlock | CloExec | Trunc | Excl | Creat | Other(bit: nat)

  /** struct fd_source; what dup'd descriptors share. */
  class Source {
    const kind: FdType
    const path: string
    const mode: nat
    var flags: set<Flag>
    var state: FdState
    var offset: nat
    var ref: int
    var root: nat

    constructor (kind: FdType, path: string, flags: set<Flag>, mode: nat, root: nat)
      ensures this.kind == kind && this.path == path && this.flags == flags && this.mode == mode
      ensures state == NoState && ref == 1 && this.root == root && offset == 0
    {
      this.kind, this.path, this.flags, this.mode, this.root := kind, path, flags, mode, root;
      state, ref, offset := NoState, 1, 0;
    }
  }

  // ----- tracking -----

  class Table {
    var slots: seq<Source?>
    ghost var freed: set<Source>

    /** Duplicates of `src`. */
    ghost function Holders(src: Source): set<nat>
      reads this
    {
      set fd | 0 <= fd < |slots| && slots[fd] == src
    }

    /** No entry is dangling, and no source is freed while an entry holds it. */
    ghost predicate Valid()
      reads this, set fd | 0 <= fd < |slots| && slots[fd] != null :: slots[fd]
    {
      && |slots| == MAX_FILES
      && forall fd :: 0 <= fd < |slots| && slots[fd] != null ==>
           slots[fd] !in freed && slots[fd].ref >= |Holders(slots[fd])|
    }

    /** fd_table_init */
    constructor ()
      ensures Valid() && freed == {}
      ensures forall fd :: 0 <= fd < MAX_FILES ==> (slots[fd] != null <==> fd < 3)
      ensures forall fd :: 0 <= fd < 3 ==> slots[fd].kind == Inherited && slots[fd].root == fd && fresh(slots[fd])
      ensures slots[0] != slots[1] && slots[0] != slots[2] && slots[1] != slots[2]
    {
      var a := new Source(Inherited, "", {}, 0, 0);
      var b := new Source(Inherited, "", {}, 0, 1);
      var c := new Source(Inherited, "", {}, 0, 2);
      slots := [a, b, c] + seq(MAX_FILES - 3, _ => null);
      freed := {};
      new;
      assert Holders(a) == {0} && Holders(b) == {1} && Holders(c) == {2};
    }

    /** fd_table_open: what the slot held before is forgotten, not released. */
    method Open(fd: nat, path: string, flags: set<Flag>, mode: nat)
      requires Valid() && fd < MAX_FILES
      modifies this`slots
      ensures Valid() && freed == old(freed)
      ensures fresh(slots[fd]) && slots[fd].kind == File && Holders(slots[fd]) == {fd} && slots[fd].ref == 1
      ensures slots[fd].path == path && slots[fd].flags == flags && slots[fd].mode == mode && slots[fd].state == NoState
      ensures forall u :: 0 <= u < MAX_FILES && u != fd ==> slots[u] == old(slots[u])
    {
      var src := new Source(File, path, flags, mode, 0);
      ghost var before := slots;
      slots := slots[fd := src];
      assert Holders(src) == {fd};
      FewerHolders(before, fd);
    }

    /** A source loses at most the overwritten slot. */
    lemma FewerHolders(before: seq<Source?>, fd: nat)
      requires |slots| == |before| && fd < |slots| && slots == before[fd := slots[fd]]
      ensures forall s: Source :: s != slots[fd] ==> Holders(s) <= set u | 0 <= u < |before| && before[u] == s
      ensures forall s: Source :: s != slots[fd] ==> |Holders(s)| <= |set u | 0 <= u < |before| && before[u] == s|
    {
      forall s: Source | s != slots[fd]
        ensures |Holders(s)| <= |set u | 0 <= u < |before| && before[u] == s|
      {
        SubsetSize(Holders(s), set u | 0 <= u < |before| && before[u] == s);
      }
    }

    /** fd_table_dup */
    method Dup(oldfd: nat, newfd: nat)
      requires Valid() && oldfd < MAX_FILES && newfd < MAX_FILES
      modifies this`slots, (if slots[oldfd] == null then {} else {slots[oldfd]})`ref
      ensures Valid() && freed == old(freed)
      ensures slots == if old(slots[oldfd]) == null then old(slots) else old(slots)[newfd := old(slots[oldfd])]
      ensures old(slots[oldfd]) != null ==> old(slots[oldfd]).ref == old(slots[oldfd].ref) + 1
    {
      if slots[oldfd] == null {
        return;
      }
      var src := slots[oldfd];
      ghost var before, holders := slots, Holders(src);
      slots := slots[newfd := src];
      src.ref := src.ref + 1;
      assert Holders(src) <= holders + {newfd};
      SubsetSize(Holders(src), holders + {newfd});
      FewerHolders(before, newfd);
    }

    /**
      fd_table_close: the source is freed exactly with its last reference. Each descriptor has
      one; those of descriptors that were overwritten stay.
     */
    method Close(fd: nat)
      requires Valid() && fd < MAX_FILES
      modifies this, (if slots[fd] == null then {} else {slots[fd]})`ref
      ensures Valid() && slots == old(slots)[fd := null]
      ensures old(slots[fd]) != null ==> old(slots[fd]).ref == old(slots[fd].ref) - 1
      ensures forall s :: s in freed <==>
                s in old(freed) || (s == old(slots[fd]) && old(slots[fd]) != null && old(slots[fd]).ref == 0)
      ensures forall s :: s in freed && s !in old(freed) ==> Holders(s) == {}
    {
      if slots[fd] == null {
        return;
      }
      var src := slots[fd];
      ghost var before, holders := slots, Holders(src);
      src.ref := src.ref - 1;
      slots := slots[fd := null];
      assert fd in holders && Holders(src) == holders - {fd};
      assert |Holders(src)| == |holders| - 1 <= src.ref;
      if src.ref == 0 {
        assert Holders(src) == {};
        freed := freed + {src};
      }
      FewerHolders(before, fd);
      forall u | 0 <= u < |slots| && slots[u] != null
        ensures slots[u] !in freed && slots[u].ref >= |Holders(slots[u])|
      {
        assert u in Holders(slots[u]);
      }
    }
  }

  // ----- saving -----

  /**
    The flags a source is reopened with: append and non-blocking mode may have been switched
    on since, but are never switched off; nothing is truncated or created anew.
   */
  function SavedFlags(kind: FdType, flags: set<Flag>, status: set<Flag>, cloexec: bool): set<Flag> {
    var kept := if kind == Directory then flags else flags + status * {Append, NonBlock} - {Trunc, Excl};
    if cloexec then kept + {CloExec} else kept - {CloExec}
  }

  ghost predicate IsTracked(slots: seq<Source?>, fd: nat) {
    fd < |slots| && slots[fd] != null && slots[fd].kind != Inherited
  }

  ghost predicate IsInherited(slots: seq<Source?>, fd: nat) {
    fd < |slots| && slots[fd] != null && slots[fd].kind == Inherited
  }

  /** The lowest of the descriptors that share this source. */
  ghost predicate IsFirst(slots: seq<Source?>, fd: nat)
    requires fd < |slots|
  {
    forall k: nat :: k < fd ==> slots[k] != slots[fd]
  }

  ghost function SourcesOf(slots: seq<Source?>): set<Source> {
    set fd | 0 <= fd < |slots| && slots[fd] != null :: slots[fd]
  }

  /** The source of `u` has a descriptor below `n`. */
  ghost predicate HasBefore(slots: seq<Source?>, u: nat, n: nat)
    requires u < |slots| && n <= |slots|
  {
    exists v: nat :: v < n && slots[v] == slots[u]
  }

  /** file_save and dir_save */
  method SaveSource(src: Source, fd: nat, kernel: Kernel)
    requires kernel.Valid() && fd in kernel.fds
    modifies src`state, src`offset, src`flags
    ensures src.state == Saved && src.offset == kernel.files[kernel.fds[fd]].offset
    ensures src.flags ==
            SavedFlags(src.kind, old(src.flags), kernel.files[kernel.fds[fd]].flags, fd in kernel.cloexec)
  {
    var file := kernel.files[kernel.fds[fd]];
    src.offset := file.offset;
    if src.kind != Directory {
      src.flags := src.flags + file.flags * {Append, NonBlock};
    }
    if CloExec in src.flags && fd !in kernel.cloexec {
      src.flags := src.flags - {CloExec};
    } else if fd in kernel.cloexec && CloExec !in src.flags {
      src.flags := src.flags + {CloExec};
    }
    if src.kind != Directory {
      src.flags := src.flags - {Trunc};
      src.flags := src.flags - {Excl};
    }
    src.state := Saved;
  }

  /** What was there when fd_table_save began. */
  datatype Before = Before(saved: set<Source>, offset: map<Source, nat>, flags: map<Source, set<Flag>>)

  ghost function Now(slots: seq<Source?>): Before
    reads SourcesOf(slots)
  {
    Before(set src | src in SourcesOf(slots) && src.state == Saved,
           map src | src in SourcesOf(slots) :: src.offset, map src | src in SourcesOf(slots) :: src.flags)
  }

  /** The source of `u` has been saved by its lowest descriptor, if that is below `n`, or before. */
  ghost predicate SavedBelow(slots: seq<Source?>, kernel: Kernel, before: Before, n: nat, u: nat)
    requires IsTracked(slots, u) && n <= |slots|
    reads kernel, slots[u]
  {
    var src := slots[u];
    && src in before.offset && src in before.flags
    && (src.state == Saved <==> src in before.saved || HasBefore(slots, u, n))
    && (src in before.saved || !HasBefore(slots, u, n) ==>
          src.offset == before.offset[src] && src.flags == before.flags[src])
    && (u < n && src !in before.saved && IsFirst(slots, u) ==> SavedBy(src, u, kernel, before.flags[src]))
  }

  ghost predicate SavedBy(src: Source, fd: nat, kernel: Kernel, flags: set<Flag>)
    reads kernel, src
  {
    && fd in kernel.fds && kernel.fds[fd] in kernel.files
    && var file := kernel.files[kernel.fds[fd]];
       src.offset == file.offset && src.flags == SavedFlags(src.kind, flags, file.flags, fd in kernel.cloexec)
  }

  /** One turn of fd_table_save. */
  method SaveOne(slots: seq<Source?>, kernel: Kernel, fd: nat, ghost before: Before)
    requires kernel.Valid() && IsTracked(slots, fd) && fd in kernel.fds
    requires forall u: nat :: IsTracked(slots, u) ==> SavedBelow(slots, kernel, before, fd, u)
    modifies {slots[fd]}`state, {slots[fd]}`offset, {slots[fd]}`flags
    ensures forall u: nat :: IsTracked(slots, u) ==> SavedBelow(slots, kernel, before, fd + 1, u)
  {
    assert SavedBelow(slots, kernel, before, fd, fd);
    if slots[fd].state != Saved {
      SaveSource(slots[fd], fd, kernel);
    }
    forall u: nat | IsTracked(slots, u)
      ensures SavedBelow(slots, kernel, before, fd + 1, u)
    {
      OneMoreBefore(slots, fd, u);
      assert old(SavedBelow(slots, kernel, before, fd, u));
    }
  }

  lemma OneMoreBefore(slots: seq<Source?>, n: nat, u: nat)
    requires n < |slots| && u < |slots|
    ensures HasBefore(slots, u, n + 1) <==> HasBefore(slots, u, n) || slots[u] == slots[n]
    ensures IsFirst(slots, u) <==> !HasBefore(slots, u, u)
  {}

  lemma NothingToSave(slots: seq<Source?>, kernel: Kernel, fd: nat, before: Before)
    requires fd < |slots| && !IsTracked(slots, fd)
    requires forall u: nat :: IsTracked(slots, u) ==> SavedBelow(slots, kernel, before, fd, u)
    ensures forall u: nat :: IsTracked(slots, u) ==> SavedBelow(slots, kernel, before, fd + 1, u)
  {
    forall u: nat | IsTracked(slots, u)
      ensures SavedBelow(slots, kernel, before, fd + 1, u)
    {
      OneMoreBefore(slots, fd, u);
      assert SavedBelow(slots, kernel, before, fd, u);
    }
  }

  /** fd_table_save: a source is saved once, by its lowest descriptor; a saved one is skipped. */
  method Save(slots: seq<Source?>, kernel: Kernel)
    requires kernel.Valid() && |slots| == MAX_FILES && forall fd: nat :: IsTracked(slots, fd) ==> fd in kernel.fds
    modifies SourcesOf(slots)`state, SourcesOf(slots)`offset, SourcesOf(slots)`flags
    ensures forall fd: nat :: IsTracked(slots, fd) ==>
              var src, file := slots[fd], kernel.files[kernel.fds[fd]];
              && src.state == Saved
              && (old(src.state) == Saved ==> src.offset == old(src.offset) && src.flags == old(src.flags))
              && (old(src.state) != Saved && IsFirst(slots, fd) ==>
                    && src.offset == file.offset
                    && src.flags == SavedFlags(src.kind, old(src.flags), file.flags, fd in kernel.cloexec))
  {
    ghost var before := Now(slots);
    for fd := 0 to MAX_FILES
      invariant forall u: nat :: IsTracked(slots, u) ==> SavedBelow(slots, kernel, before, fd, u)
    {
      if slots[fd] == null || slots[fd].kind == Inherited {
        NothingToSave(slots, kernel, fd, before);
        continue;
      }
      SaveOne(slots, kernel, fd, before);
    }
    forall fd: nat | IsTracked(slots, fd)
      ensures SavedBelow(slots, kernel, before, MAX_FILES, fd) && HasBefore(slots, fd, MAX_FILES)
    {}
  }

  // ----- the kernel -----

  datatype OpenFile = OpenFile(path: string, flags: set<Flag>, mode: nat, offset: nat)

  /** Descriptors of a process; descriptors may share an open file, each has its own FD_CLOEXEC. */
  class Kernel {
    var fds: map<nat, nat>
    var files: map<nat, OpenFile>
    var cloexec: set<nat>
    var missing: set<string>                      // paths that cannot be opened

    ghost predicate Valid()
      reads this
    {
      cloexec <= fds.Keys && forall fd | fd in fds :: fds[fd] in files
    }

    /** The standard descriptors share a terminal. */
    constructor ()
      ensures Valid() && fds == map[0 := 0, 1 := 0, 2 := 0] && cloexec == {} && missing == {}
    {
      fds, files := map[0 := 0, 1 := 0, 2 := 0], map[0 := OpenFile("/dev/tty", {}, 0, 0)];
      cloexec, missing := {}, {};
    }

    /** open: a new open file on the lowest descriptor that was not in use. */
    method Open(path: string, flags: set<Flag>, mode: nat) returns (fd: Option<nat>)
      requires Valid()
      modifies this`fds, this`files, this`cloexec
      ensures Valid() && (fd.Some? <==> path !in missing)
      ensures fd.None? ==> fds == old(fds) && files == old(files) && cloexec == old(cloexec)
      ensures fd.Some? ==>
                && IsLowestFree(old(fds).Keys, fd.value)
                && fd.value in fds && fds == old(fds)[fd.value := fds[fd.value]]
                && fds[fd.value] !in old(files) && files == old(files)[fds[fd.value] := OpenFile(path, flags, mode, 0)]
                && cloexec == if CloExec in flags then old(cloexec) + {fd.value} else old(cloexec)
    {
      if path in missing {
        return None;
      }
      var n := LowestFree(fds.Keys);
      var id := LowestFree(files.Keys);
      fds := fds[n := id];
      files := files[id := OpenFile(path, flags, mode, 0)];
      if CloExec in flags {
        cloexec := cloexec + {n};
      }
      fd := Some(n);
    }

    /** dup2: the new descriptor is not closed on exec. */
    method Dup2(from: nat, to: nat) returns (ok: bool)
      requires Valid()
      modifies this`fds, this`cloexec
      ensures Valid() && ok == (from in old(fds))
      ensures fds == if ok then old(fds)[to := old(fds)[from]] else old(fds)
      ensures cloexec == if ok && from != to then old(cloexec) - {to} else old(cloexec)
    {
      ok := from in fds;
      if ok && from != to {
        fds := fds[to := fds[from]];
        cloexec := cloexec - {to};
      }
    }

    method Close(fd: nat)
      requires Valid()
      modifies this`fds, this`cloexec
      ensures Valid() && fds == old(fds) - {fd} && cloexec == old(cloexec) - {fd}
    {
      fds := fds - {fd};
      cloexec := cloexec - {fd};
    }

    /** lseek (or seekdir): the position belongs to the open file. */
    method Seek(fd: nat, offset: nat)
      requires Valid() && fd in fds
      modifies this`files
      ensures Valid() && files == old(files)[fds[fd] := old(files)[fds[fd]].(offset := offset)]
    {
      files := files[fds[fd] := files[fds[fd]].(offset := offset)];
    }
  }

  ghost predicate IsLowestFree(used: set<nat>, n: nat) { n !in used && forall k :: 0 <= k < n ==> k in used }

  method LowestFree(used: set<nat>) returns (n: nat)
    ensures IsLowestFree(used, n)
  {
    n := 0;
    ghost var rest := used;
    while n in used
      invariant forall k :: 0 <= k < n ==> k in used
      invariant rest == set k | k in used && k >= n
      decreases |rest|
    {
      assert n in rest;
      rest := rest - {n};
      n := n + 1;
    }
  }

  // ----- restart -----

  /**
    When inherited descriptor `fd` is restored, its root still is what it was: it comes
    later, or was left alone.
   */
  ghost predicate RootIsIntact(slots: seq<Source?>, fd: nat)
    requires IsInherited(slots, fd)
    reads SourcesOf(slots)
  {
    var r := slots[fd].root;
    r >= fd || !IsInherited(slots, r) || slots[r].root == r
  }

  ghost predicate RootsAreIntact(slots: seq<Source?>)
    reads SourcesOf(slots)
  {
    forall fd: nat :: IsInherited(slots, fd) ==> RootIsIntact(slots, fd)
  }

  /** The descriptors in use after the first loop of fd_table_restore. */
  ghost function UsedThen(slots: seq<Source?>, fds: set<nat>): set<nat>
    reads SourcesOf(slots)
  {
    fds + set k | 0 <= k < |slots| && IsInherited(slots, k) && slots[k].root != k
  }

  /** With these descriptors in use, the second loop opens tracked descriptor `fd` on its own number. */
  ghost predicate OpenedInPlace(slots: seq<Source?>, fd: nat, used: set<nat>)
    requires IsTracked(slots, fd)
  {
    IsFirst(slots, fd) && fd !in used && forall k: nat :: k < fd ==> k in used || IsTracked(slots, k)
  }

  class Restorer {
    const slots: seq<Source?>
    const kernel: Kernel

    constructor (slots: seq<Source?>, kernel: Kernel)
      ensures this.slots == slots && this.kernel == kernel
    {
      this.slots, this.kernel := slots, kernel;
    }

    ghost function Sources(): set<Source> { SourcesOf(slots) }

    ghost predicate Tracked(fd: nat) { IsTracked(slots, fd) }

    /** The open file of `src` has what was saved of it. */
    ghost predicate FileIs(src: Source, id: nat)
      reads kernel, src
    {
      id in kernel.files && kernel.files[id] == OpenFile(src.path, src.flags, src.mode, src.offset)
    }

    /** The first loop of fd_table_restore. */
    method RestoreInherited() returns (ok: bool)
      requires kernel.Valid() && |slots| == MAX_FILES
      requires RootsAreIntact(slots)
      modifies kernel`fds, kernel`cloexec
      ensures kernel.Valid()
      ensures ok <==>
                forall fd: nat :: IsInherited(slots, fd) && slots[fd].root != fd ==> slots[fd].root in old(kernel.fds)
      ensures ok ==> forall fd: nat :: IsInherited(slots, fd) && slots[fd].root in old(kernel.fds) ==>
                fd in kernel.fds && kernel.fds[fd] == old(kernel.fds)[slots[fd].root]
      ensures forall fd: nat :: !IsInherited(slots, fd) || slots[fd].root == fd ==>
                && (fd in kernel.fds <==> fd in old(kernel.fds))
                && (fd in kernel.fds ==> kernel.fds[fd] == old(kernel.fds)[fd])
    {
      for fd := 0 to MAX_FILES
        invariant kernel.Valid() && RootsAreIntact(slots)
        invariant forall u: nat :: u < fd && IsInherited(slots, u) && slots[u].root != u ==>
                    slots[u].root in old(kernel.fds)
        invariant forall u: nat :: u < fd && IsInherited(slots, u) && slots[u].root in old(kernel.fds) ==>
                    u in kernel.fds && kernel.fds[u] == old(kernel.fds)[slots[u].root]
        invariant forall u: nat :: u >= fd || !IsInherited(slots, u) || slots[u].root == u ==>
                    && (u in kernel.fds <==> u in old(kernel.fds))
                    && (u in kernel.fds ==> kernel.fds[u] == old(kernel.fds)[u])
      {
        if slots[fd] == null || slots[fd].kind != Inherited {
          continue;
        }
        assert RootIsIntact(slots, fd);
        if fd != slots[fd].root {
          var done := kernel.Dup2(slots[fd].root, fd);
          if !done {
            return false;
          }
        }
      }
      ok := true;
    }

    /** What holds of a source once one of its descriptors has been restored before `n`. */
    ghost predicate Done(src: Source, n: nat)
      reads kernel, src
    {
      && src.state == Restored && src.root < n && src.root < |slots| && slots[src.root] == src
      && src.root in kernel.fds && FileIs(src, kernel.fds[src.root]) && src.path !in kernel.missing
    }

    /** All tracked descriptors below `n` are restored, sharing open files as they share sources. */
    ghost predicate RestoredBelow(n: nat)
      reads this, kernel, Sources()
    {
      && (forall fd: nat :: fd < n && Tracked(fd) ==>
            Done(slots[fd], n) && fd in kernel.fds && kernel.fds[fd] == kernel.fds[slots[fd].root])
      && (forall a: nat, b: nat :: a < n && b < n && Tracked(a) && Tracked(b) && slots[a] != slots[b] ==>
            kernel.fds[a] != kernel.fds[b])
      && (forall fd: nat :: Tracked(fd) && slots[fd].state == Restored ==> Done(slots[fd], n))
    }

    /** file_restore and dir_restore */
    method RestoreSource(fd: nat) returns (ok: bool)
      requires kernel.Valid() && Tracked(fd)
      modifies kernel`fds, kernel`files, kernel`cloexec, {slots[fd]}`state, {slots[fd]}`root
      ensures kernel.Valid() && (ok <==> slots[fd].path !in kernel.missing)
      ensures !ok ==> slots[fd].state == old(slots[fd].state)
      ensures ok ==>
                && fd in kernel.fds && kernel.fds[fd] !in old(kernel.files)
                && kernel.fds == old(kernel.fds)[fd := kernel.fds[fd]]
                && FileIs(slots[fd], kernel.fds[fd]) && slots[fd].root == fd && slots[fd].state == Restored
                && kernel.cloexec ==
                   (if CloExec in slots[fd].flags && IsLowestFree(old(kernel.fds).Keys, fd)
                    then old(kernel.cloexec) + {fd} else old(kernel.cloexec) - {fd})
                && forall id | id in old(kernel.files) ::
                     id in kernel.files && kernel.files[id] == old(kernel.files)[id]
    {
      var src := slots[fd];
      var ret := kernel.Open(src.path, src.flags, src.mode);
      if ret.None? {
        return false;
      }
      if ret.value != fd {
        var duped := kernel.Dup2(ret.value, fd);
        assert duped;
        kernel.Close(ret.value);
      }
      kernel.Seek(fd, src.offset);
      src.root := fd;
      src.state := Restored;
      ok := true;
    }

    /** What one turn does to close-on-exec: only a file opened on its own number keeps it. */
    ghost predicate CloExecAfter(fd: nat, fds: map<nat, nat>, before: set<nat>, after: set<nat>)
      requires Tracked(fd)
      reads slots[fd]
    {
      after ==
      if CloExec in slots[fd].flags && IsFirst(slots, fd) && IsLowestFree(fds.Keys, fd) then before + {fd}
      else before - {fd}
    }

    /** One turn of the second loop of fd_table_restore. */
    method RestoreOne(fd: nat, ghost before: map<nat, nat>) returns (ok: bool)
      requires Tracked(fd) && Progress(fd, before)
      modifies kernel`fds, kernel`files, kernel`cloexec, {slots[fd]}`state, {slots[fd]}`root
      ensures kernel.Valid()
      ensures ok <==> slots[fd].path !in kernel.missing
      ensures ok ==> Progress(fd + 1, before)
    {
      ghost var fds, cloexec := kernel.fds, kernel.cloexec;
      if slots[fd].state == Restored {
        assert Done(slots[fd], fd);
        ok := RestoreDuplicate(fd);
      } else {
        ok := RestoreFirst(fd);
      }
      if ok {
        PlaceIsKnown(fd, before, fds);
        InPlaceOrNot(fd, before.Keys, fds, cloexec);
      }
    }

    method RestoreDuplicate(fd: nat) returns (ok: bool)
      requires kernel.Valid() && Tracked(fd) && RestoredBelow(fd) && slots[fd].state == Restored
      modifies kernel`fds, kernel`cloexec
      ensures ok && kernel.Valid() && RestoredBelow(fd + 1)
      ensures fd in kernel.fds && kernel.fds == old(kernel.fds)[fd := kernel.fds[fd]]
      ensures CloExecAfter(fd, old(kernel.fds), old(kernel.cloexec), kernel.cloexec)
    {
      assert Done(slots[fd], fd);
      ok := kernel.Dup2(slots[fd].root, fd);
      Duplicated(fd);
    }

    /** The new descriptor shares the open file of its root, so it differs from the others' as the root does. */
    lemma Duplicated(fd: nat)
      requires Tracked(fd) && slots[fd].state == Restored && fd in kernel.fds
      requires slots[fd].root < fd && Tracked(slots[fd].root) && slots[slots[fd].root] == slots[fd]
      requires slots[fd].root in kernel.fds && kernel.fds[fd] == kernel.fds[slots[fd].root]
      requires RestoredBelow(fd)
      ensures RestoredBelow(fd + 1)
    {}

    method RestoreFirst(fd: nat) returns (ok: bool)
      requires kernel.Valid() && Tracked(fd) && RestoredBelow(fd) && slots[fd].state == Saved
      modifies kernel`fds, kernel`files, kernel`cloexec, {slots[fd]}`state, {slots[fd]}`root
      ensures kernel.Valid() && (ok <==> slots[fd].path !in kernel.missing)
      ensures slots[fd].state != NoState
      ensures ok ==> RestoredBelow(fd + 1)
      ensures ok ==> fd in kernel.fds && kernel.fds == old(kernel.fds)[fd := kernel.fds[fd]]
      ensures ok ==> CloExecAfter(fd, old(kernel.fds), old(kernel.cloexec), kernel.cloexec)
    {
      ok := RestoreSource(fd);
      if ok {
        forall u: nat | Tracked(u) && u < fd
          ensures slots[u] != slots[fd]
        {}
      }
    }

    /** The second loop of fd_table_restore. */
    method RestoreTracked() returns (ok: bool)
      requires kernel.Valid() && |slots| == MAX_FILES
      requires forall fd: nat :: Tracked(fd) ==> slots[fd].state == Saved
      modifies kernel`fds, kernel`files, kernel`cloexec, Sources()`state, Sources()`root
      ensures kernel.Valid()
      ensures ok <==> forall fd: nat :: Tracked(fd) ==> slots[fd].path !in kernel.missing
      ensures ok ==> RestoredBelow(MAX_FILES)
      ensures ok ==> forall fd: nat :: !Tracked(fd) ==>
                && (fd in kernel.fds <==> fd in old(kernel.fds))
                && (fd in kernel.fds ==> kernel.fds[fd] == old(kernel.fds)[fd])
      ensures ok ==> forall fd: nat :: Tracked(fd) ==>
                (fd in kernel.cloexec <==> CloExec in slots[fd].flags && OpenedInPlace(slots, fd, old(kernel.fds).Keys))
    {
      for fd := 0 to MAX_FILES
        invariant Progress(fd, old(kernel.fds))
      {
        if slots[fd] == null || slots[fd].kind == Inherited {
          NothingAt(fd, old(kernel.fds));
          continue;
        }
        var done := RestoreOne(fd, old(kernel.fds));
        if !done {
          return false;
        }
      }
      ok := true;
    }

    /** The second loop has reached `n`; the kernel had the descriptors `before` when it began. */
    ghost predicate Progress(n: nat, before: map<nat, nat>)
      reads this, kernel, Sources()
    {
      && kernel.Valid() && RestoredBelow(n) && LeftAlone(n, before, kernel.fds) && CloExecBelow(n, before.Keys)
      && forall fd: nat :: Tracked(fd) ==> slots[fd].state != NoState
    }

    /** Untracked descriptors are as they were, the tracked ones from `n` on not in use that were not. */
    ghost predicate LeftAlone(n: nat, before: map<nat, nat>, fds: map<nat, nat>) {
      && (forall u: nat :: !Tracked(u) ==> (u in fds <==> u in before) && (u in fds ==> fds[u] == before[u]))
      && (forall u: nat :: u >= n && Tracked(u) ==> (u in fds <==> u in before))
    }

    ghost predicate CloExecBelow(n: nat, used: set<nat>)
      reads kernel, Sources()
    {
      forall u: nat :: u < n && Tracked(u) ==>
        (u in kernel.cloexec <==> CloExec in slots[u].flags && OpenedInPlace(slots, u, used))
    }

    /** When its turn comes, `fd` is the lowest free descriptor exactly if it was bound to be. */
    lemma PlaceIsKnown(fd: nat, before: map<nat, nat>, fds: map<nat, nat>)
      requires Tracked(fd) && LeftAlone(fd, before, fds)
      requires forall u: nat :: u < fd && Tracked(u) ==> u in fds
      ensures IsFirst(slots, fd) && IsLowestFree(fds.Keys, fd) <==> OpenedInPlace(slots, fd, before.Keys)
    {}

    lemma InPlaceOrNot(fd: nat, used: set<nat>, fds: map<nat, nat>, cloexec: set<nat>)
      requires Tracked(fd) && CloExecAfter(fd, fds, cloexec, kernel.cloexec)
      requires IsFirst(slots, fd) && IsLowestFree(fds.Keys, fd) <==> OpenedInPlace(slots, fd, used)
      requires forall u: nat :: u < fd && Tracked(u) ==>
                 (u in cloexec <==> CloExec in slots[u].flags && OpenedInPlace(slots, u, used))
      ensures CloExecBelow(fd + 1, used)
    {}

    lemma NothingAt(fd: nat, before: map<nat, nat>)
      requires Progress(fd, before) && !Tracked(fd)
      ensures Progress(fd + 1, before)
    {}

    /** Two tracked descriptors share an open file exactly if they shared a source. */
    ghost predicate SharedAsSaved()
      reads kernel
    {
      && (forall fd: nat :: Tracked(fd) ==> fd in kernel.fds)
      && (forall a: nat, b: nat :: Tracked(a) && Tracked(b) ==>
            (kernel.fds[a] == kernel.fds[b] <==> slots[a] == slots[b]))
    }

    lemma BelowAll()
      requires RestoredBelow(MAX_FILES) && |slots| == MAX_FILES
      ensures SharedAsSaved() && forall fd: nat :: Tracked(fd) ==> FileIs(slots[fd], kernel.fds[fd])
    {}

    /** fd_table_restore; of the tracked descriptors only those opened in place stay close-on-exec. */
    method FdTableRestore() returns (ok: bool)
      requires kernel.Valid() && |slots| == MAX_FILES
      requires RootsAreIntact(slots)
      requires forall fd: nat :: Tracked(fd) ==> slots[fd].state == Saved
      modifies kernel`fds, kernel`files, kernel`cloexec, Sources()`state, Sources()`root
      ensures ok ==> SharedAsSaved()
      ensures ok ==> forall fd: nat :: Tracked(fd) ==>
                kernel.fds[fd] in kernel.files &&
                var src := slots[fd];
                kernel.files[kernel.fds[fd]] == OpenFile(src.path, src.flags, src.mode, src.offset)
      ensures ok ==> forall fd: nat :: IsInherited(slots, fd) && old(slots[fd].root) in old(kernel.fds) ==>
                fd in kernel.fds && kernel.fds[fd] == old(kernel.fds)[old(slots[fd].root)]
      ensures ok ==> forall fd: nat :: Tracked(fd) ==>
                (fd in kernel.cloexec <==>
                 CloExec in slots[fd].flags && OpenedInPlace(slots, fd, old(UsedThen(slots, kernel.fds.Keys))))
      ensures ok ==> forall fd: nat :: fd < 3 && slots[fd] == null ==> fd !in kernel.fds
      ensures ok <==>
                && (forall fd: nat :: Tracked(fd) ==> slots[fd].path !in kernel.missing)
                && (forall fd: nat :: IsInherited(slots, fd) && old(slots[fd].root) != fd ==>
                      old(slots[fd].root) in old(kernel.fds))
    {
      ok := RestoreInherited();
      if !ok {
        return;
      }
      assert kernel.fds.Keys == old(UsedThen(slots, kernel.fds.Keys));
      ok := RestoreTracked();
      if !ok {
        return;
      }
      BelowAll();
      CloseUntracked();
    }

    /** The last loop of fd_table_restore. */
    method CloseUntracked()
      requires kernel.Valid() && |slots| == MAX_FILES
      modifies kernel`fds, kernel`cloexec
      ensures forall u: nat :: u < |slots| && slots[u] != null ==>
                && (u in kernel.fds <==> u in old(kernel.fds))
                && (u in kernel.fds ==> kernel.fds[u] == old(kernel.fds)[u])
                && (u in kernel.cloexec <==> u in old(kernel.cloexec))
      ensures forall u: nat :: u < 3 && slots[u] == null ==> u !in kernel.fds
    {
      for fd := 0 to 3
        invariant kernel.Valid()
        invariant forall u: nat :: u < |slots| && slots[u] != null ==>
                    && (u in kernel.fds <==> u in old(kernel.fds))
                    && (u in kernel.fds ==> kernel.fds[u] == old(kernel.fds)[u])
                    && (u in kernel.cloexec <==> u in old(kernel.cloexec))
        invariant forall u: nat :: u < fd && slots[u] == null ==> u !in kernel.fds
      {
        if slots[fd] == null {
          kernel.Close(fd);
        }
      }
    }
  }
}
