/**
  Re-signing the return addresses on a stack (xnd/pac.c; simple form at
  internals.md:953-963). Pointer authentication is abstract: only its laws are used.
 */
module Frames {

  /** PTRAUTH_SIGNED, PTRAUTH_XPACI and PTRAUTH_PACIB. */
  datatype Pac = Pac(signed: nat -> bool, strip: nat -> nat, sign: (nat, nat) -> nat)

  /** Stripping removes a signature and nothing else. */
  ghost predicate Lawful(pac: Pac) {
    && (forall x :: pac.strip(pac.strip(x)) == pac.strip(x))
    && (forall x, m :: pac.strip(pac.sign(x, m)) == pac.strip(x))
  }

  type Memory = map<nat, nat>

  /** `frames` are the frame records from `fp` to the outermost one, whose link is NULL. */
  predicate IsChain(mem: Memory, fp: nat, frames: seq<nat>)
    decreases |frames|
  {
    if fp == 0 then frames == []
    else
      && frames != [] && frames[0] == fp && fp % 16 == 0
      && fp in mem && fp + 8 in mem && IsChain(mem, mem[fp], frames[1..])
  }

  /** A chain that ends is acyclic: a frame determines all that follow. */
  lemma {:induction false} ChainAt(mem: Memory, fp: nat, frames: seq<nat>, i: nat)
    requires IsChain(mem, fp, frames) && i < |frames|
    ensures frames[i] != 0 && IsChain(mem, frames[i], frames[i..]) && IsChain(mem, mem[frames[i]], frames[i + 1..])
    ensures frames[i] % 16 == 0 && frames[i] in mem && frames[i] + 8 in mem
    decreases |frames|
  {
    if i > 0 {
      ChainAt(mem, mem[fp], frames[1..], i - 1);
      assert frames[1..][i - 1..] == frames[i..] && frames[1..][i..] == frames[i + 1..];
    } else {
      assert frames[0..] == frames;
    }
  }

  lemma {:induction false} ChainLength(mem: Memory, fp: nat, a: seq<nat>, b: seq<nat>)
    requires IsChain(mem, fp, a) && IsChain(mem, fp, b)
    ensures a == b
    decreases |a|
  {
    if fp != 0 { ChainLength(mem, mem[fp], a[1..], b[1..]); }
  }

  lemma ChainIsDistinct(mem: Memory, fp: nat, frames: seq<nat>, i: nat, j: nat)
    requires IsChain(mem, fp, frames) && i < j < |frames|
    ensures frames[i] != frames[j]
  {
    ChainAt(mem, fp, frames, i);
    ChainAt(mem, fp, frames, j);
    if frames[i] == frames[j] { ChainLength(mem, frames[i], frames[i..], frames[j..]); }
  }

  /** Links are in other words than return addresses, so they survive the re-signing. */
  lemma {:induction false} ChainKept(mem: Memory, mem': Memory, fp: nat, frames: seq<nat>)
    requires IsChain(mem, fp, frames) && mem'.Keys == mem.Keys
    requires forall a | a in mem && a % 16 == 0 :: mem'[a] == mem[a]
    ensures IsChain(mem', fp, frames)
    decreases |frames|
  {
    if fp != 0 { ChainKept(mem, mem', mem[fp], frames[1..]); }
  }

  function Resign(pac: Pac, v: nat, fp: nat): nat { pac.sign(pac.strip(v), fp + 16) }

  /** The word at `a` is the return address of one of these frames, and signed. */
  predicate IsSignedSlot(pac: Pac, mem: Memory, frames: set<nat>, a: nat)
    requires a in mem
  {
    a >= 8 && a - 8 in frames && pac.signed(mem[a])
  }

  /** Every signed return address is signed again for its frame; all else is as it was. */
  predicate Resigned(pac: Pac, mem: Memory, mem': Memory, frames: set<nat>) {
    && mem'.Keys == mem.Keys
    && forall a | a in mem ::
         mem'[a] == if IsSignedSlot(pac, mem, frames, a) then Resign(pac, mem[a], a - 8) else mem[a]
  }

  /** The same frame by frame: the modifier is the stack pointer at the entry of the function. */
  lemma ResignedPlainly(pac: Pac, mem: Memory, mem': Memory, fp: nat, frames: seq<nat>)
    requires IsChain(mem, fp, frames) && Resigned(pac, mem, mem', SetOf(frames))
    ensures forall f | f in frames ::
              f + 8 in mem' && (pac.signed(mem[f + 8]) ==> mem'[f + 8] == pac.sign(pac.strip(mem[f + 8]), f + 16))
    ensures forall a | a in mem' && (a < 8 || a - 8 !in frames || !pac.signed(mem[a])) :: mem'[a] == mem[a]
  {
    forall f | f in frames
      ensures f + 8 in mem && (pac.signed(mem[f + 8]) ==> IsSignedSlot(pac, mem, SetOf(frames), f + 8))
    {
      var i :| 0 <= i < |frames| && frames[i] == f;
      ChainAt(mem, fp, frames, i);
    }
  }

  function SetOf(frames: seq<nat>): set<nat> { set f | f in frames }

  /** The frames whose return address is signed, from the innermost outwards. */
  function SignedFrames(pac: Pac, mem: Memory, frames: seq<nat>): seq<nat> {
    if frames == [] then []
    else
      var fp := frames[|frames| - 1];
      SignedFrames(pac, mem, frames[..|frames| - 1]) + (if fp + 8 in mem && pac.signed(mem[fp + 8]) then [fp] else [])
  }

  lemma OneFrameMore(pac: Pac, mem: Memory, frames: seq<nat>, i: nat)
    requires i < |frames|
    ensures SignedFrames(pac, mem, frames[..i + 1]) ==
            SignedFrames(pac, mem, frames[..i]) +
            (if frames[i] + 8 in mem && pac.signed(mem[frames[i] + 8]) then [frames[i]] else [])
  {
    assert frames[..i + 1][..i] == frames[..i];
  }

  /** Unsigned frames may be skipped. */
  lemma {:induction false} SkipUnsigned(pac: Pac, mem: Memory, frames: seq<nat>, i: nat, j: nat)
    requires i <= j <= |frames|
    requires forall k :: i <= k < j ==> frames[k] + 8 in mem && !pac.signed(mem[frames[k] + 8])
    ensures SignedFrames(pac, mem, frames[..j]) == SignedFrames(pac, mem, frames[..i])
  {
    if i < j {
      SkipUnsigned(pac, mem, frames, i, j - 1);
      OneFrameMore(pac, mem, frames, j - 1);
    }
  }

  lemma {:induction false} SignedFramesAre(pac: Pac, mem: Memory, frames: seq<nat>, f: nat)
    ensures f in SignedFrames(pac, mem, frames) <==> f in frames && f + 8 in mem && pac.signed(mem[f + 8])
  {
    if frames != [] {
      SignedFramesAre(pac, mem, frames[..|frames| - 1], f);
      assert frames == frames[..|frames| - 1] + [frames[|frames| - 1]];
    }
  }

  /** Frames that are not signed make no difference. */
  lemma OnlySignedMatter(pac: Pac, mem: Memory, m: Memory, frames: seq<nat>)
    requires Resigned(pac, mem, m, SetOf(SignedFrames(pac, mem, frames)))
    ensures Resigned(pac, mem, m, SetOf(frames))
  {
    forall a | a in mem
      ensures IsSignedSlot(pac, mem, SetOf(SignedFrames(pac, mem, frames)), a) <==>
              IsSignedSlot(pac, mem, SetOf(frames), a)
    {
      if a >= 8 { SignedFramesAre(pac, mem, frames, a - 8); }
    }
  }

  lemma StoreOne(pac: Pac, mem: Memory, m: Memory, frames: set<nat>, fp: nat)
    requires Resigned(pac, mem, m, frames) && fp + 8 in mem && pac.signed(mem[fp + 8])
    ensures Resigned(pac, mem, m[fp + 8 := Resign(pac, mem[fp + 8], fp)], frames + {fp})
  {}

  lemma StoreStep(pac: Pac, start: Memory, m: Memory, done: seq<nat>, frames: seq<nat>, i: nat)
    requires i < |frames| && frames[i] + 8 in start && pac.signed(start[frames[i] + 8])
    requires done == SignedFrames(pac, start, frames[..i]) && Resigned(pac, start, m, SetOf(done))
    ensures done + [frames[i]] == SignedFrames(pac, start, frames[..i + 1])
    ensures var m' := m[frames[i] + 8 := Resign(pac, start[frames[i] + 8], frames[i])];
            Resigned(pac, start, m', SetOf(done + [frames[i]]))
  {
    OneFrameMore(pac, start, frames, i);
    StoreOne(pac, start, m, SetOf(done), frames[i]);
    assert SetOf(done + [frames[i]]) == SetOf(done) + {frames[i]};
  }

  /** A second run changes nothing. */
  lemma ResigningTwice(pac: Pac, mem: Memory, mem': Memory, mem'': Memory, frames: set<nat>)
    requires Lawful(pac) && Resigned(pac, mem, mem', frames) && Resigned(pac, mem', mem'', frames)
    ensures mem'' == mem'
  {
    forall a | a in mem'
      ensures mem''[a] == mem'[a]
    {
      assert a in mem;
    }
  }

  /** The result is determined by the memory and the frames. */
  lemma ResignedIsUnique(pac: Pac, mem: Memory, m: Memory, n: Memory, frames: set<nat>)
    requires Resigned(pac, mem, m, frames) && Resigned(pac, mem, n, frames)
    ensures m == n
  {
    assert forall a | a in mem :: m[a] == n[a];
  }

  class Stack {
    const pac: Pac
    var mem: Memory
    ghost var resigned: seq<nat>                  // the frames whose return address was stored

    constructor (pac: Pac, mem: Memory)
      ensures this.pac == pac && this.mem == mem && resigned == []
    {
      this.pac, this.mem, resigned := pac, mem, [];
    }

    /** first_signed_frame; `i` is where in the chain `fp0` is, `j` where the result is. */
    method FirstSignedFrame(fp0: nat, ghost frames: seq<nat>, ghost i: nat) returns (fp: nat, ghost j: nat)
      requires i <= |frames| && IsChain(mem, fp0, frames[i..])
      ensures i <= j <= |frames| && (fp == 0 <==> j == |frames|)
      ensures j < |frames| ==> frames[j] == fp
      ensures fp != 0 ==> fp + 8 in mem && pac.signed(mem[fp + 8])
      ensures forall k :: i <= k < j ==> frames[k] + 8 in mem && !pac.signed(mem[frames[k] + 8])
    {
      fp, j := fp0, i;
      while fp != 0
        invariant i <= j <= |frames| && IsChain(mem, fp, frames[j..])
        invariant forall k :: i <= k < j ==> frames[k] + 8 in mem && !pac.signed(mem[frames[k] + 8])
        decreases |frames| - j
      {
        assert frames[j..][1..] == frames[j + 1..];
        if pac.signed(mem[fp + 8]) {
          return;
        }
        fp, j := mem[fp], j + 1;
      }
    }

    /** next_signed_frame: the same from the frame after `fp0`, which is not NULL here. */
    method NextSignedFrame(fp0: nat, ghost frames: seq<nat>, ghost i: nat) returns (fp: nat, ghost j: nat)
      requires i < |frames| && IsChain(mem, fp0, frames[i..])
      ensures i < j <= |frames| && (fp == 0 <==> j == |frames|)
      ensures j < |frames| ==> frames[j] == fp
      ensures fp != 0 ==> fp + 8 in mem && pac.signed(mem[fp + 8])
      ensures forall k :: i < k < j ==> frames[k] + 8 in mem && !pac.signed(mem[frames[k] + 8])
    {
      assert frames[i..][1..] == frames[i + 1..];
      fp, j := FirstSignedFrame(mem[fp0], frames, i + 1);
    }

    /** What has been stored so far is the re-signing of the frames stored so far. */
    ghost predicate SoFar(start: Memory, fp0: nat, frames: seq<nat>, i: nat)
      requires i <= |frames|
      reads this
    {
      && IsChain(start, fp0, frames)
      && resigned == SignedFrames(pac, start, frames[..i])
      && Resigned(pac, start, mem, SetOf(resigned))
    }

    lemma AllStored(start: Memory, fp0: nat, frames: seq<nat>)
      requires SoFar(start, fp0, frames, |frames|)
      ensures IsChain(mem, fp0, frames) && mem.Keys == start.Keys && resigned == SignedFrames(pac, start, frames)
      ensures forall f | f in frames ::
                f + 8 in mem && (pac.signed(start[f + 8]) ==> mem[f + 8] == pac.sign(pac.strip(start[f + 8]), f + 16))
      ensures forall a | a in mem && (a < 8 || a - 8 !in frames || !pac.signed(start[a])) :: mem[a] == start[a]
    {
      assert frames[..|frames|] == frames;
      OnlySignedMatter(pac, start, mem, frames);
      ResignedPlainly(pac, start, mem, fp0, frames);
      RestIsAsItWas(start, fp0, frames, |frames|);
    }

    /** ptrauth_resign_frames */
    method ResignFrames(fp0: nat, ghost frames: seq<nat>)
      requires IsChain(mem, fp0, frames) && resigned == []
      modifies this
      ensures IsChain(mem, fp0, frames) && mem.Keys == old(mem).Keys
      ensures forall f | f in frames ::
                && f + 8 in mem
                && (pac.signed(old(mem)[f + 8]) ==> mem[f + 8] == pac.sign(pac.strip(old(mem)[f + 8]), f + 16))
      ensures forall a | a in mem && (a < 8 || a - 8 !in frames || !pac.signed(old(mem)[a])) :: mem[a] == old(mem)[a]
      ensures resigned == SignedFrames(pac, old(mem), frames)
    {
      ghost var start := mem;
      assert frames[0..] == frames && frames[..0] == [];
      var fp; ghost var i;
      fp, i := FirstSignedFrame(fp0, frames, 0);
      SkipUnsigned(pac, start, frames, 0, i);
      while fp != 0
        invariant i <= |frames| && (fp == 0 <==> i == |frames|) && SoFar(start, fp0, frames, i)
        invariant i < |frames| ==> frames[i] == fp && fp + 8 in start && pac.signed(start[fp + 8])
        decreases |frames| - i
      {
        fp, i := StoreAndGoOn(fp, start, fp0, frames, i);
      }
      AllStored(start, fp0, frames);
    }

    /** One turn, and the step to the next signed frame. */
    method StoreAndGoOn(fp0: nat, ghost start: Memory, ghost first: nat, ghost frames: seq<nat>, ghost i: nat)
      returns (fp: nat, ghost next: nat)
      requires i < |frames| && SoFar(start, first, frames, i)
      requires frames[i] == fp0 && fp0 + 8 in start && pac.signed(start[fp0 + 8])
      modifies this
      ensures i < next <= |frames| && (fp == 0 <==> next == |frames|) && SoFar(start, first, frames, next)
      ensures next < |frames| ==> frames[next] == fp && fp + 8 in start && pac.signed(start[fp + 8])
    {
      RestIsAsItWas(start, first, frames, i);
      Store(fp0, start, first, frames, i);
      RestIsAsItWas(start, first, frames, i + 1);
      ChainAt(mem, first, frames, i);
      fp, next := NextSignedFrame(fp0, frames, i);
      SkipUnsigned(pac, start, frames, i + 1, next);
    }

    /** One turn: strip the return address and sign it for its frame. */
    method Store(fp: nat, ghost start: Memory, ghost fp0: nat, ghost frames: seq<nat>, ghost i: nat)
      requires i < |frames| && SoFar(start, fp0, frames, i) && frames[i] == fp
      requires fp + 8 in start && pac.signed(start[fp + 8]) && fp + 8 in mem && mem[fp + 8] == start[fp + 8]
      modifies this
      ensures SoFar(start, fp0, frames, i + 1)
    {
      StoreStep(pac, start, mem, resigned, frames, i);
      var sp := fp + 16;
      assert pac.signed(mem[fp + 8]);
      mem := mem[fp + 8 := pac.strip(mem[fp + 8])];
      mem := mem[fp + 8 := pac.sign(mem[fp + 8], sp)];
      assert mem == old(mem)[fp + 8 := Resign(pac, start[fp + 8], fp)];
      resigned := resigned + [fp];
    }

    /** The links and the return addresses of frames not reached yet are as they were. */
    lemma RestIsAsItWas(start: Memory, fp0: nat, frames: seq<nat>, i: nat)
      requires i <= |frames| && SoFar(start, fp0, frames, i)
      ensures IsChain(mem, fp0, frames)
      ensures forall k :: 0 <= k < |frames| ==> frames[k] in start && mem[frames[k]] == start[frames[k]]
      ensures forall k :: i <= k < |frames| ==> frames[k] + 8 in start && mem[frames[k] + 8] == start[frames[k] + 8]
    {
      forall a | a in start && a % 16 == 0
        ensures mem[a] == start[a]
      {
        if a >= 8 { NotASlot(start, fp0, frames, i, a); }
      }
      ChainKept(start, mem, fp0, frames);
      forall k | 0 <= k < |frames|
        ensures frames[k] in start && mem[frames[k]] == start[frames[k]]
        ensures k >= i ==> frames[k] + 8 in start && mem[frames[k] + 8] == start[frames[k] + 8]
      {
        ChainAt(start, fp0, frames, k);
        if k >= i { NotReached(start, fp0, frames, i, k); }
      }
    }

    lemma NotASlot(start: Memory, fp0: nat, frames: seq<nat>, i: nat, a: nat)
      requires i <= |frames| && IsChain(start, fp0, frames) && a % 16 == 0 && a >= 8
      ensures a - 8 !in SignedFrames(pac, start, frames[..i])
    {
      SignedFramesAre(pac, start, frames[..i], a - 8);
      if a - 8 in frames[..i] {
        var k :| 0 <= k < i && frames[k] == a - 8;
        ChainAt(start, fp0, frames, k);
      }
    }

    lemma NotReached(start: Memory, fp0: nat, frames: seq<nat>, i: nat, k: nat)
      requires i <= k < |frames| && IsChain(start, fp0, frames)
      ensures frames[k] !in SignedFrames(pac, start, frames[..i])
    {
      SignedFramesAre(pac, start, frames[..i], frames[k]);
      if frames[k] in frames[..i] {
        var l :| 0 <= l < i && frames[l] == frames[k];
        ChainIsDistinct(start, fp0, frames, l, k);
      }
    }

    method SimpleTurn(fp: nat, ghost start: Memory, ghost fp0: nat, ghost frames: seq<nat>, ghost i: nat)
      requires i < |frames| && SoFar(start, fp0, frames, i) && frames[i] == fp
      requires fp + 8 in mem && fp + 8 in start && mem[fp + 8] == start[fp + 8]
      modifies this
      ensures SoFar(start, fp0, frames, i + 1)
    {
      if pac.signed(mem[fp + 8]) {
        Store(fp, start, fp0, frames, i);
      } else {
        OneFrameMore(pac, start, frames, i);
      }
    }

    /** The one loop of the documentation does the same. */
    method ResignFramesSimply(fp0: nat, ghost frames: seq<nat>)
      requires IsChain(mem, fp0, frames) && resigned == []
      modifies this
      ensures IsChain(mem, fp0, frames) && mem.Keys == old(mem).Keys
      ensures forall f | f in frames ::
                && f + 8 in mem
                && (pac.signed(old(mem)[f + 8]) ==> mem[f + 8] == pac.sign(pac.strip(old(mem)[f + 8]), f + 16))
      ensures forall a | a in mem && (a < 8 || a - 8 !in frames || !pac.signed(old(mem)[a])) :: mem[a] == old(mem)[a]
      ensures resigned == SignedFrames(pac, old(mem), frames)
    {
      ghost var start := mem;
      assert frames[0..] == frames && frames[..0] == [];
      var fp := fp0;
      ghost var i := 0;
      while fp != 0
        invariant i <= |frames| && IsChain(start, fp, frames[i..]) && SoFar(start, fp0, frames, i)
        decreases |frames| - i
      {
        ChainAt(start, fp0, frames, i);
        RestIsAsItWas(start, fp0, frames, i);
        SimpleTurn(fp, start, fp0, frames, i);
        RestIsAsItWas(start, fp0, frames, i + 1);
        fp, i := mem[fp], i + 1;
      }
      AllStored(start, fp0, frames);
    }
  }
}
