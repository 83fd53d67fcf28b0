/**
  The two intrusive doubly linked lists of thread descriptors (xnd/thread_info.c:133-182 and
  313-365): every descriptor is on exactly one of them or has been freed, once, after it
  was joined.
 */
module ThreadLists {

  /** struct thread_info, as far as the lists go. */
  class Thread {
    var next: Thread?
    var prev: Thread?
    var joined: bool
    var exiting: bool

    constructor ()
      ensures next == null && prev == null && !joined && !exiting
    {
      next, prev, joined, exiting := null, null, false, false;
    }
  }

  ghost predicate Distinct(xs: seq<Thread>) { forall i, j :: 0 <= i < j < |xs| ==> xs[i] != xs[j] }

  function At(xs: seq<Thread>, i: int): Thread? { if 0 <= i < |xs| then xs[i] else null }

  function Without(xs: seq<Thread>, i: nat): seq<Thread>
    requires i < |xs|
  {
    xs[..i] + xs[i + 1..]
  }

  lemma WithoutIs(xs: seq<Thread>, i: nat)
    requires i < |xs| && Distinct(xs)
    ensures Distinct(Without(xs, i))
    ensures forall t :: t in Without(xs, i) <==> t in xs && t != xs[i]
  {
    forall t | t in xs && t != xs[i]
      ensures t in Without(xs, i)
    {
      var j :| 0 <= j < |xs| && xs[j] == t;
      assert Without(xs, i)[if j < i then j else j - 1] == t;
    }
  }

  ghost predicate NextLinks(xs: seq<Thread>)
    reads xs
  {
    forall i {:trigger xs[i].next} :: 0 <= i < |xs| ==> xs[i].next == At(xs, i + 1)
  }

  ghost predicate PrevLinks(xs: seq<Thread>)
    reads xs
  {
    forall i {:trigger xs[i].prev} :: 0 <= i < |xs| ==> xs[i].prev == At(xs, i - 1)
  }

  /** The neighbour before `xs[i]` skips it. */
  ghost predicate SkipsNext(xs: seq<Thread>, i: nat)
    reads xs
  {
    && (forall j :: 0 <= j < |xs| && j != i - 1 ==> xs[j].next == At(xs, j + 1))
    && (1 <= i < |xs| ==> xs[i - 1].next == At(xs, i + 1))
  }

  ghost predicate SkipsPrev(xs: seq<Thread>, i: nat)
    reads xs
  {
    && (forall j :: 0 <= j < |xs| && j != i + 1 ==> xs[j].prev == At(xs, j - 1))
    && (i + 1 < |xs| ==> xs[i + 1].prev == At(xs, i - 1))
  }

  lemma SkippedNext(xs: seq<Thread>, i: nat)
    requires i < |xs| && SkipsNext(xs, i)
    ensures NextLinks(Without(xs, i))
  {
    var ys := Without(xs, i);
    forall k | 0 <= k < |ys|
      ensures ys[k].next == At(ys, k + 1)
    {
      if k < i { assert ys[k] == xs[k]; } else { assert ys[k] == xs[k + 1]; }
    }
  }

  lemma SkippedPrev(xs: seq<Thread>, i: nat)
    requires i < |xs| && SkipsPrev(xs, i)
    ensures PrevLinks(Without(xs, i))
  {
    var ys := Without(xs, i);
    forall k | 0 <= k < |ys|
      ensures ys[k].prev == At(ys, k - 1)
    {
      if k < i { assert ys[k] == xs[k]; } else { assert ys[k] == xs[k + 1]; }
    }
  }

  lemma Skipped(xs: seq<Thread>, i: nat)
    requires i < |xs| && Distinct(xs) && SkipsNext(xs, i) && SkipsPrev(xs, i)
    ensures var ys := Without(xs, i); Distinct(ys) && NextLinks(ys) && PrevLinks(ys)
  {
    SkippedNext(xs, i);
    SkippedPrev(xs, i);
    WithoutIs(xs, i);
  }

  class List {
    var head: Thread?
    ghost var nodes: seq<Thread>

    ghost predicate Valid()
      reads this, nodes
    {
      Distinct(nodes) && head == At(nodes, 0) && NextLinks(nodes) && PrevLinks(nodes)
    }

    constructor ()
      ensures Valid() && nodes == []
    {
      head, nodes := null, [];
    }

    /** thread_list_add and the second half of zombie_list_add */
    method Add(th: Thread)
      requires Valid() && th !in nodes
      modifies this, th`next, th`prev, nodes`prev
      ensures Valid() && nodes == [th] + old(nodes)
    {
      th.next := head;
      th.prev := null;
      if th.next != null {
        th.next.prev := th;
      }
      head := th;
      nodes := [th] + nodes;
    }

    /** The first half of thread_list_remove and zombie_list_remove. */
    method Unlink(th: Thread, ghost i: nat)
      requires Valid() && i < |nodes| && nodes[i] == th
      modifies this, nodes`next, nodes`prev
      ensures Valid() && nodes == Without(old(nodes), i)
    {
      SkipForward(th, i);
      SkipBackward(th, i);
      Forget(i);
    }

    ghost method Forget(i: nat)
      requires i < |nodes| && Distinct(nodes) && SkipsNext(nodes, i) && SkipsPrev(nodes, i)
      requires head == At(Without(nodes, i), 0)
      modifies this`nodes
      ensures Valid() && nodes == Without(old(nodes), i)
    {
      Skipped(nodes, i);
      nodes := Without(nodes, i);
    }

    method SkipForward(th: Thread, ghost i: nat)
      requires Valid() && i < |nodes| && nodes[i] == th
      modifies this`head, nodes`next
      ensures SkipsNext(nodes, i) && PrevLinks(nodes) && th.next == old(th.next)
      ensures head == At(Without(nodes, i), 0)
    {
      if th.prev != null {
        assert th.prev == nodes[i - 1];
        th.prev.next := th.next;
      } else {
        assert th == head;
        head := th.next;
      }
    }

    method SkipBackward(th: Thread, ghost i: nat)
      requires Distinct(nodes) && PrevLinks(nodes) && i < |nodes| && nodes[i] == th && th.next == At(nodes, i + 1)
      modifies nodes`prev
      ensures SkipsPrev(nodes, i)
    {
      if th.next != null {
        assert th.next == nodes[i + 1];
        th.next.prev := th.prev;
      }
    }
  }

  /** The elements of `xs` that `drop` does not name, in order. */
  function Rest(xs: seq<Thread>, drop: set<Thread>): seq<Thread> {
    if xs == [] then [] else (if xs[0] in drop then [] else [xs[0]]) + Rest(xs[1..], drop)
  }

  /** The elements of `xs` that `keep` names, in order. */
  function Only(xs: seq<Thread>, keep: set<Thread>): seq<Thread> {
    if xs == [] then [] else (if xs[0] in keep then [xs[0]] else []) + Only(xs[1..], keep)
  }

  /** Filtering splits a list: nothing is lost, nothing doubled. */
  lemma {:induction false} RestAndOnly(xs: seq<Thread>, drop: set<Thread>)
    ensures multiset(Rest(xs, drop)) + multiset(Only(xs, drop)) == multiset(xs)
  {
    if xs != [] {
      RestAndOnly(xs[1..], drop);
      assert xs == [xs[0]] + xs[1..];
    }
  }

  /** The first `i` elements stay. */
  predicate Passed(xs: seq<Thread>, i: nat, drop: set<Thread>) {
    i <= |xs| && forall j :: 0 <= j < i ==> xs[j] !in drop
  }

  lemma {:induction false} AllPassed(xs: seq<Thread>, drop: set<Thread>)
    requires Passed(xs, |xs|, drop)
    ensures Rest(xs, drop) == xs && Only(xs, drop) == []
  {
    if xs != [] { AllPassed(xs[1..], drop); }
  }

  /** Taking out the first element to be dropped changes the result of neither filter. */
  lemma {:induction false} TakeOut(xs: seq<Thread>, i: nat, drop: set<Thread>)
    requires i < |xs| && Passed(xs, i, drop) && xs[i] in drop
    ensures Rest(Without(xs, i), drop) == Rest(xs, drop)
    ensures Only(xs, drop) == [xs[i]] + Only(Without(xs, i), drop)
  {
    if i == 0 {
      assert Without(xs, 0) == xs[1..];
    } else {
      TakeOut(xs[1..], i - 1, drop);
      assert Without(xs, i)[1..] == Without(xs[1..], i - 1);
    }
  }

  /** Taking out an element that a filter does not name changes nothing for it. */
  lemma {:induction false} TakeOutOther(xs: seq<Thread>, i: nat, keep: set<Thread>)
    requires i < |xs| && xs[i] !in keep
    ensures Only(Without(xs, i), keep) == Only(xs, keep)
  {
    if i == 0 {
      assert Without(xs, 0) == xs[1..];
    } else {
      TakeOutOther(xs[1..], i - 1, keep);
      assert Without(xs, i)[1..] == Without(xs[1..], i - 1);
    }
  }

  function Reversed(xs: seq<Thread>): seq<Thread> { if xs == [] then [] else Reversed(xs[1..]) + [xs[0]] }

  lemma ReversedCons(x: Thread, xs: seq<Thread>)
    ensures Reversed([x] + xs) == Reversed(xs) + [x]
  {
    assert ([x] + xs)[1..] == xs;
  }

  lemma TakeOutLast(xs: seq<Thread>, i: nat, drop: set<Thread>, freed: seq<Thread>)
    requires i < |xs| && Distinct(xs) && Passed(xs, i, drop) && xs[i] in drop
    ensures var ys := Without(xs, i);
            && Passed(ys, i, drop) && Rest(ys, drop) == Rest(xs, drop)
            && (freed + [xs[i]]) + Only(ys, drop) == freed + Only(xs, drop)
            && forall t | t in ys :: t in xs
  {
    TakeOut(xs, i, drop);
    WithoutIs(xs, i);
  }

  /** Who is removed, and who of these is freed at once. */
  datatype Fate = Fate(drop: set<Thread>, freed: set<Thread>)

  datatype Goal = Goal(threads: seq<Thread>, reaped: seq<Thread>, zombies: seq<Thread>)

  predicate IsRemovable(t: Thread, gone: set<Thread>)
    reads t`joined, t`exiting
  {
    t.joined || (t.exiting && t in gone)
  }

  function Removable(xs: seq<Thread>, gone: set<Thread>): set<Thread>
    reads xs
  {
    set t | t in xs && IsRemovable(t, gone)
  }

  lemma TakeOutFirst(xs: seq<Thread>, i: nat, drop: set<Thread>, before: seq<Thread>)
    requires i < |xs| && Passed(xs, i, drop) && xs[i] in drop
    ensures (before + [xs[i]]) + Only(Without(xs, i), drop) == before + Only(xs, drop)
  {
    TakeOut(xs, i, drop);
    assert (before + [xs[i]]) + Only(Without(xs, i), drop) == before + ([xs[i]] + Only(Without(xs, i), drop));
  }

  lemma BuryFirst(xs: seq<Thread>, i: nat, buried: set<Thread>, zombies: seq<Thread>)
    requires i < |xs| && Passed(xs, i, buried) && xs[i] in buried
    ensures Reversed(Only(Without(xs, i), buried)) + ([xs[i]] + zombies) == Reversed(Only(xs, buried)) + zombies
  {
    var rest := Only(Without(xs, i), buried);
    TakeOut(xs, i, buried);
    ReversedCons(xs[i], rest);
    assert Reversed(rest) + ([xs[i]] + zombies) == (Reversed(rest) + [xs[i]]) + zombies;
  }

  lemma StillPassed(xs: seq<Thread>, i: nat, drop: set<Thread>)
    requires i < |xs| && Passed(xs, i, drop) && Distinct(xs)
    ensures Passed(Without(xs, i), i, drop) && At(Without(xs, i), i) == At(xs, i + 1)
    ensures forall t | t in Without(xs, i) :: t in xs && t != xs[i]
  {
    WithoutIs(xs, i);
  }

  /** Sweeping `xs` from here leads to the lists of `goal`. */
  predicate Leads(xs: seq<Thread>, reaped: seq<Thread>, zombies: seq<Thread>, fate: Fate, goal: Goal) {
    && Rest(xs, fate.drop) == goal.threads
    && reaped + Only(xs, fate.freed) == goal.reaped
    && Reversed(Only(xs, fate.drop - fate.freed)) + zombies == goal.zombies
  }

  lemma FreeOne(xs: seq<Thread>, i: nat, reaped: seq<Thread>, zombies: seq<Thread>, fate: Fate, goal: Goal)
    requires Leads(xs, reaped, zombies, fate, goal) && i < |xs| && Passed(xs, i, fate.drop)
    requires fate.freed <= fate.drop && xs[i] in fate.freed
    ensures Leads(Without(xs, i), reaped + [xs[i]], zombies, fate, goal)
  {
    TakeOut(xs, i, fate.drop);
    TakeOutFirst(xs, i, fate.freed, reaped);
    TakeOutOther(xs, i, fate.drop - fate.freed);
  }

  lemma BuryOne(xs: seq<Thread>, i: nat, reaped: seq<Thread>, zombies: seq<Thread>, fate: Fate, goal: Goal)
    requires Leads(xs, reaped, zombies, fate, goal) && i < |xs| && Passed(xs, i, fate.drop)
    requires fate.freed <= fate.drop && xs[i] in fate.drop && xs[i] !in fate.freed
    ensures Leads(Without(xs, i), reaped, [xs[i]] + zombies, fate, goal)
  {
    TakeOut(xs, i, fate.drop);
    BuryFirst(xs, i, fate.drop - fate.freed, zombies);
    TakeOutOther(xs, i, fate.freed);
  }

  lemma NothingLeft(xs: seq<Thread>, fate: Fate)
    requires Passed(xs, |xs|, fate.drop) && fate.freed <= fate.drop
    ensures Rest(xs, fate.drop) == xs && Only(xs, fate.freed) == [] && Only(xs, fate.drop - fate.freed) == []
  {
    AllPassed(xs, fate.drop);
    AllPassed(xs, fate.freed);
    AllPassed(xs, fate.drop - fate.freed);
  }

  function Joined(xs: seq<Thread>): set<Thread>
    reads xs
  {
    set t | t in xs && t.joined
  }

  ghost predicate Apart(xs: seq<Thread>, ys: seq<Thread>) {
    (forall t | t in xs :: t !in ys) && (forall t | t in ys :: t !in xs)
  }

  lemma LessApart(xs: seq<Thread>, i: nat, ys: seq<Thread>, zs: seq<Thread>)
    requires i < |xs| && Distinct(xs) && (Apart(xs, ys) || Apart(ys, xs)) && Apart(xs, zs)
    ensures Apart(Without(xs, i), ys) && Apart(ys, Without(xs, i)) && Apart(Without(xs, i), zs)
    ensures xs[i] !in Without(xs, i) && xs[i] !in ys && xs[i] !in zs
  {
    WithoutIs(xs, i);
  }

  /** A list whose links were not touched is still well formed. */
  twostate lemma StaysValid(l: List)
    requires old(l.Valid()) && unchanged(l)
    requires forall t | t in l.nodes :: t.next == old(t.next) && t.prev == old(t.prev)
    ensures l.Valid()
  {}

  /** thread_list, zombie_list and the descriptors that have been freed. */
  class Lists {
    const threads: List
    const zombies: List
    ghost var reaped: seq<Thread>

    ghost predicate Valid()
      reads this, threads, zombies, threads.nodes, zombies.nodes, reaped
    {
      && threads != zombies && threads.Valid() && zombies.Valid()
      && Distinct(reaped) && (forall t | t in reaped :: t.joined)
      && Apart(threads.nodes, zombies.nodes) && Apart(threads.nodes, reaped) && Apart(zombies.nodes, reaped)
    }

    /** Every descriptor there is. */
    ghost predicate Knows(t: Thread)
      reads this, threads, zombies
    {
      t in threads.nodes || t in zombies.nodes || t in reaped
    }

    constructor ()
      ensures Valid() && threads.nodes == [] && zombies.nodes == [] && reaped == []
      ensures fresh(threads) && fresh(zombies)
    {
      threads := new List();
      zombies := new List();
      reaped := [];
    }

    /** thread_list_add, by the new thread */
    method ThreadListAdd(th: Thread)
      requires Valid() && !Knows(th)
      modifies threads, th`next, th`prev, threads.nodes`prev
      ensures Valid() && threads.nodes == [th] + old(threads.nodes)
      ensures zombies.nodes == old(zombies.nodes) && reaped == old(reaped)
    {
      threads.Add(th);
      StaysValid(zombies);
    }

    /** thread_reap: a descriptor is freed once, and not before it was joined. */
    ghost method Reap(th: Thread)
      requires th.joined && th !in reaped && Distinct(reaped)
      modifies this`reaped
      ensures reaped == old(reaped) + [th] && Distinct(reaped)
    {
      reaped := reaped + [th];
    }

    /**
      thread_list_remove. Another thread may join this one between its test of `joined` and
      that of zombie_list_add; `race` says whether that happens.
     */
    method ThreadListRemove(th: Thread, race: bool, ghost i: nat)
      requires Valid() && i < |threads.nodes| && threads.nodes[i] == th
      modifies this`reaped, threads, zombies, th`joined
      modifies threads.nodes`next, threads.nodes`prev, zombies.nodes`prev
      ensures Valid() && threads.nodes == Without(old(threads.nodes), i)
      ensures th.joined == (old(th.joined) || race)
      ensures if th.joined then reaped == old(reaped) + [th] && zombies.nodes == old(zombies.nodes)
              else reaped == old(reaped) && zombies.nodes == [th] + old(zombies.nodes)
    {
      UnlinkThread(th, i);
      if th.joined {
        Reap(th);
      } else {
        th.joined := race;
        ZombieListAdd(th);
      }
    }

    method UnlinkThread(th: Thread, ghost i: nat)
      requires Valid() && i < |threads.nodes| && threads.nodes[i] == th
      modifies threads, threads.nodes`next, threads.nodes`prev
      ensures Valid() && threads.nodes == Without(old(threads.nodes), i) && !Knows(th)
      ensures zombies.nodes == old(zombies.nodes)
    {
      LessApart(threads.nodes, i, zombies.nodes, reaped);
      threads.Unlink(th, i);
      StaysValid(zombies);
    }

    method UnlinkZombie(th: Thread, ghost i: nat)
      requires Valid() && i < |zombies.nodes| && zombies.nodes[i] == th
      modifies zombies, zombies.nodes`next, zombies.nodes`prev
      ensures Valid() && zombies.nodes == Without(old(zombies.nodes), i) && !Knows(th)
      ensures threads.nodes == old(threads.nodes)
    {
      LessApart(zombies.nodes, i, threads.nodes, reaped);
      zombies.Unlink(th, i);
      StaysValid(threads);
    }

    method ZombieListAdd(th: Thread)
      requires Valid() && !Knows(th)
      modifies this`reaped, zombies, th`next, th`prev, zombies.nodes`prev
      ensures Valid() && threads.nodes == old(threads.nodes)
      ensures if th.joined then reaped == old(reaped) + [th] && zombies.nodes == old(zombies.nodes)
              else reaped == old(reaped) && zombies.nodes == [th] + old(zombies.nodes)
    {
      if th.joined {
        Reap(th);
      } else {
        zombies.Add(th);
        StaysValid(threads);
      }
    }

    /** What the join hook does to the descriptor of the thread it waited for. */
    method Join(th: Thread)
      requires Valid()
      modifies th`joined
      ensures Valid() && th.joined
    {
      th.joined := true;
    }

    /**
      The pass of wait_for_exiting_threads over the thread list: a joined thread, and an
      exiting one whose kernel thread is gone, is removed while iterating; `races` are the
      threads joined in the middle of their removal. The others keep their order. Of the
      removed ones the joined are freed in order; the rest becomes zombies, the last first.
     */
    method Sweep(gone: set<Thread>, races: set<Thread>)
      requires Valid()
      modifies this`reaped, threads, zombies
      modifies threads.nodes`next, threads.nodes`prev, threads.nodes`joined, zombies.nodes`prev
      ensures Valid()
      ensures var nodes := old(threads.nodes);
              var drop := old(Removable(threads.nodes, gone));
              var freed := drop * (old(Joined(threads.nodes)) + races);
              && threads.nodes == Rest(nodes, drop)
              && reaped == old(reaped) + Only(nodes, freed)
              && zombies.nodes == Reversed(Only(nodes, drop - freed)) + old(zombies.nodes)
    {
      ghost var nodes, drop := threads.nodes, Removable(threads.nodes, gone);
      ghost var fate := Fate(drop, drop * (Joined(nodes) + races));
      ghost var mine, others := Elements(nodes), Elements(zombies.nodes);
      ghost var goal := Goal(Rest(nodes, drop), reaped + Only(nodes, fate.freed),
                             Reversed(Only(nodes, fate.drop - fate.freed)) + zombies.nodes);
      SweepAll(gone, races, mine, mine + others, fate, goal);
    }

    function Elements(xs: seq<Thread>): set<Thread> { set t | t in xs }

    method SweepAll(
      gone: set<Thread>, races: set<Thread>, ghost mine: set<Thread>, ghost universe: set<Thread>,
      ghost fate: Fate, ghost goal: Goal)
      requires Sweeping(mine, universe, gone, races, fate, 0, goal)
      modifies this`reaped, threads, zombies, mine`next, universe`prev, mine`joined
      ensures Valid() && threads.nodes == goal.threads && reaped == goal.reaped && zombies.nodes == goal.zombies
    {
      var th := threads.head;
      ghost var i := 0;
      while th != null
        invariant Sweeping(mine, universe, gone, races, fate, i, goal) && th == At(threads.nodes, i)
        decreases |threads.nodes| - i
      {
        th, i := SweepTurn(th, gone, races, mine, universe, fate, i, goal);
      }
      NothingLeft(threads.nodes, fate);
    }

    /** The first `i` threads stay; sweeping what is there leads to the given lists. */
    ghost predicate Sweeping(
      mine: set<Thread>, universe: set<Thread>, gone: set<Thread>, races: set<Thread>, fate: Fate, i: nat, goal: Goal)
      reads this, threads, zombies, threads.nodes, zombies.nodes, reaped
    {
      && Valid() && Passed(threads.nodes, i, fate.drop) && fate.freed <= fate.drop
      && Leads(threads.nodes, reaped, zombies.nodes, fate, goal) && Roster(mine, universe, gone, races, fate)
    }

    ghost predicate Roster(
      mine: set<Thread>, universe: set<Thread>, gone: set<Thread>, races: set<Thread>, fate: Fate)
      reads this, threads, zombies, threads.nodes
    {
      && (forall t | t in threads.nodes :: t in mine && t in universe && Decided(t, gone, races, fate))
      && (forall t | t in zombies.nodes :: t in universe)
    }

    predicate Decided(t: Thread, gone: set<Thread>, races: set<Thread>, fate: Fate)
      reads t`joined, t`exiting
    {
      && (t in fate.drop <==> IsRemovable(t, gone))
      && (t in fate.drop ==> (t in fate.freed <==> t.joined || t in races))
    }

    method SweepTurn(
      th: Thread, gone: set<Thread>, races: set<Thread>, ghost mine: set<Thread>, ghost universe: set<Thread>,
      ghost fate: Fate, ghost i: nat, ghost goal: Goal)
      returns (next: Thread?, ghost i': nat)
      requires Sweeping(mine, universe, gone, races, fate, i, goal) && i < |threads.nodes| && threads.nodes[i] == th
      modifies this`reaped, threads, zombies, th`joined, mine`next, universe`prev
      ensures Sweeping(mine, universe, gone, races, fate, i', goal) && next == At(threads.nodes, i')
      ensures |threads.nodes| - i' < old(|threads.nodes|) - i
    {
      assert Decided(th, gone, races, fate);
      next := th.next;
      if th.joined || (th.exiting && th in gone) {
        SweepOut(th, gone, races, mine, universe, fate, i, goal);
        i' := i;
      } else {
        i' := i + 1;
      }
    }

    method SweepOut(
      th: Thread, ghost gone: set<Thread>, races: set<Thread>, ghost mine: set<Thread>, ghost universe: set<Thread>,
      ghost fate: Fate, ghost i: nat, ghost goal: Goal)
      requires Sweeping(mine, universe, gone, races, fate, i, goal) && i < |threads.nodes| && threads.nodes[i] == th
      requires IsRemovable(th, gone)
      modifies this`reaped, threads, zombies, th`joined, mine`next, universe`prev
      ensures Sweeping(mine, universe, gone, races, fate, i, goal)
      ensures |threads.nodes| == |old(threads.nodes)| - 1 && At(threads.nodes, i) == old(At(threads.nodes, i + 1))
    {
      assert Decided(th, gone, races, fate);
      SweepInto(th, th in races, fate, i, goal);
      forall t | t in threads.nodes
        ensures t in mine && t in universe && Decided(t, gone, races, fate)
      {
        assert t in old(threads.nodes);
      }
    }

    /** It goes where its fate says. */
    method SweepInto(th: Thread, race: bool, ghost fate: Fate, ghost i: nat, ghost goal: Goal)
      requires Valid() && i < |threads.nodes| && threads.nodes[i] == th
      requires Leads(threads.nodes, reaped, zombies.nodes, fate, goal)
      requires Passed(threads.nodes, i, fate.drop) && fate.freed <= fate.drop && th in fate.drop
      requires th in fate.freed <==> th.joined || race
      modifies this`reaped, threads, zombies, th`joined
      modifies threads.nodes`next, threads.nodes`prev, zombies.nodes`prev
      ensures Valid() && Leads(threads.nodes, reaped, zombies.nodes, fate, goal) && Passed(threads.nodes, i, fate.drop)
      ensures |threads.nodes| == |old(threads.nodes)| - 1 && At(threads.nodes, i) == old(At(threads.nodes, i + 1))
      ensures forall t | t in threads.nodes :: t in old(threads.nodes) && t != th
      ensures forall t | t in zombies.nodes :: t == th || t in old(zombies.nodes)
    {
      StillPassed(threads.nodes, i, fate.drop);
      if th in fate.freed {
        FreeOne(threads.nodes, i, reaped, zombies.nodes, fate, goal);
      } else {
        BuryOne(threads.nodes, i, reaped, zombies.nodes, fate, goal);
      }
      ThreadListRemove(th, race, i);
    }

    /** zombie_list_filter: the joined zombies are freed, the others keep their order. */
    method ZombieListFilter()
      requires Valid()
      modifies this`reaped, zombies, zombies.nodes`next, zombies.nodes`prev
      ensures Valid() && threads.nodes == old(threads.nodes)
      ensures zombies.nodes == Rest(old(zombies.nodes), old(Joined(zombies.nodes)))
      ensures reaped == old(reaped) + Only(old(zombies.nodes), old(Joined(zombies.nodes)))
    {
      ghost var all, joined, i := zombies.nodes, Joined(zombies.nodes), 0;
      ghost var universe := set t | t in all;
      var th := zombies.head;
      while th != null
        invariant Walking(universe, joined, i, Rest(all, joined), old(reaped) + Only(all, joined))
        invariant th == At(zombies.nodes, i) && threads.nodes == old(threads.nodes)
        decreases |zombies.nodes| - i
      {
        th, i := FilterTurn(th, universe, joined, i, Rest(all, joined), old(reaped) + Only(all, joined));
      }
      AllPassed(zombies.nodes, joined);
    }

    /** The first `i` zombies stay; filtering what is there leads to the given lists. */
    ghost predicate Walking(universe: set<Thread>, joined: set<Thread>, i: nat, rest: seq<Thread>, freed: seq<Thread>)
      reads this, threads, zombies, threads.nodes, zombies.nodes, reaped, universe
    {
      && Valid() && Passed(zombies.nodes, i, joined)
      && Rest(zombies.nodes, joined) == rest && reaped + Only(zombies.nodes, joined) == freed
      && (forall t | t in zombies.nodes :: t in universe)
      && (forall t | t in universe :: t in joined <==> t.joined)
    }

    /** One turn: the next node is read before this one may be unlinked. */
    method FilterTurn(
      th: Thread, ghost universe: set<Thread>, ghost joined: set<Thread>, ghost i: nat,
      ghost rest: seq<Thread>, ghost freed: seq<Thread>)
      returns (next: Thread?, ghost i': nat)
      requires Walking(universe, joined, i, rest, freed) && i < |zombies.nodes| && zombies.nodes[i] == th
      modifies this`reaped, zombies, universe`next, universe`prev
      ensures Walking(universe, joined, i', rest, freed) && next == At(zombies.nodes, i')
      ensures |zombies.nodes| - i' < old(|zombies.nodes|) - i && threads.nodes == old(threads.nodes)
    {
      next := th.next;
      if th.joined {
        RemoveTurn(th, universe, joined, i, rest, freed);
        i' := i;
      } else {
        i' := i + 1;
      }
    }

    method RemoveTurn(
      th: Thread, ghost universe: set<Thread>, ghost joined: set<Thread>, ghost i: nat,
      ghost rest: seq<Thread>, ghost freed: seq<Thread>)
      requires Walking(universe, joined, i, rest, freed) && i < |zombies.nodes| && zombies.nodes[i] == th && th.joined
      modifies this`reaped, zombies, universe`next, universe`prev
      ensures Walking(universe, joined, i, rest, freed) && zombies.nodes == Without(old(zombies.nodes), i)
      ensures threads.nodes == old(threads.nodes)
    {
      TakeOutLast(zombies.nodes, i, joined, reaped);
      ZombieListRemove(th, i);
    }

    method ZombieListRemove(th: Thread, ghost i: nat)
      requires Valid() && i < |zombies.nodes| && zombies.nodes[i] == th && th.joined
      modifies this`reaped, zombies, zombies.nodes`next, zombies.nodes`prev
      ensures Valid() && threads.nodes == old(threads.nodes)
      ensures zombies.nodes == Without(old(zombies.nodes), i) && reaped == old(reaped) + [th]
    {
      UnlinkZombie(th, i);
      Reap(th);
    }
  }
}
