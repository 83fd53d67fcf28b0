/**
  What holds of single processes in every run of the whole system, between checkpoints.
 */
module ProcessTheorems {
  import opened CheckpointProtocol
  import opened ProtocolInvariant
  import opened GlobalTheorems
  import SnapshotTheorems
  import T = ThreadSuspension

  // ----- a failed assertion ends the process -----

  predicate AbortedIsOver(c: Client) { c.ts.k.Aborted? ==> !c.alive }

  predicate NobodyHangs(s: State) { forall p | p in s.procs :: AbortedIsOver(s.procs[p]) }

  /** What a step makes of its own client. */
  predicate EndsOver(s: State, s': State, p: Pid) {
    p in s'.procs && s'.procs.Keys == s.procs.Keys && AbortedIsOver(s'.procs[p])
  }

  lemma HangsReceive(s: State, a: Action)
    requires IsReceive(a) && ClientEnabled(s, a)
    ensures EndsOver(s, ClientApply(s, a), a.p)
  {}

  lemma HangsInner(s: State, a: Action)
    requires a.Inner? && ClientEnabled(s, a)
    ensures EndsOver(s, ClientApply(s, a), a.p)
  {}

  lemma HangsOther(s: State, a: Action)
    requires IsClient(a) && !IsReceive(a) && !a.Inner? && ClientEnabled(s, a) && AbortedIsOver(s.procs[a.p])
    ensures EndsOver(s, ClientApply(s, a), a.p)
  {}

  lemma HangsClients(s: State, a: Action)
    requires NobodyHangs(s) && IsClient(a) && ClientEnabled(s, a)
    ensures NobodyHangs(ClientApply(s, a))
  {
    if IsReceive(a) { HangsReceive(s, a); } else if a.Inner? { HangsInner(s, a); } else { HangsOther(s, a); }
    forall p | p in ClientApply(s, a).procs
      ensures AbortedIsOver(ClientApply(s, a).procs[p])
    {
      if p != a.p { OtherClientSame(s, a, p); }
    }
  }

  lemma HangsMember(s: State, a: Action)
    requires NobodyHangs(s) && IsMember(a) && MemberEnabled(s, a)
    ensures NobodyHangs(MemberApply(s, a))
  {}

  /** The coordinator changes nothing of a process but the messages on their way. */
  predicate OnlyMessages(s: State, s': State) {
    && s'.procs.Keys == s.procs.Keys
    && forall p | p in s.procs :: s'.procs[p].ts == s.procs[p].ts && s'.procs[p].alive == s.procs[p].alive
  }

  lemma ReleaseOnlySends(s: State, a: Action)
    requires (a.StartOne? || a.ResumeOne? || a.ReleaseOne?) && TurnEnabled(s, a)
    ensures OnlyMessages(s, TurnApply(s, a))
  {}

  lemma OtherTurnsOnlySend(s: State, a: Action)
    requires (a.SendRequest? || a.CollectReady? || a.CollectDone?) && TurnEnabled(s, a)
    ensures OnlyMessages(s, TurnApply(s, a))
  {}

  lemma HangsTurn(s: State, a: Action)
    requires NobodyHangs(s) && IsTurn(a) && TurnEnabled(s, a)
    ensures NobodyHangs(TurnApply(s, a))
  {
    if a.StartOne? || a.ResumeOne? || a.ReleaseOne? { ReleaseOnlySends(s, a); } else { OtherTurnsOnlySend(s, a); }
    MessagesHangNobody(s, TurnApply(s, a));
  }

  lemma MessagesHangNobody(s: State, s': State)
    requires NobodyHangs(s) && OnlyMessages(s, s')
    ensures NobodyHangs(s')
  {}

  lemma HangsMove(s: State, a: Action)
    requires NobodyHangs(s) && IsMove(a) && MoveEnabled(s, a)
    ensures NobodyHangs(MoveApply(s, a))
  {}

  lemma HangsDisk(s: State, a: Action)
    requires NobodyHangs(s) && IsDisk(a) && DiskEnabled(s, a)
    ensures NobodyHangs(DiskApply(s, a))
  {}

  lemma HangsStep(s: State, a: Action)
    requires NobodyHangs(s) && Enabled(s, a)
    ensures NobodyHangs(Apply(s, a))
  {
    if IsClient(a) { HangsClients(s, a); }
    else if IsMember(a) { HangsMember(s, a); }
    else if IsTurn(a) { HangsTurn(s, a); }
    else if IsMove(a) { HangsMove(s, a); }
    else if IsDisk(a) { HangsDisk(s, a); }
  }

  lemma HangsNext(s: State, s': State)
    requires NobodyHangs(s) && Next(s, s')
    ensures NobodyHangs(s')
  {
    var a :| Acts(s, a, s') && ExecInTime(s, a);
    HangsStep(s, a);
  }

  /** No process survives a failed assertion or an unexpected message. */
  lemma {:induction false} AbortedIsDead(run: Run, i: nat)
    requires i < |run|
    ensures NobodyHangs(run[i])
  {
    if i > 0 {
      AbortedIsDead(run, i - 1);
      StepIsNext(run, i - 1);
      HangsNext(run[i - 1], run[i]);
    }
  }

  // ----- the number of peers -----

  predicate Between(c: CPc) { !Round(c) && !c.Gather? }

  /** Outside of a checkpoint a process has the number of peers the coordinator has. */
  predicate PeersOK(s: State) {
    && (Between(s.c) ==> forall p | p in s.procs && p in s.pstate :: s.procs[p].numPeers == s.numPeers)
    && (Between(s.c) && !Post(s.c) && s.epoch == 0 ==> s.numPeers == 0)
  }

  lemma PeersClient(s: State, a: Action)
    requires ClientsOK(s) && PeersOK(s) && IsClient(a) && !a.Register? && ClientEnabled(s, a)
    ensures PeersOK(ClientApply(s, a))
  {
    assert ClientOK(s, a.p);
    if IsReceive(a) { ReceiveIsExpected(s, a); }
    if a.RecvStart? { StartPeers(s, a); } else { OwnPeers(s, a); }
    forall p | p in s.procs && p != a.p
      ensures p in ClientApply(s, a).procs && ClientApply(s, a).procs[p] == s.procs[p]
    {
      OtherClientSame(s, a, p);
    }
  }

  /** A step of `p` leaves the coordinator alone, and the number of peers unless a checkpoint begins. */
  predicate KeepsPeers(s: State, s': State, p: Pid) {
    && s'.procs.Keys == s.procs.Keys && s'.pstate == s.pstate && s'.c == s.c && s'.epoch == s.epoch
    && s'.numPeers == s.numPeers && p in s.procs
    && (Between(s.c) ==> s'.procs[p].numPeers == s.procs[p].numPeers)
  }

  lemma OwnPeers(s: State, a: Action)
    requires IsClient(a) && !a.Register? && !a.RecvStart? && ClientEnabled(s, a)
    ensures KeepsPeers(s, ClientApply(s, a), a.p)
  {}

  lemma StartPeers(s: State, a: Action)
    requires a.RecvStart? && ClientEnabled(s, a) && ClientOK(s, a.p)
    requires a.p in s.pstate && Expected(s.procs[a.p].ts.k, s.procs[a.p].toClient[0])
    ensures KeepsPeers(s, ClientApply(s, a), a.p)
  {}

  lemma PeersRegister(s: State, a: Action)
    requires PeersOK(s) && a.Register? && ClientEnabled(s, a)
    ensures PeersOK(ClientApply(s, a))
  {}

  lemma PeersMember(s: State, a: Action)
    requires PeersOK(s) && KeysOK(s) && IsMember(a) && MemberEnabled(s, a) && ExecInTime(s, a)
    ensures PeersOK(MemberApply(s, a))
  {}

  lemma PeersTurn(s: State, a: Action)
    requires PeersOK(s) && IsTurn(a) && TurnEnabled(s, a)
    ensures PeersOK(TurnApply(s, a))
  {}

  lemma PeersMove(s: State, a: Action)
    requires PeersOK(s) && KeysOK(s) && StageOK(s) && ClientsOK(s) && IsMove(a) && MoveEnabled(s, a)
    ensures PeersOK(MoveApply(s, a))
  {
    if a.AllRegistered? {
      forall p | p in s.procs
        ensures ClientOK(s, p)
      {}
    }
  }

  lemma PeersDisk(s: State, a: Action)
    requires PeersOK(s) && KeysOK(s) && StageOK(s) && ClientsOK(s) && IsDisk(a) && DiskEnabled(s, a)
    ensures PeersOK(DiskApply(s, a))
  {
    if a.FillManifest? {
      forall p | p in s.procs
        ensures ClientOK(s, p)
      {}
    }
  }

  lemma PeersStep(s: State, a: Action)
    requires Inv(s) && PeersOK(s) && Enabled(s, a) && ExecInTime(s, a)
    ensures PeersOK(Apply(s, a))
  {
    if a.Register? { PeersRegister(s, a); }
    else if IsClient(a) { PeersClient(s, a); }
    else if IsMember(a) { PeersMember(s, a); }
    else if IsTurn(a) { PeersTurn(s, a); }
    else if IsMove(a) { PeersMove(s, a); }
    else if IsDisk(a) { PeersDisk(s, a); }
  }

  lemma PeersNext(s: State, s': State)
    requires Inv(s) && PeersOK(s) && Next(s, s')
    ensures PeersOK(s')
  {
    var a :| Acts(s, a, s') && ExecInTime(s, a);
    PeersStep(s, a);
  }

  lemma {:induction false} RunPeers(run: Run, i: nat)
    requires i < |run|
    ensures PeersOK(run[i])
  {
    if i > 0 {
      RunPeers(run, i - 1);
      PeersAfter(run, i - 1);
    }
  }

  lemma PeersAfter(run: Run, i: nat)
    requires i + 1 < |run| && PeersOK(run[i])
    ensures PeersOK(run[i + 1])
  {
    SnapshotTheorems.RunInv(run, i);
    StepIsNext(run, i);
    PeersNext(run[i], run[i + 1]);
  }

  /**
    Whenever the coordinator is idle every process, a forked one included, has the number of
    peers of the last checkpoint, which is what its next image would tell a restart until
    XND_CKPT_START renews it.
   */
  lemma PeersAgree(run: Run, i: nat)
    requires i < |run| && run[i].c.Idle?
    ensures forall p | p in run[i].procs :: p in run[i].pstate && run[i].procs[p].numPeers == run[i].numPeers
  {
    RunPeers(run, i);
    RunGood(run, i);
  }

  // ----- images and manifests -----

  lemma WriteAddsOnly(s: State, p: Pid, e: nat, q: Pid)
    requires p in s.procs && s.procs[p].ts.k.Frozen? && e in s.disk && q in s.disk[e].images
    ensures var s' := WriteImageApply(s, p);
            e in s'.disk && q in s'.disk[e].images && s'.disk[e].images[q] == s.disk[e].images[q]
  {}

  lemma DiskRemovesOnly(s: State, a: Action, e: nat, q: Pid)
    requires IsDisk(a) && DiskEnabled(s, a) && e in s.disk && q in s.disk[e].images
    ensures var s' := DiskApply(s, a);
            e in s'.disk && q in s'.disk[e].images ==> s'.disk[e].images[q] == s.disk[e].images[q]
  {}

  /** In any state whatever: no step changes an image that is on the disk; it stays or goes. */
  lemma ImagesNeverChange(s: State, a: Action, s': State, e: nat, q: Pid)
    requires Acts(s, a, s') && e in s.disk && q in s.disk[e].images
    ensures e in s'.disk && q in s'.disk[e].images ==> s'.disk[e].images[q] == s.disk[e].images[q]
  {
    if a.WriteImage? {
      SnapshotTheorems.WriteActs(s, a, s');
      WriteAddsOnly(s, a.p, e, q);
    } else if IsDisk(a) {
      SnapshotTheorems.DiskActs(s, a, s');
      DiskRemovesOnly(s, a, e, q);
    } else {
      SnapshotTheorems.SameDisk(s, a);
    }
  }

  /** In any state whatever: a manifest names as many processes as there are peers, each with an image. */
  lemma ManifestHasImages(s: State)
    requires DiskEnabled(s, FillManifest)
    ensures var s' := DiskApply(s, FillManifest);
            s'.up ==> s.epoch in s.disk && s.epoch in s'.disk && s'.disk[s.epoch].manifest.Names? &&
                      s'.disk[s.epoch].manifest.pids <= s.disk[s.epoch].images.Keys &&
                      |s'.disk[s.epoch].manifest.pids| == s.numPeers
  {}
}
