/**
  Properties of every run of the session protocol, and two runs that show where
  a deletion can reach a daemon it was not meant for.
*/
module SessionRuns {
  import opened Wrappers
  import opened StopScript
  import opened SessionProtocol

  lemma {:induction false} InitInv(s: State)
    requires Init(s)
    ensures Inv(s)
  {
    forall p | p in s.procs ensures InvProc(s, p) {}
  }

  lemma {:induction false} RunInv(states: seq<State>, acts: seq<Action>, i: nat)
    requires IsRun(states, acts) && i < |states|
    ensures Inv(states[i])
  {
    if i == 0 {
      InitInv(states[0]);
    } else {
      RunInv(states, acts, i - 1);
      assert Goes(states[i - 1], acts[i - 1], states[i - 1 + 1]);
      StepKeepsInv(states[i - 1], acts[i - 1]);
    }
  }

  // In every state of every run: at most one daemon is active, session.lock names the
  // inode it has locked and records its pid, and verify_session answers match for it alone.
  lemma {:induction false} AtMostOneDaemon(states: seq<State>, acts: seq<Action>, i: nat)
    requires IsRun(states, acts) && i < |states|
    ensures forall p, q :: Active(states[i], p) && Active(states[i], q) ==> p == q
    ensures forall p :: Active(states[i], p) ==>
              var s := states[i];
              && s.link == Some(s.procs[p].ino)
              && s.procs[p].ino in s.holder && s.holder[s.procs[p].ino] == p
              && s.procs[p].ino in s.recorded && s.recorded[s.procs[p].ino] == p
    ensures forall p :: Verify(states[i], p) == Match <==> Active(states[i], p)
  {
    var s := states[i];
    RunInv(states, acts, i);
    forall p, q | Active(s, p) && Active(s, q) ensures p == q { OneActive(s, p, q); }
    forall p | Active(s, p) ensures Linked(s, p) && InvProc(s, p) {}
    forall p ensures Verify(s, p) == Match <==> Active(s, p) { VerifyExact(s, p); }
  }

  // The mismatch and not-found answers, exactly.
  lemma {:induction false} VerifyRefusals(states: seq<State>, acts: seq<Action>, i: nat, p: int)
    requires IsRun(states, acts) && i < |states|
    ensures Verify(states[i], p) == Mismatch
       <==> p in states[i].procs && !Active(states[i], p) && exists q :: Active(states[i], q)
    ensures Verify(states[i], p) == NotFound
       <==> p !in states[i].procs || forall q :: !Active(states[i], q)
  {
    RunInv(states, acts, i);
    VerifyExact(states[i], p);
  }

  // create() reclaims tunnel-data only while the reclaiming worker is the one active daemon.
  lemma {:induction false} WipeIsExclusive(states: seq<State>, acts: seq<Action>, i: nat, p: int)
    requires IsRun(states, acts) && i < |acts| && acts[i] == Wipe(p)
    ensures Active(states[i], p)
    ensures forall q :: q != p ==> !Active(states[i], q)
    ensures states[i].data.Data? ==> !ActiveGen(states[i], states[i].data.owner)
  {
    var s := states[i];
    assert Goes(s, acts[i], states[i + 1]);
    AtMostOneDaemon(states, acts, i);
    RunInv(states, acts, i);
    assert InvDataOf(s, p);
  }

  predicate Deletes(a: Action) { a.Sweep? || (a.Act? && a.event == Removed) }

  // Who makes the step from s to s' that changes tunnel-data, and how.
  ghost predicate Attributed(s: State, a: Action, s': State) {
    if IsWorkers(a) && !a.Sweep? then Active(s, a.pid)
    else if Deletes(a) then s'.data == NoData
    else if a.EnsureDir? then s.data == NoData && s'.data == Data(NoFile, false, None, OwnerNow(s))
    else a.PutOutput? && a.parent in s.parents && s.data.Data?
         && s'.data == s.data.(output := Some(s.parents[a.parent].gen))
  }

  // Who changes tunnel-data, exactly: the active daemon; a clean-up or a resolved stop, which
  // delete it; and a parent, which makes an absent directory or replaces output.json.
  lemma {:induction false} WhoChangesData(states: seq<State>, acts: seq<Action>, i: nat)
    requires IsRun(states, acts) && i < |acts|
    ensures states[i].data != states[i + 1].data ==> Attributed(states[i], acts[i], states[i + 1])
  {
    assert Goes(states[i], acts[i], states[i + 1]);
    DataChanged(states[i], acts[i], states[i + 1]);
  }

  lemma {:induction false} DataChanged(s: State, a: Action, s': State)
    requires Goes(s, a, s')
    ensures s.data != s'.data ==> Attributed(s, a, s')
  {
    if IsWorkers(a) && !a.Appear? && !a.Vanish? && !a.Acquire? && !a.Die? && !a.Sweep? {
      WorkerLocal(s, a.pid, a);
    }
  }

  predicate DaemonFilesDiffer(a: Data, b: Data) {
    a.Data? && b.Data? && (a.pidFile != b.pidFile || a.lossRecord != b.lossRecord)
  }

  // daemon.pid and the loss record of a directory are the active daemon's alone to write.
  lemma {:induction false} DaemonFilesAreTheDaemons(states: seq<State>, acts: seq<Action>, i: nat)
    requires IsRun(states, acts) && i < |acts|
    ensures DaemonFilesDiffer(states[i].data, states[i + 1].data) ==>
              && (acts[i].Truncate? || acts[i].Publish? || acts[i].Lose?)
              && Active(states[i], acts[i].pid)
  {
    var s, a, s' := states[i], acts[i], states[i + 1];
    WhoChangesData(states, acts, i);
    assert Goes(s, a, s');
    if DaemonFilesDiffer(s.data, s'.data) && IsWorkers(a) && !a.Appear? && !a.Vanish? && !a.Acquire? && !a.Die? {
      WorkerWrites(s, a.pid, a, s');
    }
  }

  lemma {:induction false} WorkerWrites(s: State, p: int, a: Action, s': State)
    requires WorkerStep(s, p, a) == Some(s') && DaemonFilesDiffer(s.data, s'.data)
    ensures a.Truncate? || a.Publish? || a.Lose?
  {
  }

  // A start is refused with "session already active" exactly when some daemon is active; otherwise it
  // makes the starting process the active daemon, on a new or a leftover lock file.
  lemma {:induction false} RefusedExactlyWhenActive(states: seq<State>, acts: seq<Action>, i: nat, p: int)
    requires IsRun(states, acts) && i < |states| && p in states[i].procs && states[i].procs[p].Other?
    ensures AcquireStep(states[i], p) == Some(states[i]) <==> exists q :: Active(states[i], q)
    ensures AcquireStep(states[i], p).Some?
    ensures (forall q :: !Active(states[i], q)) ==> Active(AcquireStep(states[i], p).value, p)
  {
    var s := states[i];
    RunInv(states, acts, i);
    if s.link.Some? && s.link.value in s.holder {
      assert Active(s, s.holder[s.link.value]);
    } else {
      NoneActive(s);
      assert AcquireStep(s, p).value.gen == s.gen + 1;
    }
  }

  // `status` is truthful: a published daemon whose directory nobody has deleted is found under
  // its own pid and verifies, and a pid that verifies is the active daemon's.
  lemma {:induction false} StatusTruthful(states: seq<State>, acts: seq<Action>, i: nat, p: int)
    requires IsRun(states, acts) && i < |states|
    requires IsWorker(states[i], p) && states[i].procs[p].phase == Published && !states[i].procs[p].raided
    ensures Identify(states[i]) == Recorded(p) && Verify(states[i], p) == Match
  {
    RunInv(states, acts, i);
    VerifyExact(states[i], p);
    assert InvDataOf(states[i], p) && InvProc(states[i], p);
  }

  // What daemon.pid says while a daemon starts whose directory nobody has deleted: nothing until it is
  // opened, something unreadable while it is empty, and the pid once it is written.
  lemma {:induction false} PidFileSays(states: seq<State>, acts: seq<Action>, i: nat, p: int)
    requires IsRun(states, acts) && i < |states| && Active(states[i], p) && !states[i].procs[p].raided
    ensures states[i].procs[p].phase == Made ==> Identify(states[i]) == Missing
    ensures states[i].procs[p].phase == Truncated ==> Identify(states[i]) == Unreadable
    ensures states[i].procs[p].phase == Published ==> Identify(states[i]) == Recorded(p)
  {
    RunInv(states, acts, i);
    assert InvDataOf(states[i], p) && InvProc(states[i], p);
  }

  // ------------------------------------------------------------- loss path

  // A lost required tunnel decides for keeping the data.
  ghost predicate Keeping(w: Proc) {
    w.Worker? && w.lost ==>
      (w.phase.Releasing? ==> w.phase.keep) && (w.phase.Closed? ==> w.phase.keep)
  }

  lemma {:induction false} KeepingStep(s: State, a: Action)
    requires Apply(s, a).Some? && forall p :: p in s.procs ==> Keeping(s.procs[p])
    ensures forall p :: p in Apply(s, a).value.procs ==> Keeping(Apply(s, a).value.procs[p])
  {
    var s' := Apply(s, a).value;
    forall p | p in s'.procs ensures Keeping(s'.procs[p]) {
      if p in s.procs { assert Keeping(s.procs[p]); }
      KeepingOne(s, a, s', p);
    }
  }

  lemma {:induction false} KeepingOne(s: State, a: Action, s': State, p: int)
    requires Goes(s, a, s') && p in s'.procs && (p in s.procs ==> Keeping(s.procs[p]))
    ensures Keeping(s'.procs[p])
  {
    if a.Act? {
      KeepingAct(s, a.actor, a.event, s', p);
    } else if a.Acquire? || a.Die? || a.Appear? || a.Vanish? {
      KeepingProcess(s, a, s', p);
    } else if IsWorkers(a) {
      KeepingOwn(s, a, s', p);
    } else {
      ProcsLeft(s, a, s');
    }
  }

  lemma {:induction false} ProcsLeft(s: State, a: Action, s': State)
    requires Goes(s, a, s') && (IsParents(a) || a.Arrive?)
    ensures s'.procs == s.procs
  {
  }

  lemma {:induction false} KeepingProcess(s: State, a: Action, s': State, p: int)
    requires Goes(s, a, s') && (a.Acquire? || a.Die? || a.Appear? || a.Vanish?)
    requires p in s'.procs && (p in s.procs ==> Keeping(s.procs[p]))
    ensures Keeping(s'.procs[p])
  {
  }

  lemma {:induction false} KeepingAct(s: State, k: nat, e: Event, s': State, p: int)
    requires Goes(s, Act(k, e), s') && p in s'.procs && (p in s.procs ==> Keeping(s.procs[p]))
    ensures Keeping(s'.procs[p])
  {
  }

  lemma {:induction false} KeepingOwn(s: State, a: Action, s': State, p: int)
    requires Goes(s, a, s') && IsWorkers(a) && !a.Acquire? && !a.Die? && !a.Appear? && !a.Vanish?
    requires p in s'.procs && (p in s.procs ==> Keeping(s.procs[p]))
    ensures Keeping(s'.procs[p])
  {
    if a.Sweep? {
      assert s'.procs[p].Worker? ==> s'.procs[p].lost == s.procs[p].lost;
    } else {
      WorkerLocal(s, a.pid, a);
      if p == a.pid && (a.Unlink? || a.Close?) { KeepingLeave(s, a, s', p); }
    }
  }

  lemma {:induction false} KeepingLeave(s: State, a: Action, s': State, p: int)
    requires IsWorker(s, p) && LeaveStep(s, p, a) == Some(s') && !a.Sweep? && Keeping(s.procs[p])
    ensures Keeping(s'.procs[p])
  {
  }

  lemma {:induction false} RequiredLossIsNeverSwept(states: seq<State>, acts: seq<Action>, i: nat)
    requires IsRun(states, acts) && i < |states|
    ensures forall p :: p in states[i].procs ==> Keeping(states[i].procs[p])
    ensures i < |acts| && acts[i].Sweep? ==> IsWorker(states[i], acts[i].pid) && !states[i].procs[acts[i].pid].lost
  {
    if i > 0 {
      RequiredLossIsNeverSwept(states, acts, i - 1);
      assert Goes(states[i - 1], acts[i - 1], states[i - 1 + 1]);
      KeepingStep(states[i - 1], acts[i - 1]);
    }
    if i < |acts| && acts[i].Sweep? {
      assert Goes(states[i], acts[i], states[i + 1]);
      assert Keeping(states[i].procs[acts[i].pid]);
    }
  }

  ghost predicate LeavingAfterLoss(s: State, p: int, g: nat) {
    && IsWorker(s, p) && s.procs[p].gen == g && s.procs[p].lost
    && (s.procs[p].phase.Releasing? || s.procs[p].phase.Closed?)
  }

  lemma {:induction false} OneStepOn(s: State, a: Action, s': State, p: int, g: nat)
    requires LeavingAfterLoss(s, p, g) && Goes(s, a, s') && IsWorker(s', p) && s'.procs[p].gen == g
    ensures LeavingAfterLoss(s', p, g)
  {
    if a.Act? {
      OnByAct(s, a.actor, a.event, s', p, g);
    } else if IsParents(a) || a.Arrive? {
      ProcsLeft(s, a, s');
    } else if a.Acquire? || a.Die? || a.Appear? || a.Vanish? {
      OnByProcess(s, a, s', p, g);
    } else {
      OnByWorker(s, a, s', p, g);
    }
  }

  lemma {:induction false} OnByAct(s: State, k: nat, e: Event, s': State, p: int, g: nat)
    requires LeavingAfterLoss(s, p, g) && Goes(s, Act(k, e), s') && IsWorker(s', p)
    ensures LeavingAfterLoss(s', p, g)
  {
  }

  lemma {:induction false} OnByProcess(s: State, a: Action, s': State, p: int, g: nat)
    requires LeavingAfterLoss(s, p, g) && Goes(s, a, s') && (a.Acquire? || a.Die? || a.Appear? || a.Vanish?)
    requires IsWorker(s', p)
    ensures LeavingAfterLoss(s', p, g)
  {
  }

  lemma {:induction false} OnByWorker(s: State, a: Action, s': State, p: int, g: nat)
    requires LeavingAfterLoss(s, p, g) && Goes(s, a, s')
    requires IsWorkers(a) && !a.Acquire? && !a.Die? && !a.Appear? && !a.Vanish?
    ensures LeavingAfterLoss(s', p, g)
  {
    if !a.Sweep? { WorkerLocal(s, a.pid, a); }
  }

  lemma {:induction false} OwnStepQuiet(s: State, a: Action, p: int, g: nat)
    requires LeavingAfterLoss(s, p, g) && Keeping(s.procs[p]) && Apply(s, a).Some?
    requires IsWorkers(a) && a.pid == p
    ensures Apply(s, a).value.data == s.data
  {
  }

  lemma {:induction false} LeavingPersists(states: seq<State>, acts: seq<Action>, j: nat, i: nat, p: int, g: nat)
    requires IsRun(states, acts) && j <= i < |states| && LeavingAfterLoss(states[j], p, g)
    requires forall m :: j <= m <= i ==> IsWorker(states[m], p) && states[m].procs[p].gen == g
    ensures LeavingAfterLoss(states[i], p, g)
  {
    if j < i {
      LeavingPersists(states, acts, j, i - 1, p, g);
      assert Goes(states[i - 1], acts[i - 1], states[i - 1 + 1]);
      OneStepOn(states[i - 1], acts[i - 1], states[i - 1 + 1], p, g);
    }
  }

  // From the moment a self-terminating daemon starts to release its lock, no step of its own
  // changes tunnel-data, up to the end of that process.
  lemma {:induction false} NothingTouchedAfterRelease(states: seq<State>, acts: seq<Action>, j: nat, i: nat, p: int,
                                                      g: nat)
    requires IsRun(states, acts) && j <= i < |acts| && LeavingAfterLoss(states[j], p, g)
    requires forall m :: j <= m <= i ==> IsWorker(states[m], p) && states[m].procs[p].gen == g
    requires IsWorkers(acts[i]) && acts[i].pid == p
    ensures states[i + 1].data == states[i].data
  {
    LeavingPersists(states, acts, j, i, p, g);
    RequiredLossIsNeverSwept(states, acts, i);
    assert Goes(states[i], acts[i], states[i + 1]);
    OwnStepQuiet(states[i], acts[i], p, g);
  }

  // --------------------------------------------------------------- stopping

  ghost predicate Guarding(s: State, k: nat, g: nat) {
    k in s.stoppers && s.stoppers[k].guard == Some(g) && s.stoppers[k].pc != Fresh
  }

  lemma {:induction false} StoppersLeft(s: State, a: Action, s': State)
    requires Goes(s, a, s') && !a.Act? && !a.Arrive?
    ensures s'.stoppers == s.stoppers
  {
    if IsWorkers(a) && !a.Appear? && !a.Vanish? && !a.Acquire? && !a.Die? && !a.Sweep? {
      WorkerLocal(s, a.pid, a);
    }
  }

  lemma {:induction false} OneActs(s: State, k: nat, e: Event, s': State)
    requires Goes(s, Act(k, e), s')
    ensures k in s.stoppers && Next(s.stoppers[k].verb, s.stoppers[k].pc, e).Some?
    ensures var t, pc := s.stoppers[k], Next(s.stoppers[k].verb, s.stoppers[k].pc, e).value;
            s'.stoppers == s.stoppers[k := Stopper(t.verb, pc, if e.ReadIdentity? then Addressee(s, e) else t.guard)]
  {
  }

  lemma {:induction false} GuardStays(s: State, a: Action, k: nat, g: nat, s': State)
    requires Guarding(s, k, g) && Goes(s, a, s')
    ensures Guarding(s', k, g)
  {
    if a.Act? {
      OneActs(s, a.actor, a.event, s');
    } else if !a.Arrive? {
      StoppersLeft(s, a, s');
    }
  }

  lemma {:induction false} GuardPersists(states: seq<State>, acts: seq<Action>, j: nat, i: nat, k: nat, g: nat)
    requires IsRun(states, acts) && j <= i < |states| && Guarding(states[j], k, g)
    ensures Guarding(states[i], k, g)
  {
    if j < i {
      GuardPersists(states, acts, j, i - 1, k, g);
      assert Goes(states[i - 1], acts[i - 1], states[i - 1 + 1]);
      GuardStays(states[i - 1], acts[i - 1], k, g, states[i - 1 + 1]);
    }
  }

  // Whatever else happens in between, a stop (or teardown) never deletes tunnel-data while the
  // daemon it found published when it read daemon.pid still holds the session.
  lemma {:induction false} StopSparesThePublishedDaemon(states: seq<State>, acts: seq<Action>, j: nat, i: nat, k: nat,
                                                        id: Identity, q: int)
    requires IsRun(states, acts) && j < i < |acts|
    requires acts[j] == Act(k, ReadIdentity(id)) && acts[i] == Act(k, Removed)
    requires IsWorker(states[j], q) && states[j].procs[q].phase == Published && !states[j].procs[q].raided
    ensures !ActiveGen(states[i], states[j].procs[q].gen)
  {
    var g := states[j].procs[q].gen;
    assert Goes(states[j], acts[j], states[j + 1]);
    StatusTruthful(states, acts, j, q);
    ReadAddresses(states[j], k, id, q, states[j + 1]);
    if id == Recorded(q) {
      GuardPersists(states, acts, j + 1, i, k, g);
      RunInv(states, acts, i);
      assert Goes(states[i], acts[i], states[i + 1]);
      RemovalCleared(states[i], k, states[i + 1]);
      assert InvStopper(states[i], states[i].stoppers[k]);
    } else {
      KeptStaysKept(states, acts, j + 1, i, k);
    }
  }

  // Reading daemon.pid of an active daemon addresses it, or fails and decides for keeping.
  lemma {:induction false} ReadAddresses(s: State, k: nat, id: Identity, q: int, s': State)
    requires Goes(s, Act(k, ReadIdentity(id)), s') && Identify(s) == Recorded(q) && Active(s, q)
    ensures if id == Recorded(q) then Guarding(s', k, s.procs[q].gen) else KeptBy(s', k)
  {
  }

  lemma {:induction false} RemovalCleared(s: State, k: nat, s': State)
    requires Goes(s, Act(k, Removed), s')
    ensures k in s.stoppers && s.stoppers[k].pc == Cleared
  {
  }

  // A decision to keep the data is final.
  lemma {:induction false} KeptStaysKept(states: seq<State>, acts: seq<Action>, j: nat, i: nat, k: nat)
    requires IsRun(states, acts) && j <= i < |states| && KeptBy(states[j], k)
    ensures KeptBy(states[i], k)
    ensures i < |acts| ==> acts[i] != Act(k, Removed)
  {
    KeptPersists(states, acts, j, i, k);
    if i < |acts| {
      var s, a, s' := states[i], acts[i], states[i + 1];
      assert Goes(s, a, s');
      KeptStep(s, a, s', k);
    }
  }

  ghost predicate KeptBy(s: State, k: nat) { k in s.stoppers && s.stoppers[k].pc == Kept }

  lemma {:induction false} KeptPersists(states: seq<State>, acts: seq<Action>, j: nat, i: nat, k: nat)
    requires IsRun(states, acts) && j <= i < |states| && KeptBy(states[j], k)
    ensures KeptBy(states[i], k)
  {
    if j < i {
      KeptPersists(states, acts, j, i - 1, k);
      var s, a, s' := states[i - 1], acts[i - 1], states[i - 1 + 1];
      assert Goes(s, a, s');
      KeptStep(s, a, s', k);
    }
  }

  lemma {:induction false} KeptStep(s: State, a: Action, s': State, k: nat)
    requires KeptBy(s, k) && Goes(s, a, s')
    ensures KeptBy(s', k) && a != Act(k, Removed)
  {
    if a.Act? {
      OneActs(s, a.actor, a.event, s');
    } else if !a.Arrive? {
      StoppersLeft(s, a, s');
    }
  }

  // -------------------------------------------------- deletions that go astray

  // The directory on disk is worker q's.
  ghost predicate OwnsData(s: State, q: int) {
    IsWorker(s, q) && s.data.Data? && s.data.owner == s.procs[q].gen
  }

  lemma {:induction false} OwnerExact(s: State)
    requires Inv(s)
    ensures (exists q :: Active(s, q) && OwnsData(s, q)) <==> HeldPastMakeDir(s) && s.data.Data?
    ensures HeldPastMakeDir(s) ==> Active(s, s.holder[s.link.value])
    ensures HeldPastMakeDir(s) && s.data.Data? ==> OwnsData(s, s.holder[s.link.value])
  {
    if s.link.Some? && s.link.value in s.holder {
      var h := s.holder[s.link.value];
      assert Active(s, h) && InvDataOf(s, h);
      forall q | Active(s, q) ensures q == h { OneActive(s, q, h); }
    } else {
      NoneActive(s);
    }
  }

  // A step takes an active daemon's own directory away: it is there before and gone after, and the
  // daemon goes on without it.
  ghost predicate TakesOwnData(s: State, s': State, q: int) {
    Active(s, q) && OwnsData(s, q) && Active(s', q) && s'.data == NoData && s'.procs[q].raided
  }

  // A deletion takes the directory and leaves every daemon as active as it was.
  lemma {:induction false} DeletionEmpties(s: State, a: Action, s': State)
    requires Goes(s, a, s') && Deletes(a)
    ensures s'.data == NoData
    ensures forall q :: Active(s', q) <==> Active(s, q)
  {
  }

  // Deletions are made without the lock. One of them, a daemon's clean-up or a stop's, takes an
  // active daemon's directory exactly when tunnel-data is there and session.lock is held, at that
  // moment, by a daemon that is past making its own.
  lemma {:induction false} DeletionHits(states: seq<State>, acts: seq<Action>, i: nat)
    requires IsRun(states, acts) && i < |acts| && Deletes(acts[i])
    ensures var s, s' := states[i], states[i + 1];
            (exists q :: TakesOwnData(s, s', q)) <==> HeldPastMakeDir(s) && s.data.Data?
  {
    var s, a, s' := states[i], acts[i], states[i + 1];
    RunInv(states, acts, i);
    OwnerExact(s);
    assert Goes(s, a, s');
    if HeldPastMakeDir(s) && s.data.Data? {
      var h := s.holder[s.link.value];
      assert TakesOwnData(s, s', h);
    }
  }

  // What a user can check just before: the deletion hides a running daemon exactly when `status`
  // would have found one.
  lemma {:induction false} DeletionHides(states: seq<State>, acts: seq<Action>, i: nat)
    requires IsRun(states, acts) && i < |acts| && Deletes(acts[i])
    ensures var s, s' := states[i], states[i + 1];
            ((exists q :: Identify(s) == Recorded(q) && Active(s', q) && Identify(s') == Missing)
             <==> Identify(s).Recorded? && Verify(s, Identify(s).pid) == Match)
  {
    var s, a, s' := states[i], acts[i], states[i + 1];
    RunInv(states, acts, i);
    assert Goes(s, a, s');
    DeletionEmpties(s, a, s');
    if Identify(s).Recorded? { VerifyExact(s, Identify(s).pid); }
  }

  // A parent's output.json lands in the directory of an active daemon it did not start exactly
  // when session.lock is held, at that moment, by another daemon that is past making its own.
  lemma {:induction false} OutputHits(states: seq<State>, acts: seq<Action>, i: nat, k: nat)
    requires IsRun(states, acts) && i < |acts| && acts[i] == PutOutput(k)
    ensures var s, s' := states[i], states[i + 1];
            ((exists q :: Active(s', q) && OwnsData(s', q)
                          && s'.data.output.Some? && s'.data.output.value != s'.procs[q].gen)
             <==> HeldPastMakeDir(s) && OwnerNow(s) != s.parents[k].gen)
  {
    var s, s' := states[i], states[i + 1];
    RunInv(states, acts, i);
    RunInv(states, acts, i + 1);
    assert Goes(s, acts[i], s');
    OwnerExact(s');
    if HeldPastMakeDir(s') {
      var h := s'.holder[s'.link.value];
      forall q | Active(s', q) ensures q == h { OneActive(s', q, h); }
    }
  }

  ghost predicate Reclaimed(s: State, p: int) { IsWorker(s, p) && s.procs[p].phase == Wiped }

  // At step j a parent made sure of the directory; worker p has been past its reclaim and short of
  // its mkdir from then up to state i, and nobody has deleted tunnel-data in between.
  ghost predicate MadeSince(states: seq<State>, acts: seq<Action>, j: nat, i: nat, p: int)
    requires |states| == |acts| + 1 && i < |states|
  {
    && j < i && acts[j].EnsureDir?
    && (forall m :: j <= m <= i ==> Reclaimed(states[m], p))
    && (forall m :: j < m < i ==> !Deletes(acts[m]))
  }

  // A worker that has reclaimed its slot finds a directory in the way of its mkdir exactly when a
  // parent has made one since and nobody has deleted it again.
  lemma {:induction false} BlockedExactly(states: seq<State>, acts: seq<Action>, i: nat, p: int)
    requires IsRun(states, acts) && i < |states| && Reclaimed(states[i], p)
    ensures Apply(states[i], MakeDir(p)).None? <==> exists j: nat :: MadeSince(states, acts, j, i, p)
  {
    var s := states[i];
    assert Apply(s, MakeDir(p)) == StartStep(s, p, MakeDir(p));
    if s.data.Data? {
      var j := OnlyAParentBlocks(states, acts, i, p);
    }
    if j: nat :| MadeSince(states, acts, j, i, p) {
      StaysBlocked(states, acts, j, i, p);
    }
  }

  lemma {:induction false} OnlyAParentBlocks(states: seq<State>, acts: seq<Action>, i: nat, p: int) returns (j: nat)
    requires IsRun(states, acts) && i < |states| && Reclaimed(states[i], p) && states[i].data.Data?
    ensures MadeSince(states, acts, j, i, p)
  {
    BlockedBefore(states, acts, i - 1, p);
    if states[i - 1].data.Data? {
      j := OnlyAParentBlocks(states, acts, i - 1, p);
    } else {
      j := i - 1;
    }
  }

  lemma {:induction false} BlockedBefore(states: seq<State>, acts: seq<Action>, i: nat, p: int)
    requires IsRun(states, acts) && i < |acts| && Reclaimed(states[i + 1], p) && states[i + 1].data.Data?
    ensures Reclaimed(states[i], p) && !Deletes(acts[i])
    ensures states[i].data == NoData ==> acts[i].EnsureDir?
  {
    var s, a, s' := states[i], acts[i], states[i + 1];
    RunInv(states, acts, i);
    assert Goes(s, a, s');
    BlockedStep(s, a, s', p);
    if Deletes(a) { DeletionEmpties(s, a, s'); }
  }

  lemma {:induction false} StaysBlocked(states: seq<State>, acts: seq<Action>, j: nat, i: nat, p: int)
    requires IsRun(states, acts) && i < |states| && MadeSince(states, acts, j, i, p)
    ensures states[i].data.Data?
  {
    MadeBefore(states, acts, j, i, p);
    if j < i - 1 { StaysBlocked(states, acts, j, i - 1, p); }
    BlockedOn(states, acts, i - 1, p);
  }

  lemma {:induction false} MadeBefore(states: seq<State>, acts: seq<Action>, j: nat, i: nat, p: int)
    requires |states| == |acts| + 1 && i < |states| && MadeSince(states, acts, j, i, p)
    ensures Reclaimed(states[i - 1], p) && Reclaimed(states[i - 1 + 1], p)
    ensures if j < i - 1 then MadeSince(states, acts, j, i - 1, p) && !Deletes(acts[i - 1]) else acts[i - 1].EnsureDir?
  {
  }

  lemma {:induction false} BlockedOn(states: seq<State>, acts: seq<Action>, i: nat, p: int)
    requires IsRun(states, acts) && i < |acts| && Reclaimed(states[i], p) && Reclaimed(states[i + 1], p)
    requires acts[i].EnsureDir? || (states[i].data.Data? && !Deletes(acts[i]))
    ensures states[i + 1].data.Data?
  {
    var s, a, s' := states[i], acts[i], states[i + 1];
    RunInv(states, acts, i);
    assert Goes(s, a, s');
    if a.EnsureDir? { MkdirMakes(s, a, s'); } else { StillThere(s, a, s', p); }
  }

  lemma {:induction false} MkdirMakes(s: State, a: Action, s': State)
    requires Goes(s, a, s') && a.EnsureDir?
    ensures s'.data.Data?
  {
  }

  // While a worker is short of its mkdir, nothing but a deletion takes a directory out of its way.
  lemma {:induction false} StillThere(s: State, a: Action, s': State, p: int)
    requires Inv(s) && Goes(s, a, s') && !Deletes(a) && s.data.Data? && Reclaimed(s, p) && Reclaimed(s', p)
    ensures s'.data.Data?
  {
    DataChanged(s, a, s');
    if IsWorkers(a) && !a.Sweep? && Active(s, a.pid) {
      OneActive(s, a.pid, p);
      ReclaimedWaits(s, a, s', p);
    }
  }

  // Short of its mkdir a worker touches nothing.
  lemma {:induction false} ReclaimedWaits(s: State, a: Action, s': State, p: int)
    requires Goes(s, a, s') && IsWorkers(a) && a.pid == p && Reclaimed(s, p) && Reclaimed(s', p)
    ensures s'.data == s.data
  {
  }

  // The parent's step stops worker p: its mkdir was possible before and is not after.
  ghost predicate Stopped(s: State, s': State, p: int) {
    Reclaimed(s, p) && Apply(s, MakeDir(p)).Some? && Apply(s', MakeDir(p)).None?
  }

  // A parent's mkdir stops a starting daemon exactly when tunnel-data is not there and session.lock
  // is held, at that moment, by a worker between its reclaim and its own mkdir.
  lemma {:induction false} MkdirHits(states: seq<State>, acts: seq<Action>, i: nat, k: nat)
    requires IsRun(states, acts) && i < |acts| && acts[i] == EnsureDir(k)
    ensures var s, s' := states[i], states[i + 1];
            ((exists p :: Stopped(s, s', p))
             <==> s.data.NoData? && s.link.Some? && s.link.value in s.holder && Reclaimed(s, s.holder[s.link.value]))
  {
    var s, s' := states[i], states[i + 1];
    RunInv(states, acts, i);
    assert Goes(s, acts[i], s') && s'.data.Data? && s'.procs == s.procs;
    forall p | Reclaimed(s, p)
      ensures Active(s, p) && Linked(s, p) && InvProc(s, p)
      ensures Apply(s', MakeDir(p)).None? && (Apply(s, MakeDir(p)).Some? <==> s.data.NoData?)
    {
      MkdirNeedsNothing(s, p);
      MkdirNeedsNothing(s', p);
    }
    if s.data.NoData? && s.link.Some? && s.link.value in s.holder && Reclaimed(s, s.holder[s.link.value]) {
      assert Stopped(s, s', s.holder[s.link.value]);
    }
  }

  lemma {:induction false} MkdirNeedsNothing(s: State, p: int)
    requires Reclaimed(s, p)
    ensures Apply(s, MakeDir(p)).Some? <==> s.data.NoData?
  {
  }

  lemma {:induction false} BlockedStep(s: State, a: Action, s': State, p: int)
    requires Inv(s) && Goes(s, a, s') && s'.data.Data? && Reclaimed(s', p)
    ensures IsWorker(s, p) && s.procs[p] == s'.procs[p]
    ensures s.data == NoData ==> a.EnsureDir?
  {
    if a.Act? {
      BlockedByActor(s, a.actor, a.event, s', p);
    } else if IsParents(a) || a.Arrive? {
      ProcsLeft(s, a, s');
      DataChanged(s, a, s');
    } else if a.Acquire? || a.Die? || a.Appear? || a.Vanish? {
      BlockedByProcess(s, a, s', p);
    } else if a.Sweep? {
      DeletionEmpties(s, a, s');
    } else {
      BlockedByWorker(s, a, s', p);
    }
  }

  lemma {:induction false} BlockedByActor(s: State, k: nat, e: Event, s': State, p: int)
    requires Goes(s, Act(k, e), s') && s'.data.Data? && IsWorker(s', p)
    ensures IsWorker(s, p) && s.procs[p] == s'.procs[p] && s.data == s'.data
  {
  }

  lemma {:induction false} BlockedByProcess(s: State, a: Action, s': State, p: int)
    requires Goes(s, a, s') && (a.Acquire? || a.Die? || a.Appear? || a.Vanish?) && Reclaimed(s', p)
    ensures IsWorker(s, p) && s.procs[p] == s'.procs[p] && s.data == s'.data
  {
  }

  lemma {:induction false} BlockedByWorker(s: State, a: Action, s': State, p: int)
    requires Inv(s) && IsWorkers(a) && !a.Sweep? && WorkerStep(s, a.pid, a) == Some(s') && s'.data.Data?
    requires Reclaimed(s', p)
    ensures IsWorker(s, p) && s.procs[p] == s'.procs[p] && s.data == s'.data
  {
    WorkerLocal(s, a.pid, a);
    if a.pid == p {
      WipedAgain(s, a, s', p);
    } else if Active(s, a.pid) {
      OneActive(s, a.pid, p);
    }
  }

  // No own step leaves a worker Wiped with a directory there.
  lemma {:induction false} WipedAgain(s: State, a: Action, s': State, p: int)
    requires WorkerStep(s, p, a) == Some(s') && s'.procs[p].phase == Wiped && !a.Sweep?
    ensures s'.data == NoData
  {
  }

  // Carrying out a list of actions, or None when one of them is not possible.
  function Exec(s: State, acts: seq<Action>): Option<State>
    decreases |acts|
  {
    if acts == [] then Some(s)
    else match Apply(s, acts[0])
      case None => None
      case Some(t) => Exec(t, acts[1..])
  }

  lemma {:induction false} ExecConcat(s: State, a: seq<Action>, b: seq<Action>)
    ensures Exec(s, a + b) == match Exec(s, a) case None => None case Some(t) => Exec(t, b)
    decreases |a|
  {
    if a == [] {
      assert a + b == b;
    } else {
      assert (a + b)[0] == a[0] && (a + b)[1..] == a[1..] + b;
      if Apply(s, a[0]).Some? { ExecConcat(Apply(s, a[0]).value, a[1..], b); }
    }
  }

  // What can be carried out is a run.
  lemma {:induction false} ExecIsRun(s: State, acts: seq<Action>) returns (states: seq<State>)
    requires Init(s) && Exec(s, acts).Some?
    ensures IsRun(states, acts) && states[0] == s && states[|acts|] == Exec(s, acts).value
    decreases |acts|
  {
    if acts == [] {
      states := [s];
    } else {
      var front := acts[..|acts| - 1];
      var last := acts[|acts| - 1];
      assert acts == front + [last];
      ExecConcat(s, front, [last]);
      var shorter := ExecIsRun(s, front);
      states := shorter + [Exec(s, acts).value];
      OneStep(shorter[|front|], last);
      forall i | 0 <= i < |acts| ensures Goes(states[i], acts[i], states[i + 1]) {
        if i < |front| { assert Goes(shorter[i], front[i], shorter[i + 1]); }
      }
    }
  }

  lemma {:induction false} OneStep(s: State, a: Action)
    ensures Exec(s, [a]) == Apply(s, a)
  {
    if Apply(s, a).Some? {
      assert Exec(Apply(s, a).value, [a][1..]) == Apply(s, a);
    }
  }

  lemma {:induction false} TwoSteps(s: State, a: Action, b: Action)
    requires Apply(s, a).Some?
    ensures Exec(s, [a, b]) == Apply(Apply(s, a).value, b)
  {
    assert [a, b][1..] == [b];
    OneStep(Apply(s, a).value, b);
  }

  function Boot(p: int): seq<Action> { [Acquire(p), Wipe(p), MakeDir(p)] + [Truncate(p), Publish(p)] }

  function Booted(s: State, p: int): State {
    s.(procs := s.procs[p := Worker(Published, s.nextIno, s.gen + 1, false, false)],
       data := Data(Holds(p), false, None, s.gen + 1), link := Some(s.nextIno), holder := s.holder[s.nextIno := p],
       recorded := s.recorded[s.nextIno := p], nextIno := s.nextIno + 1, gen := s.gen + 1)
  }

  lemma {:induction false} Reclaims(s: State, p: int) returns (t: State)
    requires IsWorker(s, p) && s.procs[p].phase == Locked
    ensures Exec(s, [Wipe(p), MakeDir(p)]) == Some(t)
    ensures t == SetPhase(s, p, Made).(data := Data(NoFile, false, None, s.procs[p].gen))
  {
    t := Apply(Apply(s, Wipe(p)).value, MakeDir(p)).value;
    TwoSteps(s, Wipe(p), MakeDir(p));
    assert t.procs == SetPhase(s, p, Made).procs;
  }

  lemma {:induction false} Publishes(s: State, p: int) returns (t: State)
    requires IsWorker(s, p) && s.procs[p].phase == Made && s.data.Data?
    ensures Exec(s, [Truncate(p), Publish(p)]) == Some(t)
    ensures t == SetPhase(s, p, Published).(data := s.data.(pidFile := Holds(p)))
  {
    t := Apply(Apply(s, Truncate(p)).value, Publish(p)).value;
    TwoSteps(s, Truncate(p), Publish(p));
    assert t.procs == SetPhase(s, p, Published).procs;
  }

  // Five steps take a process to a published daemon when there is no lock file.
  lemma {:induction false} BootWorks(s: State, p: int)
    requires p in s.procs && s.procs[p].Other? && s.link.None?
    ensures Exec(s, Boot(p)) == Some(Booted(s, p))
  {
    var s1 := Apply(s, Acquire(p)).value;
    var s3 := Reclaims(s1, p);
    var s5 := Publishes(s3, p);
    assert s5.procs == Booted(s, p).procs;
    assert Boot(p)[1..] == [Wipe(p), MakeDir(p)] + [Truncate(p), Publish(p)];
    ExecConcat(s1, [Wipe(p), MakeDir(p)], [Truncate(p), Publish(p)]);
  }

  // Its normal exit up to the moment the lock is free; the directory is still there.
  lemma {:induction false} LetsGo(s: State, p: int)
    requires IsWorker(s, p) && s.procs[p].phase == Published && !s.procs[p].lost
    ensures Exec(s, [Unlink(p, true), Close(p)])
         == Some(s.(link := None, procs := s.procs[p := s.procs[p].(phase := Closed(false))],
                    holder := map i | i in s.holder && i != s.procs[p].ino :: s.holder[i]))
  {
    var t := Apply(s, Unlink(p, true)).value;
    TwoSteps(s, Unlink(p, true), Close(p));
    assert Apply(t, Close(p)).value.procs == s.procs[p := s.procs[p].(phase := Closed(false))];
  }

  lemma {:induction false} ExecThree(s0: State, a: seq<Action>, s1: State, b: seq<Action>, s2: State, c: seq<Action>,
                                     s3: State)
    requires Exec(s0, a) == Some(s1) && Exec(s1, b) == Some(s2) && Exec(s2, c) == Some(s3)
    ensures Exec(s0, a + (b + c)) == Some(s3)
  {
    ExecConcat(s0, a, b + c);
    ExecConcat(s1, b, c);
  }

  // A daemon that has just published: status finds it, and a deletion by somebody else hits it.
  lemma {:induction false} BootedIsExposed(s: State, q: int)
    requires q > 0
    ensures var t := Booted(s, q);
            && IsWorker(t, q) && t.procs[q].phase == Published && Identify(t) == Recorded(q) && Verify(t, q) == Match
            && Active(Delete(t), q) && Delete(t).data == NoData && Delete(t).procs[q].raided
  {
  }

  // The successor of a daemon that cleans up normally can lose its fresh directory: the lock is
  // released before the directory is deleted.
  lemma {:induction false} CleanupCanRaidASuccessor() returns (s0: State, acts: seq<Action>, s: State, after: State)
    ensures Init(s0) && Exec(s0, acts) == Some(s)
    ensures IsWorker(s, 2) && s.procs[2].phase == Published && Identify(s) == Recorded(2) && Verify(s, 2) == Match
    ensures Apply(s, Sweep(1)) == Some(after) && Active(after, 2) && after.data == NoData
  {
    var s2;
    s0, acts, s2, s := TwoDaemonsInTurn();
    BootedIsExposed(s2, 2);
    after := SetPhase(Delete(s), 1, Closed(true));
  }

  // Daemon 1 publishes, releases its lock and has yet to sweep; daemon 2 publishes.
  lemma {:induction false} TwoDaemonsInTurn() returns (s0: State, acts: seq<Action>, s2: State, s: State)
    ensures Init(s0) && Exec(s0, acts) == Some(s) && s == Booted(s2, 2)
    ensures IsWorker(s, 1) && s.procs[1].phase == Closed(false)
  {
    s0 := State(None, 0, map[], map[], NoData, map[1 := Other, 2 := Other], map[], map[], 0);
    BootWorks(s0, 1);
    var s1 := Booted(s0, 1);
    LetsGo(s1, 1);
    s2 := Exec(s1, [Unlink(1, true), Close(1)]).value;
    BootWorks(s2, 2);
    s := Booted(s2, 2);
    acts := Boot(1) + ([Unlink(1, true), Close(1)] + Boot(2));
    ExecThree(s0, Boot(1), s1, [Unlink(1, true), Close(1)], s2, Boot(2), s);
  }

  // A stop that reads the pid file of a dead predecessor just before a new daemon starts
  // deletes the new daemon's directory: the case StopSparesThePublishedDaemon leaves open.
  lemma {:induction false} StopCanRaidAStartingDaemon() returns (s0: State, acts: seq<Action>, s: State, after: State)
    ensures Init(s0) && Exec(s0, acts) == Some(s)
    ensures IsWorker(s, 2) && s.procs[2].phase == Published && Identify(s) == Recorded(2) && Verify(s, 2) == Match
    ensures Apply(s, Act(0, Removed)) == Some(after) && Active(after, 2) && after.data == NoData
  {
    var s3;
    s0, acts, s3, s := StopThenStart();
    BootedIsExposed(s3, 2);
    after := Apply(s, Act(0, Removed)).value;
  }

  lemma {:induction false} StopThenStart() returns (s0: State, acts: seq<Action>, s3: State, s: State)
    ensures Init(s0) && Exec(s0, acts) == Some(s) && s == Booted(s3, 2)
    ensures 0 in s.stoppers && s.stoppers[0] == Stopper(Stop, Cleared, None)
  {
    s0 := State(None, 0, map[], map[], Data(Holds(7), false, None, 0), map[2 := Other], map[], map[], 0);
    s3 := StaleStop(s0, 0, 7);
    BootWorks(s3, 2);
    s := Booted(s3, 2);
    var a, b := [Arrive(0, Stop)], [Act(0, ReadIdentity(Recorded(7))), Act(0, Verified(7, NotFound))];
    acts := (a + b) + Boot(2);
    ExecConcat(s0, a + b, Boot(2));
  }

  // A stop reads the pid file of a process that is gone, and is told so.
  lemma {:induction false} StaleStop(s: State, k: nat, pid: int) returns (t: State)
    requires k !in s.stoppers && pid > 0 && pid !in s.procs && s.data.Data? && s.data.pidFile == Holds(pid)
    ensures Exec(s, [Arrive(k, Stop)] + [Act(k, ReadIdentity(Recorded(pid))), Act(k, Verified(pid, NotFound))])
         == Some(t)
    ensures t == s.(stoppers := s.stoppers[k := Stopper(Stop, Cleared, None)])
  {
    var a, b := [Arrive(k, Stop)], [Act(k, ReadIdentity(Recorded(pid))), Act(k, Verified(pid, NotFound))];
    var s1 := Apply(s, Arrive(k, Stop)).value;
    t := Apply(Apply(s1, b[0]).value, b[1]).value;
    OneStep(s, Arrive(k, Stop));
    TwoSteps(s1, b[0], b[1]);
    ExecConcat(s, a, b);
    assert t.stoppers == s.stoppers[k := Stopper(Stop, Cleared, None)];
  }

  // ----------------------------------------------------- a parent that is late

  function Entered(s: State, k: nat, p: int): State
    requires IsWorker(s, p)
  {
    s.(parents := s.parents[k := Parent(s.procs[p].gen, DirReady)])
  }

  // A parent that has read its frame and made sure of the directory, which is there.
  lemma {:induction false} Enters(s: State, k: nat, p: int)
    requires IsWorker(s, p) && s.procs[p].phase == Published && k !in s.parents && s.data.Data?
    ensures Exec(s, [Report(k, p), EnsureDir(k)]) == Some(Entered(s, k, p))
  {
    var t := Apply(s, Report(k, p)).value;
    TwoSteps(s, Report(k, p), EnsureDir(k));
    assert Apply(t, EnsureDir(k)).value.parents == Entered(s, k, p).parents;
  }

  // The output.json of an ended session lands in the directory of the daemon that came after.
  lemma {:induction false} LateOutputReachesASuccessor() returns (s0: State, acts: seq<Action>, s: State, after: State)
    ensures Init(s0) && Exec(s0, acts) == Some(s)
    ensures IsWorker(s, 2) && s.procs[2].phase == Published && Identify(s) == Recorded(2) && Verify(s, 2) == Match
    ensures Apply(s, PutOutput(9)) == Some(after) && OwnsData(after, 2) && after.procs[2].gen == 2
    ensures after.data.output == Some(1)
  {
    var s3;
    s0, acts, s3, s := ParentOutlivesItsDaemon();
    BootedIsExposed(s3, 2);
    after := Apply(s, PutOutput(9)).value;
  }

  lemma {:induction false} ParentOutlivesItsDaemon() returns (s0: State, acts: seq<Action>, s3: State, s: State)
    ensures Init(s0) && Exec(s0, acts) == Some(s) && s == Booted(s3, 2) && s3.gen == 1
    ensures s.parents == map[9 := Parent(1, DirReady)]
  {
    s0 := State(None, 0, map[], map[], NoData, map[1 := Other, 2 := Other], map[], map[], 0);
    BootWorks(s0, 1);
    var s1 := Booted(s0, 1);
    Enters(s1, 9, 1);
    var s2 := Entered(s1, 9, 1);
    LetsGo(s2, 1);
    var enter, leave := [Report(9, 1), EnsureDir(9)], [Unlink(1, true), Close(1)];
    s3 := Exec(s2, leave).value;
    BootWorks(s3, 2);
    s := Booted(s3, 2);
    ExecConcat(s2, leave, Boot(2));
    acts := Boot(1) + (enter + (leave + Boot(2)));
    ExecThree(s0, Boot(1), s1, enter, s2, leave + Boot(2), s);
  }

  // A parent that makes the directory between a successor's reclaim and its mkdir: the successor
  // holds the lock and cannot start.
  lemma {:induction false} LateMkdirBlocksASuccessor() returns (s0: State, acts: seq<Action>, s: State)
    ensures Init(s0) && Exec(s0, acts) == Some(s)
    ensures Active(s, 2) && s.procs[2].phase == Wiped && Apply(s, MakeDir(2)) == None
  {
    var first, s3;
    s0, first, s3 := ParentStillReading();
    s := ReclaimAndBlock(s3);
    acts := first + ([Acquire(2), Wipe(2)] + [EnsureDir(9)]);
    ExecConcat(s0, first, [Acquire(2), Wipe(2)] + [EnsureDir(9)]);
    assert Apply(s, MakeDir(2)) == StartStep(s, 2, MakeDir(2));
  }

  // Daemon 1 has come and gone while its parent has only read the frame.
  lemma {:induction false} ParentStillReading() returns (s0: State, acts: seq<Action>, s: State)
    ensures Init(s0) && Exec(s0, acts) == Some(s)
    ensures 2 in s.procs && s.procs[2].Other? && s.link.None? && 9 in s.parents && s.parents[9].pc.Reported?
  {
    s0 := State(None, 0, map[], map[], NoData, map[1 := Other, 2 := Other], map[], map[], 0);
    BootWorks(s0, 1);
    var s1 := Booted(s0, 1);
    var s2 := Apply(s1, Report(9, 1)).value;
    OneStep(s1, Report(9, 1));
    LetsGo(s2, 1);
    var leave := [Unlink(1, true), Close(1)];
    s := Exec(s2, leave).value;
    acts := Boot(1) + ([Report(9, 1)] + leave);
    ExecThree(s0, Boot(1), s1, [Report(9, 1)], s2, leave, s);
  }

  lemma {:induction false} ReclaimAndBlock(s: State) returns (t: State)
    requires 2 in s.procs && s.procs[2].Other? && s.link.None?
    requires 9 in s.parents && s.parents[9].pc.Reported?
    ensures Exec(s, [Acquire(2), Wipe(2)] + [EnsureDir(9)]) == Some(t)
    ensures Active(t, 2) && t.procs[2].phase == Wiped && t.data.Data?
  {
    var u := Apply(Apply(s, Acquire(2)).value, Wipe(2)).value;
    TwoSteps(s, Acquire(2), Wipe(2));
    OneStep(u, EnsureDir(9));
    ExecConcat(s, [Acquire(2), Wipe(2)], [EnsureDir(9)]);
    t := Apply(u, EnsureDir(9)).value;
  }
}
