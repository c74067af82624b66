/**
  What becomes of a worker's tunnel-data when it leaves, told by what the worker
  has done since it won the lock (tunstrap/session.py, tunstrap/_worker.py).
*/
module SessionDisposal {
  import opened Wrappers
  import opened StopScript
  import opened SessionProtocol
  import opened SessionRuns
  import opened SessionSignals

  // --------------------------------------------------- a required tunnel is lost

  lemma {:induction false} LossMarks(s: State, p: int, required: bool, written: bool, s': State)
    requires Goes(s, Lose(p, required, written), s')
    ensures IsWorker(s, p) && Runs(s', p, s.procs[p].gen)
    ensures s'.procs[p].lost <==> s.procs[p].lost || required
  {
  }

  ghost predicate LostBy(s: State, p: int, g: nat) { Runs(s, p, g) && s.procs[p].lost }

  lemma {:induction false} LostStays(s: State, a: Action, s': State, p: int, g: nat)
    requires LostBy(s, p, g) && Goes(s, a, s') && Runs(s', p, g)
    ensures LostBy(s', p, g)
  {
    if a.Act? {
      LostThroughAct(s, a.actor, a.event, s', p, g);
    } else if IsParents(a) || a.Arrive? {
      ProcsLeft(s, a, s');
    } else if a.Acquire? || a.Die? || a.Appear? || a.Vanish? {
      LostThroughProcess(s, a, s', p, g);
    } else {
      LostThroughWorker(s, a, s', p, g);
    }
  }

  lemma {:induction false} LostThroughAct(s: State, k: nat, e: Event, s': State, p: int, g: nat)
    requires LostBy(s, p, g) && Goes(s, Act(k, e), s') && Runs(s', p, g)
    ensures LostBy(s', p, g)
  {
  }

  lemma {:induction false} LostThroughProcess(s: State, a: Action, s': State, p: int, g: nat)
    requires LostBy(s, p, g) && Goes(s, a, s') && Runs(s', p, g)
    requires a.Acquire? || a.Die? || a.Appear? || a.Vanish?
    ensures LostBy(s', p, g)
  {
  }

  lemma {:induction false} LostThroughWorker(s: State, a: Action, s': State, p: int, g: nat)
    requires LostBy(s, p, g) && Goes(s, a, s') && Runs(s', p, g)
    requires IsWorkers(a) && !a.Acquire? && !a.Die? && !a.Appear? && !a.Vanish?
    ensures LostBy(s', p, g)
  {
    if !a.Sweep? { WorkerLocal(s, a.pid, a); }
  }

  // Nothing that ends worker p happens from step j on: it stays the worker of its acquisition.
  lemma {:induction false} StaysOn(states: seq<State>, acts: seq<Action>, j: nat, m: nat, i: nat, p: int, g: nat)
    requires IsRun(states, acts) && j <= m <= i < |states| && Runs(states[j], p, g) && Unended(acts, j, i, p)
    ensures Runs(states[m], p, g)
  {
    RunsOn(states, acts, j, m, p, g);
    UnendedPrefix(acts, j, m, i, p);
  }

  lemma {:induction false} UnendedPrefix(acts: seq<Action>, j: nat, m: nat, i: nat, p: int)
    requires j <= m <= i <= |acts| && Unended(acts, j, i, p)
    ensures Unended(acts, j, m, p) && Unended(acts, m, i, p)
  {
  }

  lemma {:induction false} LostOnwards(states: seq<State>, acts: seq<Action>, j: nat, i: nat, p: int, g: nat)
    requires IsRun(states, acts) && j <= i < |states| && LostBy(states[j], p, g) && Unended(acts, j, i, p)
    ensures LostBy(states[i], p, g)
  {
    if j < i {
      UnendedPrefix(acts, j, i - 1, i, p);
      LostOnwards(states, acts, j, i - 1, p, g);
      StaysOn(states, acts, j, i, i, p, g);
      LostNext(states, acts, i - 1, p, g);
    }
  }

  lemma {:induction false} LostNext(states: seq<State>, acts: seq<Action>, i: nat, p: int, g: nat)
    requires IsRun(states, acts) && i < |acts| && LostBy(states[i], p, g) && Runs(states[i + 1], p, g)
    ensures LostBy(states[i + 1], p, g)
  {
    assert Goes(states[i], acts[i], states[i + 1]);
    LostStays(states[i], acts[i], states[i + 1], p, g);
  }

  lemma {:induction false} LossMarksRun(states: seq<State>, acts: seq<Action>, j: nat, p: int, written: bool)
    requires IsRun(states, acts) && j < |acts| && acts[j] == Lose(p, true, written)
    ensures IsWorker(states[j], p) && LostBy(states[j + 1], p, states[j].procs[p].gen)
  {
    assert Goes(states[j], acts[j], states[j + 1]);
    LossMarks(states[j], p, true, written, states[j + 1]);
  }

  // The loss of a required tunnel at step j is never followed by the deletion of the worker's own
  // clean-up, as long as that worker lives.
  lemma {:induction false} RequiredLossIsKept(states: seq<State>, acts: seq<Action>, j: nat, i: nat, p: int,
                                              written: bool)
    requires IsRun(states, acts) && j < i < |acts| && acts[j] == Lose(p, true, written)
    requires Unended(acts, j + 1, i, p)
    ensures acts[i] != Sweep(p)
  {
    LossMarksRun(states, acts, j, p, written);
    LostOnwards(states, acts, j + 1, i, p, states[j].procs[p].gen);
    RequiredLossIsNeverSwept(states, acts, i);
  }

  lemma {:induction false} UnlinkReleases(states: seq<State>, acts: seq<Action>, u: nat, p: int, ok: bool, g: nat)
    requires IsRun(states, acts) && u < |acts| && acts[u] == Unlink(p, ok) && LostBy(states[u], p, g)
    ensures LeavingAfterLoss(states[u + 1], p, g)
  {
    assert Goes(states[u], acts[u], states[u + 1]);
  }

  lemma {:induction false} UnlinkLeavesData(states: seq<State>, acts: seq<Action>, u: nat, p: int, ok: bool)
    requires IsRun(states, acts) && u < |acts| && acts[u] == Unlink(p, ok)
    ensures states[u + 1].data == states[u].data
  {
    assert Goes(states[u], acts[u], states[u + 1]);
    OwnUnlink(states[u], p, ok, states[u + 1]);
  }

  lemma {:induction false} OwnUnlink(s: State, p: int, ok: bool, s': State)
    requires WorkerStep(s, p, Unlink(p, ok)) == Some(s')
    ensures s'.data == s.data
  {
  }

  // From the unlink of session.lock on, no step of a worker that has lost a required tunnel changes
  // tunnel-data.
  lemma {:induction false} NothingTouchedAfterLoss(states: seq<State>, acts: seq<Action>, j: nat, u: nat, i: nat,
                                                   p: int, written: bool, ok: bool)
    requires IsRun(states, acts) && j < u <= i < |acts| && acts[j] == Lose(p, true, written)
    requires acts[u] == Unlink(p, ok) && Unended(acts, j + 1, i, p) && IsWorkers(acts[i]) && acts[i].pid == p
    ensures states[i + 1].data == states[i].data
  {
    LossMarksRun(states, acts, j, p, written);
    var g := states[j].procs[p].gen;
    if u == i {
      UnlinkLeavesData(states, acts, u, p, ok);
    } else {
      UnendedPrefix(acts, j + 1, u, i, p);
      LostOnwards(states, acts, j + 1, u, p, g);
      UnlinkReleases(states, acts, u, p, ok, g);
      UnendedPrefix(acts, j + 1, u + 1, i, p);
      forall m | u + 1 <= m <= i
        ensures Runs(states[m], p, g)
      {
        StaysOn(states, acts, u + 1, m, i, p, g);
      }
      NothingTouchedAfterRelease(states, acts, u + 1, i, p, g);
    }
  }

  // ------------------------------------------------------ what a worker has done

  // What worker p has done since it won the lock.
  datatype Deeds = Deeds(made: bool, lost: bool, unlinked: bool, closed: bool, swept: bool)

  ghost predicate Tells(w: Proc, h: Deeds) {
    && w.Worker? && w.lost == h.lost && (h.swept ==> h.closed)
    && match w.phase
       case Locked => h == Deeds(false, false, false, false, false)
       case Wiped => h == Deeds(false, false, false, false, false)
       case Releasing(_, keep, made) => h.unlinked && !h.closed && made == h.made && keep == (!h.made || h.lost)
       case Closed(keep) => h.unlinked && h.closed && keep == (!h.made || h.lost || h.swept)
       case _ => h.made && !h.unlinked && !h.closed
  }

  function With(h: Deeds, a: Action, p: int): Deeds {
    Deeds(h.made || a == MakeDir(p), h.lost || (a.Lose? && a.pid == p && a.required),
         h.unlinked || (a.Unlink? && a.pid == p), h.closed || a == Close(p), h.swept || a == Sweep(p))
  }

  lemma {:induction false} TellsNext(s: State, a: Action, s': State, p: int, g: nat, h: Deeds)
    requires Runs(s, p, g) && Tells(s.procs[p], h) && Goes(s, a, s') && Runs(s', p, g)
    ensures Tells(s'.procs[p], With(h, a, p))
  {
    if a.Act? {
      TellsByAct(s, a.actor, a.event, s', p, g, h);
    } else if IsParents(a) || a.Arrive? {
      ProcsLeft(s, a, s');
    } else if a.Acquire? || a.Die? || a.Appear? || a.Vanish? {
      TellsByProcess(s, a, s', p, g, h);
    } else if a.pid == p {
      TellsByOwn(s, a, s', p, h);
    } else {
      TellsByOther(s, a, s', p, h);
    }
  }

  lemma {:induction false} TellsByAct(s: State, k: nat, e: Event, s': State, p: int, g: nat, h: Deeds)
    requires Runs(s, p, g) && Tells(s.procs[p], h) && Goes(s, Act(k, e), s') && Runs(s', p, g)
    ensures Tells(s'.procs[p], h)
  {
    assert s'.procs[p].(raided := false) == s.procs[p].(raided := false);
  }

  lemma {:induction false} TellsByProcess(s: State, a: Action, s': State, p: int, g: nat, h: Deeds)
    requires Runs(s, p, g) && Tells(s.procs[p], h) && Goes(s, a, s') && Runs(s', p, g)
    requires a.Acquire? || a.Die? || a.Appear? || a.Vanish?
    ensures Tells(s'.procs[p], h)
  {
    assert s'.procs[p] == s.procs[p];
  }

  lemma {:induction false} TellsByOther(s: State, a: Action, s': State, p: int, h: Deeds)
    requires IsWorker(s, p) && Tells(s.procs[p], h) && IsWorkers(a) && a.pid != p
    requires WorkerStep(s, a.pid, a) == Some(s')
    ensures p in s'.procs && Tells(s'.procs[p], h)
  {
    if !a.Sweep? { WorkerLocal(s, a.pid, a); }
    assert s'.procs[p].(raided := false) == s.procs[p].(raided := false);
  }

  lemma {:induction false} TellsByOwn(s: State, a: Action, s': State, p: int, h: Deeds)
    requires IsWorker(s, p) && Tells(s.procs[p], h) && WorkerStep(s, p, a) == Some(s')
    requires IsWorkers(a) && !a.Acquire? && !a.Die? && !a.Appear? && !a.Vanish? && a.pid == p
    ensures Tells(s'.procs[p], With(h, a, p))
  {
    if a.Materialize? || a.Lose? {
      TellsServing(s, a, s', p, h);
    } else if a.Unlink? || a.Close? || a.Sweep? {
      TellsLeaving(s, a, s', p, h);
    } else {
      TellsStarting(s, a, s', p, h);
    }
  }

  lemma {:induction false} TellsServing(s: State, a: Action, s': State, p: int, h: Deeds)
    requires IsWorker(s, p) && Tells(s.procs[p], h) && ServeStep(s, p, a) == Some(s') && a.pid == p
    requires a.Materialize? || a.Lose?
    ensures Tells(s'.procs[p], With(h, a, p))
  {
  }

  lemma {:induction false} TellsLeaving(s: State, a: Action, s': State, p: int, h: Deeds)
    requires IsWorker(s, p) && Tells(s.procs[p], h) && LeaveStep(s, p, a) == Some(s') && a.pid == p
    requires a.Unlink? || a.Close? || a.Sweep?
    ensures Tells(s'.procs[p], With(h, a, p))
  {
  }

  lemma {:induction false} TellsStarting(s: State, a: Action, s': State, p: int, h: Deeds)
    requires IsWorker(s, p) && Tells(s.procs[p], h) && StartStep(s, p, a) == Some(s') && a.pid == p
    requires !a.Materialize? && !a.Lose? && !a.Unlink? && !a.Close? && !a.Sweep?
    ensures Tells(s'.procs[p], With(h, a, p))
  {
  }

  // The steps of worker p after step j and before state i.
  ghost predicate Did(acts: seq<Action>, j: nat, i: nat, a: Action)
    requires i <= |acts|
  {
    exists m :: j < m < i && acts[m] == a
  }

  ghost predicate LostRequired(acts: seq<Action>, j: nat, i: nat, p: int)
    requires i <= |acts|
  {
    exists m :: j < m < i && acts[m].Lose? && acts[m].pid == p && acts[m].required
  }

  ghost predicate Unlinked(acts: seq<Action>, j: nat, i: nat, p: int)
    requires i <= |acts|
  {
    exists m :: j < m < i && acts[m].Unlink? && acts[m].pid == p
  }

  ghost function DeedsOf(acts: seq<Action>, j: nat, i: nat, p: int): Deeds
    requires i <= |acts|
  {
    Deeds(Did(acts, j, i, MakeDir(p)), LostRequired(acts, j, i, p), Unlinked(acts, j, i, p),
         Did(acts, j, i, Close(p)), Did(acts, j, i, Sweep(p)))
  }

  lemma {:induction false} DeedsNext(acts: seq<Action>, j: nat, i: nat, p: int)
    requires j < i < |acts|
    ensures DeedsOf(acts, j, i + 1, p) == With(DeedsOf(acts, j, i, p), acts[i], p)
    ensures DeedsOf(acts, j, j + 1, p) == Deeds(false, false, false, false, false)
  {
    DidNext(acts, j, i, MakeDir(p));
    DidNext(acts, j, i, Close(p));
    DidNext(acts, j, i, Sweep(p));
  }

  lemma {:induction false} DidNext(acts: seq<Action>, j: nat, i: nat, a: Action)
    requires j < i < |acts|
    ensures Did(acts, j, i + 1, a) <==> Did(acts, j, i, a) || acts[i] == a
  {
  }

  // Step j is a start that won the lock.
  ghost predicate Wins(states: seq<State>, acts: seq<Action>, j: nat, p: int)
    requires |states| == |acts| + 1
  {
    j < |acts| && acts[j] == Acquire(p) && states[j + 1] != states[j]
  }

  lemma {:induction false} WinnerLocked(states: seq<State>, acts: seq<Action>, j: nat, p: int)
    requires IsRun(states, acts) && Wins(states, acts, j, p)
    ensures IsWorker(states[j + 1], p) && Tells(states[j + 1].procs[p], Deeds(false, false, false, false, false))
  {
    assert Goes(states[j], acts[j], states[j + 1]);
  }

  lemma {:induction false} TellsStep(states: seq<State>, acts: seq<Action>, i: nat, p: int, g: nat, h: Deeds)
    requires IsRun(states, acts) && i < |acts| && Runs(states[i], p, g) && Tells(states[i].procs[p], h)
    requires Runs(states[i + 1], p, g)
    ensures Tells(states[i + 1].procs[p], With(h, acts[i], p))
  {
    assert Goes(states[i], acts[i], states[i + 1]);
    TellsNext(states[i], acts[i], states[i + 1], p, g, h);
  }

  lemma {:induction false} Remembers(states: seq<State>, acts: seq<Action>, j: nat, i: nat, p: int)
    requires IsRun(states, acts) && Wins(states, acts, j, p) && j < i < |states| && Unended(acts, j + 1, i, p)
    ensures IsWorker(states[i], p) && IsWorker(states[j + 1], p)
    ensures Runs(states[i], p, states[j + 1].procs[p].gen)
    ensures Tells(states[i].procs[p], DeedsOf(acts, j, i, p))
  {
    WinnerLocked(states, acts, j, p);
    var g := states[j + 1].procs[p].gen;
    if i == j + 1 {
      NothingYet(acts, j, p);
    } else {
      UnendedPrefix(acts, j + 1, i - 1, i, p);
      Remembers(states, acts, j, i - 1, p);
      StaysOn(states, acts, j + 1, i, i, p, g);
      TellsStep(states, acts, i - 1, p, g, DeedsOf(acts, j, i - 1, p));
      DeedsNext(acts, j, i - 1, p);
    }
  }

  lemma {:induction false} NothingYet(acts: seq<Action>, j: nat, p: int)
    requires j < |acts|
    ensures DeedsOf(acts, j, j + 1, p) == Deeds(false, false, false, false, false)
  {
  }

  lemma {:induction false} SweepPossible(s: State, p: int, h: Deeds)
    requires IsWorker(s, p) && Tells(s.procs[p], h)
    ensures Apply(s, Sweep(p)).Some? <==> h.closed && h.made && !h.lost && !h.swept
  {
  }

  // A worker that won the lock at step j and lives on deletes tunnel-data on its way out exactly
  // when it has made a tunnel-data of its own and lost no required tunnel, once, and only after it
  // has closed the lock.
  lemma {:induction false} CleansUpExactly(states: seq<State>, acts: seq<Action>, j: nat, i: nat, p: int)
    requires IsRun(states, acts) && Wins(states, acts, j, p) && j < i < |states| && Unended(acts, j + 1, i, p)
    ensures Apply(states[i], Sweep(p)).Some? <==>
            && Did(acts, j, i, Close(p)) && Did(acts, j, i, MakeDir(p))
            && !LostRequired(acts, j, i, p) && !Did(acts, j, i, Sweep(p))
  {
    Remembers(states, acts, j, i, p);
    SweepPossible(states[i], p, DeedsOf(acts, j, i, p));
  }

  // ------------------------------------------------------------- leaving the lock

  // A daemon can leave at any moment, whether or not the unlink succeeds, and then none is active.
  lemma {:induction false} AlwaysLeaves(states: seq<State>, acts: seq<Action>, i: nat, p: int, ok: bool)
    returns (mid: State, end: State)
    requires IsRun(states, acts) && i < |states| && Active(states[i], p) && !states[i].procs[p].phase.Releasing?
    ensures Goes(states[i], Unlink(p, ok), mid) && Goes(mid, Close(p), end)
    ensures forall q :: !Active(end, q)
  {
    RunInv(states, acts, i);
    mid, end := Leaves(states[i], p, ok);
  }

  lemma {:induction false} Leaves(s: State, p: int, ok: bool) returns (mid: State, end: State)
    requires Inv(s) && Active(s, p) && !s.procs[p].phase.Releasing?
    ensures Goes(s, Unlink(p, ok), mid) && Goes(mid, Close(p), end)
    ensures forall q :: !Active(end, q)
  {
    mid := Unlinks(s, p, ok);
    end := Closes(mid, p);
    forall q
      ensures !Active(end, q)
    {
      if Active(s, q) { OneActive(s, p, q); }
    }
  }

  lemma {:induction false} Unlinks(s: State, p: int, ok: bool) returns (mid: State)
    requires Active(s, p) && !s.procs[p].phase.Releasing?
    ensures Goes(s, Unlink(p, ok), mid) && IsWorker(mid, p) && mid.procs[p].phase.Releasing?
    ensures forall q :: Active(mid, q) ==> Active(s, q)
  {
    mid := Apply(s, Unlink(p, ok)).value;
  }

  lemma {:induction false} Closes(mid: State, p: int) returns (end: State)
    requires IsWorker(mid, p) && mid.procs[p].phase.Releasing?
    ensures Goes(mid, Close(p), end)
    ensures forall q :: Active(end, q) ==> Active(mid, q) && q != p
  {
    end := Apply(mid, Close(p)).value;
  }

  // ------------------------------------------------------------- what it writes

  // Whatever has become of its directory, a published daemon can write into tunnel-data, and does: a
  // materialized file or a loss record finds the directory there afterwards.
  lemma {:induction false} WritesLand(s: State, p: int, required: bool, written: bool) returns (m: State, l: State)
    requires IsWorker(s, p) && s.procs[p].phase == Published
    ensures Goes(s, Materialize(p), m) && m.data.Data? && (s.data.Data? ==> m.data == s.data)
    ensures Goes(s, Lose(p, required, written), l)
    ensures if written then l.data.Data? && l.data.lossRecord else l.data == s.data
  {
    m := Apply(s, Materialize(p)).value;
    l := Apply(s, Lose(p, required, written)).value;
  }

  // --------------------------------------------------------------- the loss record

  ghost predicate HasRecord(s: State) { s.data.Data? && s.data.lossRecord }

  lemma {:induction false} LossRecorded(states: seq<State>, acts: seq<Action>, j: nat, p: int, required: bool)
    requires IsRun(states, acts) && j < |acts| && acts[j] == Lose(p, required, true)
    ensures HasRecord(states[j + 1])
  {
    assert Goes(states[j], acts[j], states[j + 1]);
  }

  lemma {:induction false} RecordStays(states: seq<State>, acts: seq<Action>, i: nat)
    requires IsRun(states, acts) && i < |acts| && HasRecord(states[i]) && !Deletes(acts[i]) && !acts[i].Wipe?
    ensures HasRecord(states[i + 1])
  {
    WhoChangesData(states, acts, i);
    DaemonFilesAreTheDaemons(states, acts, i);
    assert Goes(states[i], acts[i], states[i + 1]);
    if IsWorkers(acts[i]) && !acts[i].Appear? && !acts[i].Vanish? && !acts[i].Acquire? && !acts[i].Die? {
      OwnKeepsRecord(states[i], acts[i], states[i + 1]);
    }
  }

  lemma {:induction false} OwnKeepsRecord(s: State, a: Action, s': State)
    requires IsWorkers(a) && !a.Appear? && !a.Vanish? && !a.Acquire? && !a.Die?
    requires WorkerStep(s, a.pid, a) == Some(s') && HasRecord(s) && !a.Sweep? && !a.Wipe?
    ensures HasRecord(s')
  {
  }

  // The record of a loss stays until a deletion or the reclaim of the next start.
  lemma {:induction false} LossRecordKept(states: seq<State>, acts: seq<Action>, j: nat, i: nat, p: int,
                                          required: bool)
    requires IsRun(states, acts) && j < i < |states| && acts[j] == Lose(p, required, true)
    requires forall m :: j < m < i ==> !Deletes(acts[m]) && !acts[m].Wipe?
    ensures HasRecord(states[i])
  {
    if i == j + 1 {
      LossRecorded(states, acts, j, p, required);
    } else {
      LossRecordKept(states, acts, j, i - 1, p, required);
      RecordStays(states, acts, i - 1);
    }
  }
}
