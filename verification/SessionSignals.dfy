/**
  Whom a signal of `stop` or of a teardown reaches. The pid is verified, and
  signalled in a later call (tunstrap/session.py); in between the daemon can
  die and its pid can be given to another process.
*/
module SessionSignals {
  import opened Wrappers
  import opened StopScript
  import opened SessionProtocol
  import opened SessionRuns

  // The process that has pid p is the worker of acquisition g.
  predicate Runs(s: State, p: int, g: nat) { IsWorker(s, p) && s.procs[p].gen == g }

  // A step that ends the worker with pid p: its own death or a SIGKILL delivered to it.
  predicate Ends(a: Action, p: int) { a == Die(p) || (a.Act? && a.event == Killed(p, Delivered)) }

  // How one step treats the worker of pid p: nothing but its end takes the pid from it.
  ghost predicate Treats(s: State, a: Action, s': State, p: int) {
    && s.gen <= s'.gen
    && (IsWorker(s, p) ==> (Runs(s', p, s.procs[p].gen) <==> !Ends(a, p)) && (Ends(a, p) ==> !IsWorker(s', p)))
    && (!IsWorker(s, p) && IsWorker(s', p) ==> s.gen < s'.procs[p].gen)
  }

  lemma {:induction false} TreatsOne(s: State, a: Action, s': State, p: int)
    requires Goes(s, a, s')
    ensures Treats(s, a, s', p)
  {
    if a.Act? {
      TreatedByActor(s, a.actor, a.event, s', p);
    } else if IsParents(a) || a.Arrive? {
      TreatedByOthers(s, a, s', p);
    } else if a.Acquire? || a.Die? || a.Appear? || a.Vanish? {
      TreatedByProcess(s, a, s', p);
    } else {
      TreatedByWorker(s, a, s', p);
    }
  }

  lemma {:induction false} TreatedByActor(s: State, k: nat, e: Event, s': State, p: int)
    requires Goes(s, Act(k, e), s')
    ensures Treats(s, Act(k, e), s', p)
  {
    assert s'.procs == Effect(s, e).procs && s'.gen == s.gen;
  }

  lemma {:induction false} TreatedByOthers(s: State, a: Action, s': State, p: int)
    requires Goes(s, a, s') && (IsParents(a) || a.Arrive?)
    ensures Treats(s, a, s', p)
  {
    ProcsLeft(s, a, s');
  }

  lemma {:induction false} TreatedByProcess(s: State, a: Action, s': State, p: int)
    requires Goes(s, a, s') && (a.Acquire? || a.Die? || a.Appear? || a.Vanish?)
    ensures Treats(s, a, s', p)
  {
  }

  lemma {:induction false} TreatedByWorker(s: State, a: Action, s': State, p: int)
    requires Goes(s, a, s') && IsWorkers(a) && !a.Acquire? && !a.Die? && !a.Appear? && !a.Vanish?
    ensures Treats(s, a, s', p)
  {
    if !a.Sweep? { WorkerLocal(s, a.pid, a); }
  }

  lemma {:induction false} KnownGen(states: seq<State>, acts: seq<Action>, i: nat, p: int, g: nat)
    requires IsRun(states, acts) && i < |states| && Runs(states[i], p, g)
    ensures g <= states[i].gen
  {
    RunInv(states, acts, i);
    assert InvProc(states[i], p);
  }

  // Where the worker of acquisition g stands that had pid p when n acquisitions had been made: it
  // still runs if nothing has ended it, and any other worker with its pid acquired the session later.
  ghost predicate Since(s: State, p: int, g: nat, n: nat, unended: bool) {
    && g <= n <= s.gen
    && (Runs(s, p, g) <==> unended)
    && (IsWorker(s, p) && s.procs[p].gen != g ==> n < s.procs[p].gen)
  }

  lemma {:induction false} SinceNext(s: State, a: Action, s': State, p: int, g: nat, n: nat, unended: bool)
    requires Since(s, p, g, n, unended) && Goes(s, a, s')
    ensures Since(s', p, g, n, unended && !Ends(a, p))
  {
    TreatsOne(s, a, s', p);
  }

  predicate Unended(acts: seq<Action>, j: nat, i: nat, p: int)
    requires i <= |acts|
  {
    forall m :: j <= m < i ==> !Ends(acts[m], p)
  }

  lemma {:induction false} UnendedNext(acts: seq<Action>, j: nat, i: nat, p: int)
    requires j <= i < |acts|
    ensures Unended(acts, j, i + 1, p) <==> Unended(acts, j, i, p) && !Ends(acts[i], p)
    ensures Unended(acts, i, i, p)
  {
  }

  lemma {:induction false} UnendedFrom(acts: seq<Action>, j: nat, i: nat, p: int)
    requires j < i <= |acts| && !Ends(acts[j], p)
    ensures Unended(acts, j, i, p) <==> Unended(acts, j + 1, i, p)
  {
  }

  lemma {:induction false} RunsOn(states: seq<State>, acts: seq<Action>, j: nat, i: nat, p: int, g: nat)
    requires IsRun(states, acts) && j <= i < |states| && Runs(states[j], p, g)
    ensures Since(states[i], p, g, states[j].gen, Unended(acts, j, i, p))
  {
    if j == i {
      KnownGen(states, acts, j, p, g);
    } else {
      RunsOn(states, acts, j, i - 1, p, g);
      UnendedNext(acts, j, i - 1, p);
      SinceStep(states, acts, i - 1, p, g, states[j].gen, Unended(acts, j, i - 1, p));
    }
  }

  lemma {:induction false} SinceStep(states: seq<State>, acts: seq<Action>, i: nat, p: int, g: nat, n: nat,
                                     unended: bool)
    requires IsRun(states, acts) && i < |acts| && Since(states[i], p, g, n, unended)
    ensures Since(states[i + 1], p, g, n, unended && !Ends(acts[i], p))
  {
    assert Goes(states[i], acts[i], states[i + 1]);
    SinceNext(states[i], acts[i], states[i + 1], p, g, n, unended);
  }

  predicate Signals(e: Event, p: int) { e == Terminated(p, Delivered) || e == Killed(p, Delivered) }

  // A pid verified as match at step j, by any actor, is the active daemon's. A signal delivered to
  // it at a later step i reaches that same daemon exactly when nothing has ended it in between; a
  // daemon that is hit in its place started after the verification.
  lemma {:induction false} SignalReaches(states: seq<State>, acts: seq<Action>, j: nat, i: nat, k: nat, p: int)
    requires IsRun(states, acts) && j < i < |acts|
    requires acts[j] == Act(k, Verified(p, Match)) && acts[i].Act? && Signals(acts[i].event, p)
    ensures Active(states[j], p) && p in states[i].procs
    ensures Runs(states[i], p, states[j].procs[p].gen) <==> Unended(acts, j + 1, i, p)
    ensures IsWorker(states[i], p) && !Runs(states[i], p, states[j].procs[p].gen) ==>
              states[j].gen < states[i].procs[p].gen
  {
    MatchIsActive(states, acts, j, k, p);
    DeliveredToOne(states, acts, i, p);
    RunsOn(states, acts, j, i, p, states[j].procs[p].gen);
    UnendedFrom(acts, j, i, p);
  }

  lemma {:induction false} MatchIsActive(states: seq<State>, acts: seq<Action>, j: nat, k: nat, p: int)
    requires IsRun(states, acts) && j < |acts| && acts[j] == Act(k, Verified(p, Match))
    ensures Active(states[j], p)
  {
    assert Goes(states[j], acts[j], states[j + 1]);
    AtMostOneDaemon(states, acts, j);
  }

  lemma {:induction false} DeliveredToOne(states: seq<State>, acts: seq<Action>, i: nat, p: int)
    requires IsRun(states, acts) && i < |acts| && acts[i].Act? && Signals(acts[i].event, p)
    ensures p in states[i].procs
  {
    assert Goes(states[i], acts[i], states[i + 1]);
  }

  // -------------------------------------------------------- what a call can meet

  // Every call a stopping actor may make next can get its true answer, and can fail instead.
  lemma {:induction false} EveryAnswerPossible(s: State, k: nat)
    requires k in s.stoppers
    ensures match s.stoppers[k].pc
            case Fresh => Answered(s, k, ReadIdentity(Identify(s))) && Answered(s, k, ReadIdentity(Unreadable))
            case Addressed(p) => Answered(s, k, Verified(p, Verify(s, p))) && Answered(s, k, Verified(p, Unavailable))
            case Matched(p) =>
              && Answered(s, k, Terminated(p, if p in s.procs then Delivered else Gone))
              && (p in s.procs ==> Answered(s, k, Terminated(p, Refused)))
            case Waiting(p) =>
              && Answered(s, k, Polled(p, if IsWorker(s, p) then Alive else Exited))
              && Answered(s, k, Polled(p, Broken)) && Answered(s, k, Deadline)
            case Expired(p) => Answered(s, k, Verified(p, Verify(s, p))) && Answered(s, k, Verified(p, Unavailable))
            case Rematched(p) =>
              && Answered(s, k, Killed(p, if p in s.procs then Delivered else Gone))
              && (p in s.procs ==> Answered(s, k, Killed(p, Refused)))
            case Cleared => Answered(s, k, Removed)
            case _ => true
    ensures Answered(s, k, Interrupted)
  {
  }

  ghost predicate Answered(s: State, k: nat, e: Event) { Apply(s, Act(k, e)).Some? }

  // ------------------------------------------------------- a pid that is reused

  function Asks(k: nat, p: int): seq<Action> {
    [Arrive(k, Stop)] + [Act(k, ReadIdentity(Recorded(p))), Act(k, Verified(p, Match))]
  }

  function Reused(p: int): seq<Action> { [Die(p)] + [Vanish(p), Appear(p)] }

  // A stop finds the published daemon and verifies it.
  lemma {:induction false} AskWorks(s: State, k: nat, p: int) returns (t: State)
    requires k !in s.stoppers && p > 0 && Active(s, p) && Identify(s) == Recorded(p) && Verify(s, p) == Match
    ensures Exec(s, Asks(k, p)) == Some(t)
    ensures t == s.(stoppers := s.stoppers[k := Stopper(Stop, Matched(p), Some(s.procs[p].gen))])
  {
    var read, ask := Act(k, ReadIdentity(Recorded(p))), Act(k, Verified(p, Match));
    var s1 := Apply(s, Arrive(k, Stop)).value;
    t := Apply(Apply(s1, read).value, ask).value;
    OneStep(s, Arrive(k, Stop));
    TwoSteps(s1, read, ask);
    ExecConcat(s, [Arrive(k, Stop)], [read, ask]);
    assert t.stoppers == s.stoppers[k := Stopper(Stop, Matched(p), Some(s.procs[p].gen))];
  }

  // The daemon dies, is reaped, and its pid goes to another process.
  lemma {:induction false} ReuseWorks(s: State, p: int) returns (t: State)
    requires p > 0 && IsWorker(s, p)
    ensures Exec(s, Reused(p)) == Some(t)
    ensures p in t.procs && t.procs[p].Other? && t.stoppers == s.stoppers
  {
    var s1 := Dead(s, p);
    t := Apply(Apply(s1, Vanish(p)).value, Appear(p)).value;
    OneStep(s, Die(p));
    TwoSteps(s1, Vanish(p), Appear(p));
    ExecConcat(s, [Die(p)], [Vanish(p), Appear(p)]);
  }

  // A run in which the SIGTERM of a stop reaches a process that never had to do with the session.
  lemma {:induction false} StopCanSignalAStranger() returns (s0: State, acts: seq<Action>, s: State)
    ensures Init(s0) && Exec(s0, acts + Reused(1)) == Some(s)
    ensures acts != [] && acts[|acts| - 1] == Act(0, Verified(1, Match))
    ensures 1 in s.procs && s.procs[1].Other? && Apply(s, Act(0, Terminated(1, Delivered))).Some?
  {
    var s2;
    s0, acts, s2 := VerifiedInTime();
    s := ReuseWorks(s2, 1);
    ExecConcat(s0, acts, Reused(1));
  }

  lemma {:induction false} VerifiedInTime() returns (s0: State, acts: seq<Action>, s: State)
    ensures Init(s0) && Exec(s0, acts) == Some(s) && acts != [] && acts[|acts| - 1] == Act(0, Verified(1, Match))
    ensures IsWorker(s, 1) && 0 in s.stoppers && s.stoppers[0].verb == Stop && s.stoppers[0].pc == Matched(1)
  {
    s0 := State(None, 0, map[], map[], NoData, map[1 := Other], map[], map[], 0);
    BootWorks(s0, 1);
    BootedIsExposed(s0, 1);
    s := AskWorks(Booted(s0, 1), 0, 1);
    acts := Boot(1) + Asks(0, 1);
    ExecConcat(s0, Boot(1), Asks(0, 1));
  }
}
