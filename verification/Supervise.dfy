/**
  `_supervise` of the worker (tunstrap/_worker.py): tunnel-loss watchdogs, the
  idle watchdog and the signal handlers all set one stop event; then the
  watchdogs are cancelled, the connections closed, and the session disposed of.
  The event loop may run its callbacks in any order: a schedule lists them.
*/
module Supervise {
  datatype Node = Node(name: string, required: bool)

  // _NodeLoss
  datatype Loss = Loss(node: string, required: bool)

  // tunnel-loss.json
  datatype Payload = Payload(selfTerminated: bool, losses: seq<Loss>)

  datatype Tick =
    | Drops(i: nat)   // the connection of node i closes: its watchdog becomes runnable
    | Runs(i: nat)    // the event loop runs the watchdog of node i
    | Signal          // SIGTERM or SIGINT
    | IdleExpires
    | MainRuns        // the event loop resumes _supervise

  datatype Task = Watching | Runnable | Finished | Cancelled

  datatype Effect =
    | Recorded(payload: Payload, written: bool)
    | ConnectionClosed(node: string)
    | LockReleased
    | DataDeleted

  predicate AnyRequired(losses: seq<Loss>) {
    exists k :: 0 <= k < |losses| && losses[k].required
  }

  function PayloadOf(losses: seq<Loss>): Payload {
    Payload(AnyRequired(losses), losses)
  }

  function Dispose(losses: seq<Loss>): seq<Effect> {
    if AnyRequired(losses) then [LockReleased] else [LockReleased, DataDeleted]
  }

  // The record attempts so far: one after each loss, each listing all losses up to it.
  ghost predicate RecordsOf(losses: seq<Loss>, log: seq<Effect>) {
    && |log| == |losses|
    && forall k :: 0 <= k < |log| ==> Lists(losses, k, log[k])
  }

  ghost predicate Lists(losses: seq<Loss>, k: nat, e: Effect)
    requires k < |losses|
  {
    e.Recorded? && e.payload == PayloadOf(losses[..k + 1])
  }

  lemma {:induction false} RecordsGrow(losses: seq<Loss>, log: seq<Effect>, loss: Loss, written: bool)
    requires RecordsOf(losses, log)
    ensures RecordsOf(losses + [loss], log + [Recorded(PayloadOf(losses + [loss]), written)])
  {
    var longer := losses + [loss];
    var longerLog := log + [Recorded(PayloadOf(longer), written)];
    assert longer[..|longer|] == longer;
    forall k | 0 <= k < |longerLog| ensures Lists(longer, k, longerLog[k]) {
      if k < |log| {
        assert Lists(losses, k, log[k]);
        assert longer[..k + 1] == losses[..k + 1];
      }
    }
  }

  lemma {:induction false} AnyRequiredGrows(losses: seq<Loss>, loss: Loss)
    ensures AnyRequired(losses + [loss]) <==> AnyRequired(losses) || loss.required
  {
    var longer := losses + [loss];
    assert longer[|losses|] == loss;
    assert forall k :: 0 <= k < |losses| ==> longer[k] == losses[k];
  }

  function LossOf(n: Node): Loss { Loss(n.name, n.required) }

  function Closings(nodes: seq<Node>): seq<Effect> {
    seq(|nodes|, k requires 0 <= k < |nodes| => ConnectionClosed(nodes[k].name))
  }

  ghost predicate DistinctNames(nodes: seq<Node>) {
    forall i, j :: 0 <= i < j < |nodes| ==> nodes[i].name != nodes[j].name
  }

  // The loss of a node whose watchdog has run to its end.
  ghost predicate Reported(nodes: seq<Node>, tasks: seq<Task>, l: Loss)
    requires |tasks| == |nodes|
  {
    exists i :: 0 <= i < |nodes| && tasks[i] == Finished && l == LossOf(nodes[i])
  }

  // A watchdog that has not run has reported nothing, and what it does next takes nothing back.
  lemma {:induction false} ReportedStays(nodes: seq<Node>, tasks: seq<Task>, i: nat, task: Task, l: Loss)
    requires DistinctNames(nodes) && i < |nodes| == |tasks| && tasks[i] != Finished && Reported(nodes, tasks, l)
    ensures Reported(nodes, tasks[i := task], l) && l.node != nodes[i].name
  {
    var j :| 0 <= j < |nodes| && tasks[j] == Finished && l == LossOf(nodes[j]);
    assert tasks[i := task][j] == Finished;
    assert nodes[j].name != nodes[i].name by { assert j < i || i < j; }
  }

  // A whole supervision: record attempts, then closings, then the disposal.
  ghost predicate FinishedLog(nodes: seq<Node>, losses: seq<Loss>, log: seq<Effect>) {
    && |losses| <= |log| && RecordsOf(losses, log[..|losses|])
    && log[|losses|..] == Closings(nodes) + Dispose(losses)
  }

  // What such a log means: the data is deleted exactly when no required loss was recorded; every
  // record attempt comes before the lock is released, and closing connections makes none; the
  // last one lists every loss; after a required loss the release is the very last effect.
  lemma {:induction false} DisposalFollowsLosses(nodes: seq<Node>, losses: seq<Loss>, log: seq<Effect>, r: nat)
    requires FinishedLog(nodes, losses, log) && r < |log| && log[r] == LockReleased
    ensures DataDeleted in log <==> !AnyRequired(losses)
    ensures AnyRequired(losses) ==> r == |log| - 1
    ensures forall k :: 0 <= k < |log| && log[k].Recorded? ==> k < |losses| <= r
    ensures losses != [] ==>
              var last := log[|losses| - 1];
              last.Recorded? && last.payload == Payload(AnyRequired(losses), losses)
    ensures forall i :: 0 <= i < |nodes| ==> log[|losses| + i] == ConnectionClosed(nodes[i].name)
  {
    FinishedAt(nodes, losses, log);
    var n := |losses|;
    if !AnyRequired(losses) { assert log[|log| - 1] == DataDeleted; }
    assert losses[..n] == losses;
    assert n > 0 ==> Lists(losses, n - 1, log[n - 1]);
  }

  // The log of a whole supervision, place by place.
  lemma {:induction false} FinishedAt(nodes: seq<Node>, losses: seq<Loss>, log: seq<Effect>)
    requires FinishedLog(nodes, losses, log)
    ensures |log| == |losses| + |nodes| + |Dispose(losses)|
    ensures forall k :: 0 <= k < |losses| ==> Lists(losses, k, log[k])
    ensures forall k :: 0 <= k < |nodes| ==> log[|losses| + k] == ConnectionClosed(nodes[k].name)
    ensures log[|losses| + |nodes|] == LockReleased
    ensures !AnyRequired(losses) ==> log[|losses| + |nodes| + 1] == DataDeleted
    ensures forall k :: |losses| <= k < |losses| + |nodes| ==> log[k].ConnectionClosed?
  {
    var n, m := |losses|, |nodes|;
    var tail := log[n..];
    assert |Closings(nodes)| == m;
    forall k | 0 <= k < n
      ensures Lists(losses, k, log[k])
    {
      assert log[..n][k] == log[k];
    }
    forall k | 0 <= k < m
      ensures log[n + k] == ConnectionClosed(nodes[k].name)
    {
      assert tail[k] == Closings(nodes)[k];
    }
    forall k | n <= k < n + m
      ensures log[k].ConnectionClosed?
    {
      assert log[n + (k - n)] == ConnectionClosed(nodes[k - n].name);
    }
    assert tail[m] == Dispose(losses)[0];
    assert !AnyRequired(losses) ==> tail[m + 1] == Dispose(losses)[1];
  }

  class Supervision {
    const nodes: seq<Node>  // manager.live_nodes()
    var tasks: seq<Task>
    var losses: seq<Loss>
    var stopSet: bool
    var log: seq<Effect>
    var closed: nat         // connections stop_all has closed so far

    constructor (nodes: seq<Node>)
      requires DistinctNames(nodes)
      ensures this.nodes == nodes && losses == [] && log == [] && !stopSet && closed == 0
      ensures tasks == seq(|nodes|, _ => Watching) && Valid()
    {
      this.nodes, losses, stopSet, log, closed := nodes, [], false, [], 0;
      tasks := seq(|nodes|, _ => Watching);
    }

    ghost predicate Valid()
      reads this
    {
      && DistinctNames(nodes)
      && |tasks| == |nodes|
      && closed <= |nodes| && |losses| <= |log|
      && RecordsOf(losses, log[..|losses|]) && log[|losses|..] == Closings(nodes)[..closed]
      && (forall k :: 0 <= k < |losses| ==> Reported(nodes, tasks, losses[k]))
      && (forall i :: 0 <= i < |nodes| && tasks[i] == Finished ==> LossOf(nodes[i]) in losses)
      && (forall j, k :: 0 <= j < k < |losses| ==> losses[j].node != losses[k].node)
      && (AnyRequired(losses) ==> stopSet)
    }

    // The body of _tunnel_loss_watchdog once wait_closed() has returned. A failing write is ignored.
    method RunWatchdog(i: nat)
      requires Valid() && i < |nodes| && (tasks[i] == Runnable ==> closed == 0)
      modifies this
      ensures Valid() && closed == old(closed)
      ensures old(tasks)[i] != Runnable ==>
                losses == old(losses) && tasks == old(tasks) && stopSet == old(stopSet) && log == old(log)
      ensures old(tasks)[i] == Runnable ==>
                && losses == old(losses) + [Loss(nodes[i].name, nodes[i].required)]
                && tasks == old(tasks)[i := Finished]
                && stopSet == (old(stopSet) || nodes[i].required)
                && exists written :: log == old(log) + [Recorded(Payload(AnyRequired(losses), losses), written)]
    {
      if tasks[i] != Runnable { return; }
      var loss := LossOf(nodes[i]);
      ghost var before, records, was := losses, log, tasks;
      assert records[..|before|] == records;
      losses := losses + [loss];
      var written: bool := *;
      log := log + [Recorded(PayloadOf(losses), written)];
      if nodes[i].required { stopSet := true; }
      tasks := tasks[i := Finished];
      RecordsGrow(before, records, loss, written);
      AnyRequiredGrows(before, loss);
      assert log[..|losses|] == log;
      forall k | 0 <= k < |losses|
        ensures Reported(nodes, tasks, losses[k]) && (k < |before| ==> losses[k].node != loss.node)
      {
        if k < |before| {
          ReportedStays(nodes, was, i, Finished, before[k]);
        } else {
          assert tasks[i] == Finished;
        }
      }
    }

    // The event loop marks a waiting watchdog runnable.
    method Wake(i: nat)
      requires Valid() && i < |nodes|
      modifies this
      ensures Valid() && losses == old(losses) && log == old(log) && stopSet == old(stopSet) && closed == old(closed)
      ensures tasks == if old(tasks)[i] == Watching then old(tasks)[i := Runnable] else old(tasks)
    {
      if tasks[i] == Watching {
        ghost var was := tasks;
        tasks := tasks[i := Runnable];
        forall k | 0 <= k < |losses| ensures Reported(nodes, tasks, losses[k]) {
          ReportedStays(nodes, was, i, Runnable, losses[k]);
        }
      }
    }

    // One callback of the event loop while _supervise waits for the stop event.
    method Advance(t: Tick)
      requires Valid() && closed == 0
      modifies this
      ensures Valid() && closed == 0
      ensures tasks == NextTasks(old(tasks), t)
      ensures stopSet == (old(stopSet) || Asks(nodes, old(tasks), t))
      ensures losses == old(losses) + LostNow(nodes, old(tasks), t)
    {
      match t
      case Drops(i) => if i < |nodes| { Wake(i); }
      case Runs(i) => if i < |nodes| { RunWatchdog(i); }
      case Signal => SetStop();
      case IdleExpires => SetStop();
      case MainRuns =>
    }

    method SetStop()
      requires Valid()
      modifies `stopSet
      ensures Valid() && stopSet && tasks == old(tasks) && losses == old(losses)
    {
      stopSet := true;
    }

    method CancelWatchdogs()
      requires Valid() && closed == 0
      modifies this
      ensures Valid() && closed == 0 && losses == old(losses) && log == old(log)
      ensures forall i :: 0 <= i < |nodes| ==> tasks[i] in {Finished, Cancelled}
    {
      var i := 0;
      while i < |nodes|
        invariant 0 <= i <= |nodes| && Valid() && closed == 0
        invariant losses == old(losses) && log == old(log)
        invariant forall j :: 0 <= j < i ==> tasks[j] in {Finished, Cancelled}
      {
        if tasks[i] != Finished {
          ghost var before := tasks;
          tasks := tasks[i := Cancelled];
          forall k | 0 <= k < |losses| ensures Reported(nodes, tasks, losses[k]) {
            ReportedStays(nodes, before, i, Cancelled, losses[k]);
          }
        }
        i := i + 1;
      }
    }

    // Closing a connection completes its wait_closed(): a watchdog still waiting would now run
    // and take the shutdown for a loss.
    method CloseNext()
      requires Valid() && closed < |nodes|
      requires forall i :: 0 <= i < |nodes| ==> tasks[i] in {Finished, Cancelled}
      modifies this
      ensures Valid() && closed == old(closed) + 1
      ensures losses == old(losses) && tasks == old(tasks)
      ensures log == old(log) + [ConnectionClosed(nodes[old(closed)].name)]
    {
      var i := closed;
      log := log + [ConnectionClosed(nodes[i].name)];
      closed := closed + 1;
      assert Closings(nodes)[..i + 1] == Closings(nodes)[..i] + [ConnectionClosed(nodes[i].name)];
      assert log[..|losses|] == old(log)[..|losses|];
      Wake(i);
      RunWatchdog(i);
    }

    // await stop_event.wait(): callbacks run until the event is set and _supervise is resumed.
    method Wait(schedule: seq<Tick>) returns (end: nat, ghost turns: seq<nat>)
      requires Valid() && losses == [] && log == [] && !stopSet && closed == 0
      requires forall i :: 0 <= i < |nodes| ==> tasks[i] == Watching
      modifies this
      ensures Valid() && closed == 0 && Resumes(nodes, schedule, end) && InTurn(nodes, schedule, end, losses, turns)
      ensures forall i: nat :: i < |nodes| ==> (LossOf(nodes[i]) in losses <==> Ran(schedule, end, i))
    {
      end, turns := 0, [];
      while end < |schedule| && !(schedule[end] == MainRuns && stopSet)
        invariant 0 <= end <= |schedule| && Valid() && closed == 0
        invariant Standing(nodes, tasks, losses, stopSet, schedule, end, turns)
      {
        turns := StandingNext(nodes, tasks, losses, stopSet, schedule, end, turns);
        Advance(schedule[end]);
        end := end + 1;
      }
      LostMeansRan(nodes, tasks, losses, schedule, end);
    }

    // _supervise, for any schedule. `end` is the number of callbacks before it resumes.
    method Run(schedule: seq<Tick>) returns (end: nat, ghost turns: seq<nat>)
      requires Valid() && losses == [] && log == [] && !stopSet && closed == 0
      requires forall i :: 0 <= i < |nodes| ==> tasks[i] == Watching
      modifies this
      ensures Resumes(nodes, schedule, end)
      ensures end == |schedule| ==> RecordsOf(losses, log)
      ensures end < |schedule| ==> FinishedLog(nodes, losses, log)
      // the losses are those of the nodes whose watchdog ran in time, with their own names and flags,
      // each once, in the order of the turns
      ensures forall i: nat :: i < |nodes| ==>
                (Loss(nodes[i].name, nodes[i].required) in losses <==> Ran(schedule, end, i))
      ensures InTurn(nodes, schedule, end, losses, turns)
      ensures forall j, k :: 0 <= j < k < |losses| ==> losses[j].node != losses[k].node
      ensures AnyRequired(losses) <==> LostRequired(nodes, schedule, end)
      // and the data goes exactly when none of them is required
      ensures LockReleased in log <==> end < |schedule|
      ensures DataDeleted in log <==> end < |schedule| && !LostRequired(nodes, schedule, end)
    {
      end, turns := Wait(schedule);
      assert log[..|losses|] == log;
      RequiredExactly(nodes, schedule, end, losses, turns);
      if end == |schedule| {
        OnlyRecords(losses, log);
        return;
      }
      CancelWatchdogs();
      ghost var atStop := losses;
      while closed < |nodes|
        invariant Valid() && closed <= |nodes|
        invariant losses == atStop
        invariant forall i :: 0 <= i < |nodes| ==> tasks[i] in {Finished, Cancelled}
        decreases |nodes| - closed
      {
        CloseNext();
      }
      ghost var sofar := log;
      assert Closings(nodes)[..|nodes|] == Closings(nodes);
      if AnyRequired(losses) {
        log := log + [LockReleased];
      } else {
        log := log + [LockReleased] + [DataDeleted];
      }
      assert log == sofar + Dispose(losses);
      assert log[..|losses|] == sofar[..|losses|];
      assert log[|losses|..] == sofar[|losses|..] + Dispose(losses);
      DisposedAt(nodes, losses, log);
    }
  }

  // While no disposal has been made the log holds record attempts only.
  lemma {:induction false} OnlyRecords(losses: seq<Loss>, log: seq<Effect>)
    requires RecordsOf(losses, log)
    ensures LockReleased !in log && DataDeleted !in log
  {
    assert forall k :: 0 <= k < |log| ==> Lists(losses, k, log[k]);
  }

  lemma {:induction false} DisposedAt(nodes: seq<Node>, losses: seq<Loss>, log: seq<Effect>)
    requires FinishedLog(nodes, losses, log)
    ensures LockReleased in log && (DataDeleted in log <==> !AnyRequired(losses))
  {
    FinishedAt(nodes, losses, log);
    DisposalFollowsLosses(nodes, losses, log, |losses| + |nodes|);
  }

  // ------------------------------------------------- what a schedule amounts to

  ghost predicate Dropped(schedule: seq<Tick>, n: nat, i: nat)
    requires n <= |schedule|
  {
    exists d :: 0 <= d < n && schedule[d] == Drops(i)
  }

  // The watchdog of node i was run by the event loop after its connection dropped.
  ghost predicate Ran(schedule: seq<Tick>, n: nat, i: nat)
    requires n <= |schedule|
  {
    exists r :: 0 <= r < n && schedule[r] == Runs(i) && Dropped(schedule, r, i)
  }

  // The watchdog of a required node ran in time.
  ghost predicate LostRequired(nodes: seq<Node>, schedule: seq<Tick>, n: nat)
    requires n <= |schedule|
  {
    exists i: nat :: i < |nodes| && nodes[i].required && Ran(schedule, n, i)
  }

  // The k-th loss is that of the node whose watchdog ran in turn turns[k].
  ghost predicate InTurn(nodes: seq<Node>, schedule: seq<Tick>, n: nat, losses: seq<Loss>, turns: seq<nat>)
    requires n <= |schedule|
  {
    && |turns| == |losses|
    && (forall j, k :: 0 <= j < k < |turns| ==> turns[j] < turns[k])
    && forall k :: 0 <= k < |turns| ==> turns[k] < n && LosesAt(nodes, schedule, turns[k], losses[k])
  }

  ghost predicate LosesAt(nodes: seq<Node>, schedule: seq<Tick>, u: nat, l: Loss)
    requires u < |schedule|
  {
    && schedule[u].Runs? && schedule[u].i < |nodes| && Dropped(schedule, u, schedule[u].i)
    && l == Loss(nodes[schedule[u].i].name, nodes[schedule[u].i].required)
  }

  // What one callback adds to the losses.
  function LostNow(nodes: seq<Node>, tasks: seq<Task>, t: Tick): seq<Loss>
    requires |tasks| == |nodes|
  {
    if t.Runs? && t.i < |nodes| && tasks[t.i] == Runnable then [Loss(nodes[t.i].name, nodes[t.i].required)] else []
  }

  lemma {:induction false} TurnsNext(nodes: seq<Node>, schedule: seq<Tick>, n: nat, losses: seq<Loss>, turns: seq<nat>,
                                     tasks: seq<Task>)
    returns (more: seq<nat>)
    requires n < |schedule| && InTurn(nodes, schedule, n, losses, turns) && |tasks| == |nodes|
    requires forall i: nat :: i < |tasks| ==> tasks[i] == TaskAt(schedule, n, i)
    ensures InTurn(nodes, schedule, n + 1, losses + LostNow(nodes, tasks, schedule[n]), more)
  {
    more := turns + if LostNow(nodes, tasks, schedule[n]) == [] then [] else [n];
    var longer := losses + LostNow(nodes, tasks, schedule[n]);
    forall k | 0 <= k < |more|
      ensures more[k] < n + 1 && LosesAt(nodes, schedule, more[k], longer[k])
    {
      if k < |turns| { assert LosesAt(nodes, schedule, turns[k], losses[k]); }
    }
  }

  // Where the wait stands after n callbacks.
  ghost predicate Standing(nodes: seq<Node>, tasks: seq<Task>, losses: seq<Loss>, stopSet: bool, schedule: seq<Tick>,
                           n: nat, turns: seq<nat>)
    requires n <= |schedule|
  {
    && |tasks| == |nodes| && (forall i: nat :: i < |nodes| ==> tasks[i] == TaskAt(schedule, n, i))
    && (stopSet <==> StopAsked(nodes, schedule, n))
    && (forall u :: 0 <= u < n && schedule[u] == MainRuns ==> !StopAsked(nodes, schedule, u))
    && InTurn(nodes, schedule, n, losses, turns)
  }

  lemma {:induction false} StandingNext(nodes: seq<Node>, tasks: seq<Task>, losses: seq<Loss>, stopSet: bool,
                                        schedule: seq<Tick>, n: nat, turns: seq<nat>)
    returns (more: seq<nat>)
    requires n < |schedule| && Standing(nodes, tasks, losses, stopSet, schedule, n, turns)
    requires !(schedule[n] == MainRuns && stopSet)
    ensures Standing(nodes, NextTasks(tasks, schedule[n]), losses + LostNow(nodes, tasks, schedule[n]),
                     stopSet || Asks(nodes, tasks, schedule[n]), schedule, n + 1, more)
  {
    StopAskedNext(nodes, tasks, schedule, n);
    TasksNext(tasks, schedule, n);
    more := TurnsNext(nodes, schedule, n, losses, turns, tasks);
  }

  // A required loss is recorded exactly when the watchdog of a required node ran.
  lemma {:induction false} RequiredExactly(nodes: seq<Node>, schedule: seq<Tick>, n: nat, losses: seq<Loss>,
                                           turns: seq<nat>)
    requires n <= |schedule| && InTurn(nodes, schedule, n, losses, turns)
    requires forall i: nat :: i < |nodes| ==> (LossOf(nodes[i]) in losses <==> Ran(schedule, n, i))
    ensures AnyRequired(losses) <==> LostRequired(nodes, schedule, n)
  {
    if AnyRequired(losses) {
      var k :| 0 <= k < |losses| && losses[k].required;
      assert LosesAt(nodes, schedule, turns[k], losses[k]);
      var i := schedule[turns[k]].i;
      assert Ran(schedule, n, i);
    }
    if i: nat :| i < |nodes| && nodes[i].required && Ran(schedule, n, i) {
      var k :| 0 <= k < |losses| && losses[k] == LossOf(nodes[i]);
      assert losses[k].required;
    }
  }

  // Something has asked for a stop: a signal, idle expiry, or the watchdog of a required node.
  ghost predicate StopAsked(nodes: seq<Node>, schedule: seq<Tick>, n: nat)
    requires n <= |schedule|
  {
    exists u :: 0 <= u < n && StopAskedAt(nodes, schedule, u)
  }

  ghost predicate StopAskedAt(nodes: seq<Node>, schedule: seq<Tick>, u: nat)
    requires u < |schedule|
  {
    match schedule[u]
    case Signal => true
    case IdleExpires => true
    case Runs(i) => i < |nodes| && nodes[i].required && Dropped(schedule, u, i)
    case _ => false
  }

  // _supervise goes on at the first turn it gets after a stop was asked for.
  ghost predicate Resumes(nodes: seq<Node>, schedule: seq<Tick>, end: nat) {
    && end <= |schedule|
    && (end < |schedule| ==> schedule[end] == MainRuns && StopAsked(nodes, schedule, end))
    && forall u :: 0 <= u < end && schedule[u] == MainRuns ==> !StopAsked(nodes, schedule, u)
  }

  // A signal, idle expiry, or the loss of a required node that the loop has seen.
  ghost predicate Reason(nodes: seq<Node>, schedule: seq<Tick>, u: nat)
    requires u < |schedule|
  {
    schedule[u] == Signal || schedule[u] == IdleExpires
    || exists i: nat :: i < |nodes| && schedule[u] == Runs(i) && nodes[i].required && Dropped(schedule, u, i)
  }

  // It goes on only after a reason, and the first turn it gets after one is the last it waits for.
  lemma {:induction false} ResumesExactly(nodes: seq<Node>, schedule: seq<Tick>, end: nat)
    requires Resumes(nodes, schedule, end)
    ensures end < |schedule| ==> schedule[end] == MainRuns && exists u :: 0 <= u < end && Reason(nodes, schedule, u)
    ensures forall u, v :: 0 <= u < v < |schedule| && Reason(nodes, schedule, u) && schedule[v] == MainRuns ==> end <= v
  {
    forall u | 0 <= u < |schedule|
      ensures Reason(nodes, schedule, u) <==> StopAskedAt(nodes, schedule, u)
    {
    }
    forall u, v | 0 <= u < v < |schedule| && Reason(nodes, schedule, u) && schedule[v] == MainRuns
      ensures end <= v
    {
      assert StopAskedAt(nodes, schedule, u) && StopAsked(nodes, schedule, v);
    }
  }

  function NextTasks(tasks: seq<Task>, t: Tick): seq<Task> {
    match t
    case Drops(i) => if i < |tasks| && tasks[i] == Watching then tasks[i := Runnable] else tasks
    case Runs(i) => if i < |tasks| && tasks[i] == Runnable then tasks[i := Finished] else tasks
    case _ => tasks
  }

  predicate Asks(nodes: seq<Node>, tasks: seq<Task>, t: Tick)
    requires |tasks| == |nodes|
  {
    match t
    case Signal => true
    case IdleExpires => true
    case Runs(i) => i < |nodes| && nodes[i].required && tasks[i] == Runnable
    case _ => false
  }

  ghost function TaskAt(schedule: seq<Tick>, n: nat, i: nat): Task
    requires n <= |schedule|
  {
    if Ran(schedule, n, i) then Finished else if Dropped(schedule, n, i) then Runnable else Watching
  }

  lemma {:induction false} TaskAtNext(schedule: seq<Tick>, n: nat, i: nat)
    requires n < |schedule|
    ensures TaskAt(schedule, n + 1, i) ==
            if schedule[n] == Drops(i) && TaskAt(schedule, n, i) == Watching then Runnable
            else if schedule[n] == Runs(i) && TaskAt(schedule, n, i) == Runnable then Finished
            else TaskAt(schedule, n, i)
  {
    assert Dropped(schedule, n + 1, i) <==> Dropped(schedule, n, i) || schedule[n] == Drops(i);
    assert Ran(schedule, n + 1, i) <==> Ran(schedule, n, i) || (schedule[n] == Runs(i) && Dropped(schedule, n, i));
    RanMeansDropped(schedule, n, i);
  }

  lemma {:induction false} RanMeansDropped(schedule: seq<Tick>, n: nat, i: nat)
    requires n <= |schedule|
    ensures Ran(schedule, n, i) ==> Dropped(schedule, n, i)
  {
    if Ran(schedule, n, i) {
      var r :| 0 <= r < n && schedule[r] == Runs(i) && Dropped(schedule, r, i);
      var d :| 0 <= d < r && schedule[d] == Drops(i);
    }
  }

  lemma {:induction false} TasksNext(tasks: seq<Task>, schedule: seq<Tick>, n: nat)
    requires n < |schedule| && forall i: nat :: i < |tasks| ==> tasks[i] == TaskAt(schedule, n, i)
    ensures forall i: nat :: i < |tasks| ==> NextTasks(tasks, schedule[n])[i] == TaskAt(schedule, n + 1, i)
  {
    forall i: nat | i < |tasks|
      ensures NextTasks(tasks, schedule[n])[i] == TaskAt(schedule, n + 1, i)
    {
      TaskAtNext(schedule, n, i);
    }
  }

  // A required watchdog that is about to run a second time has asked before.
  lemma {:induction false} StopAskedNext(nodes: seq<Node>, tasks: seq<Task>, schedule: seq<Tick>, n: nat)
    requires n < |schedule| && |tasks| == |nodes| && forall i: nat :: i < |tasks| ==> tasks[i] == TaskAt(schedule, n, i)
    ensures StopAsked(nodes, schedule, n + 1) <==> StopAsked(nodes, schedule, n) || Asks(nodes, tasks, schedule[n])
  {
    assert StopAsked(nodes, schedule, n + 1) <==> StopAsked(nodes, schedule, n) || StopAskedAt(nodes, schedule, n);
    if schedule[n].Runs? && schedule[n].i < |nodes| {
      var i := schedule[n].i;
      RanMeansDropped(schedule, n, i);
      if nodes[i].required && Ran(schedule, n, i) {
        var r :| 0 <= r < n && schedule[r] == Runs(i) && Dropped(schedule, r, i);
        assert StopAskedAt(nodes, schedule, r);
      }
    }
  }

  lemma {:induction false} LostMeansRan(nodes: seq<Node>, tasks: seq<Task>, losses: seq<Loss>, schedule: seq<Tick>,
                                        n: nat)
    requires DistinctNames(nodes) && |tasks| == |nodes| && n <= |schedule|
    requires forall k :: 0 <= k < |losses| ==> Reported(nodes, tasks, losses[k])
    requires forall i :: 0 <= i < |nodes| && tasks[i] == Finished ==> LossOf(nodes[i]) in losses
    requires forall i: nat :: i < |nodes| ==> tasks[i] == TaskAt(schedule, n, i)
    ensures forall i: nat :: i < |nodes| ==> (LossOf(nodes[i]) in losses <==> Ran(schedule, n, i))
  {
    forall i: nat | i < |nodes|
      ensures LossOf(nodes[i]) in losses <==> Ran(schedule, n, i)
    {
      if LossOf(nodes[i]) in losses {
        var k :| 0 <= k < |losses| && losses[k] == LossOf(nodes[i]);
        ReportedMeansFinished(nodes, tasks, i);
      }
    }
  }

  lemma {:induction false} ReportedMeansFinished(nodes: seq<Node>, tasks: seq<Task>, i: nat)
    requires DistinctNames(nodes) && i < |nodes| == |tasks| && Reported(nodes, tasks, LossOf(nodes[i]))
    ensures tasks[i] == Finished
  {
    var j :| 0 <= j < |nodes| && tasks[j] == Finished && LossOf(nodes[i]) == LossOf(nodes[j]);
    assert nodes[i].name == nodes[j].name;
    assert i == j by { assert !(i < j) && !(j < i); }
  }
}
