/**
  `stop_session`, the `stop` command and the teardown of `run`
  (tunstrap/session.py, tunstrap/cli_stop.py, tunstrap/cli.py), step by step
  against a host whose answers are arbitrary. Every call is logged; the
  contracts say that the log is one StopScript accepts, that the outcome is
  the one the log calls for, and how long it all takes.
*/
module StopSession {
  import opened Wrappers
  import opened StopScript

  datatype Reason =
    | NoReason | NotFoundReason | IdentityMismatch | CheckUnavailable
    | StillAlive | IdentityChanged | UnreadableIdentity

  datatype StopOutcome = StopOutcome(stopped: bool, reason: Reason, forced: bool)

  // A Python call either returns or raises.
  datatype Ended<+T> = Returned(value: T) | Raised

  // _stop_resolved: the daemon is known to be gone.
  predicate Resolved(o: StopOutcome) { o.stopped || o.reason == NotFoundReason }

  // The keys of stop's JSON envelope.
  datatype Envelope = Envelope(stopped: bool, reason: Reason, forced: bool, preserved: bool)

  function RenderEnvelope(o: StopOutcome): (e: Envelope)
    ensures e.preserved <==> !Resolved(o)
  {
    Envelope(o.stopped, o.reason, o.forced, !Resolved(o))
  }

  // What read_text and int() make of daemon.pid.
  datatype PidText = Absent | Unusable | Number(n: int)

  // Time is in milliseconds; `lag` bounds what one call may take on its own account.
  class Host {
    var log: seq<Event>
    var now: int
    const lag: nat

    constructor (lag: nat)
      ensures log == [] && this.lag == lag
    {
      log, now, this.lag := [], 0, lag;
    }

    method Did(e: Event)
      modifies this
      ensures log == old(log) + [e] && old(now) <= now <= old(now) + lag
    {
      var spent: int :| 0 <= spent <= lag;
      log, now := log + [e], now + spent;
    }

    // read_identity: a pid that is not positive is as unreadable as no pid at all.
    method ReadPid() returns (id: Identity)
      modifies this
      ensures log == old(log) + [ReadIdentity(id)] && old(now) <= now <= old(now) + lag
      ensures id.Recorded? ==> id.pid > 0
    {
      var text: PidText := *;
      id := match text
            case Absent => Missing
            case Unusable => Unreadable
            case Number(n) => if n <= 0 then Unreadable else Recorded(n);
      Did(ReadIdentity(id));
    }

    method VerifySession(pid: int) returns (answer: Check)
      modifies this
      ensures log == old(log) + [Verified(pid, answer)] && old(now) <= now <= old(now) + lag
    {
      answer := *;
      Did(Verified(pid, answer));
    }

    method Terminate(pid: int) returns (d: Delivery)
      modifies this
      ensures log == old(log) + [Terminated(pid, d)] && old(now) <= now <= old(now) + lag
    {
      d := *;
      Did(Terminated(pid, d));
    }

    method Kill(pid: int) returns (d: Delivery)
      modifies this
      ensures log == old(log) + [Killed(pid, d)] && old(now) <= now <= old(now) + lag
    {
      d := *;
      Did(Killed(pid, d));
    }

    method HasExited(pid: int) returns (r: Probe)
      modifies this
      ensures log == old(log) + [Polled(pid, r)] && old(now) <= now <= old(now) + lag
    {
      r := *;
      Did(Polled(pid, r));
    }

    // time.sleep(0.5); an interrupt may end it with an exception.
    method Sleep() returns (interrupted: bool)
      modifies this
      ensures log == if interrupted then old(log) + [Interrupted] else old(log)
      ensures now <= old(now) + 500 + lag && (!interrupted ==> now >= old(now) + 500)
    {
      var spent: int :| 0 <= spent <= lag;
      interrupted := *;
      if interrupted {
        log := log + [Interrupted];
      } else {
        now := now + 500 + spent;
      }
    }

    // Between two calls: an exception (a second Ctrl-C) may land here.
    method Checkpoint() returns (interrupted: bool)
      modifies this
      ensures log == (if interrupted then old(log) + [Interrupted] else old(log)) && now == old(now)
    {
      interrupted := *;
      if interrupted { log := log + [Interrupted]; }
    }
  }

  function Max(a: int, b: int): int { if a < b then b else a }

  // The outcome a log of stop_session's calls stands for.
  function Verdict(log: seq<Event>): Ended<StopOutcome>
    requires log != []
  {
    match log[|log| - 1]
    case Verified(_, answer) =>
      if |log| > 1 then Returned(StopOutcome(false, IdentityChanged, false))
      else Returned(StopOutcome(false, match answer
                                       case NotFound => NotFoundReason
                                       case Mismatch => IdentityMismatch
                                       case _ => CheckUnavailable, false))
    case Terminated(_, Gone) => Returned(StopOutcome(true, NoReason, false))
    case Polled(_, Exited) => Returned(StopOutcome(true, NoReason, false))
    case Deadline => Returned(StopOutcome(false, StillAlive, false))
    case Killed(_, Gone) => Returned(StopOutcome(true, NoReason, false))
    case Killed(_, Delivered) => Returned(StopOutcome(true, NoReason, true))
    case _ => Raised
  }

  predicate ResolvedEnd(r: Ended<StopOutcome>) { r.Returned? && Resolved(r.value) }

  // `tail` is what has been logged since `start`, and leads the automaton to `pc`.
  ghost predicate At(verb: Verb, pid: int, start: seq<Event>, log: seq<Event>, tail: seq<Event>, pc: Pc) {
    log == start + tail && Follow(verb, Addressed(pid), tail) == Some(pc)
  }

  // stop_session does not give up halfway: it stops when the question is decided, or when the
  // grace period is over and it may not force.
  predicate Final(pc: Pc, pid: int, force: bool) { pc == Cleared || pc == Kept || (!force && pc == Expired(pid)) }

  // The calls logged since `start` are allowed and lead to a final state, `r` is the outcome they stand for, and it is
  // resolved exactly when they allow the deletion.
  ghost predicate Settled(verb: Verb, pid: int, force: bool, start: seq<Event>, log: seq<Event>,
                          r: Ended<StopOutcome>) {
    start <= log &&
    var tail := log[|start|..];
    && tail != [] && r == Verdict(tail)
    && Follow(verb, Addressed(pid), tail).Some?
    && Final(Follow(verb, Addressed(pid), tail).value, pid, force)
    && (ResolvedEnd(r) <==> Follow(verb, Addressed(pid), tail) == Some(Cleared))
  }

  lemma {:induction false} Settles(verb: Verb, pid: int, force: bool, start: seq<Event>, log: seq<Event>,
                                   tail: seq<Event>, pc: Pc, r: Ended<StopOutcome>)
    requires At(verb, pid, start, log, tail, pc) && tail != [] && r == Verdict(tail)
    requires Final(pc, pid, force) && (ResolvedEnd(r) <==> pc == Cleared)
    ensures Settled(verb, pid, force, start, log, r)
  {
    assert log[|start|..] == tail;
  }

  // The outcomes of a stop that has waited out its grace period.
  predicate OutOfGrace(r: Ended<StopOutcome>) {
    r.Returned? && (r.value.forced || r.value.reason in {StillAlive, IdentityChanged})
  }

  // An exception that lands between two calls of stop_session leaves it and keeps the data.
  method CutShort(h: Host, verb: Verb, pid: int, ghost force: bool, ghost start: seq<Event>, ghost tail: seq<Event>,
                  ghost pc: Pc)
    returns (raised: bool)
    requires At(verb, pid, start, h.log, tail, pc) && pc != Cleaned
    modifies h
    ensures raised ==> Settled(verb, pid, force, start, h.log, Raised) && old(h.log) <= h.log
    ensures !raised ==> h.log == old(h.log)
    ensures h.now == old(h.now)
  {
    ghost var before := h.log;
    raised := h.Checkpoint();
    if raised {
      ghost var longer, next := Note(verb, pid, start, before, tail, pc, Interrupted);
      Settles(verb, pid, force, start, h.log, longer, next, Raised);
    }
  }

  method Stop(h: Host, verb: Verb, pid: int, graceSeconds: int, force: bool) returns (r: Ended<StopOutcome>)
    modifies h
    ensures pid <= 0 ==> h.log == old(h.log) && r == Returned(StopOutcome(false, CheckUnavailable, false))
    ensures pid > 0 ==> Settled(verb, pid, force, old(h.log), h.log, r)
    ensures !force ==> r != Returned(StopOutcome(true, NoReason, true))
    ensures OutOfGrace(r) ==> h.now >= old(h.now) + 1000 * Max(0, graceSeconds)
    ensures h.now <= old(h.now) + 1000 * Max(0, graceSeconds) + 500 + 6 * h.lag
    // no polling interval is skipped: an expired grace period was polled throughout
    ensures OutOfGrace(r) ==> (|h.log| - |old(h.log)|) * (500 + 2 * h.lag) >= 1000 * Max(0, graceSeconds)
  {
    if pid <= 0 { return Returned(StopOutcome(false, CheckUnavailable, false)); }
    ghost var start := h.log;
    var refused;
    ghost var tail;
    refused, tail := Ask(h, verb, pid, force);
    if refused.Some? { return refused.value; }
    r := TerminateAndWait(h, verb, pid, graceSeconds, force, start, tail);
  }

  // The first verification; None when it answered match.
  method Ask(h: Host, verb: Verb, pid: int, ghost force: bool)
    returns (r: Option<Ended<StopOutcome>>, ghost tail: seq<Event>)
    requires pid > 0
    modifies h
    ensures old(h.log) <= h.log && h.now <= old(h.now) + h.lag && old(h.now) <= h.now
    ensures r.Some? ==> Settled(verb, pid, force, old(h.log), h.log, r.value) && !OutOfGrace(r.value)
    ensures r.None? ==> At(verb, pid, old(h.log), h.log, tail, Matched(pid)) && |tail| == 1
  {
    ghost var start, pc := h.log, Addressed(pid);
    tail := [];
    assert start + [] == start;
    var raised := CutShort(h, verb, pid, force, start, tail, pc);
    if raised { return Some(Raised), tail; }
    var check := h.VerifySession(pid);
    tail, pc := Note(verb, pid, start, start, tail, pc, Verified(pid, check));
    if check == Match { return None, tail; }
    r := Some(Returned(StopOutcome(false, match check
                                          case NotFound => NotFoundReason
                                          case Mismatch => IdentityMismatch
                                          case _ => CheckUnavailable, false)));
    Settles(verb, pid, force, start, h.log, tail, pc, r.value);
  }

  // stop_session from the first verification on, which answered match.
  method TerminateAndWait(h: Host, verb: Verb, pid: int, graceSeconds: int, force: bool, ghost start: seq<Event>,
                          ghost sofar: seq<Event>)
    returns (r: Ended<StopOutcome>)
    requires pid > 0 && At(verb, pid, start, h.log, sofar, Matched(pid)) && |sofar| == 1
    modifies h
    ensures Settled(verb, pid, force, start, h.log, r)
    ensures !force ==> r != Returned(StopOutcome(true, NoReason, true))
    ensures OutOfGrace(r) ==> h.now >= old(h.now) + 1000 * Max(0, graceSeconds)
    ensures h.now <= old(h.now) + 1000 * Max(0, graceSeconds) + 500 + 5 * h.lag
    ensures OutOfGrace(r) ==> (|h.log| - |old(h.log)|) * (500 + 2 * h.lag) >= 1000 * Max(0, graceSeconds)
  {
    ghost var tail, pc := sofar, Matched(pid);
    var raised := CutShort(h, verb, pid, force, start, tail, pc);
    if raised { return Raised; }
    ghost var before := h.log;
    var sent := h.Terminate(pid);
    tail, pc := Note(verb, pid, start, before, tail, pc, Terminated(pid, sent));
    if sent != Delivered {
      r := if sent == Gone then Returned(StopOutcome(true, NoReason, false)) else Raised;
      Settles(verb, pid, force, start, h.log, tail, pc, r);
      return;
    }
    r := OutliveGrace(h, verb, pid, graceSeconds, force, start, tail);
    MoreIsMore(|h.log| - |before| - 1, |h.log| - |before|, 500 + 2 * h.lag);
  }

  // The grace period, and what follows it.
  method OutliveGrace(h: Host, verb: Verb, pid: int, graceSeconds: int, force: bool, ghost start: seq<Event>,
                      ghost sofar: seq<Event>)
    returns (r: Ended<StopOutcome>)
    requires pid > 0 && At(verb, pid, start, h.log, sofar, Waiting(pid)) && sofar != []
    modifies h
    ensures Settled(verb, pid, force, start, h.log, r)
    ensures !force ==> r != Returned(StopOutcome(true, NoReason, true))
    ensures OutOfGrace(r) ==> h.now >= old(h.now) + 1000 * Max(0, graceSeconds)
    ensures h.now <= old(h.now) + 1000 * Max(0, graceSeconds) + 500 + 4 * h.lag
    ensures |h.log| > |old(h.log)|
    ensures OutOfGrace(r) ==> (|h.log| - |old(h.log)|) * (500 + 2 * h.lag) >= 1000 * Max(0, graceSeconds)
  {
    var ended;
    ghost var tail;
    ended, tail := WaitOut(h, verb, pid, graceSeconds, force, start, sofar);
    if ended.Some? { return ended.value; }
    ghost var waited := |h.log|;
    var raised := CutShort(h, verb, pid, force, start, tail, Expired(pid));
    if raised { return Raised; }
    r := Escalate(h, verb, pid, force, start, tail);
    MoreIsMore(waited - |old(h.log)|, |h.log| - |old(h.log)|, 500 + 2 * h.lag);
  }

  // Poll until the process has exited or the grace period is over.
  method WaitOut(h: Host, verb: Verb, pid: int, graceSeconds: int, ghost force: bool, ghost start: seq<Event>,
                 ghost sofar: seq<Event>)
    returns (r: Option<Ended<StopOutcome>>, ghost tail: seq<Event>)
    requires At(verb, pid, start, h.log, sofar, Waiting(pid)) && sofar != []
    modifies h
    ensures r.Some? ==> Settled(verb, pid, force, start, h.log, r.value)
    ensures r.Some? ==> r.value in {Raised, Returned(StopOutcome(true, NoReason, false))}
    ensures r.None? ==> At(verb, pid, start, h.log, tail, Expired(pid)) && |tail| > 1 && tail[|tail| - 1] == Deadline
    ensures h.now <= old(h.now) + 1000 * Max(0, graceSeconds) + 500 + 2 * h.lag
    ensures r.None? ==> h.now >= old(h.now) + 1000 * Max(0, graceSeconds)
    ensures |h.log| > |old(h.log)|
    ensures r.None? ==> (|h.log| - |old(h.log)|) * (500 + 2 * h.lag) >= 1000 * Max(0, graceSeconds)
  {
    ghost var polls: nat, begun := 0, h.now;
    tail := sofar;
    var deadline := h.now + 1000 * Max(0, graceSeconds);
    while h.now < deadline
      invariant At(verb, pid, start, h.log, tail, Waiting(pid)) && tail != []
      invariant h.now <= deadline + 500 + 2 * h.lag
      invariant |h.log| == |old(h.log)| + polls && h.now <= begun + polls * (500 + 2 * h.lag)
      decreases deadline - h.now
    {
      r, tail := PollOnce(h, verb, pid, force, start, tail);
      if r.Some? { return; }
      OneMore(polls, 500 + 2 * h.lag);
      polls := polls + 1;
    }
    OneMore(polls, 500 + 2 * h.lag);
    ghost var before := h.log;
    h.log := h.log + [Deadline];
    ghost var pc;
    tail, pc := Note(verb, pid, start, before, tail, Waiting(pid), Deadline);
    r := None;
  }

  // One turn of the grace loop.
  method PollOnce(h: Host, verb: Verb, pid: int, ghost force: bool, ghost start: seq<Event>, ghost sofar: seq<Event>)
    returns (r: Option<Ended<StopOutcome>>, ghost tail: seq<Event>)
    requires At(verb, pid, start, h.log, sofar, Waiting(pid)) && sofar != []
    modifies h
    ensures r.Some? ==> Settled(verb, pid, force, start, h.log, r.value) && |h.log| > |old(h.log)|
    ensures r.Some? ==> r.value in {Raised, Returned(StopOutcome(true, NoReason, false))}
    ensures r.None? ==> At(verb, pid, start, h.log, tail, Waiting(pid)) && tail != []
    ensures r.None? ==> |h.log| == |old(h.log)| + 1 && h.now >= old(h.now) + 500
    ensures h.now <= old(h.now) + 500 + 2 * h.lag
  {
    tail := sofar;
    var raised := CutShort(h, verb, pid, force, start, tail, Waiting(pid));
    if raised { return Some(Raised), tail; }
    ghost var pc, before := Waiting(pid), h.log;
    var probe := h.HasExited(pid);
    tail, pc := Note(verb, pid, start, before, tail, pc, Polled(pid, probe));
    if probe != Alive {
      r := Some(if probe == Exited then Returned(StopOutcome(true, NoReason, false)) else Raised);
      Settles(verb, pid, force, start, h.log, tail, pc, r.value);
      return;
    }
    before := h.log;
    var interrupted := h.Sleep();
    if interrupted {
      tail, pc := Note(verb, pid, start, before, tail, pc, Interrupted);
      r := Some(Raised);
      Settles(verb, pid, force, start, h.log, tail, pc, Raised);
      return;
    }
    r := None;
  }

  lemma {:induction false} OneMore(n: nat, x: nat)
    ensures (n + 1) * x == n * x + x
  {
  }

  lemma {:induction false} MoreIsMore(n: nat, m: nat, x: nat)
    requires n <= m
    ensures n * x <= m * x
  {
  }

  // The grace period is over: SIGKILL, if asked for and if the identity still matches.
  method Escalate(h: Host, verb: Verb, pid: int, force: bool, ghost start: seq<Event>, ghost tail: seq<Event>)
    returns (r: Ended<StopOutcome>)
    requires pid > 0 && At(verb, pid, start, h.log, tail, Expired(pid)) && |tail| > 1 && tail[|tail| - 1] == Deadline
    modifies h
    ensures Settled(verb, pid, force, start, h.log, r)
    ensures !force ==> h.log == old(h.log) && r == Returned(StopOutcome(false, StillAlive, false))
    ensures old(h.now) <= h.now <= old(h.now) + 2 * h.lag && old(h.log) <= h.log
  {
    if !force {
      r := Returned(StopOutcome(false, StillAlive, false));
      Settles(verb, pid, force, start, h.log, tail, Expired(pid), r);
      return;
    }
    ghost var before := h.log;
    var check := h.VerifySession(pid);
    ghost var tail, pc := Note(verb, pid, start, before, tail, Expired(pid), Verified(pid, check));
    if check != Match {
      r := Returned(StopOutcome(false, IdentityChanged, false));
      Settles(verb, pid, force, start, h.log, tail, pc, r);
      return;
    }
    var raised := CutShort(h, verb, pid, force, start, tail, pc);
    if raised { return Raised; }
    before := h.log;
    var sent := h.Kill(pid);
    tail, pc := Note(verb, pid, start, before, tail, pc, Killed(pid, sent));
    r := match sent
      case Refused => Raised
      case Gone => Returned(StopOutcome(true, NoReason, false))
      case Delivered => Returned(StopOutcome(true, NoReason, true));
    Settles(verb, pid, force, start, h.log, tail, pc, r);
  }

  // One more logged call: the tail grows by it and the automaton takes one step.
  lemma {:induction false} Note(verb: Verb, pid: int, start: seq<Event>, log: seq<Event>, tail: seq<Event>, pc: Pc,
                                e: Event)
    returns (longer: seq<Event>, next: Pc)
    requires At(verb, pid, start, log, tail, pc) && Next(verb, pc, e).Some?
    ensures longer == tail + [e] && next == Next(verb, pc, e).value && At(verb, pid, start, log + [e], longer, next)
  {
    longer, next := tail + [e], Next(verb, pc, e).value;
    assert longer[..|tail|] == tail;
    assert log + [e] == start + longer;
  }

  lemma {:induction false} FromFresh(verb: Verb, pid: int, tail: seq<Event>)
    requires pid > 0
    ensures Follow(verb, Fresh, [ReadIdentity(Recorded(pid))] + tail) == Follow(verb, Addressed(pid), tail)
  {
    FollowAppend(verb, Fresh, [ReadIdentity(Recorded(pid))], tail);
    assert [ReadIdentity(Recorded(pid))][..0] == [];
  }

  lemma {:induction false} OneEvent(verb: Verb, e: Event)
    ensures Follow(verb, Fresh, [e]) == Next(verb, Fresh, e)
  {
    assert [e][..0] == [];
  }

  lemma {:induction false} Grows(verb: Verb, log: seq<Event>, e: Event)
    requires Accepted(verb, log)
    ensures Follow(verb, Fresh, log + [e]) == Next(verb, Follow(verb, Fresh, log).value, e)
  {
    assert (log + [e])[..|log|] == log;
  }

  // What the last call of stop_session can have been when it returned an outcome, and what state it
  // was made in.
  ghost predicate LastWas(pid: int, log: seq<Event>, mid: Pc) {
    log != [] &&
    match log[|log| - 1]
    case Verified(p, answer) => p == pid && answer != Match && (if |log| == 1 then mid == Addressed(pid)
                                                                else mid == Expired(pid))
    case Terminated(p, d) => p == pid && d == Gone && mid == Matched(pid)
    case Polled(p, r) => p == pid && r == Exited && mid == Waiting(pid)
    case Deadline => mid == Waiting(pid)
    case Killed(p, d) => p == pid && d != Refused && mid == Rematched(pid)
    case _ => false
  }

  lemma {:induction false} LastCall(verb: Verb, pid: int, force: bool, log: seq<Event>, o: StopOutcome)
    returns (mid: Pc)
    requires pid > 0 && Settled(verb, pid, force, [], log, Returned(o))
    ensures Follow(verb, Addressed(pid), log[..|log| - 1]) == Some(mid) && LastWas(pid, log, mid)
    ensures Returned(o) == Verdict(log)
    ensures Resolved(o) <==> Follow(verb, Addressed(pid), log) == Some(Cleared)
    ensures log[|log| - 1] == Deadline ==> !force
  {
    assert log[0..] == log && [] + log == log;
    SameTarget(verb, pid, log[..|log| - 1]);
    mid := Follow(verb, Addressed(pid), log[..|log| - 1]).value;
    assert Follow(verb, Addressed(pid), log) == Next(verb, mid, log[|log| - 1]);
  }

  lemma {:induction false} OneCall(log: seq<Event>, e: Event)
    requires log != []
    ensures log == [e] <==> |log| == 1 && log[|log| - 1] == e
  {
  }

  // What the envelope of any outcome stop_session can end with tells its reader about the calls made:
  // the deletion ...
  lemma {:induction false} EnvelopeExplained(verb: Verb, pid: int, force: bool, log: seq<Event>, o: StopOutcome)
    requires pid > 0 && Settled(verb, pid, force, [], log, Returned(o))
    ensures var e, last := RenderEnvelope(o), log[|log| - 1];
            && (e.preserved <==> Follow(verb, Addressed(pid), log) != Some(Cleared))
            && (e.preserved <==> !e.stopped && e.reason != NotFoundReason)
            && (e.forced <==> last == Killed(pid, Delivered))
            && (e.stopped <==>
                  last in {Terminated(pid, Gone), Polled(pid, Exited), Killed(pid, Gone), Killed(pid, Delivered)})
            && (e.stopped <==> e.reason == NoReason)
  {
    var mid := LastCall(verb, pid, force, log, o);
  }

  // ... and each reason, exactly.
  lemma {:induction false} ReasonExplained(verb: Verb, pid: int, force: bool, log: seq<Event>, o: StopOutcome)
    requires pid > 0 && Settled(verb, pid, force, [], log, Returned(o))
    ensures o.reason == NotFoundReason <==> log == [Verified(pid, NotFound)]
    ensures o.reason == IdentityMismatch <==> log == [Verified(pid, Mismatch)]
    ensures o.reason == CheckUnavailable <==> log == [Verified(pid, Unavailable)]
    ensures o.reason == StillAlive <==> log[|log| - 1] == Deadline
    ensures o.reason == StillAlive ==> !force
    ensures o.reason == IdentityChanged <==> |log| > 1 && log[|log| - 1].Verified?
    ensures o.reason == IdentityChanged ==> Terminated(pid, Delivered) in log
    ensures o.reason != UnreadableIdentity
  {
    var mid := LastCall(verb, pid, force, log, o);
    OneCall(log, Verified(pid, NotFound));
    OneCall(log, Verified(pid, Mismatch));
    OneCall(log, Verified(pid, Unavailable));
    if mid == Expired(pid) { TermBeforeExpiry(verb, pid, log[..|log| - 1]); }
  }

  // A grace period that has run out began with a SIGTERM.
  lemma {:induction false} TermBeforeExpiry(verb: Verb, pid: int, log: seq<Event>)
    requires pid > 0 && Follow(verb, Addressed(pid), log) == Some(Expired(pid))
    ensures Terminated(pid, Delivered) in log
  {
    FromFresh(verb, pid, log);
    LogExplained(verb, [ReadIdentity(Recorded(pid))] + log);
  }

  // The pid an actor was given is the one it asks about and signals.
  lemma {:induction false} SameTarget(verb: Verb, pid: int, log: seq<Event>)
    requires Follow(verb, Addressed(pid), log).Some?
    ensures match Follow(verb, Addressed(pid), log).value
            case Fresh => false
            case Addressed(p) => p == pid && log == []
            case Matched(p) => p == pid && log == [Verified(pid, Match)]
            case Waiting(p) => p == pid && |log| > 1
            case Expired(p) => p == pid && |log| > 1
            case Rematched(p) => p == pid && |log| > 1
            case _ => log != []
  {
    if log != [] { SameTarget(verb, pid, log[..|log| - 1]); }
  }

  // How a command ends for its caller: an exit code, or a traceback.
  datatype Exit = Code(n: int) | Traceback

  method StopCommand(h: Host, graceSeconds: int) returns (exit: Exit, envelope: Option<Envelope>)
    requires h.log == []
    modifies h
    ensures Accepted(Verb.Stop, h.log) && Follow(Verb.Stop, Fresh, h.log).value in {Kept, Cleaned}
    ensures Removed in h.log <==> exit == Code(0)
    ensures Follow(Verb.Stop, Fresh, h.log).value == Cleaned <==> exit == Code(0)
    ensures envelope.Some? <==> exit != Traceback
    ensures envelope.Some? ==> (envelope.value.preserved <==> Removed !in h.log)
    // no pid that could be addressed: nothing else is called, and everything is kept
    ensures h.log != [] && h.log[0].ReadIdentity?
    ensures !h.log[0].id.Recorded? ==>
              && |h.log| == 1 && exit == Code(1)
              && envelope == Some(Envelope(false, UnreadableIdentity, false, true))
    ensures h.now <= old(h.now) + 1000 * Max(0, graceSeconds) + 500 + 8 * h.lag
  {
    var id := h.ReadPid();
    OneEvent(Verb.Stop, ReadIdentity(id));
    if !id.Recorded? {
      return Code(1), Some(RenderEnvelope(StopOutcome(false, UnreadableIdentity, false)));
    }
    var r := Stop(h, Verb.Stop, id.pid, graceSeconds, true);
    assert h.log == [ReadIdentity(id)] + h.log[1..];
    FromFresh(Verb.Stop, id.pid, h.log[1..]);
    NotYetRemoved(Verb.Stop, h.log);
    if r.Raised? { return Traceback, None; }
    envelope := Some(RenderEnvelope(r.value));
    if Resolved(r.value) {
      Grows(Verb.Stop, h.log, Removed);
      h.Did(Removed);
      return Code(0), envelope;
    }
    return Code(1), envelope;
  }

  // The calls that end with an exception.
  predicate Throws(e: Event) {
    match e
    case Interrupted => true
    case Terminated(_, d) => d == Refused
    case Polled(_, r) => r == Broken
    case Killed(_, d) => d == Refused
    case _ => false
  }

  // stop_session raises exactly when its last call did.
  lemma {:induction false} RaisesByThrowing(verb: Verb, pid: int, force: bool, tail: seq<Event>)
    requires tail != [] && Follow(verb, Addressed(pid), tail).Some?
    requires Final(Follow(verb, Addressed(pid), tail).value, pid, force)
    ensures Verdict(tail).Raised? <==> Throws(tail[|tail| - 1])
  {
    var mid := Follow(verb, Addressed(pid), tail[..|tail| - 1]).value;
    assert Next(verb, mid, tail[|tail| - 1]).Some?;
    NeverBack(verb, pid, tail[..|tail| - 1]);
  }

  // Once addressed, an actor never goes back to its start, and does not delete within stop_session.
  lemma {:induction false} NeverBack(verb: Verb, pid: int, tail: seq<Event>)
    requires Follow(verb, Addressed(pid), tail).Some?
    ensures Follow(verb, Addressed(pid), tail).value != Fresh
  {
    if tail != [] { NeverBack(verb, pid, tail[..|tail| - 1]); }
  }

  predicate EndsThrowing(log: seq<Event>) { log != [] && Throws(log[|log| - 1]) }

  // _teardown_run: whatever the inner teardown raises is absorbed, and reported like any end that
  // keeps the data. The value says whether something was reported.
  method TeardownRun(h: Host, graceSeconds: int, minted: bool) returns (r: Ended<bool>)
    requires h.log == []
    modifies h
    ensures r.Returned?
    ensures Accepted(Teardown, h.log) && Follow(Teardown, Fresh, h.log).value in {Kept, Cleaned}
    ensures r.value <==> Follow(Teardown, Fresh, h.log).value == Kept || EndsThrowing(h.log)
    ensures !r.value ==> Removed in h.log && (minted ==> RootRemoved in h.log)
    ensures RootRemoved in h.log ==> minted && Removed in h.log
    ensures NoPidFileClears(h.log)
    ensures h.now <= old(h.now) + 1000 * Max(0, graceSeconds) + 500 + 9 * h.lag
  {
    var inner := TeardownInner(h, graceSeconds, minted);
    if inner.Raised? { return Returned(true); }
    return inner;
  }

  // _teardown_run_inner raises exactly when its last call did.
  method TeardownInner(h: Host, graceSeconds: int, minted: bool) returns (r: Ended<bool>)
    requires h.log == []
    modifies h
    ensures Accepted(Teardown, h.log) && Follow(Teardown, Fresh, h.log).value in {Kept, Cleaned}
    ensures r.Raised? <==> EndsThrowing(h.log)
    ensures r.Returned? ==> (r.value <==> Follow(Teardown, Fresh, h.log).value == Kept)
    ensures r == Returned(false) ==> Removed in h.log && (minted ==> RootRemoved in h.log)
    ensures RootRemoved in h.log ==> minted && Removed in h.log
    ensures NoPidFileClears(h.log)
    ensures h.now <= old(h.now) + 1000 * Max(0, graceSeconds) + 500 + 9 * h.lag
  {
    var resolved := TeardownStop(h, graceSeconds);
    NotYetRemoved(Teardown, h.log);
    RootFollowsRemoval(Teardown, h.log);
    if resolved.Raised? { return Raised; }
    if !resolved.value { return Returned(true); }
    var done := TeardownClean(h, minted);
    NotYetRemoved(Teardown, h.log);
    RootFollowsRemoval(Teardown, h.log);
    return if done then Returned(false) else Raised;
  }

  // Without a pid file there is nothing to stop, and the data goes at once, unless an exception lands;
  // an identity that cannot be read keeps it.
  ghost predicate NoPidFileClears(log: seq<Event>) {
    && (log != [] && log[0] == ReadIdentity(Missing) ==> |log| > 1 && (log[1] == Removed || log[1..] == [Interrupted]))
    && (log != [] && log[0] == ReadIdentity(Unreadable) ==> |log| == 1)
  }

  method TeardownStop(h: Host, graceSeconds: int) returns (r: Ended<bool>)
    requires h.log == []
    modifies h
    ensures Accepted(Teardown, h.log) && Follow(Teardown, Fresh, h.log).value in {Kept, Cleared}
    ensures r == Returned(true) <==> Follow(Teardown, Fresh, h.log).value == Cleared
    ensures r.Raised? <==> EndsThrowing(h.log)
    ensures h.log != []
    ensures h.log[0] == ReadIdentity(Missing) ==> |h.log| == 1 && r == Returned(true)
    ensures h.log[0] == ReadIdentity(Unreadable) ==> |h.log| == 1 && r == Returned(false)
    ensures h.now <= old(h.now) + 1000 * Max(0, graceSeconds) + 500 + 7 * h.lag
  {
    OneEvent(Teardown, Interrupted);
    var interrupted := h.Checkpoint();
    if interrupted { return Raised; }
    var id := h.ReadPid();
    OneEvent(Teardown, ReadIdentity(id));
    if !id.Recorded? { return Returned(id == Missing); }
    var stopped := Stop(h, Teardown, id.pid, graceSeconds, true);
    ghost var tail := h.log[1..];
    assert h.log == [ReadIdentity(id)] + tail;
    FromFresh(Teardown, id.pid, tail);
    RaisesByThrowing(Teardown, id.pid, true, tail);
    assert h.log[|h.log| - 1] == tail[|tail| - 1];
    return if stopped.Raised? then Raised else Returned(Resolved(stopped.value));
  }

  // The deletions; not done means that an exception cut them short.
  method TeardownClean(h: Host, minted: bool) returns (done: bool)
    requires Accepted(Teardown, h.log) && Follow(Teardown, Fresh, h.log).value == Cleared && RootRemoved !in h.log
    modifies h
    ensures Accepted(Teardown, h.log) && Follow(Teardown, Fresh, h.log).value in {Kept, Cleaned}
    ensures !done <==> EndsThrowing(h.log)
    ensures done ==> Follow(Teardown, Fresh, h.log).value == Cleaned
    ensures done ==> Removed in h.log && (minted ==> RootRemoved in h.log)
    ensures RootRemoved in h.log ==> minted
    ensures old(h.log) < h.log
    ensures h.log == old(h.log) + [Interrupted] || h.log[|old(h.log)|] == Removed
    ensures h.now <= old(h.now) + 2 * h.lag
  {
    Grows(Teardown, h.log, Interrupted);
    var interrupted := h.Checkpoint();
    if interrupted { return false; }
    Grows(Teardown, h.log, Removed);
    h.Did(Removed);
    Grows(Teardown, h.log, Interrupted);
    interrupted := h.Checkpoint();
    if interrupted { return false; }
    Grows(Teardown, h.log, RootRemoved);
    if minted { h.Did(RootRemoved); }
    return true;
  }

  lemma {:induction false} RootFollowsRemoval(verb: Verb, log: seq<Event>)
    requires Accepted(verb, log)
    ensures RootRemoved in log ==> verb == Teardown && Removed in log
  {
    if log != [] {
      var front := log[..|log| - 1];
      PrefixAccepted(verb, log, |log| - 1);
      RootFollowsRemoval(verb, front);
      NotYetRemoved(verb, front);
      assert log == front + [log[|log| - 1]];
    }
  }
}
