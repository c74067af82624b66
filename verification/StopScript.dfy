/**
  What `stop` and the teardown of `run` may do, as an automaton over the
  observable calls they make (tunstrap/session.py, cli_stop.py, cli.py).

  Two modules use it. StopSession proves that the imperative code produces only
  logs this automaton accepts; SessionProtocol lets such an actor act, with
  truthful answers, among workers that start, crash and leave.
*/
module StopScript {
  import opened Wrappers

  // The four answers of verify_session.
  datatype Check = Match | Mismatch | NotFound | Unavailable

  // read_identity: no file; a file that holds no positive pid; a pid.
  datatype Identity = Missing | Unreadable | Recorded(pid: int)

  // os.kill: it returned; ProcessLookupError; any other exception.
  datatype Delivery = Delivered | Gone | Refused

  // _has_exited: True; False; an exception.
  datatype Probe = Exited | Alive | Broken

  datatype Verb = Stop | Teardown

  datatype Event =
    | ReadIdentity(id: Identity)
    | Verified(pid: int, answer: Check)
    | Terminated(pid: int, delivery: Delivery)  // SIGTERM
    | Polled(pid: int, probe: Probe)
    | Deadline                                  // the grace period has run out
    | Killed(pid: int, delivery: Delivery)      // SIGKILL
    | Interrupted                               // an exception lands between two calls
    | Removed                                   // cleanup_path: tunnel-data is deleted
    | RootRemoved                               // remove_root: the root `run` minted

  datatype Pc =
    | Fresh
    | Addressed(pid: int)
    | Matched(pid: int)
    | Waiting(pid: int)
    | Expired(pid: int)
    | Rematched(pid: int)
    | Cleared   // resolved: tunnel-data may be deleted
    | Kept      // unresolved: tunnel-data stays
    | Cleaned

  function Next(verb: Verb, pc: Pc, e: Event): Option<Pc> {
    match (pc, e)
    case (Fresh, ReadIdentity(Missing)) => Some(if verb == Teardown then Cleared else Kept)
    case (Fresh, ReadIdentity(Unreadable)) => Some(Kept)
    case (Fresh, ReadIdentity(Recorded(pid))) => if pid > 0 then Some(Addressed(pid)) else None
    case (Addressed(p), Verified(q, a)) =>
      if p != q then None
      else Some(match a case Match => Matched(p) case NotFound => Cleared case _ => Kept)
    case (Matched(p), Terminated(q, d)) =>
      if p != q then None
      else Some(match d case Delivered => Waiting(p) case Gone => Cleared case Refused => Kept)
    case (Waiting(p), Polled(q, r)) =>
      if p != q then None
      else Some(match r case Exited => Cleared case Alive => Waiting(p) case Broken => Kept)
    case (Waiting(p), Deadline) => Some(Expired(p))
    case (Expired(p), Verified(q, a)) =>
      if p != q then None else Some(if a == Match then Rematched(p) else Kept)
    case (Rematched(p), Killed(q, d)) =>
      if p != q then None else Some(if d == Refused then Kept else Cleared)
    case (Cleared, Removed) => Some(Cleaned)
    case (Cleaned, RootRemoved) => if verb == Teardown then Some(Cleaned) else None
    case (_, Interrupted) => Some(if pc == Cleaned then Cleaned else Kept)
    case _ => None
  }

  // The state after a whole log, or None when some call was not allowed.
  function Follow(verb: Verb, pc: Pc, log: seq<Event>): Option<Pc> {
    if log == [] then Some(pc)
    else match Follow(verb, pc, log[..|log| - 1])
      case None => None
      case Some(mid) => Next(verb, mid, log[|log| - 1])
  }

  ghost predicate Accepted(verb: Verb, log: seq<Event>) {
    Follow(verb, Fresh, log).Some?
  }

  lemma {:induction false} FollowAppend(verb: Verb, pc: Pc, a: seq<Event>, b: seq<Event>)
    ensures Follow(verb, pc, a + b)
         == match Follow(verb, pc, a) case None => None case Some(mid) => Follow(verb, mid, b)
  {
    if b == [] {
      assert a + b == a;
    } else {
      FollowAppend(verb, pc, a, b[..|b| - 1]);
      assert (a + b)[..|a + b| - 1] == a + b[..|b| - 1];
    }
  }

  lemma {:induction false} PrefixAccepted(verb: Verb, log: seq<Event>, i: nat)
    requires Accepted(verb, log) && i <= |log|
    ensures Accepted(verb, log[..i])
  {
    FollowAppend(verb, Fresh, log[..i], log[i..]);
    assert log[..i] + log[i..] == log;
  }

  // The five reasons for which a session's data may be deleted.
  predicate Clears(verb: Verb, log: seq<Event>) {
    |log| > 0 &&
    match log[|log| - 1]
    case ReadIdentity(Missing) => verb == Teardown
    case Verified(_, NotFound) => forall j :: 0 <= j < |log| - 1 ==> !log[j].Verified?
    case Terminated(_, Gone) => true
    case Polled(_, Exited) => true
    case Killed(p, Delivered) => |log| > 1 && log[|log| - 2] == Verified(p, Match) && Terminated(p, Delivered) in log
    case Killed(p, Gone) => |log| > 1 && log[|log| - 2] == Verified(p, Match)
    case _ => false
  }

  // What a reached state says about the log that reached it.
  ghost predicate Explains(verb: Verb, log: seq<Event>, pc: Pc) {
    match pc
    case Fresh => log == []
    case Addressed(p) => p > 0 && log == [ReadIdentity(Recorded(p))]
    case Matched(p) => p > 0 && |log| == 2 && log[1] == Verified(p, Match)
    case Waiting(p) => p > 0 && |log| > 2 && log[1] == Verified(p, Match) && Terminated(p, Delivered) in log
    case Expired(p) => p > 0 && |log| > 2 && log[1] == Verified(p, Match) && Terminated(p, Delivered) in log
    case Rematched(p) =>
      && p > 0 && |log| > 2 && log[1] == Verified(p, Match) && log[|log| - 1] == Verified(p, Match)
      && Terminated(p, Delivered) in log
    case Cleared => Clears(verb, log)
    case Kept => Keeps(verb, log)
    case Cleaned => |log| > 1 && Removed in log
  }

  // The reasons for which it is kept.
  predicate Keeps(verb: Verb, log: seq<Event>) {
    |log| > 0 &&
    match log[|log| - 1]
    case ReadIdentity(id) => id == Unreadable || (id == Missing && verb == Stop)
    case Verified(_, answer) =>
      answer != Match && (answer == NotFound ==> exists j :: 0 <= j < |log| - 1 && log[j].Verified?)
    case Terminated(_, Refused) => true
    case Polled(_, Broken) => true
    case Killed(_, Refused) => true
    case Interrupted => Removed !in log
    case _ => false
  }

  // Deletion leads to Cleaned and nowhere else.
  lemma {:induction false} NotYetRemoved(verb: Verb, log: seq<Event>)
    requires Accepted(verb, log)
    ensures Removed in log <==> Follow(verb, Fresh, log).value == Cleaned
  {
    if log != [] {
      PrefixAccepted(verb, log, |log| - 1);
      NotYetRemoved(verb, log[..|log| - 1]);
      assert log == log[..|log| - 1] + [log[|log| - 1]];
    }
  }

  lemma {:induction false} LogExplained(verb: Verb, log: seq<Event>)
    requires Accepted(verb, log)
    ensures Explains(verb, log, Follow(verb, Fresh, log).value)
  {
    if log != [] {
      var front := log[..|log| - 1];
      PrefixAccepted(verb, log, |log| - 1);
      LogExplained(verb, front);
      NotYetRemoved(verb, log);
      assert log == front + [log[|log| - 1]];
      assert |front| > 1 ==> log[1] == front[1];
    }
  }

  // The last call decides: the data may be deleted exactly after one of the five reasons, and is
  // kept exactly after one of the others; in every other state the question is open.
  lemma {:induction false} LastCallDecides(verb: Verb, log: seq<Event>)
    requires Accepted(verb, log)
    ensures Follow(verb, Fresh, log).value == Cleared <==> Clears(verb, log)
    ensures Follow(verb, Fresh, log).value == Kept <==> Keeps(verb, log)
    ensures Follow(verb, Fresh, log).value == Cleaned <==> Removed in log
  {
    LogExplained(verb, log);
    NotYetRemoved(verb, log);
    if log != [] {
      var front := log[..|log| - 1];
      PrefixAccepted(verb, log, |log| - 1);
      LogExplained(verb, front);
      NotYetRemoved(verb, front);
      assert log == front + [log[|log| - 1]];
      assert |front| > 1 ==> log[1] == front[1];
    }
  }

  // Deletion happens directly after one of the five reasons, and never otherwise.
  lemma {:induction false} RemovalJustified(verb: Verb, log: seq<Event>, i: nat)
    requires Accepted(verb, log) && i < |log| && log[i] == Removed
    ensures Clears(verb, log[..i])
  {
    PrefixAccepted(verb, log, i);
    PrefixAccepted(verb, log, i + 1);
    assert log[..i + 1][..i] == log[..i];
    LogExplained(verb, log[..i]);
  }

  // A signal goes to a positive pid whose verification, made directly before, answered match.
  lemma {:induction false} SignalsOnlyMatched(verb: Verb, log: seq<Event>, i: nat)
    requires Accepted(verb, log) && i < |log| && (log[i].Terminated? || log[i].Killed?)
    ensures log[i].pid > 0 && i > 0 && log[i - 1] == Verified(log[i].pid, Match)
  {
    PrefixAccepted(verb, log, i);
    PrefixAccepted(verb, log, i + 1);
    assert log[..i + 1][..i] == log[..i];
    LogExplained(verb, log[..i]);
    assert log[..i][i - 1] == log[i - 1];
  }
}
