/**
  `tunstrap run` from the spawn on (tunstrap/cli.py): who tears the daemon down,
  how often, and which exit code survives. Every call that may fail is logged
  with its reply; exceptions are values. The teardown is the one of StopSession,
  whose host answers as it likes.
*/
module RunCommand {
  import StopScript
  import StopSession

  // An exception: a TunstrapError with its exit code, another Exception, or one that no
  // `except Exception` catches (a second Ctrl-C).
  datatype Exc = Domain(code: int) | Unexpected | Interrupt

  // The calls of the post-spawn window. There are two signals, so two of each handler call.
  datatype Call =
    | Save0 | Save1 | Validate | Materialize | Environment | Launch | Install0 | Install1 | Wait
    | Restore0 | Restore1

  datatype Reply =
    | Fine
    | NoCommand          // Popen: OSError
    | Status(code: int)  // Popen.wait: -N for a child ended by signal N
    | Threw(exc: Exc)

  // The reply each call would give, and the signals that arrive while the child is waited for.
  datatype Answers = Answers(reply: Call -> Reply, signals: seq<int>)

  predicate Possible(c: Call, r: Reply) {
    match r
    case Fine => c != Wait
    case NoCommand => c == Launch
    case Status(_) => c == Wait
    case Threw(e) => e != Domain(0)  // every TunstrapError maps to a code other than 0
  }

  ghost predicate Proper(a: Answers) { forall c :: Possible(c, a.reply(c)) }

  datatype Kind = Success | RequiredFailure | SessionActive | DaemonFailure

  datatype Spawn =
    | Frame(kind: Kind, indexable: bool)
    | HandshakeFailed(code: int)  // raised after the worker was launched
    | Refused(code: int)          // another TunstrapError
    | Crashed                     // any other exception: nothing here handles it

  datatype Outcome = Returns(code: int) | Raises(exc: Exc)

  datatype Final = Exits(code: int) | Escapes

  datatype Event = Made(call: Call, reply: Reply) | Relayed(signal: int) | ToreDown | RootDiscarded

  class Host {
    var log: seq<Event>

    constructor ()
      ensures log == []
    {
      log := [];
    }

    method Emit(e: Event)
      modifies this
      ensures log == old(log) + [e]
    {
      log := log + [e];
    }

    method Perform(a: Answers, c: Call) returns (r: Reply)
      modifies this
      ensures r == a.reply(c) && log == old(log) + [Made(c, r)]
    {
      r := a.reply(c);
      Emit(Made(c, r));
    }
  }

  // ------------------------------------------------------------- what is logged

  // The calls in the order of the source, up to the wait.
  function CallAt(i: nat): Call
    requires i <= 8
  {
    match i
    case 0 => Save0
    case 1 => Save1
    case 2 => Validate
    case 3 => Materialize
    case 4 => Environment
    case 5 => Launch
    case 6 => Install0
    case 7 => Install1
    case _ => Wait
  }

  function Relays(signals: seq<int>): seq<Event> {
    if signals == [] then [] else Relays(signals[..|signals| - 1]) + [Relayed(signals[|signals| - 1])]
  }

  // From the i-th call on: each call is made if the one before it went well.
  function Window(a: Answers, i: nat): seq<Event>
    requires i <= 8
    decreases 8 - i
  {
    var c := CallAt(i);
    if i == 8 then Relays(a.signals) + [Made(c, a.reply(c))]
    else [Made(c, a.reply(c))] + if a.reply(c).Fine? then Window(a, i + 1) else []
  }

  // How many handlers were saved.
  function Saved(a: Answers): nat {
    if !a.reply(Save0).Fine? then 0 else if !a.reply(Save1).Fine? then 1 else 2
  }

  function Restores(a: Answers): seq<Event> {
    if Saved(a) == 0 then []
    else
      [Made(Restore0, a.reply(Restore0))]
      + if Saved(a) == 2 && a.reply(Restore0).Fine? then [Made(Restore1, a.reply(Restore1))] else []
  }

  function Script(a: Answers): seq<Event> { Window(a, 0) + Restores(a) }

  function ExitOf(status: int): int { if status < 0 then 128 + (-status) else status }

  // What a log of calls stands for: the last reply that is more than going well.
  function Settle(log: seq<Event>): Outcome {
    if log == [] then Returns(0)
    else match log[|log| - 1]
      case Made(_, Threw(e)) => Raises(e)
      case Made(_, NoCommand) => Returns(127)
      case Made(_, Status(n)) => Returns(ExitOf(n))
      case _ => Settle(log[..|log| - 1])
  }

  lemma {:induction false} SettleLast(log: seq<Event>, e: Event)
    ensures Settle(log + [e]) == match e
                                 case Made(_, Threw(x)) => Raises(x)
                                 case Made(_, NoCommand) => Returns(127)
                                 case Made(_, Status(n)) => Returns(ExitOf(n))
                                 case _ => Settle(log)
  {
    assert (log + [e])[..|log|] == log;
  }

  function FinalOf(o: Outcome): Final {
    match o
    case Returns(code) => Exits(code)
    case Raises(Domain(code)) => Exits(code)
    case Raises(Unexpected) => Exits(4)
    case Raises(Interrupt) => Escapes
  }

  // ------------------------------------------------------------------ the code

  // Popen.wait with the handlers in place: each signal is relayed to the child, which may be gone.
  method WaitForChild(h: Host, a: Answers) returns (r: Reply)
    modifies h
    ensures r == a.reply(Wait) && h.log == old(h.log) + Window(a, 8)
  {
    var k := 0;
    assert Relays(a.signals[..0]) == [];
    while k < |a.signals|
      invariant 0 <= k <= |a.signals| && h.log == old(h.log) + Relays(a.signals[..k])
    {
      assert a.signals[..k + 1][..k] == a.signals[..k];
      h.Emit(Relayed(a.signals[k]));
      k := k + 1;
    }
    assert a.signals[..k] == a.signals;
    r := h.Perform(a, Wait);
  }

  // `log` is on its way from `start`, with the calls from the i-th on still to come.
  ghost predicate Underway(a: Answers, from: nat, start: seq<Event>, log: seq<Event>, i: nat)
    requires from <= 8 && i <= 8
  {
    log + Window(a, i) == start + Window(a, from)
  }

  function Meaning(r: Reply): Outcome
    requires !r.Fine?
  {
    match r
    case Threw(e) => Raises(e)
    case NoCommand => Returns(127)
    case Status(n) => Returns(ExitOf(n))
  }

  lemma {:induction false} GoesOn(a: Answers, from: nat, start: seq<Event>, log: seq<Event>, i: nat)
    requires from <= 8 && i < 8 && Underway(a, from, start, log, i) && a.reply(CallAt(i)).Fine?
    ensures Underway(a, from, start, log + [Made(CallAt(i), a.reply(CallAt(i)))], i + 1)
  {
  }

  lemma {:induction false} Stops(a: Answers, from: nat, start: seq<Event>, log: seq<Event>, i: nat)
    requires from <= i < 8 && Underway(a, from, start, log, i) && !a.reply(CallAt(i)).Fine?
    ensures log + [Made(CallAt(i), a.reply(CallAt(i)))] == start + Window(a, from)
    ensures Settle(Window(a, from)) == Meaning(a.reply(CallAt(i)))
  {
    var e := Made(CallAt(i), a.reply(CallAt(i)));
    var w := Window(a, from);
    assert (log + [e])[|log|] == (start + w)[|log|];
    assert w[|w| - 1] == e;
  }

  lemma {:induction false} EndsWaiting(a: Answers, from: nat, start: seq<Event>, log: seq<Event>)
    requires from <= 8 && Underway(a, from, start, log, 8) && !a.reply(Wait).Fine?
    ensures Settle(Window(a, from)) == Meaning(a.reply(Wait))
  {
    var w := Window(a, from);
    var all := log + Window(a, 8);
    assert all[|all| - 1] == (start + w)[|all| - 1];
    assert w[|w| - 1] == Made(Wait, a.reply(Wait));
  }

  // One call of the window. True when the window goes on.
  method Take(h: Host, a: Answers, c: Call, ghost from: nat, ghost start: seq<Event>, ghost i: nat)
    returns (on: bool, o: Outcome)
    requires from <= i < 8 && c == CallAt(i) && Underway(a, from, start, h.log, i)
    requires Possible(c, a.reply(c)) && c != Launch
    modifies h
    ensures on <==> a.reply(c).Fine?
    ensures on ==> Underway(a, from, start, h.log, i + 1)
    ensures !on ==> h.log == start + Window(a, from) && o == Settle(Window(a, from))
  {
    var r := h.Perform(a, c);
    if r.Threw? {
      Stops(a, from, start, old(h.log), i);
      return false, Raises(r.exc);
    }
    GoesOn(a, from, start, old(h.log), i);
    return true, Returns(0);
  }

  // The payload, the output file and the environment, before the child exists.
  method Prepare(h: Host, a: Answers, ghost start: seq<Event>) returns (on: bool, o: Outcome)
    requires Proper(a) && Underway(a, 2, start, h.log, 2)
    modifies h
    ensures on ==> Underway(a, 2, start, h.log, 5)
    ensures !on ==> h.log == start + Window(a, 2) && o == Settle(Window(a, 2))
  {
    on, o := PrepareFile(h, a, start);
    if !on { return; }
    on, o := Take(h, a, Environment, 2, start, 4);
  }

  method PrepareFile(h: Host, a: Answers, ghost start: seq<Event>) returns (on: bool, o: Outcome)
    requires Proper(a) && Underway(a, 2, start, h.log, 2)
    modifies h
    ensures on ==> Underway(a, 2, start, h.log, 4)
    ensures !on ==> h.log == start + Window(a, 2) && o == Settle(Window(a, 2))
  {
    on, o := Take(h, a, Validate, 2, start, 2);
    if !on { return; }
    on, o := Take(h, a, Materialize, 2, start, 3);
  }

  method RunChild(h: Host, a: Answers) returns (o: Outcome)
    requires Proper(a)
    modifies h
    ensures h.log == old(h.log) + Window(a, 2) && o == Settle(Window(a, 2))
  {
    ghost var start := h.log;
    var on;
    on, o := Prepare(h, a, start);
    if !on { return; }
    ghost var before := h.log;
    var launched := h.Perform(a, Launch);
    if !launched.Fine? {
      Stops(a, 2, start, before, 5);
      return if launched.NoCommand? then Returns(127) else Raises(launched.exc);
    }
    GoesOn(a, 2, start, before, 5);
    o := Attend(h, a, start);
  }

  // The child is running: install the handlers and wait.
  method Attend(h: Host, a: Answers, ghost start: seq<Event>) returns (o: Outcome)
    requires Proper(a) && Underway(a, 2, start, h.log, 6)
    modifies h
    ensures h.log == start + Window(a, 2) && o == Settle(Window(a, 2))
  {
    var on;
    on, o := Take(h, a, Install0, 2, start, 6);
    if !on { return; }
    on, o := Take(h, a, Install1, 2, start, 7);
    if !on { return; }
    EndsWaiting(a, 2, start, h.log);
    var ended := WaitForChild(h, a);
    if ended.Threw? { return Raises(ended.exc); }
    if ended.code < 0 { return Returns(128 - ended.code); }
    return Returns(ended.code);
  }

  // The try block, then the handlers, then the teardown, whatever was raised. A teardown that raised
  // would be what counts.
  method SuperviseChild(h: Host, t: StopSession.Host, a: Answers, graceSeconds: int, minted: bool) returns (o: Outcome)
    requires Proper(a) && t.log == []
    modifies h, t
    ensures h.log == old(h.log) + Script(a) + [ToreDown] && o == Settle(Script(a))
    ensures TornDown(t.log)
  {
    var saved: nat;
    saved, o := TryChild(h, a);
    o := RestoreHandlers(h, a, saved, o);
    assert h.log == old(h.log) + Script(a);
    h.Emit(ToreDown);
    var torn := StopSession.TeardownRun(t, graceSeconds, minted);
    if torn.Raised? { o := Raises(Interrupt); }
  }

  // One whole teardown has been made.
  ghost predicate TornDown(log: seq<StopScript.Event>) {
    && StopScript.Accepted(StopScript.Teardown, log)
    && StopScript.Follow(StopScript.Teardown, StopScript.Fresh, log).value in {StopScript.Kept, StopScript.Cleaned}
  }

  method TryChild(h: Host, a: Answers) returns (saved: nat, o: Outcome)
    requires Proper(a)
    modifies h
    ensures h.log == old(h.log) + Window(a, 0) && o == Settle(Window(a, 0)) && saved == Saved(a)
  {
    ghost var start := h.log;
    var on;
    on, o := Take(h, a, Save0, 0, start, 0);
    if !on { return 0, o; }
    on, o := Take(h, a, Save1, 0, start, 1);
    if !on { return 1, o; }
    ghost var before := h.log;
    SettleTail(a, start, before);
    o := RunChild(h, a);
    return 2, o;
  }

  // A window ends with the reply that decides it.
  lemma {:induction false} WindowEnds(a: Answers, i: nat)
    requires Proper(a) && i <= 8
    ensures var w := Window(a, i);
            && w != [] && w[|w| - 1].Made? && !w[|w| - 1].reply.Fine?
            && Settle(w) == Meaning(w[|w| - 1].reply)
    decreases 8 - i
  {
    var c := CallAt(i);
    assert Possible(c, a.reply(c));
    if i < 8 && a.reply(c).Fine? {
      WindowEnds(a, i + 1);
      var rest := Window(a, i + 1);
      assert Window(a, i)[|rest|] == rest[|rest| - 1];
    }
  }

  lemma {:induction false} SettleTail(a: Answers, start: seq<Event>, log: seq<Event>)
    requires Proper(a) && Underway(a, 0, start, log, 2)
    ensures Settle(Window(a, 0)) == Settle(Window(a, 2))
  {
    WindowEnds(a, 0);
    WindowEnds(a, 2);
    var all := log + Window(a, 2);
    assert all[|all| - 1] == (start + Window(a, 0))[|all| - 1];
  }

  // The finally block: what was saved is restored, first to last; a failure ends it and counts.
  method RestoreHandlers(h: Host, a: Answers, saved: nat, o: Outcome) returns (end: Outcome)
    requires Proper(a) && saved == Saved(a) && o == Settle(Window(a, 0))
    modifies h
    ensures h.log == old(h.log) + Restores(a) && end == Settle(Script(a))
  {
    end := o;
    SettleRestores(a);
    if saved >= 1 {
      var r := h.Perform(a, Restore0);
      if r.Threw? { return Raises(r.exc); }
      if saved == 2 {
        r := h.Perform(a, Restore1);
        if r.Threw? { return Raises(r.exc); }
      }
    }
  }

  lemma {:induction false} SettleRestores(a: Answers)
    requires Proper(a)
    ensures Settle(Script(a)) ==
            if Saved(a) >= 1 && a.reply(Restore0).Threw? then Raises(a.reply(Restore0).exc)
            else if Saved(a) == 2 && a.reply(Restore1).Threw? then Raises(a.reply(Restore1).exc)
            else Settle(Window(a, 0))
  {
    var w := Window(a, 0);
    assert Possible(Restore0, a.reply(Restore0)) && Possible(Restore1, a.reply(Restore1));
    var r0, r1 := Made(Restore0, a.reply(Restore0)), Made(Restore1, a.reply(Restore1));
    SettleLast(w, r0);
    SettleLast(w + [r0], r1);
    if Saved(a) == 0 {
      assert Script(a) == w;
    } else if Saved(a) == 2 && a.reply(Restore0).Fine? {
      assert Script(a) == w + [r0] + [r1];
    } else {
      assert Script(a) == w + [r0];
    }
  }

  // _run_command from the spawn on. `minted`: run made the session root itself.
  method Run(h: Host, t: StopSession.Host, spawn: Spawn, a: Answers, graceSeconds: int, minted: bool) returns (f: Final)
    requires h.log == [] && t.log == [] && Proper(a)
    modifies h, t
    // A success frame: exactly one teardown, after everything else. The exit code depends on the
    // replies before it, and on nothing the teardown meets.
    ensures spawn.Frame? && spawn.indexable && spawn.kind == Success ==>
              f == FinalOf(Settle(Script(a))) && h.log == Script(a) + [ToreDown] && TornDown(t.log)
    // A worker that may be running is torn down; the child is never started.
    ensures spawn.HandshakeFailed? || (spawn.Frame? && !spawn.indexable) ==>
              && h.log == [ToreDown] && TornDown(t.log)
              && f == Exits(if spawn.HandshakeFailed? then spawn.code else 4)
    // Any other frame belongs to no session of ours: nothing is stopped, no session data deleted.
    ensures (spawn.Frame? && spawn.indexable && spawn.kind != Success) || spawn.Refused? ==>
              h.log == (if minted then [RootDiscarded] else []) && t.log == []
    ensures spawn.Frame? && spawn.indexable && spawn.kind != Success ==>
              f == Exits(match spawn.kind case RequiredFailure => 2 case SessionActive => 3 case _ => 4)
    ensures spawn.Refused? ==> f == Exits(spawn.code)
    ensures spawn.Crashed? ==> f == Escapes && h.log == [] && t.log == []
  {
    match spawn {
      case Crashed => return Escapes;
      case HandshakeFailed(code) =>
        h.Emit(ToreDown);
        var torn := StopSession.TeardownRun(t, graceSeconds, minted);
        return if torn.Raised? then Escapes else Exits(code);
      case Refused(code) =>
        if minted { h.Emit(RootDiscarded); }
        return Exits(code);
      case Frame(kind, indexable) =>
        if !indexable {
          h.Emit(ToreDown);
          var torn := StopSession.TeardownRun(t, graceSeconds, minted);
          return if torn.Raised? then Escapes else Exits(4);
        }
        if kind != Success {
          if minted { h.Emit(RootDiscarded); }
          return Exits(match kind case RequiredFailure => 2 case SessionActive => 3 case _ => 4);
        }
        var o := SuperviseChild(h, t, a, graceSeconds, minted);
        assert [] + Script(a) == Script(a);
        return match o
          case Returns(code) => Exits(code)
          case Raises(Domain(code)) => Exits(code)
          case Raises(Unexpected) => Exits(4)
          case Raises(Interrupt) => Escapes;
    }
  }

  // Two runs with the same replies exit alike, whatever their teardowns meet: other answers, other
  // grace periods, exceptions in the middle.
  method ExitAlike(h1: Host, t1: StopSession.Host, grace1: int, minted1: bool,
                   h2: Host, t2: StopSession.Host, grace2: int, minted2: bool, spawn: Spawn, a: Answers)
    returns (f1: Final, f2: Final)
    requires h1.log == h2.log == [] && t1.log == t2.log == [] && Proper(a)
    requires h1 != h2 && t1 != t2
    modifies h1, t1, h2, t2
    ensures f1 == f2
  {
    f1 := Run(h1, t1, spawn, a, grace1, minted1);
    f2 := Run(h2, t2, spawn, a, grace2, minted2);
  }

  // ------------------------------------------------------- what a reader wants

  ghost predicate WentWell(a: Answers, n: nat)
    requires n <= 9
  {
    FineFrom(a, 0, n)
  }

  ghost predicate FineFrom(a: Answers, i: nat, n: nat)
    requires n <= 9
  {
    forall j :: i <= j < n ==> a.reply(CallAt(j)).Fine?
  }

  function Rank(c: Call): nat {
    match c
    case Save0 => 0 case Save1 => 1 case Validate => 2 case Materialize => 3 case Environment => 4
    case Launch => 5 case Install0 => 6 case Install1 => 7 case Wait => 8 case Restore0 => 9 case Restore1 => 10
  }

  lemma {:induction false} InRelays(signals: seq<int>, e: Event)
    ensures e in Relays(signals) ==> e.Relayed?
  {
    if signals != [] { InRelays(signals[..|signals| - 1], e); }
  }

  lemma {:induction false} InWindow(a: Answers, i: nat, c: Call, r: Reply)
    requires i <= 8
    ensures Made(c, r) in Window(a, i) <==>
            i <= Rank(c) <= 8 && r == a.reply(c) && FineFrom(a, i, Rank(c))
    decreases 8 - i
  {
    RankedBy(i, c);
    if i == 8 {
      InRelays(a.signals, Made(c, r));
    } else {
      InWindow(a, i + 1, c, r);
      FineNext(a, i, Rank(c));
      assert Made(c, r) in Window(a, i) <==>
             || (Rank(c) == i && r == a.reply(c))
             || (a.reply(CallAt(i)).Fine? && Made(c, r) in Window(a, i + 1));
    }
  }

  lemma {:induction false} FineNext(a: Answers, i: nat, n: nat)
    requires i <= 8
    ensures i < n <= 9 ==> (FineFrom(a, i, n) <==> a.reply(CallAt(i)).Fine? && FineFrom(a, i + 1, n))
  {
  }

  lemma {:induction false} RankedBy(i: nat, c: Call)
    requires i <= 8
    ensures CallAt(i) == c <==> Rank(c) == i
  {
  }

  // A call of the window is made when all before it went well, a handler's restoration when it was
  // saved and the one before it was restored.
  ghost predicate IsMade(a: Answers, c: Call) {
    if Rank(c) <= 8 then WentWell(a, Rank(c))
    else if c == Restore0 then a.reply(Save0).Fine?
    else a.reply(Save0).Fine? && a.reply(Save1).Fine? && a.reply(Restore0).Fine?
  }

  // The log holds exactly these calls, with the replies they got.
  lemma {:induction false} MadeExactly(a: Answers, c: Call, r: Reply)
    ensures Made(c, r) in Script(a) <==> r == a.reply(c) && IsMade(a, c)
  {
    InWindow(a, 0, c, r);
  }

  // The order of the calls: the i-th of the nine is the i-th entry of the log, as long as those before
  // it went well.
  lemma {:induction false} CallsInOrder(a: Answers, i: nat)
    requires i < 8 && WentWell(a, i)
    ensures var c := [Save0, Save1, Validate, Materialize, Environment, Launch, Install0, Install1][i];
            i < |Script(a)| && Script(a)[i] == Made(c, a.reply(c))
  {
    HeadOfWindow(a, i);
    PlacedInScript(a, i, 0);
  }

  // The wait comes last of them, after the signals that arrive during it.
  lemma {:induction false} WaitInOrder(a: Answers, j: nat)
    requires WentWell(a, 8) && j <= |a.signals|
    ensures 8 + j < |Script(a)|
    ensures Script(a)[8 + j] == if j < |a.signals| then Relayed(a.signals[j]) else Made(Wait, a.reply(Wait))
  {
    WaitingAt(a, 8, j);
    PlacedInScript(a, 8, j);
  }

  lemma {:induction false} PlacedInScript(a: Answers, m: nat, k: nat)
    requires m <= 8 && WentWell(a, m) && k < |Window(a, m)|
    ensures m + k < |Script(a)| && Script(a)[m + k] == Window(a, m)[k]
  {
    FromStart(a, 0, m, k);
  }

  lemma {:induction false} FromStart(a: Answers, first: nat, m: nat, k: nat)
    requires first == 0 && m <= 8 && WentWell(a, m) && k < |Window(a, m)|
    ensures m + k < |Script(a)| && Script(a)[m + k] == Window(a, m)[k]
  {
    PlacedAt(a, first, m, k);
    assert Script(a) == Window(a, first) + Restores(a);
  }

  lemma {:induction false} WaitingAt(a: Answers, m: nat, j: nat)
    requires m == 8 && j <= |a.signals|
    ensures j < |Window(a, m)|
    ensures Window(a, m)[j] == if j < |a.signals| then Relayed(a.signals[j]) else Made(Wait, a.reply(Wait))
  {
    RelayedAt(a.signals);
  }

  lemma {:induction false} WindowAtWait(a: Answers)
    ensures Window(a, 8) == Relays(a.signals) + [Made(Wait, a.reply(Wait))]
  {
  }

  lemma {:induction false} RelayedAt(signals: seq<int>)
    ensures |Relays(signals)| == |signals|
    ensures forall j :: 0 <= j < |signals| ==> Relays(signals)[j] == Relayed(signals[j])
  {
    if signals != [] { RelayedAt(signals[..|signals| - 1]); }
  }

  // The window from the m-th call on is the end of the one from the i-th on.
  lemma {:induction false} PlacedAt(a: Answers, i: nat, m: nat, k: nat)
    requires i <= m <= 8 && FineFrom(a, i, m) && k < |Window(a, m)|
    ensures m - i + k < |Window(a, i)| && Window(a, i)[m - i + k] == Window(a, m)[k]
    decreases m - i
  {
    if i < m {
      assert a.reply(CallAt(i)).Fine?;
      PlacedAt(a, i + 1, m, k);
      WindowNext(a, i, m - (i + 1) + k);
    }
  }

  lemma {:induction false} WindowNext(a: Answers, i: nat, k: nat)
    requires i < 8 && a.reply(CallAt(i)).Fine? && k < |Window(a, i + 1)|
    ensures k + 1 < |Window(a, i)| && Window(a, i)[k + 1] == Window(a, i + 1)[k]
  {
  }

  lemma {:induction false} HeadOfWindow(a: Answers, i: nat)
    requires i < 8
    ensures Window(a, i) != [] && Window(a, i)[0] == Made(CallAt(i), a.reply(CallAt(i)))
  {
  }

  // The call at which the window ends, and what that makes of it.
  lemma {:induction false} WindowStopsAt(a: Answers, i: nat) returns (m: nat)
    requires Proper(a) && i <= 8
    ensures i <= m <= 8 && FineFrom(a, i, m) && !a.reply(CallAt(m)).Fine?
    ensures Settle(Window(a, i)) == Meaning(a.reply(CallAt(m)))
    decreases 8 - i
  {
    var c := CallAt(i);
    assert Possible(c, a.reply(c));
    if i < 8 && a.reply(c).Fine? {
      m := WindowStopsAt(a, i + 1);
      SameEnd(a, i);
      FineNext(a, i, m);
    } else {
      m := i;
      EndsHere(a, i);
    }
  }

  lemma {:induction false} SameEnd(a: Answers, i: nat)
    requires Proper(a) && i < 8 && a.reply(CallAt(i)).Fine?
    ensures Settle(Window(a, i)) == Settle(Window(a, i + 1))
  {
    WindowEnds(a, i);
    WindowEnds(a, i + 1);
    var rest := Window(a, i + 1);
    assert Window(a, i)[|rest|] == rest[|rest| - 1];
  }

  lemma {:induction false} EndsHere(a: Answers, i: nat)
    requires Proper(a) && i <= 8 && !a.reply(CallAt(i)).Fine?
    ensures Settle(Window(a, i)) == Meaning(a.reply(CallAt(i)))
  {
    WindowEnds(a, i);
  }

  // What a run comes to whose window ends with its m-th call.
  function Decision(a: Answers, m: nat): Outcome
    requires m <= 8 && !a.reply(CallAt(m)).Fine?
  {
    if Saved(a) >= 1 && a.reply(Restore0).Threw? then Raises(a.reply(Restore0).exc)
    else if Saved(a) == 2 && a.reply(Restore1).Threw? then Raises(a.reply(Restore1).exc)
    else Meaning(a.reply(CallAt(m)))
  }

  lemma {:induction false} DecidedAt(a: Answers) returns (m: nat)
    requires Proper(a)
    ensures m <= 8 && FineFrom(a, 0, m) && !a.reply(CallAt(m)).Fine? && Settle(Script(a)) == Decision(a, m)
  {
    SettleRestores(a);
    m := WindowStopsAt(a, 0);
  }

  // A call that was made and threw.
  ghost predicate Thrown(a: Answers, c: Call) { a.reply(c).Threw? && IsMade(a, c) }

  // What was thrown by a restoration, and what by the window.
  lemma {:induction false} ThrownRestores(a: Answers)
    requires Proper(a)
    ensures Thrown(a, Restore0) <==> Saved(a) >= 1 && a.reply(Restore0).Threw?
    ensures Thrown(a, Restore1) <==> Saved(a) == 2 && !a.reply(Restore0).Threw? && a.reply(Restore1).Threw?
  {
    assert Possible(Restore0, a.reply(Restore0));
  }

  lemma {:induction false} ThrownByWindow(a: Answers, c: Call, m: nat)
    requires m <= 8 && FineFrom(a, 0, m) && !a.reply(CallAt(m)).Fine? && Rank(c) <= 8
    ensures Thrown(a, c) <==> c == CallAt(m) && a.reply(c).Threw?
  {
    RankedBy(m, c);
    RankedBy(Rank(c), c);
    RankedBy(m, CallAt(m));
  }

  // The last exception decides, whichever call it comes from.
  lemma {:induction false} LastThrownDecides(a: Answers, c: Call)
    requires Proper(a) && Thrown(a, c) && forall d :: Thrown(a, d) ==> Rank(d) <= Rank(c)
    ensures Settle(Script(a)) == Raises(a.reply(c).exc)
    ensures FinalOf(Settle(Script(a))) == match a.reply(c).exc
                                          case Domain(code) => Exits(code)
                                          case Unexpected => Exits(4)
                                          case Interrupt => Escapes
  {
    var m := DecidedAt(a);
    LastThrown(a, c, m);
  }

  lemma {:induction false} LastThrown(a: Answers, c: Call, m: nat)
    requires Proper(a) && Thrown(a, c) && forall d :: Thrown(a, d) ==> Rank(d) <= Rank(c)
    requires m <= 8 && FineFrom(a, 0, m) && !a.reply(CallAt(m)).Fine?
    ensures Decision(a, m) == Raises(a.reply(c).exc)
  {
    ThrownRestores(a);
    if Rank(c) <= 8 {
      ThrownByWindow(a, c, m);
      assert !Thrown(a, Restore0) && !Thrown(a, Restore1);
    } else if c == Restore0 {
      assert !Thrown(a, Restore1);
    }
  }

  lemma {:induction false} SavesFirst()
    ensures CallAt(0) == Save0 && CallAt(1) == Save1 && CallAt(5) == Launch && CallAt(8) == Wait
  {
  }

  // Without any, the child's status is the exit code, as a shell would report it, or 127 when the
  // command could not be launched.
  lemma {:induction false} StatusDecides(a: Answers)
    requires Proper(a) && forall c :: !Thrown(a, c)
    ensures if a.reply(Launch) == NoCommand then FinalOf(Settle(Script(a))) == Exits(127)
            else
              && a.reply(Wait).Status?
              && var code := a.reply(Wait).code;
                 // -N is a child ended by signal N, which a shell reports as 128 + N
                 FinalOf(Settle(Script(a))) == Exits(if code < 0 then 128 - code else code)
  {
    var m := DecidedAt(a);
    QuietEnd(a, m);
    LaunchFine(a, m);
    SavesFirst();
    RankedBy(m, Launch);
    if a.reply(CallAt(m)).Status? { StatusMeans(a.reply(CallAt(m)).code); }
  }

  // When nothing is thrown the window ends at the launch or at the wait, and that decides.
  lemma {:induction false} QuietEnd(a: Answers, m: nat)
    requires Proper(a) && (forall c :: !Thrown(a, c))
    requires m <= 8 && FineFrom(a, 0, m) && !a.reply(CallAt(m)).Fine?
    ensures Decision(a, m) == Meaning(a.reply(CallAt(m)))
    ensures (CallAt(m) == Launch && a.reply(Launch).NoCommand?) || (CallAt(m) == Wait && a.reply(Wait).Status?)
  {
    ThrownRestores(a);
    var c := CallAt(m);
    RankedBy(m, c);
    ThrownByWindow(a, c, m);
    assert Possible(c, a.reply(c)) && !Thrown(a, c) && !Thrown(a, Restore0) && !Thrown(a, Restore1);
    LaunchFine(a, m);
  }

  lemma {:induction false} StatusMeans(n: int)
    ensures FinalOf(Meaning(Status(n))) == Exits(if n < 0 then 128 - n else n)
  {
  }

  lemma {:induction false} LaunchFine(a: Answers, m: nat)
    requires m <= 8 && FineFrom(a, 0, m) && !a.reply(CallAt(m)).Fine?
    ensures CallAt(m) == Wait ==> a.reply(Launch).Fine?
    ensures CallAt(m) == Launch || CallAt(m) == Wait ==> Saved(a) == 2
  {
    SavesFirst();
    RankedBy(m, Launch);
    RankedBy(m, Wait);
  }

  // A run exits with 0 exactly when every call went well and the child ended with 0.
  lemma {:induction false} ZeroExactly(a: Answers)
    requires Proper(a)
    ensures FinalOf(Settle(Script(a))) == Exits(0) <==>
            && WentWell(a, 8) && a.reply(Wait) == Status(0)
            && a.reply(Restore0).Fine? && a.reply(Restore1).Fine?
  {
    var m := DecidedAt(a);
    var c := CallAt(m);
    assert Possible(c, a.reply(c)) && Possible(Restore0, a.reply(Restore0)) && Possible(Restore1, a.reply(Restore1));
    SavesFirst();
    RankedBy(m, c);
    ZeroMeans(c, a.reply(c));
    if a.reply(Restore0).Threw? { RaisedIsNotZero(Restore0, a.reply(Restore0)); }
    if a.reply(Restore1).Threw? { RaisedIsNotZero(Restore1, a.reply(Restore1)); }
  }

  lemma {:induction false} ZeroMeans(c: Call, r: Reply)
    requires Possible(c, r) && !r.Fine?
    ensures FinalOf(Meaning(r)) == Exits(0) <==> c == Wait && r == Status(0)
  {
  }

  lemma {:induction false} RaisedIsNotZero(c: Call, r: Reply)
    requires Possible(c, r) && r.Threw?
    ensures FinalOf(Raises(r.exc)) != Exits(0)
  {
  }

  function RelayedIn(log: seq<Event>): seq<int> {
    if log == [] then []
    else RelayedIn(log[..|log| - 1]) + match log[|log| - 1] case Relayed(s) => [s] case _ => []
  }

  lemma {:induction false} RelayedConcat(a: seq<Event>, b: seq<Event>)
    ensures RelayedIn(a + b) == RelayedIn(a) + RelayedIn(b)
  {
    if b == [] {
      assert a + b == a;
    } else {
      RelayedConcat(a, b[..|b| - 1]);
      assert (a + b)[..|a + b| - 1] == a + b[..|b| - 1];
    }
  }

  lemma {:induction false} RelayedAll(signals: seq<int>)
    ensures RelayedIn(Relays(signals)) == signals
  {
    if signals != [] {
      var front, last := signals[..|signals| - 1], signals[|signals| - 1];
      RelayedAll(front);
      assert Relays(signals)[..|Relays(signals)| - 1] == Relays(front);
      assert front + [last] == signals;
    }
  }

  // Every signal that arrives during the wait is relayed to the child once, in order, and no other.
  lemma {:induction false} SignalsRelayed(a: Answers, i: nat)
    requires i <= 8
    ensures RelayedIn(Window(a, i)) == if FineFrom(a, i, 8) then a.signals else []
    decreases 8 - i
  {
    if i == 8 {
      RelayedAtWait(a);
    } else {
      FineNext(a, i, 8);
      if a.reply(CallAt(i)).Fine? {
        SignalsRelayed(a, i + 1);
        RelayedLater(a, i);
      } else {
        RelayedNever(a, i);
      }
    }
  }

  lemma {:induction false} NotRelayed(c: Call, r: Reply)
    ensures RelayedIn([Made(c, r)]) == []
  {
    assert [Made(c, r)][..0] == [];
  }

  lemma {:induction false} RelayedAtWait(a: Answers)
    ensures RelayedIn(Window(a, 8)) == a.signals
  {
    WindowAtWait(a);
    RelayedAll(a.signals);
    NotRelayed(Wait, a.reply(Wait));
    RelayedConcat(Relays(a.signals), [Made(Wait, a.reply(Wait))]);
  }

  lemma {:induction false} RelayedLater(a: Answers, i: nat)
    requires i < 8 && a.reply(CallAt(i)).Fine?
    ensures RelayedIn(Window(a, i)) == RelayedIn(Window(a, i + 1))
  {
    var c := CallAt(i);
    NotRelayed(c, a.reply(c));
    RelayedConcat([Made(c, a.reply(c))], Window(a, i + 1));
  }

  lemma {:induction false} RelayedNever(a: Answers, i: nat)
    requires i < 8 && !a.reply(CallAt(i)).Fine?
    ensures RelayedIn(Window(a, i)) == []
  {
    NotRelayed(CallAt(i), a.reply(CallAt(i)));
  }
}
