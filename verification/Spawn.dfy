/**
  `spawn_daemon` (tunstrap/daemon.py) from its first `try` on: the two ends of
  the handshake pipe, the minted session root, the worker it launches, and the
  time it may take. Times are milliseconds; only waiting takes time.
*/
module Spawn {
  import opened Wrappers

  type Bytes = seq<bv8>

  datatype Event = Minted | RootRemoval | Launched | ClosedRead | ClosedWrite | Terminated | Killed

  // What arrives on the pipe next, and how long after the last arrival.
  datatype Arrival = Chunk(gap: nat, bytes: Bytes) | Eof(gap: nat) | ReadFails(gap: nat)

  // The frame as JSON: unreadable, of a kind nobody knows, or one of the four that are passed on.
  datatype Frame = NotJson | UnknownKind | Known(kind: int)

  datatype Spawned =
    | Message(kind: int)
    | Handshake
    | TimedOut(reaped: bool)
    | NotLaunched

  // Everything outside the parent. `pid` is what Popen reports; `onTerm` and `onKill` say how long
  // the worker outlives a signal, if it dies of it at all.
  datatype World = World(
    mintFails: bool, launchFails: bool, stdinMissing: bool, arrivals: seq<Arrival>, decode: Bytes -> Frame,
    pid: int, termRaises: bool, killRaises: bool, onTerm: Option<nat>, onKill: Option<nat>)

  // The worker's time of death as things stand.
  function Sooner(a: Option<int>, b: Option<int>): Option<int> {
    if a.None? then b else if b.None? then a else if a.value <= b.value then a else b
  }

  predicate DiesBy(dies: Option<int>, time: int) { dies.Some? && dies.value <= time }

  class Parent {
    const world: World
    var now: int
    var dies: Option<int>
    var log: seq<Event>

    constructor (world: World, now: int, dies: Option<int>)
      ensures this.world == world && this.now == now && this.dies == dies && log == []
    {
      this.world, this.now, this.dies, log := world, now, dies, [];
    }

    predicate Dead()
      reads this
    {
      dies.Some? && dies.value <= now
    }

    method Emit(e: Event)
      modifies `log
      ensures log == old(log) + [e]
    {
      log := log + [e];
    }

    // proc.wait(timeout): true when the worker ended in time.
    method Wait(timeout: nat) returns (ended: bool)
      modifies `now
      ensures old(now) <= now <= old(now) + timeout && ended == Dead()
      ensures ended <==> dies.Some? && dies.value <= old(now) + timeout
    {
      if dies.Some? && dies.value <= now + timeout {
        now := if dies.value > now then dies.value else now;
        return true;
      }
      now := now + timeout;
      return false;
    }

    // proc.terminate() and proc.kill(): false is an OSError.
    method Signal(e: Event, raises: bool, delay: Option<nat>) returns (sent: bool)
      modifies `log, `dies
      ensures log == old(log) + [e] && sent == !raises
      ensures dies == if raises || delay.None? then old(dies) else Sooner(old(dies), Some(now + delay.value))
    {
      Emit(e);
      if raises { return false; }
      dies := Sooner(dies, if delay.Some? then Some(now + delay.value) else None);
      return true;
    }

    // _kill_timed_out_worker
    method KillTimedOutWorker(grace: nat) returns (reaped: bool)
      modifies this
      ensures old(now) <= now <= old(now) + grace && reaped == Dead()
      ensures log == old(log) + if world.pid <= 0 || old(Dead()) then [] else [Killed]
      ensures world.pid > 0 && !world.killRaises && world.onKill.Some? && world.onKill.value <= grace ==> reaped
    {
      if world.pid <= 0 || Dead() { return Dead(); }
      var sent := Signal(Killed, world.killRaises, world.onKill);
      if !sent { return Dead(); }
      reaped := Wait(grace);
    }

    // _reap_timed_out_worker: at most one terminate and one kill; the answer is whether the worker
    // is gone.
    method ReapTimedOutWorker(grace: nat) returns (reaped: bool)
      modifies this
      ensures old(now) <= now <= old(now) + 2 * grace && reaped == Dead()
      ensures log == old(log) || log == old(log) + [Terminated] || log == old(log) + [Terminated, Killed]
      ensures log != old(log) <==> world.pid > 0 && !old(Dead())
      // it is killed exactly when SIGTERM was sent and it outlives the grace period
      ensures log == old(log) + [Terminated, Killed] <==>
              && world.pid > 0 && !old(Dead()) && !world.termRaises
              && !DiesBy(old(dies), old(now) + grace)
              && !(world.onTerm.Some? && world.onTerm.value <= grace)
      // a worker that heeds SIGTERM in time is not killed, and one that heeds either is reaped
      ensures (world.pid > 0 && !world.termRaises && world.onTerm.Some? && world.onTerm.value <= grace ==>
                 reaped && log != old(log) + [Terminated, Killed])
      ensures (world.pid > 0 && !world.termRaises && !world.killRaises
               && world.onKill.Some? && world.onKill.value <= grace ==>
                 reaped)
    {
      if world.pid <= 0 || Dead() { return Dead(); }
      var sent := Signal(Terminated, world.termRaises, world.onTerm);
      if !sent { return Dead(); }
      var ended := Wait(grace);
      if ended { return true; }
      reaped := KillTimedOutWorker(grace);
      assert old(log) + [Terminated] + [Killed] == old(log) + [Terminated, Killed];
    }

    // The reading loop: through EOF, before the deadline.
    method ReadFrame(timeout: nat) returns (end: End, raw: Bytes)
      modifies `now
      ensures end == EndOf(world.arrivals, 0, timeout) && old(now) <= now <= old(now) + timeout
      ensures end == Complete ==> raw == Joined(world.arrivals, 0)
    {
      var deadline := now + timeout;
      var k: nat := 0;
      raw := [];
      while true
        invariant k <= |world.arrivals| && old(now) <= now <= deadline
        invariant EndOf(world.arrivals, 0, timeout) == EndOf(world.arrivals, k, deadline - now)
        invariant Joined(world.arrivals, 0) == raw + Joined(world.arrivals, k)
        decreases |world.arrivals| - k
      {
        var remaining := deadline - now;
        if remaining <= 0 { return Expired, raw; }
        if k == |world.arrivals| || world.arrivals[k].gap > remaining {
          now := deadline;
          return Expired, raw;
        }
        now := now + world.arrivals[k].gap;
        match world.arrivals[k] {
          case ReadFails(_) => return Broken, raw;
          case Eof(_) => return Complete, raw;
          case Chunk(_, bytes) =>
            if bytes == [] { return Complete, raw; }  // a read of nothing is the end of the file
            raw := raw + bytes;
        }
        k := k + 1;
      }
    }

    // _read_ipc_response
    method ReadIpcResponse(timeout: nat, grace: nat) returns (r: Spawned)
      modifies this
      ensures old(now) <= now <= old(now) + timeout + 2 * grace
      ensures exists signals :: log == old(log) + signals + [ClosedRead] && Signals(signals, r, world.pid)
      ensures r.Message? <==> Delivered(world, timeout)
      ensures r.Message? ==> world.decode(Joined(world.arrivals, 0)) == Known(r.kind)
      ensures r.TimedOut? <==> EndOf(world.arrivals, 0, timeout) == Expired
      ensures r.TimedOut? ==> r.reaped == Dead()
      ensures !r.NotLaunched?
    {
      var end, raw := ReadFrame(timeout);
      if end == Expired {
        var reaped := ReapTimedOutWorker(grace);
        r := TimedOut(reaped);
        ghost var signals := log[|old(log)|..];
        assert log == old(log) + signals;
        Emit(ClosedRead);
        assert Signals(signals, r, world.pid);
        return;
      }
      Emit(ClosedRead);
      assert log == old(log) + [] + [ClosedRead];
      if end == Broken || raw == [] {
        r := Handshake;
      } else {
        assert raw == Joined(world.arrivals, 0);
        match world.decode(raw) {
          case Known(kind) => r := Message(kind);
          case _ => r := Handshake;
        }
      }
      assert Signals([], r, world.pid);
    }

    // spawn_daemon; `supplied` is whether the caller named the session directory.
    method SpawnDaemon(supplied: bool, timeout: nat, grace: nat) returns (r: Spawned)
      requires log == []
      modifies this
      ensures Trace(log, r, supplied, world)
      ensures old(now) <= now <= old(now) + timeout + 2 * grace
      ensures r.NotLaunched? <==> (!supplied && world.mintFails) || world.launchFails
      ensures r.Message? <==> !r.NotLaunched? && !world.stdinMissing && Delivered(world, timeout)
      ensures r.Message? ==> world.decode(Joined(world.arrivals, 0)) == Known(r.kind)
      ensures r.TimedOut? <==>
              !r.NotLaunched? && !world.stdinMissing && EndOf(world.arrivals, 0, timeout) == Expired
      ensures r.TimedOut? ==> r.reaped == Dead()
    {
      var root := supplied;
      if !supplied && !world.mintFails {
        Emit(Minted);
        root := true;
      }
      if !root || world.launchFails {
        Emit(ClosedRead);
        if !supplied && root {
          Emit(RootRemoval);
        }
        Emit(ClosedWrite);
        return NotLaunched;
      }
      Emit(Launched);
      Emit(ClosedWrite);
      ghost var before := log;
      if world.stdinMissing {
        Emit(ClosedRead);
        r := Handshake;
        assert log == before + [] + [ClosedRead];
        assert Signals([], r, world.pid);
      } else {
        r := ReadIpcResponse(timeout, grace);
      }
      assert before == Preamble(supplied);
    }
  }

  // --------------------------------------------------------------- specification

  datatype End = Complete | Expired | Broken

  // How reading from the k-th arrival on ends when `left` milliseconds remain.
  function EndOf(arrivals: seq<Arrival>, k: nat, left: int): End
    requires k <= |arrivals|
    decreases |arrivals| - k
  {
    if left <= 0 || k == |arrivals| || arrivals[k].gap > left then Expired
    else match arrivals[k]
      case ReadFails(_) => Broken
      case Eof(_) => Complete
      case Chunk(gap, bytes) => if bytes == [] then Complete else EndOf(arrivals, k + 1, left - gap)
  }

  // The bytes from the k-th arrival up to the end of the file.
  function Joined(arrivals: seq<Arrival>, k: nat): Bytes
    requires k <= |arrivals|
    decreases |arrivals| - k
  {
    if k == |arrivals| || !arrivals[k].Chunk? || arrivals[k].bytes == [] then []
    else arrivals[k].bytes + Joined(arrivals, k + 1)
  }

  // ------------------------------------------------- which frame is a whole one

  // How long the first k arrivals take.
  function Elapsed(arrivals: seq<Arrival>, k: nat): nat
    requires k <= |arrivals|
  {
    if k == 0 then 0 else Elapsed(arrivals, k - 1) + arrivals[k - 1].gap
  }

  lemma {:induction false} ElapsedGrows(arrivals: seq<Arrival>, k: nat, m: nat)
    requires k <= m <= |arrivals|
    ensures Elapsed(arrivals, k) <= Elapsed(arrivals, m)
  {
    if k < m { ElapsedGrows(arrivals, k, m - 1); }
  }

  // The end of the file, a read of nothing, or a failing read.
  predicate Stops(a: Arrival) { !a.Chunk? || a.bytes == [] }

  // Arrival m is the first that stops the reading, and it comes before the deadline: so does the
  // moment at which it is waited for.
  ghost predicate StopsInTime(arrivals: seq<Arrival>, m: nat, timeout: nat) {
    && m < |arrivals| && Stops(arrivals[m]) && (forall j :: 0 <= j < m ==> !Stops(arrivals[j]))
    && Elapsed(arrivals, m) < timeout && Elapsed(arrivals, m + 1) <= timeout
  }

  // The frame is complete exactly when the first arrival that stops the reading is an end of the
  // file and comes in time, and broken exactly when it is a failing read that does.
  lemma {:induction false} EndsExactly(arrivals: seq<Arrival>, timeout: nat)
    ensures EndOf(arrivals, 0, timeout) == Complete <==>
            exists m: nat :: StopsInTime(arrivals, m, timeout) && !arrivals[m].ReadFails?
    ensures EndOf(arrivals, 0, timeout) == Broken <==>
            exists m: nat :: StopsInTime(arrivals, m, timeout) && arrivals[m].ReadFails?
  {
    EndsFrom(arrivals, 0, timeout);
  }

  lemma {:induction false} EndsFrom(arrivals: seq<Arrival>, k: nat, timeout: nat)
    requires k <= |arrivals| && forall j :: 0 <= j < k ==> !Stops(arrivals[j])
    ensures var end := EndOf(arrivals, k, timeout - Elapsed(arrivals, k));
            && (end == Complete <==> exists m: nat :: StopsInTime(arrivals, m, timeout) && !arrivals[m].ReadFails?)
            && (end == Broken <==> exists m: nat :: StopsInTime(arrivals, m, timeout) && arrivals[m].ReadFails?)
    decreases |arrivals| - k
  {
    var left := timeout - Elapsed(arrivals, k);
    if left <= 0 || k == |arrivals| || arrivals[k].gap > left {
      forall m: nat
        ensures !StopsInTime(arrivals, m, timeout)
      {
        if StopsInTime(arrivals, m, timeout) {
          assert m >= k;
          ElapsedGrows(arrivals, k, m);
          if m > k { ElapsedGrows(arrivals, k + 1, m); }
        }
      }
    } else if Stops(arrivals[k]) {
      assert StopsInTime(arrivals, k, timeout);
      forall m: nat | StopsInTime(arrivals, m, timeout)
        ensures m == k
      {
      }
    } else {
      EndsFrom(arrivals, k + 1, timeout);
    }
  }

  // How many bytes the first k arrivals hold.
  function Offset(arrivals: seq<Arrival>, k: nat): nat
    requires k <= |arrivals|
  {
    if k == 0 then 0
    else Offset(arrivals, k - 1) + if arrivals[k - 1].Chunk? then |arrivals[k - 1].bytes| else 0
  }

  lemma {:induction false} OffsetGrows(arrivals: seq<Arrival>, k: nat, m: nat)
    requires k <= m <= |arrivals|
    ensures Offset(arrivals, k) <= Offset(arrivals, m)
  {
    if k < m { OffsetGrows(arrivals, k, m - 1); }
  }

  // Byte b of arrival i stands in the frame right after the bytes of the arrivals before it, and the
  // frame holds nothing that comes after the stop.
  lemma {:induction false} JoinedExactly(arrivals: seq<Arrival>, m: nat, i: nat, b: nat)
    requires m < |arrivals| && Stops(arrivals[m]) && forall j :: 0 <= j < m ==> !Stops(arrivals[j])
    requires i < m && arrivals[i].Chunk? && b < |arrivals[i].bytes|
    ensures |Joined(arrivals, 0)| == Offset(arrivals, m)
    ensures Offset(arrivals, i) + b < |Joined(arrivals, 0)|
    ensures Joined(arrivals, 0)[Offset(arrivals, i) + b] == arrivals[i].bytes[b]
  {
    JoinedLength(arrivals, 0, m);
    JoinedFrom(arrivals, 0, m, i, b);
  }

  lemma {:induction false} JoinedLength(arrivals: seq<Arrival>, k: nat, m: nat)
    requires k <= m < |arrivals| && Stops(arrivals[m]) && forall j :: 0 <= j < m ==> !Stops(arrivals[j])
    ensures |Joined(arrivals, k)| == Offset(arrivals, m) - Offset(arrivals, k)
    decreases m - k
  {
    if k < m { JoinedLength(arrivals, k + 1, m); }
  }

  lemma {:induction false} JoinedFrom(arrivals: seq<Arrival>, k: nat, m: nat, i: nat, b: nat)
    requires k <= i < m < |arrivals| && Stops(arrivals[m]) && forall j :: 0 <= j < m ==> !Stops(arrivals[j])
    requires arrivals[i].Chunk? && b < |arrivals[i].bytes|
    ensures var at := Offset(arrivals, i) - Offset(arrivals, k) + b;
            0 <= at < |Joined(arrivals, k)| && Joined(arrivals, k)[at] == arrivals[i].bytes[b]
    decreases m - k
  {
    OffsetGrows(arrivals, k, i);
    OffsetGrows(arrivals, i + 1, m);
    JoinedLength(arrivals, k, m);
    if k < i {
      OffsetGrows(arrivals, k + 1, i);
      JoinedFrom(arrivals, k + 1, m, i, b);
    }
  }

  ghost predicate Delivered(world: World, timeout: nat) {
    && EndOf(world.arrivals, 0, timeout) == Complete
    && Joined(world.arrivals, 0) != [] && world.decode(Joined(world.arrivals, 0)).Known?
  }

  predicate Signals(signals: seq<Event>, r: Spawned, pid: int) {
    && (signals == [] || signals == [Terminated] || signals == [Terminated, Killed])
    && (signals != [] ==> r.TimedOut? && pid > 0)
  }

  function Preamble(supplied: bool): seq<Event> {
    (if supplied then [] else [Minted]) + [Launched, ClosedWrite]
  }

  // What one call does, in order.
  ghost predicate Trace(log: seq<Event>, r: Spawned, supplied: bool, world: World) {
    if r.NotLaunched? then
      log == if supplied || world.mintFails then [ClosedRead, ClosedWrite]
             else [Minted, ClosedRead, RootRemoval, ClosedWrite]
    else
      exists signals :: log == Preamble(supplied) + signals + [ClosedRead] && Signals(signals, r, world.pid)
  }

  function Count(log: seq<Event>, e: Event): nat {
    if log == [] then 0 else (if log[0] == e then 1 else 0) + Count(log[1..], e)
  }

  lemma {:induction false} CountConcat(a: seq<Event>, b: seq<Event>, e: Event)
    ensures Count(a + b, e) == Count(a, e) + Count(b, e)
  {
    if a == [] {
      assert a + b == b;
    } else {
      assert (a + b)[1..] == a[1..] + b;
      CountConcat(a[1..], b, e);
    }
  }

  lemma {:induction false} CountSignals(signals: seq<Event>, r: Spawned, pid: int, e: Event)
    requires Signals(signals, r, pid)
    ensures e != Terminated && e != Killed ==> Count(signals, e) == 0
    ensures Count(signals, e) <= 1
    ensures Count(signals, Killed) <= Count(signals, Terminated)
    ensures Count(signals, e) > 0 ==> r.TimedOut? && pid > 0
  {
    if signals == [Terminated, Killed] {
      assert signals[1..] == [Killed];
      assert [Killed][1..] == [];
    } else if signals == [Terminated] {
      assert signals[1..] == [];
    }
  }

  lemma {:induction false} CountPreamble(supplied: bool, e: Event)
    ensures Count(Preamble(supplied), e) ==
            if e == Minted then (if supplied then 0 else 1) else if e == Launched || e == ClosedWrite then 1 else 0
  {
    assert [Launched, ClosedWrite][1..] == [ClosedWrite];
    assert [ClosedWrite][1..] == [];
    if !supplied {
      assert Preamble(supplied)[1..] == [Launched, ClosedWrite];
    } else {
      assert Preamble(supplied) == [Launched, ClosedWrite];
    }
  }

  // Both ends are closed exactly once on every path; the minted root is removed just when no
  // worker was launched; signals are sent once each, a kill only after a terminate, and only to a
  // worker that timed out.
  lemma {:induction false} OwnershipExact(log: seq<Event>, r: Spawned, supplied: bool, world: World)
    requires Trace(log, r, supplied, world)
    ensures Count(log, ClosedRead) == 1 && Count(log, ClosedWrite) == 1
    ensures Count(log, Launched) == if r.NotLaunched? then 0 else 1
    ensures Count(log, RootRemoval) == if Minted in log && Launched !in log then 1 else 0
    ensures Count(log, Killed) <= Count(log, Terminated) <= 1
    ensures Count(log, Terminated) > 0 ==> r.TimedOut? && world.pid > 0
  {
    if r.NotLaunched? {
      CountUnlaunched(log);
    } else {
      var signals :| log == Preamble(supplied) + signals + [ClosedRead] && Signals(signals, r, world.pid);
      CountLaunched(log, signals, supplied, r, world.pid, ClosedRead);
      CountLaunched(log, signals, supplied, r, world.pid, ClosedWrite);
      CountLaunched(log, signals, supplied, r, world.pid, Launched);
      CountLaunched(log, signals, supplied, r, world.pid, RootRemoval);
      CountLaunched(log, signals, supplied, r, world.pid, Terminated);
      CountLaunched(log, signals, supplied, r, world.pid, Killed);
      assert Launched in log by { assert Launched in Preamble(supplied); }
    }
  }

  // The order: a root is minted before the launch, the parent's write end is closed right after it,
  // and the read end last of all; when nothing was launched, both ends and a minted root go at once.
  lemma {:induction false} OrderExactly(log: seq<Event>, r: Spawned, supplied: bool, world: World)
    requires Trace(log, r, supplied, world)
    ensures !r.NotLaunched? ==>
              var at := if supplied then 0 else 1;
              && |log| >= at + 3 && log[at] == Launched && log[at + 1] == ClosedWrite && log[|log| - 1] == ClosedRead
              && (!supplied ==> log[0] == Minted)
              && log[at + 2..|log| - 1] in [[], [Terminated], [Terminated, Killed]]
    ensures r.NotLaunched? ==>
              log == if supplied || world.mintFails then [ClosedRead, ClosedWrite]
                     else [Minted, ClosedRead, RootRemoval, ClosedWrite]
  {
    if !r.NotLaunched? {
      var signals :| log == Preamble(supplied) + signals + [ClosedRead] && Signals(signals, r, world.pid);
      assert log[|Preamble(supplied)|..|log| - 1] == signals;
    }
  }

  lemma {:induction false} CountLaunched(log: seq<Event>, signals: seq<Event>, supplied: bool, r: Spawned, pid: int,
                                         e: Event)
    requires log == Preamble(supplied) + signals + [ClosedRead] && Signals(signals, r, pid)
    ensures e == ClosedRead || e == ClosedWrite || e == Launched ==> Count(log, e) == 1
    ensures e == RootRemoval ==> Count(log, e) == 0
    ensures e == Terminated || e == Killed ==> Count(log, e) == Count(signals, e) <= 1
    ensures Count(signals, Killed) <= Count(signals, Terminated)
    ensures Count(signals, Terminated) > 0 ==> r.TimedOut? && pid > 0
  {
    CountConcat(Preamble(supplied) + signals, [ClosedRead], e);
    CountConcat(Preamble(supplied), signals, e);
    CountOne(ClosedRead, e);
    CountPreamble(supplied, e);
    CountSignals(signals, r, pid, e);
    CountSignals(signals, r, pid, Terminated);
  }

  lemma {:induction false} CountOne(a: Event, e: Event)
    ensures Count([a], e) == if e == a then 1 else 0
  {
    assert [a][1..] == [];
  }

  lemma {:induction false} CountPair(a: Event, b: Event, e: Event)
    ensures Count([a, b], e) == (if e == a then 1 else 0) + if e == b then 1 else 0
  {
    assert [b][1..] == [];
    assert Count([b], e) == if e == b then 1 else 0;
    assert [a, b][1..] == [b];
  }

  lemma {:induction false} CountUnlaunched(log: seq<Event>)
    requires log == [ClosedRead, ClosedWrite] || log == [Minted, ClosedRead, RootRemoval, ClosedWrite]
    ensures forall e :: Count(log, e) == if e in log then 1 else 0
  {
    forall e: Event
      ensures Count(log, e) == if e in log then 1 else 0
    {
      CountPair(ClosedRead, ClosedWrite, e);
      if |log| == 4 {
        CountPair(Minted, ClosedRead, e);
        CountPair(RootRemoval, ClosedWrite, e);
        CountConcat([Minted, ClosedRead], [RootRemoval, ClosedWrite], e);
        assert log == [Minted, ClosedRead] + [RootRemoval, ClosedWrite];
      }
    }
  }
}
