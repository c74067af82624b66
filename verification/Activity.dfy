/**
  Idle accounting (tunstrap/activity.py) and the watchdog that polls it
  (tunstrap/_worker.py). Times are milliseconds, so that the quarter-second
  multiples of the poll interval are exact.
*/
module Activity {
  import opened Wrappers

  // What asyncssh calls: the factory for the next connection, and the two hooks of connection c.
  datatype Hook = Accepted | Made(c: nat) | Lost(c: nat)

  datatype Stamped = Stamped(at: int, hook: Hook)

  // ------------------------------------------------------------ specification

  // Which connections have opened and closed, how many are open, and when that last changed.
  datatype Account = Account(openings: set<nat>, closings: set<nat>, active: int, last: int)

  function Step(a: Account, h: Stamped): Account {
    match h.hook
    case Accepted => a
    case Made(c) =>
      if c in a.openings then a else Account(a.openings + {c}, a.closings, a.active + 1, h.at)
    case Lost(c) =>
      if c in a.closings || c !in a.openings then a else Account(a.openings, a.closings + {c}, a.active - 1, h.at)
  }

  function Start(born: int): Account { Account({}, {}, 0, born) }

  function After(hooks: seq<Stamped>, n: nat, born: int): Account
    requires n <= |hooks|
  {
    if n == 0 then Start(born) else Step(After(hooks, n - 1, born), hooks[n - 1])
  }

  ghost predicate WasMade(hooks: seq<Stamped>, n: nat, c: nat)
    requires n <= |hooks|
  {
    exists m :: 0 <= m < n && hooks[m].hook == Made(c)
  }

  // A loss that follows the connection's opening; one that comes before it does not count.
  ghost predicate WasLost(hooks: seq<Stamped>, n: nat, c: nat)
    requires n <= |hooks|
  {
    exists k :: 0 <= k < n && hooks[k].hook == Lost(c) && WasMade(hooks, k, c)
  }

  // The sets are what the words say, for any interleaving, repeats and early losses included.
  lemma {:induction false} AccountExact(hooks: seq<Stamped>, n: nat, born: int, c: nat)
    requires n <= |hooks|
    ensures c in After(hooks, n, born).openings <==> WasMade(hooks, n, c)
    ensures c in After(hooks, n, born).closings <==> WasLost(hooks, n, c)
  {
    if n > 0 {
      AccountExact(hooks, n - 1, born, c);
      assert WasMade(hooks, n, c) <==> WasMade(hooks, n - 1, c) || hooks[n - 1].hook == Made(c);
      assert WasLost(hooks, n, c) <==>
             || WasLost(hooks, n - 1, c)
             || (hooks[n - 1].hook == Lost(c) && WasMade(hooks, n - 1, c));
    }
  }

  // The count is the number of connections that opened and have not closed, so it is never
  // negative and the clamp at zero is never what decides it.
  lemma {:induction false} ActiveExact(hooks: seq<Stamped>, n: nat, born: int)
    requires n <= |hooks|
    ensures var a := After(hooks, n, born); a.closings <= a.openings && a.active == |a.openings - a.closings|
  {
    if n > 0 {
      ActiveExact(hooks, n - 1, born);
      var a := After(hooks, n - 1, born);
      match hooks[n - 1].hook {
        case Accepted =>
        case Made(c) => if c !in a.openings { OneMoreOpen(a.openings, a.closings, c); }
        case Lost(c) => if c in a.openings && c !in a.closings { OneLessOpen(a.openings, a.closings, c); }
      }
    }
  }

  lemma {:induction false} OneMoreOpen(openings: set<nat>, closings: set<nat>, c: nat)
    requires c !in openings && closings <= openings
    ensures |(openings + {c}) - closings| == |openings - closings| + 1
  {
    var live := openings - closings;
    assert (openings + {c}) - closings == live + {c};
  }

  lemma {:induction false} OneLessOpen(openings: set<nat>, closings: set<nat>, c: nat)
    requires c in openings && c !in closings
    ensures |openings - (closings + {c})| == |openings - closings| - 1
  {
    var live := openings - closings;
    assert openings - (closings + {c}) == live - {c};
  }

  lemma {:induction false} OpenMeansActive(hooks: seq<Stamped>, c: nat, born: int)
    ensures var a := After(hooks, |hooks|, born); c in a.openings && c !in a.closings ==> a.active >= 1
  {
    ActiveExact(hooks, |hooks|, born);
    var a := After(hooks, |hooks|, born);
    assert c in a.openings && c !in a.closings ==> c in a.openings - a.closings;
  }

  lemma {:induction false} NoneActive(hooks: seq<Stamped>, n: nat, born: int)
    requires n <= |hooks|
    ensures var a := After(hooks, n, born); a.active == 0 <==> a.openings <= a.closings
  {
    ActiveExact(hooks, n, born);
    var a := After(hooks, n, born);
    if a.active == 0 {
      forall c | c in a.openings
        ensures c in a.closings
      {
        assert c !in a.openings - a.closings;
      }
    } else {
      var c :| c in a.openings - a.closings;
    }
  }

  lemma {:induction false} AfterPrefix(hooks: seq<Stamped>, n: nat, more: seq<Stamped>, born: int)
    requires n <= |hooks|
    ensures After(hooks + more, n, born) == After(hooks, n, born)
  {
    if n > 0 {
      AfterPrefix(hooks, n - 1, more, born);
    }
  }

  lemma {:induction false} AfterOneMore(hooks: seq<Stamped>, h: Stamped, born: int)
    ensures After(hooks + [h], |hooks| + 1, born) == Step(After(hooks, |hooks|, born), h)
    ensures Accepts(hooks + [h], |hooks| + 1) == Accepts(hooks, |hooks|) + if h.hook.Accepted? then 1 else 0
  {
    AfterPrefix(hooks, |hooks|, [h], born);
    AcceptsPrefix(hooks, |hooks|, [h]);
  }

  lemma {:induction false} AfterTaken(hooks: seq<Stamped>, n: nat, born: int)
    requires n <= |hooks|
    ensures After(hooks[..n], n, born) == After(hooks, n, born)
  {
    assert hooks[..n] + hooks[n..] == hooks;
    AfterPrefix(hooks[..n], n, hooks[n..], born);
  }

  // How many connections have been accepted by the first n calls.
  function Accepts(hooks: seq<Stamped>, n: nat): nat
    requires n <= |hooks|
  {
    if n == 0 then 0 else Accepts(hooks, n - 1) + if hooks[n - 1].hook.Accepted? then 1 else 0
  }

  lemma {:induction false} AcceptsPrefix(hooks: seq<Stamped>, n: nat, more: seq<Stamped>)
    requires n <= |hooks|
    ensures Accepts(hooks + more, n) == Accepts(hooks, n)
  {
    if n > 0 { AcceptsPrefix(hooks, n - 1, more); }
  }

  lemma {:induction false} AcceptsTaken(hooks: seq<Stamped>, n: nat)
    requires n <= |hooks|
    ensures Accepts(hooks[..n], n) == Accepts(hooks, n)
  {
    assert hooks[..n] + hooks[n..] == hooks;
    AcceptsPrefix(hooks[..n], n, hooks[n..]);
  }

  // ------------------------------------------------------------- the trackers

  class IdleConnectionTracker {
    const aggregate: ActivityTracker
    ghost const number: nat  // its place in the order of creation
    var isOpened: bool
    var isClosed: bool

    constructor (aggregate: ActivityTracker, ghost number: nat)
      ensures this.aggregate == aggregate && this.number == number && !isOpened && !isClosed
    {
      this.aggregate, this.number, isOpened, isClosed := aggregate, number, false, false;
    }

    method ConnectionMade(now: int)
      requires aggregate.Valid() && this in aggregate.made
      modifies this, aggregate
      ensures aggregate.Valid() && aggregate.made == old(aggregate.made)
      ensures aggregate.history == old(aggregate.history) + [Stamped(now, Made(number))]
    {
      AfterOneMore(aggregate.history, Stamped(now, Made(number)), aggregate.born);
      aggregate.history := aggregate.history + [Stamped(now, Made(number))];
      if isOpened { return; }
      isOpened := true;
      aggregate.NoteConnectionMade(now);
    }

    method ConnectionLost(now: int)
      requires aggregate.Valid() && this in aggregate.made
      modifies this, aggregate
      ensures aggregate.Valid() && aggregate.made == old(aggregate.made)
      ensures aggregate.history == old(aggregate.history) + [Stamped(now, Lost(number))]
    {
      AfterOneMore(aggregate.history, Stamped(now, Lost(number)), aggregate.born);
      OpenMeansActive(aggregate.history, number, aggregate.born);
      aggregate.history := aggregate.history + [Stamped(now, Lost(number))];
      if isClosed || !isOpened { return; }
      isClosed := true;
      aggregate.NoteConnectionLost(now);
    }
  }

  class ActivityTracker {
    var activeCount: int
    var lastActivityAt: int
    var made: seq<IdleConnectionTracker>  // every tracker the factory built, in order (asyncssh keeps them)
    ghost const born: int
    ghost var history: seq<Stamped>       // every call so far

    ghost function Account(): Account
      reads this
    {
      After(history, |history|, born)
    }

    // The fields and the per-connection trackers agree with the hooks called so far.
    ghost predicate Valid()
      reads this, made
    {
      var a := Account();
      && (forall i: nat :: i < |made| ==> (
            && made[i].aggregate == this && made[i].number == i
            && made[i].isOpened == (i in a.openings) && made[i].isClosed == (i in a.closings)))
      && (forall c :: c in a.openings ==> c < |made|) && |made| == Accepts(history, |history|)
      && a.closings <= a.openings && activeCount == a.active && lastActivityAt == a.last
    }

    constructor (now: int)
      ensures Valid() && made == [] && history == [] && born == now
    {
      activeCount, lastActivityAt, made, history, born := 0, now, [], [], now;
    }

    method MakeTracker(ghost now: int) returns (t: IdleConnectionTracker)
      requires Valid()
      modifies this
      ensures Valid() && fresh(t) && made == old(made) + [t] && history == old(history) + [Stamped(now, Accepted)]
      ensures activeCount == old(activeCount) && lastActivityAt == old(lastActivityAt)
    {
      AfterOneMore(history, Stamped(now, Accepted), born);
      t := new IdleConnectionTracker(this, |made|);
      assert |made| !in Account().openings;
      made := made + [t];
      history := history + [Stamped(now, Accepted)];
    }

    method NoteConnectionMade(now: int)
      modifies this
      ensures made == old(made) && history == old(history)
      ensures activeCount == old(activeCount) + 1 && lastActivityAt == now
    {
      activeCount := activeCount + 1;
      lastActivityAt := now;
    }

    method NoteConnectionLost(now: int)
      modifies this
      ensures made == old(made) && history == old(history)
      ensures activeCount == (if old(activeCount) >= 1 then old(activeCount) - 1 else 0) && lastActivityAt == now
    {
      activeCount := if activeCount - 1 > 0 then activeCount - 1 else 0;
      lastActivityAt := now;
    }

    method IsIdle() returns (idle: bool)
      requires Valid()
      ensures idle <==> Account().active == 0
    {
      idle := activeCount == 0;
    }

    method MillisSinceActivity(now: int) returns (ms: int)
      requires Valid()
      ensures ms == now - Account().last
    {
      ms := now - lastActivityAt;
    }
  }

  // ------------------------------------------------------------- the watchdog

  // max(1.0, timeout / 4) seconds
  function PollInterval(timeout: nat): (p: nat) {
    if 250 * timeout > 1000 then 250 * timeout else 1000
  }

  predicate Ordered(hooks: seq<Stamped>, born: int) {
    && (forall i :: 0 <= i < |hooks| ==> born <= hooks[i].at)
    && forall i, j :: 0 <= i < j < |hooks| ==> hooks[i].at <= hooks[j].at
  }

  // How many hooks have been called by `now`.
  function Due(hooks: seq<Stamped>, n: nat, now: int): (d: nat)
    requires n <= |hooks|
    ensures d <= n
  {
    if n == 0 || hooks[n - 1].at <= now then n else Due(hooks, n - 1, now)
  }

  function At(hooks: seq<Stamped>, born: int, now: int): Account {
    After(hooks, Due(hooks, |hooks|, now), born)
  }

  predicate Expired(hooks: seq<Stamped>, born: int, now: int, timeout: nat) {
    var a := At(hooks, born, now);
    a.active == 0 && now - a.last >= 1000 * timeout
  }

  function PollTime(start: int, timeout: nat, k: nat): int { start + k * PollInterval(timeout) }

  // The watchdog stops at the first of its polls that finds the daemon expired; it is cancelled
  // after `polls` of them.
  ghost predicate Outcome(hooks: seq<Stamped>, born: int, start: int, timeout: nat, polls: nat, fired: Option<int>) {
    match fired
    case None => forall k: nat :: 1 <= k <= polls ==> !Expired(hooks, born, PollTime(start, timeout, k), timeout)
    case Some(at) => exists last: nat :: FirstExpiry(hooks, born, start, timeout, polls, at, last)
  }

  ghost predicate FirstExpiry(hooks: seq<Stamped>, born: int, start: int, timeout: nat, polls: nat, at: int,
                              last: nat) {
    && 1 <= last <= polls && at == PollTime(start, timeout, last) && Expired(hooks, born, at, timeout)
    && forall k: nat :: 1 <= k < last ==> !Expired(hooks, born, PollTime(start, timeout, k), timeout)
  }

  lemma {:induction false} DueSplits(hooks: seq<Stamped>, n: nat, now: int, born: int)
    requires n <= |hooks| && Ordered(hooks, born)
    ensures forall i :: 0 <= i < Due(hooks, n, now) ==> hooks[i].at <= now
    ensures forall i :: Due(hooks, n, now) <= i < n ==> hooks[i].at > now
  {
    if n > 0 && hooks[n - 1].at > now {
      DueSplits(hooks, n - 1, now, born);
    }
  }

  // A connection's hooks are called after it has been accepted.
  predicate AllKnown(hooks: seq<Stamped>) {
    forall i :: 0 <= i < |hooks| && !hooks[i].hook.Accepted? ==> hooks[i].hook.c < Accepts(hooks, i)
  }

  // One call by asyncssh.
  method Deliver(tracker: ActivityTracker, h: Stamped)
    requires tracker.Valid() && (!h.hook.Accepted? ==> h.hook.c < |tracker.made|)
    modifies tracker, tracker.made
    ensures tracker.Valid() && tracker.history == old(tracker.history) + [h]
    ensures fresh((set t | t in tracker.made) - (set t | t in old(tracker.made)))
  {
    match h.hook {
      case Accepted => var _ := tracker.MakeTracker(h.at);
      case Made(c) => tracker.made[c].ConnectionMade(h.at);
      case Lost(c) => tracker.made[c].ConnectionLost(h.at);
    }
  }

  // One ideal sleep: what is stamped up to `now` is called meanwhile.
  method Sleep(tracker: ActivityTracker, hooks: seq<Stamped>, from: nat, now: int) returns (d: nat)
    requires tracker.Valid() && AllKnown(hooks) && Ordered(hooks, tracker.born)
    requires from <= Due(hooks, |hooks|, now) && tracker.history == hooks[..from]
    modifies tracker, tracker.made
    decreases |hooks| - from
    ensures tracker.Valid() && d == Due(hooks, |hooks|, now) && tracker.history == hooks[..d]
    ensures fresh((set t | t in tracker.made) - (set t | t in old(tracker.made)))
  {
    d := from;
    DueSplits(hooks, |hooks|, now, tracker.born);
    if d < |hooks| && hooks[d].at <= now {
      AcceptsTaken(hooks, d);
      Deliver(tracker, hooks[d]);
      d := Sleep(tracker, hooks, d + 1, now);
    }
  }

  // The test of one poll: idle, and quiet for long enough.
  method PollTest(tracker: ActivityTracker, now: int, timeout: nat) returns (expired: bool)
    requires tracker.Valid()
    ensures expired <==> tracker.Account().active == 0 && now - tracker.Account().last >= 1000 * timeout
  {
    var idle := tracker.IsIdle();
    if !idle { return false; }
    var quiet := tracker.MillisSinceActivity(now);
    return quiet >= 1000 * timeout;
  }

  lemma {:induction false} DueGrows(hooks: seq<Stamped>, born: int, before: int, now: int)
    requires Ordered(hooks, born) && before <= now
    ensures Due(hooks, |hooks|, before) <= Due(hooks, |hooks|, now)
  {
    DueSplits(hooks, |hooks|, before, born);
    DueSplits(hooks, |hooks|, now, born);
    var d := Due(hooks, |hooks|, before);
    assert d > 0 ==> hooks[d - 1].at <= now;
  }

  // One round: the sleep up to `now`, and the test.
  method SleepAndTest(tracker: ActivityTracker, hooks: seq<Stamped>, from: nat, now: int, timeout: nat)
    returns (d: nat, expired: bool)
    requires tracker.Valid() && AllKnown(hooks) && Ordered(hooks, tracker.born)
    requires from <= Due(hooks, |hooks|, now) && tracker.history == hooks[..from]
    modifies tracker, tracker.made
    ensures tracker.Valid() && d == Due(hooks, |hooks|, now) && tracker.history == hooks[..d]
    ensures fresh((set t | t in tracker.made) - (set t | t in old(tracker.made)))
    ensures expired <==> Expired(hooks, tracker.born, now, timeout)
  {
    d := Sleep(tracker, hooks, from, now);
    AfterTaken(hooks, d, tracker.born);
    expired := PollTest(tracker, now, timeout);
  }

  // `given`: what asyncssh has called before the watchdog starts; the rest of `hooks` comes while it
  // runs.
  method IdleWatchdog(tracker: ActivityTracker, hooks: seq<Stamped>, given: nat, start: int, timeout: nat, polls: nat)
    returns (fired: Option<int>)
    requires tracker.Valid() && AllKnown(hooks) && Ordered(hooks, tracker.born)
    requires given <= Due(hooks, |hooks|, start) && tracker.history == hooks[..given]
    modifies tracker, tracker.made
    ensures tracker.Valid() && Outcome(hooks, tracker.born, start, timeout, polls, fired)
  {
    var interval := PollInterval(timeout);
    var k: nat, d: nat, now := 0, given, start;
    while k < polls
      invariant 0 <= k <= polls && now == PollTime(start, timeout, k)
      invariant d <= Due(hooks, |hooks|, now) && tracker.history == hooks[..d] && tracker.Valid()
      invariant fresh((set t | t in tracker.made) - (set t | t in old(tracker.made)))
      invariant forall j: nat :: 1 <= j <= k ==> !Expired(hooks, tracker.born, PollTime(start, timeout, j), timeout)
    {
      NextPoll(start, timeout, k);
      DueGrows(hooks, tracker.born, now, now + interval);
      k, now := k + 1, now + interval;
      var expired;
      d, expired := SleepAndTest(tracker, hooks, d, now, timeout);
      if expired {
        assert FirstExpiry(hooks, tracker.born, start, timeout, polls, now, k);
        return Some(now);
      }
    }
    return None;
  }

  lemma {:induction false} NextPoll(start: int, timeout: nat, k: nat)
    ensures PollTime(start, timeout, k + 1) == PollTime(start, timeout, k) + PollInterval(timeout)
  {
  }

  // ------------------------------------------------------- what a reader wants

  // Does the m-th hook change anything (a first opening, or a first loss after it)?
  predicate Effective(hooks: seq<Stamped>, born: int, m: nat)
    requires m < |hooks|
  {
    After(hooks, m + 1, born) != After(hooks, m, born)
  }

  // The clock holds the time of the last effective hook, or of construction when there was none.
  lemma {:induction false} LastExact(hooks: seq<Stamped>, n: nat, born: int)
    requires n <= |hooks| && Ordered(hooks, born)
    ensures forall m :: 0 <= m < n && Effective(hooks, born, m) ==> hooks[m].at <= After(hooks, n, born).last
    ensures (|| After(hooks, n, born).last == born
             || exists m :: 0 <= m < n && Effective(hooks, born, m) && hooks[m].at == After(hooks, n, born).last)
    ensures born <= After(hooks, n, born).last
    ensures n > 0 ==> After(hooks, n, born).last <= hooks[n - 1].at
  {
    if n > 0 {
      LastExact(hooks, n - 1, born);
      if Effective(hooks, born, n - 1) {
        assert After(hooks, n, born).last == hooks[n - 1].at;
      }
    }
  }

  // A watchdog that fired did so with no connection open and `timeout` seconds after the last
  // opening or closing (or after construction).
  lemma {:induction false} NeverTooEarly(hooks: seq<Stamped>, born: int, start: int, timeout: nat, polls: nat, at: int)
    requires Ordered(hooks, born) && Outcome(hooks, born, start, timeout, polls, Some(at))
    ensures born + 1000 * timeout <= at
    ensures forall m :: 0 <= m < |hooks| && hooks[m].at <= at && Effective(hooks, born, m) ==>
              hooks[m].at + 1000 * timeout <= at
    ensures forall c: nat :: (WasMade(hooks, Due(hooks, |hooks|, at), c) ==> WasLost(hooks, Due(hooks, |hooks|, at), c))
  {
    var d := Due(hooks, |hooks|, at);
    assert Expired(hooks, born, at, timeout);
    LastExact(hooks, d, born);
    DueSplits(hooks, |hooks|, at, born);
    forall c: nat
      ensures WasMade(hooks, d, c) ==> WasLost(hooks, d, c)
    {
      AccountExact(hooks, d, born, c);
      NoneActive(hooks, d, born);
    }
  }

  function Max(a: int, b: int): int { if a >= b then a else b }

  // If from `last` on nothing opens or closes and nothing is open, the watchdog fires no later than
  // one poll after the timeout has run out (or after it started, when that is later), unless it is
  // cancelled before.
  lemma {:induction false} FiresInTime(hooks: seq<Stamped>, born: int, start: int, timeout: nat, polls: nat,
                                       fired: Option<int>, last: int)
    requires Outcome(hooks, born, start, timeout, polls, fired)
    requires (forall t {:trigger At(hooks, born, t)} ::
                last <= t <= Max(last + 1000 * timeout, start) + Max(1000, 250 * timeout) ==>
                var a := At(hooks, born, t); a.openings <= a.closings && a.last == last)
    requires PollTime(start, timeout, polls) >= Max(last + 1000 * timeout, start)
    requires polls >= 1
    ensures fired.Some? && fired.value <= Max(last + 1000 * timeout, start) + Max(1000, 250 * timeout)
  {
    var due := Max(last + 1000 * timeout, start);
    var k := FirstPollFrom(start, timeout, due, polls);
    var at := PollTime(start, timeout, k);
    assert At(hooks, born, at).last == last;
    NoneActive(hooks, Due(hooks, |hooks|, at), born);
    assert Expired(hooks, born, at, timeout);
    if fired.Some? {
      var first: nat :| FirstExpiry(hooks, born, start, timeout, polls, fired.value, first);
      assert first <= k;
      PollsIncrease(start, timeout, first, k);
    }
  }

  // The first poll at or after `due`, which is at most one interval later.
  lemma {:induction false} FirstPollFrom(start: int, timeout: nat, due: int, polls: nat) returns (k: nat)
    requires start <= due <= PollTime(start, timeout, polls) && polls >= 1
    ensures 1 <= k <= polls && due <= PollTime(start, timeout, k) <= due + PollInterval(timeout)
  {
    if polls == 1 || PollTime(start, timeout, polls - 1) < due {
      k := polls;
      NextPoll(start, timeout, polls - 1);
    } else {
      k := FirstPollFrom(start, timeout, due, polls - 1);
    }
  }

  lemma {:induction false} PollsIncrease(start: int, timeout: nat, j: nat, k: nat)
    requires j <= k
    ensures PollTime(start, timeout, j) <= PollTime(start, timeout, k)
  {
    if j < k {
      PollsIncrease(start, timeout, j, k - 1);
      NextPoll(start, timeout, k - 1);
    }
  }
}
