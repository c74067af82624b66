/**
  Who owns which connection and listener while the daemon starts and stops
  (tunstrap/manager.py, tunstrap/ssh.py). Connections and listeners are counted
  resources; the answers of the remote side are inputs, and cover the exceptions
  the code expects.
*/
module Manager {
  import opened Wrappers

  datatype Forward = Forward(opens: bool, accepts: bool, reachable: bool)

  // How each start-up step of a node goes. The kube step opens `kubeForwards` listeners that
  // stay open, whether or not it raises afterwards.
  datatype Answer = Answer(
    connects: bool, forwards: seq<Forward>,
    fetchRaises: bool, fetchRequiredFailed: bool,
    kubeForwards: nat, kubeRaises: bool, kubeRequiredFailed: bool)

  datatype Node = Node(name: string, required: bool, fetches: bool, kubes: bool)

  predicate ForwardWorks(f: Forward, required: bool) { f.opens && f.accepts && (required ==> f.reachable) }

  // The node starts: no step of it fails.
  predicate Starts(n: Node, a: Answer) {
    && a.connects
    && (forall k :: 0 <= k < |a.forwards| ==> ForwardWorks(a.forwards[k], n.required))
    && (n.fetches ==> !a.fetchRaises && !a.fetchRequiredFailed)
    && (n.kubes ==> !a.kubeRaises && !a.kubeRequiredFailed)
  }

  // Open connections, and open listeners with the connection each runs over.
  class Net {
    var conns: set<nat>
    var listeners: map<nat, nat>
    var next: nat

    ghost predicate Valid()
      reads this
    {
      && (forall c :: c in conns ==> c < next)
      && (forall l :: l in listeners ==> l < next && listeners[l] in conns)
    }

    constructor ()
      ensures Valid() && conns == {} && listeners == map[]
    {
      conns, listeners, next := {}, map[], 0;
    }

    method Connect() returns (c: nat)
      requires Valid()
      modifies this
      ensures Valid() && c !in old(conns) && c >= old(next) && next > old(next)
      ensures conns == old(conns) + {c} && listeners == old(listeners)
    {
      c := next;
      conns, next := conns + {c}, next + 1;
    }

    method Listen(c: nat) returns (l: nat)
      requires Valid() && c in conns
      modifies this
      ensures Valid() && l !in old(listeners) && l == old(next) && next == l + 1
      ensures conns == old(conns) && listeners == old(listeners)[l := c]
    {
      l := next;
      listeners, next := listeners[l := c], next + 1;
    }

    method CloseListener(l: nat)
      requires Valid()
      modifies this
      ensures Valid() && conns == old(conns) && listeners == old(listeners) - {l} && next == old(next)
    {
      listeners := listeners - {l};
    }

    // Closing a connection closes every listener that runs over it.
    method CloseConnection(c: nat)
      requires Valid()
      modifies this
      ensures Valid() && conns == old(conns) - {c} && listeners == Without(old(listeners), c) && next == old(next)
    {
      conns, listeners := conns - {c}, Without(listeners, c);
    }

    // close_transport: listeners first, then the connection, then waits that change nothing.
    method CloseTransport(conn: Option<nat>, ls: seq<nat>)
      requires Valid()
      modifies this
      ensures Valid() && next == old(next)
      ensures conns == if conn.Some? then old(conns) - {conn.value} else old(conns)
      ensures var left := old(listeners) - (set l | l in ls);
              listeners == if conn.Some? then Without(left, conn.value) else left
    {
      var i := 0;
      while i < |ls|
        invariant 0 <= i <= |ls| && Valid() && conns == old(conns) && next == old(next)
        invariant listeners == old(listeners) - (set l | l in ls[..i])
      {
        assert ls[..i + 1] == ls[..i] + [ls[i]];
        CloseListener(ls[i]);
        i := i + 1;
      }
      assert ls[..i] == ls;
      if conn.Some? { CloseConnection(conn.value); }
    }
  }

  function Without(listeners: map<nat, nat>, c: nat): map<nat, nat> {
    map l | l in listeners && listeners[l] != c :: listeners[l]
  }

  // _NodeRuntime of a node that started.
  datatype Runtime = Runtime(name: string, conn: nat, listeners: seq<nat>)

  // Where a node's _start_one stands between two awaits; `ls` are the listeners opened so far.
  datatype Stage =
    | Idle
    | Opening(conn: nat, ls: seq<nat>)    // about to open the next local forward, or past the last one
    | Probing(conn: nat, ls: seq<nat>)    // the newest listener is yet to be probed
    | Forwarded(conn: nat, ls: seq<nat>)  // all forwards are up; files are fetched next
    | Fetched(conn: nat, ls: seq<nat>)    // kube targets are next
    | Up(conn: nat, ls: seq<nat>)
    | Down
  {
    predicate Connected() { !Idle? && !Down? }

    predicate Done() { Up? || Down? }
  }

  // What has been found out about a node at a stage.
  ghost predicate Known(n: Node, a: Answer, s: Stage) {
    match s
    case Idle => true
    case Opening(_, ls) => a.connects && |ls| <= |a.forwards| && Working(n, a, |ls|)
    case Probing(_, ls) =>
      && a.connects && 0 < |ls| <= |a.forwards| && Working(n, a, |ls| - 1) && a.forwards[|ls| - 1].opens
    case Forwarded(_, ls) => a.connects && |ls| == |a.forwards| && Working(n, a, |ls|)
    case Fetched(_, ls) =>
      && a.connects && |ls| == |a.forwards| && Working(n, a, |ls|)
      && (n.fetches ==> !a.fetchRaises && !a.fetchRequiredFailed)
    case Up(_, ls) => Starts(n, a) && |ls| == |a.forwards|
    case Down => !Starts(n, a)
  }

  predicate Working(n: Node, a: Answer, count: nat)
    requires count <= |a.forwards|
  {
    forall k :: 0 <= k < count ==> ForwardWorks(a.forwards[k], n.required)
  }

  // One step of a node: which stage comes next, and with which connection and listeners.
  predicate Advances(n: Node, a: Answer, s: Stage, t: Stage) {
    match s
    case Idle => if a.connects then t.Opening? && t.ls == [] else t == Down
    case Opening(c, ls) =>
      if |ls| >= |a.forwards| then t == Forwarded(c, ls)
      else if a.forwards[|ls|].opens then t.Probing? && t.conn == c && |t.ls| == |ls| + 1 && ls <= t.ls
      else t == Down
    case Probing(c, ls) =>
      if 0 < |ls| <= |a.forwards| && a.forwards[|ls| - 1].accepts && (n.required ==> a.forwards[|ls| - 1].reachable)
      then t == Opening(c, ls) else t == Down
    case Forwarded(c, ls) =>
      if n.fetches && (a.fetchRaises || a.fetchRequiredFailed) then t == Down else t == Fetched(c, ls)
    case Fetched(c, ls) =>
      if n.kubes && (a.kubeRaises || a.kubeRequiredFailed) then t == Down else t == Up(c, ls)
    case _ => t == s
  }

  lemma {:induction false} KnownLater(n: Node, a: Answer, s: Stage, t: Stage)
    requires Known(n, a, s) && Advances(n, a, s, t)
    ensures Known(n, a, t)
  {
  }

  // Who has what: each connected node its own connection, all its listeners open on it, and nobody
  // else anything.
  ghost predicate Owned(stages: seq<Stage>, conns: set<nat>, listeners: map<nat, nat>) {
    && (forall i :: 0 <= i < |stages| && stages[i].Connected() ==>
          stages[i].conn in conns && AllOpen(listeners, stages[i].ls, stages[i].conn))
    && (forall i, j :: 0 <= i < j < |stages| && stages[i].Connected() && stages[j].Connected() ==>
          stages[i].conn != stages[j].conn)
    && (forall c :: c in conns ==> HasOwner(stages, c))
    && (forall l :: l in listeners ==> listeners[l] in conns)
  }

  ghost predicate HasOwner(stages: seq<Stage>, c: nat) {
    exists i :: 0 <= i < |stages| && stages[i].Connected() && stages[i].conn == c
  }

  // The given listeners are different ones, and open on connection c.
  ghost predicate AllOpen(listeners: map<nat, nat>, ls: seq<nat>, c: nat) {
    && (forall l :: l in ls ==> l in listeners && listeners[l] == c)
    && (forall j, k :: 0 <= j < k < |ls| ==> ls[j] != ls[k])
  }

  // A node that connects.
  lemma {:induction false} OwnedConnects(stages: seq<Stage>, conns: set<nat>, listeners: map<nat, nat>, i: nat, c: nat)
    requires Owned(stages, conns, listeners) && i < |stages| && stages[i].Idle? && c !in conns
    ensures Owned(stages[i := Opening(c, [])], conns + {c}, listeners)
  {
    var later := stages[i := Opening(c, [])];
    assert later[i].conn == c;
    forall d | d in conns + {c}
      ensures HasOwner(later, d)
    {
      if d in conns {
        var j :| 0 <= j < |stages| && stages[j].Connected() && stages[j].conn == d;
        assert later[j] == stages[j];
      }
    }
  }

  // A node that opens one more listener on its connection.
  lemma {:induction false} OwnedListens(stages: seq<Stage>, conns: set<nat>, listeners: map<nat, nat>, i: nat, l: nat)
    requires Owned(stages, conns, listeners) && i < |stages| && stages[i].Connected() && l !in listeners
    ensures Owned(stages[i := Probing(stages[i].conn, stages[i].ls + [l])], conns, listeners[l := stages[i].conn])
  {
    var later := stages[i := Probing(stages[i].conn, stages[i].ls + [l])];
    OwnersMove(stages, later, conns, i);
  }

  lemma {:induction false} OwnersMove(stages: seq<Stage>, later: seq<Stage>, conns: set<nat>, i: nat)
    requires i < |stages| == |later| && stages[i].Connected() && later[i].Connected() && later[i].conn == stages[i].conn
    requires forall j :: 0 <= j < |stages| && j != i ==> later[j] == stages[j]
    ensures forall c :: HasOwner(stages, c) ==> HasOwner(later, c)
  {
    forall c | HasOwner(stages, c)
      ensures HasOwner(later, c)
    {
      var j :| 0 <= j < |stages| && stages[j].Connected() && stages[j].conn == c;
      assert later[j].Connected() && later[j].conn == c;
    }
  }

  // A node that goes on with what it has.
  lemma {:induction false} OwnedGoesOn(stages: seq<Stage>, conns: set<nat>, listeners: map<nat, nat>, i: nat, t: Stage)
    requires Owned(stages, conns, listeners) && i < |stages| && stages[i].Connected()
    requires t.Connected() && t.conn == stages[i].conn && t.ls == stages[i].ls
    ensures Owned(stages[i := t], conns, listeners)
  {
    OwnersMove(stages, stages[i := t], conns, i);
  }

  // Listeners that a kube step opens besides.
  lemma {:induction false} OwnedMore(stages: seq<Stage>, conns: set<nat>, before: map<nat, nat>, after: map<nat, nat>,
                                     i: nat)
    requires Owned(stages, conns, before) && i < |stages| && stages[i].Connected()
    requires OnlyOn(before, after, stages[i].conn)
    ensures Owned(stages, conns, after)
  {
  }

  // A node that fails after it has connected: its connection goes, with every listener on it.
  lemma {:induction false} OwnedFails(stages: seq<Stage>, conns: set<nat>, listeners: map<nat, nat>, i: nat)
    requires Owned(stages, conns, listeners) && i < |stages| && stages[i].Connected()
    ensures Owned(stages[i := Down], conns - {stages[i].conn}, Without(listeners, stages[i].conn))
  {
    var c, later := stages[i].conn, stages[i := Down];
    forall d | d in conns - {c}
      ensures HasOwner(later, d)
    {
      var j :| 0 <= j < |stages| && stages[j].Connected() && stages[j].conn == d;
      assert later[j] == stages[j];
    }
  }

  // Closing its listeners first makes no difference when the connection takes them along.
  lemma {:induction false} WithoutOwn(listeners: map<nat, nat>, ls: seq<nat>, c: nat)
    requires AllOpen(listeners, ls, c)
    ensures Without(listeners - (set l | l in ls), c) == Without(listeners, c)
  {
  }

  // `after` is `before` and possibly more listeners on connection c.
  ghost predicate OnlyOn(before: map<nat, nat>, after: map<nat, nat>, c: nat) {
    && (forall l :: l in before ==> l in after && after[l] == before[l])
    && (forall l :: l in after ==> l in before || after[l] == c)
  }

  // Listeners on any connection but the node's own are as they were.
  ghost predicate Spared(s: Stage, before: map<nat, nat>, after: map<nat, nat>) {
    forall l :: l in before && !(s.Connected() && before[l] == s.conn) ==> l in after && after[l] == before[l]
  }

  // The listeners numbered from..to are all open, on connection c.
  ghost predicate OpenedOn(listeners: map<nat, nat>, from: nat, to: nat, c: nat) {
    forall l :: from <= l < to ==> l in listeners && listeners[l] == c
  }

  // One runtime for each node that is up, and nothing else.
  ghost predicate Booked(nodes: seq<Node>, stages: seq<Stage>, runtimes: seq<Runtime>)
    requires |nodes| == |stages|
  {
    && (forall k :: 0 <= k < |runtimes| ==> FromUp(nodes, stages, runtimes[k]))
    && (forall i: nat :: i < |stages| && stages[i].Up? ==>
          Runtime(nodes[i].name, stages[i].conn, stages[i].ls) in runtimes)
    && (forall j, k :: 0 <= j < k < |runtimes| ==> runtimes[j].conn != runtimes[k].conn)
  }

  ghost predicate FromUp(nodes: seq<Node>, stages: seq<Stage>, r: Runtime)
    requires |nodes| == |stages|
  {
    exists i :: 0 <= i < |stages| && stages[i] == Up(r.conn, r.listeners) && nodes[i].name == r.name
  }

  // A step that does not bring a node up leaves the runtimes right.
  lemma {:induction false} BookedStays(nodes: seq<Node>, stages: seq<Stage>, runtimes: seq<Runtime>, i: nat, t: Stage)
    requires |nodes| == |stages| && Booked(nodes, stages, runtimes) && i < |stages| && !stages[i].Up? && !t.Up?
    ensures Booked(nodes, stages[i := t], runtimes)
  {
    forall k | 0 <= k < |runtimes|
      ensures FromUp(nodes, stages[i := t], runtimes[k])
    {
      var r := runtimes[k];
      var j :| 0 <= j < |stages| && stages[j] == Up(r.conn, r.listeners) && nodes[j].name == r.name;
      assert stages[i := t][j] == stages[j];
    }
  }

  lemma {:induction false} BookedGrows(nodes: seq<Node>, stages: seq<Stage>, runtimes: seq<Runtime>, i: nat,
                                       conns: set<nat>, listeners: map<nat, nat>)
    requires |nodes| == |stages| && Booked(nodes, stages, runtimes) && i < |stages| && stages[i].Fetched?
    requires Owned(stages, conns, listeners)
    ensures Booked(nodes, stages[i := Up(stages[i].conn, stages[i].ls)],
                   runtimes + [Runtime(nodes[i].name, stages[i].conn, stages[i].ls)])
  {
    var later := stages[i := Up(stages[i].conn, stages[i].ls)];
    var more := runtimes + [Runtime(nodes[i].name, stages[i].conn, stages[i].ls)];
    forall k | 0 <= k < |more|
      ensures FromUp(nodes, later, more[k]) && (k < |runtimes| ==> more[k].conn != stages[i].conn)
    {
      if k < |runtimes| {
        var r := runtimes[k];
        var j :| 0 <= j < |stages| && stages[j] == Up(r.conn, r.listeners) && nodes[j].name == r.name;
        assert later[j] == stages[j];
      } else {
        assert later[i] == Up(more[k].conn, more[k].listeners);
      }
    }
    forall j: nat | j < |later| && later[j].Up?
      ensures Runtime(nodes[j].name, later[j].conn, later[j].ls) in more
    {
      if j == i { assert more[|runtimes|] == Runtime(nodes[i].name, later[i].conn, later[i].ls); }
    }
  }

  // The runtimes hold all connections, each its own, with their listeners open.
  ghost predicate Held(runtimes: seq<Runtime>, conns: set<nat>, listeners: map<nat, nat>) {
    && (forall c :: c in conns <==> OfRuntime(runtimes, c))
    && (forall j, k :: 0 <= j < k < |runtimes| ==> runtimes[j].conn != runtimes[k].conn)
    && (forall k :: 0 <= k < |runtimes| ==> AllOpen(listeners, runtimes[k].listeners, runtimes[k].conn))
  }

  ghost predicate OfRuntime(runtimes: seq<Runtime>, c: nat) {
    exists k :: 0 <= k < |runtimes| && runtimes[k].conn == c
  }

  // When every node has ended, what the stages own is what the runtimes hold.
  lemma {:induction false} OwnedIsHeld(nodes: seq<Node>, stages: seq<Stage>, runtimes: seq<Runtime>,
                                       conns: set<nat>, listeners: map<nat, nat>)
    requires |nodes| == |stages| && Booked(nodes, stages, runtimes) && Owned(stages, conns, listeners)
    requires forall i :: 0 <= i < |stages| ==> stages[i].Done()
    ensures Held(runtimes, conns, listeners)
  {
    forall c
      ensures c in conns <==> OfRuntime(runtimes, c)
    {
      if c in conns {
        var i :| 0 <= i < |stages| && stages[i].Connected() && stages[i].conn == c;
        var k :| 0 <= k < |runtimes| && runtimes[k] == Runtime(nodes[i].name, stages[i].conn, stages[i].ls);
      }
      if OfRuntime(runtimes, c) {
        var k :| 0 <= k < |runtimes| && runtimes[k].conn == c;
        assert FromUp(nodes, stages, runtimes[k]);
      }
    }
    forall k | 0 <= k < |runtimes|
      ensures AllOpen(listeners, runtimes[k].listeners, runtimes[k].conn)
    {
      assert FromUp(nodes, stages, runtimes[k]);
    }
  }

  // The most turns a node can still use.
  function Remaining(a: Answer, s: Stage): int {
    match s
    case Idle => 2 * |a.forwards| + 5
    case Opening(_, ls) => 2 * (|a.forwards| - |ls|) + 4
    case Probing(_, ls) => 2 * (|a.forwards| - |ls|) + 5
    case Forwarded(_, _) => 3
    case Fetched(_, _) => 2
    case _ => 0
  }

  lemma {:induction false} StepsRunOut(n: Node, a: Answer, s: Stage, t: Stage)
    requires Known(n, a, s) && Advances(n, a, s, t) && !s.Done()
    ensures 0 <= Remaining(a, t) < Remaining(a, s)
  {
  }

  function Turns(schedule: seq<nat>, i: nat): nat {
    if schedule == [] then 0
    else Turns(schedule[..|schedule| - 1], i) + if schedule[|schedule| - 1] == i then 1 else 0
  }

  class TunnelManager {
    const net: Net
    const nodes: seq<Node>
    const answers: seq<Answer>
    var stages: seq<Stage>
    var runtimes: seq<Runtime>

    // What holds between any two steps while nodes are starting.
    ghost predicate Starting()
      reads this, net
    {
      && net.Valid() && |nodes| == |answers| == |stages|
      && Owned(stages, net.conns, net.listeners) && Booked(nodes, stages, runtimes)
      && forall i :: 0 <= i < |stages| ==> Known(nodes[i], answers[i], stages[i])
    }

    // What holds once they have ended, and after stop_all.
    ghost predicate Holding()
      reads this, net
    {
      net.Valid() && Held(runtimes, net.conns, net.listeners)
    }

    constructor (net: Net, nodes: seq<Node>, answers: seq<Answer>)
      requires net.Valid() && net.conns == {} && |nodes| == |answers|
      ensures Starting() && Holding() && this.net == net && this.nodes == nodes && this.answers == answers
      ensures runtimes == [] && stages == seq(|nodes|, _ => Idle)
    {
      this.net, this.nodes, this.answers, runtimes := net, nodes, answers, [];
      stages := seq(|nodes|, _ => Idle);
    }

    // stop_all: everything is closed, and a second call finds nothing to close.
    method StopAll()
      requires Holding()
      modifies this, net
      ensures Holding() && runtimes == [] && net.conns == {} && net.listeners == map[]
      ensures old(runtimes) == [] ==> old(net.conns) == {} && net.next == old(net.next)
      ensures stages == old(stages)
    {
      var rs := runtimes;
      runtimes := [];
      var i := 0;
      while i < |rs|
        invariant 0 <= i <= |rs| && net.Valid() && runtimes == [] && net.next == old(net.next) && stages == old(stages)
        invariant forall c :: c in net.conns <==> exists k :: i <= k < |rs| && rs[k].conn == c
        invariant forall j, k :: 0 <= j < k < |rs| ==> rs[j].conn != rs[k].conn
      {
        net.CloseTransport(Some(rs[i].conn), rs[i].listeners);
        i := i + 1;
      }
      assert net.listeners == map[];
    }

    // One step of node i, from one await to the next. Nobody else's connection or listeners change.
    method Step(i: nat)
      requires Starting() && i < |nodes|
      modifies this, net
      ensures Starting() && stages == old(stages)[i := stages[i]]
      ensures Spared(old(stages)[i], old(net.listeners), net.listeners)
      ensures Advances(nodes[i], answers[i], old(stages)[i], stages[i])
    {
      var s := stages[i];
      match s {
        case Idle => Connect(i);
        case Opening(_, _) => OpenNext(i);
        case Probing(c, ls) =>
          var f := answers[i].forwards[|ls| - 1];
          if f.accepts && (nodes[i].required ==> f.reachable) { GoOn(i, Opening(c, ls)); } else { Fail(i); }
        case Forwarded(c, ls) =>
          if nodes[i].fetches && (answers[i].fetchRaises || answers[i].fetchRequiredFailed) {
            Fail(i);
          } else {
            GoOn(i, Fetched(c, ls));
          }
        case Fetched(_, _) => Finish(i);
        case _ =>
      }
    }

    method Connect(i: nat)
      requires Starting() && i < |nodes| && stages[i].Idle?
      modifies this, net
      ensures Starting() && stages == old(stages)[i := stages[i]]
      ensures Spared(old(stages)[i], old(net.listeners), net.listeners)
      ensures Advances(nodes[i], answers[i], Idle, stages[i])
    {
      if !answers[i].connects {
        ghost var was := stages;
        stages := stages[i := Down];
        BookedStays(nodes, was, runtimes, i, Down);
        OwnedIdle(was, net.conns, net.listeners, i);
        return;
      }
      ghost var conns, was := net.conns, stages;
      var c := net.Connect();
      stages := stages[i := Opening(c, [])];
      OwnedConnects(was, conns, net.listeners, i, c);
      BookedStays(nodes, was, runtimes, i, Opening(c, []));
    }

    method OpenNext(i: nat)
      requires Starting() && i < |nodes| && stages[i].Opening?
      modifies this, net
      ensures Starting() && stages == old(stages)[i := stages[i]]
      ensures Spared(old(stages)[i], old(net.listeners), net.listeners)
      ensures Advances(nodes[i], answers[i], old(stages)[i], stages[i])
    {
      var c, ls := stages[i].conn, stages[i].ls;
      if |ls| == |answers[i].forwards| {
        GoOn(i, Forwarded(c, ls));
      } else if answers[i].forwards[|ls|].opens {
        OpenOne(i);
      } else {
        Fail(i);
      }
    }

    method OpenOne(i: nat)
      requires Starting() && i < |nodes| && stages[i].Opening?
      requires |stages[i].ls| < |answers[i].forwards| && answers[i].forwards[|stages[i].ls|].opens
      modifies this, net
      ensures Starting() && stages == old(stages)[i := stages[i]]
      ensures Spared(old(stages)[i], old(net.listeners), net.listeners)
      ensures Advances(nodes[i], answers[i], old(stages)[i], stages[i])
    {
      var c, ls := stages[i].conn, stages[i].ls;
      ghost var listeners, was := net.listeners, stages;
      var l := net.Listen(c);
      OwnedListens(was, net.conns, listeners, i, l);
      BookedStays(nodes, was, runtimes, i, Probing(c, ls + [l]));
      KnownLater(nodes[i], answers[i], was[i], Probing(c, ls + [l]));
      stages := stages[i := Probing(c, ls + [l])];
    }

    method GoOn(i: nat, t: Stage)
      requires Starting() && i < |nodes| && stages[i].Connected() && !stages[i].Up?
      requires t.Connected() && !t.Up? && t.conn == stages[i].conn && t.ls == stages[i].ls
      requires Advances(nodes[i], answers[i], stages[i], t)
      modifies this
      ensures Starting() && stages == old(stages)[i := t]
    {
      OwnedGoesOn(stages, net.conns, net.listeners, i, t);
      BookedStays(nodes, stages, runtimes, i, t);
      KnownLater(nodes[i], answers[i], stages[i], t);
      stages := stages[i := t];
    }

    // close_transport on a failure path: the connection takes all its listeners along.
    method Fail(i: nat)
      requires Starting() && i < |nodes| && stages[i].Connected() && !stages[i].Up?
      requires Advances(nodes[i], answers[i], stages[i], Down)
      modifies this, net
      ensures Starting() && stages == old(stages)[i := Down]
      ensures Spared(old(stages)[i], old(net.listeners), net.listeners)
      ensures net.next == old(net.next)
    {
      OwnedFails(stages, net.conns, net.listeners, i);
      BookedStays(nodes, stages, runtimes, i, Down);
      KnownLater(nodes[i], answers[i], stages[i], Down);
      WithoutOwn(net.listeners, stages[i].ls, stages[i].conn);
      net.CloseTransport(Some(stages[i].conn), stages[i].ls);
      stages := stages[i := Down];
    }

    // The kube step, which leaves listeners of its own open, and the end of a start.
    method Finish(i: nat)
      requires Starting() && i < |nodes| && stages[i].Fetched?
      modifies this, net
      ensures Starting() && stages == old(stages)[i := stages[i]]
      ensures Spared(old(stages)[i], old(net.listeners), net.listeners)
      ensures Advances(nodes[i], answers[i], old(stages)[i], stages[i])
      // a node that is up serves its kube targets: as many listeners more, all on its connection
      ensures nodes[i].kubes ==> net.next == old(net.next) + answers[i].kubeForwards
      ensures nodes[i].kubes && stages[i].Up? ==> OpenedOn(net.listeners, old(net.next), net.next, stages[i].conn)
    {
      if nodes[i].kubes {
        KubeForwards(i);
        if answers[i].kubeRaises || answers[i].kubeRequiredFailed {
          Fail(i);
          return;
        }
      }
      var up := Up(stages[i].conn, stages[i].ls);
      OwnedGoesOn(stages, net.conns, net.listeners, i, up);
      BookedGrows(nodes, stages, runtimes, i, net.conns, net.listeners);
      KnownLater(nodes[i], answers[i], stages[i], up);
      runtimes := runtimes + [Runtime(nodes[i].name, up.conn, up.ls)];
      stages := stages[i := up];
    }

    method KubeForwards(i: nat)
      requires Starting() && i < |nodes| && stages[i].Fetched?
      modifies net
      ensures Starting() && net.conns == old(net.conns) && net.next == old(net.next) + answers[i].kubeForwards
      ensures Spared(stages[i], old(net.listeners), net.listeners)
      ensures OpenedOn(net.listeners, old(net.next), net.next, stages[i].conn)
    {
      var k := 0;
      while k < answers[i].kubeForwards
        invariant 0 <= k <= answers[i].kubeForwards && net.next == old(net.next) + k
        invariant Starting() && net.conns == old(net.conns)
        invariant Spared(stages[i], old(net.listeners), net.listeners)
        invariant OpenedOn(net.listeners, old(net.next), net.next, stages[i].conn)
      {
        ghost var before := net.listeners;
        var l := net.Listen(stages[i].conn);
        OwnedMore(stages, net.conns, before, net.listeners, i);
        k := k + 1;
      }
    }

    // The event loop gives the nodes their turns.
    method TakeTurns(schedule: seq<nat>)
      requires Starting() && stages == seq(|nodes|, _ => Idle)
      requires forall t :: 0 <= t < |schedule| ==> schedule[t] < |nodes|
      modifies this, net
      ensures Starting()
      ensures forall i: nat :: i < |nodes| ==> stages[i].Done() || InTime(answers[i], stages[i], schedule, i)
    {
      var t := 0;
      assert schedule[..0] == [];
      while t < |schedule|
        invariant 0 <= t <= |schedule| && Starting()
        invariant forall i: nat :: i < |nodes| ==> stages[i].Done() || InTime(answers[i], stages[i], schedule[..t], i)
      {
        ghost var was := stages;
        var i := schedule[t];
        assert schedule[..t + 1][..t] == schedule[..t];
        Step(i);
        if !was[i].Done() { StepsRunOut(nodes[i], answers[i], was[i], stages[i]); }
        t := t + 1;
      }
      assert schedule[..t] == schedule;
    }

    // _start_all and the books of start_all_and_build_output. The nodes start concurrently:
    // `schedule` says whose turn it is. There is no report while some node has not ended.
    method StartAll(schedule: seq<nat>) returns (report: Option<Report>)
      requires Starting() && runtimes == [] && stages == seq(|nodes|, _ => Idle)
      requires forall t :: 0 <= t < |schedule| ==> schedule[t] < |nodes|
      modifies this, net
      // turns enough for every node end the start
      ensures (forall i: nat :: i < |nodes| ==> Turns(schedule, i) >= 2 * |answers[i].forwards| + 5) ==> report.Some?
      ensures report.None? ==> Starting() && exists i :: 0 <= i < |stages| && !stages[i].Done()
      ensures report.Some? ==> Holding() && Ends(nodes, answers, report.value)
      ensures report.Some? && report.value.Failed? ==> runtimes == [] && net.conns == {} && net.listeners == map[]
      ensures report.Some? && report.value.Started? ==> Serving(nodes, answers, runtimes)
    {
      TakeTurns(schedule);
      var done := AllDone();
      if !done { return None; }
      OwnedIsHeld(nodes, stages, runtimes, net.conns, net.listeners);
      var built := Build(nodes, answers, seq(|nodes|, i requires 0 <= i < |stages| reads this => stages[i].Up?));
      UpsServe(nodes, answers, stages, runtimes);
      if built.Failed? { StopAll(); }
      return Some(built);
    }

    method AllDone() returns (done: bool)
      ensures done <==> forall i :: 0 <= i < |stages| ==> stages[i].Done()
    {
      var i := 0;
      while i < |stages|
        invariant 0 <= i <= |stages| && forall j :: 0 <= j < i ==> stages[j].Done()
      {
        if !stages[i].Done() { return false; }
        i := i + 1;
      }
      return true;
    }
  }

  ghost predicate InTime(a: Answer, s: Stage, schedule: seq<nat>, i: nat) {
    0 < Remaining(a, s) && Turns(schedule, i) + Remaining(a, s) <= 2 * |a.forwards| + 5
  }

  // The runtimes are those of the started nodes.
  ghost predicate Serving(nodes: seq<Node>, answers: seq<Answer>, runtimes: seq<Runtime>)
    requires |nodes| == |answers|
  {
    && (forall k :: 0 <= k < |runtimes| ==> OfStarted(nodes, answers, runtimes[k]))
    && (forall i: nat :: i < |nodes| && Starts(nodes[i], answers[i]) ==> HasRuntime(nodes[i].name, runtimes))
  }

  ghost predicate OfStarted(nodes: seq<Node>, answers: seq<Answer>, r: Runtime)
    requires |nodes| == |answers|
  {
    exists i :: 0 <= i < |nodes| && nodes[i].name == r.name && Starts(nodes[i], answers[i])
                && |r.listeners| == |answers[i].forwards|
  }

  ghost predicate HasRuntime(name: string, runtimes: seq<Runtime>) {
    exists k :: 0 <= k < |runtimes| && runtimes[k].name == name
  }

  lemma {:induction false} UpsServe(nodes: seq<Node>, answers: seq<Answer>, stages: seq<Stage>, runtimes: seq<Runtime>)
    requires |nodes| == |answers| == |stages| && Booked(nodes, stages, runtimes)
    requires forall i :: 0 <= i < |stages| ==> stages[i].Done() && Known(nodes[i], answers[i], stages[i])
    ensures Serving(nodes, answers, runtimes)
  {
    forall k | 0 <= k < |runtimes|
      ensures OfStarted(nodes, answers, runtimes[k])
    {
      var r := runtimes[k];
      var i :| 0 <= i < |stages| && stages[i] == Up(r.conn, r.listeners) && nodes[i].name == r.name;
      assert Known(nodes[i], answers[i], stages[i]);
    }
    forall i: nat | i < |nodes| && Starts(nodes[i], answers[i])
      ensures HasRuntime(nodes[i].name, runtimes)
    {
      assert Known(nodes[i], answers[i], stages[i]) && stages[i].Up?;
      var k :| 0 <= k < |runtimes| && runtimes[k] == Runtime(nodes[i].name, stages[i].conn, stages[i].ls);
    }
  }

  lemma {:induction false} OwnedIdle(stages: seq<Stage>, conns: set<nat>, listeners: map<nat, nat>, i: nat)
    requires Owned(stages, conns, listeners) && i < |stages| && stages[i].Idle?
    ensures Owned(stages[i := Down], conns, listeners)
  {
    forall c | c in conns
      ensures HasOwner(stages[i := Down], c)
    {
      var j :| 0 <= j < |stages| && stages[j].Connected() && stages[j].conn == c;
      assert stages[i := Down][j] == stages[j];
    }
  }

  datatype Report = Started(connections: seq<string>, warnings: seq<string>) | Failed(required: seq<string>)

  datatype Standing = Running | FailedRequired | FailedOptional

  function StandingOf(n: Node, started: bool): Standing {
    if started then Running else if n.required then FailedRequired else FailedOptional
  }

  // The names, in input order, of the first n nodes with the given standing.
  function Names(nodes: seq<Node>, answers: seq<Answer>, n: nat, standing: Standing): seq<string>
    requires n <= |nodes| == |answers|
  {
    if n == 0 then []
    else
      Names(nodes, answers, n - 1, standing)
      + (if StandingOf(nodes[n - 1], Starts(nodes[n - 1], answers[n - 1])) == standing then [nodes[n - 1].name] else [])
  }

  method Build(nodes: seq<Node>, answers: seq<Answer>, results: seq<bool>) returns (report: Report)
    requires |nodes| == |answers| == |results|
    requires forall i :: 0 <= i < |nodes| ==> results[i] == Starts(nodes[i], answers[i])
    ensures report.Failed? <==> exists i :: 0 <= i < |nodes| && nodes[i].required && !Starts(nodes[i], answers[i])
    ensures report.Failed? ==> report.required == Names(nodes, answers, |nodes|, FailedRequired)
    ensures report.Started? ==>
              && report.connections == Names(nodes, answers, |nodes|, Running)
              && report.warnings == Names(nodes, answers, |nodes|, FailedOptional)
  {
    var required, connections, warnings := [], [], [];
    var i := 0;
    while i < |nodes|
      invariant 0 <= i <= |nodes|
      invariant required == Names(nodes, answers, i, FailedRequired)
      invariant connections == Names(nodes, answers, i, Running)
      invariant warnings == Names(nodes, answers, i, FailedOptional)
      invariant required != [] <==> exists k :: 0 <= k < i && nodes[k].required && !Starts(nodes[k], answers[k])
    {
      if results[i] {
        connections := connections + [nodes[i].name];
      } else if nodes[i].required {
        required := required + [nodes[i].name];
      } else {
        warnings := warnings + [nodes[i].name];
      }
      i := i + 1;
    }
    return if required != [] then Failed(required) else Started(connections, warnings);
  }

  lemma {:induction false} NamesExact(nodes: seq<Node>, answers: seq<Answer>, n: nat, i: nat, standing: Standing)
    requires i < n <= |nodes| == |answers| && forall j, k :: 0 <= j < k < |nodes| ==> nodes[j].name != nodes[k].name
    ensures nodes[i].name in Names(nodes, answers, n, standing)
       <==> StandingOf(nodes[i], Starts(nodes[i], answers[i])) == standing
  {
    if i < n - 1 {
      NamesExact(nodes, answers, n - 1, i, standing);
    } else {
      NameAbsent(nodes, answers, n - 1, nodes[i].name, standing);
    }
  }

  lemma {:induction false} NameAbsent(nodes: seq<Node>, answers: seq<Answer>, n: nat, name: string, standing: Standing)
    requires n <= |nodes| == |answers| && forall i :: 0 <= i < n ==> nodes[i].name != name
    ensures name !in Names(nodes, answers, n, standing)
  {
    if n > 0 { NameAbsent(nodes, answers, n - 1, name, standing); }
  }

  // What a report says: an error exactly when a required node did not start, naming each; otherwise
  // every node is in connections when it started and in warnings when it did not.
  ghost predicate Ends(nodes: seq<Node>, answers: seq<Answer>, report: Report)
    requires |nodes| == |answers|
  {
    && (report.Failed? <==> exists i :: 0 <= i < |nodes| && nodes[i].required && !Starts(nodes[i], answers[i]))
    && (report.Failed? ==> report.required == Names(nodes, answers, |nodes|, FailedRequired))
    && (report.Started? ==>
          && report.connections == Names(nodes, answers, |nodes|, Running)
          && report.warnings == Names(nodes, answers, |nodes|, FailedOptional))
  }

  // Why a node did not start: no connection, a forward that does not open or does not answer, an
  // unreachable target of a required node, or a failed fetch or kube step.
  lemma {:induction false} NotStartedExactly(n: Node, a: Answer)
    ensures !Starts(n, a) <==>
            || !a.connects
            || (exists k :: 0 <= k < |a.forwards| && ForwardFails(a.forwards[k], n.required))
            || (n.fetches && (a.fetchRaises || a.fetchRequiredFailed))
            || (n.kubes && (a.kubeRaises || a.kubeRequiredFailed))
  {
    forall k | 0 <= k < |a.forwards|
      ensures ForwardWorks(a.forwards[k], n.required) <==> !ForwardFails(a.forwards[k], n.required)
    {
    }
  }

  predicate ForwardFails(f: Forward, required: bool) { !f.opens || !f.accepts || (required && !f.reachable) }

  // The lists keep the order of the input: of fewer nodes the same names come first.
  lemma {:induction false} NamesInOrder(nodes: seq<Node>, answers: seq<Answer>, n: nat, m: nat, standing: Standing)
    requires n <= m <= |nodes| == |answers|
    ensures Names(nodes, answers, n, standing) <= Names(nodes, answers, m, standing)
  {
    if n < m { NamesInOrder(nodes, answers, n, m - 1, standing); }
  }

  // A failed start names exactly the required nodes that did not start.
  lemma {:induction false} FailureNamesExactly(nodes: seq<Node>, answers: seq<Answer>, report: Report, i: nat)
    requires |nodes| == |answers| && i < |nodes| && Ends(nodes, answers, report) && report.Failed?
    requires forall j, k :: 0 <= j < k < |nodes| ==> nodes[j].name != nodes[k].name
    ensures nodes[i].name in report.required <==> nodes[i].required && !Starts(nodes[i], answers[i])
  {
    NamesExact(nodes, answers, |nodes|, i, FailedRequired);
  }

  // After a successful start every node is in exactly one of connections and warnings, and has a
  // runtime exactly when it is in connections.
  lemma {:induction false} EveryNodeReportedOnce(nodes: seq<Node>, answers: seq<Answer>, runtimes: seq<Runtime>,
                                                 report: Report, i: nat)
    requires |nodes| == |answers| && i < |nodes| && Ends(nodes, answers, report) && report.Started?
    requires forall j, k :: 0 <= j < k < |nodes| ==> nodes[j].name != nodes[k].name
    requires Serving(nodes, answers, runtimes)
    ensures nodes[i].name in report.connections <==> nodes[i].name !in report.warnings
    ensures nodes[i].name in report.connections <==> HasRuntime(nodes[i].name, runtimes)
    ensures nodes[i].name in report.connections <==> Starts(nodes[i], answers[i])
    ensures nodes[i].name in report.warnings ==> !nodes[i].required
  {
    NamesExact(nodes, answers, |nodes|, i, Running);
    NamesExact(nodes, answers, |nodes|, i, FailedOptional);
    if HasRuntime(nodes[i].name, runtimes) {
      var k :| 0 <= k < |runtimes| && runtimes[k].name == nodes[i].name;
      assert OfStarted(nodes, answers, runtimes[k]);
    }
  }
}
