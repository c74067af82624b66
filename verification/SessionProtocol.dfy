/**
  One caller-supplied session directory as a step system: the entry
  `session.lock`, the inode behind it and who holds its flock, the recorded pid,
  `tunnel-data`, the workers that start, crash, leave and lose tunnels, the
  `start` or `run` parents that write output.json into `tunnel-data` once their
  worker has reported success, and the `stop` and `run`-teardown actors of
  StopScript (tunstrap/identity.py, tunstrap/session.py, tunstrap/_worker.py,
  tunstrap/envrender.py).

  Winning the lock and verifying a session are single steps; releasing the lock
  is two (unlink, then close); every other step is one file-system effect, and
  a process may die between any two of them.
*/
module SessionProtocol {
  import opened Wrappers
  import opened StopScript

  datatype Phase =
    | Locked     // the flock is won and the pid recorded; tunnel-data not yet reclaimed
    | Wiped      // an orphaned tunnel-data is gone
    | Made       // tunnel-data created
    | Truncated  // daemon.pid opened, still empty
    | Published  // daemon.pid holds the pid
    | Releasing(unlinked: bool, keep: bool, made: bool)  // between the unlink attempt and the close
    | Closed(keep: bool)  // flock gone; tunnel-data still to be deleted unless keep

  // `gen` numbers the successful acquisitions; `lost` says a required tunnel was
  // lost; `raided` says somebody else deleted this worker's tunnel-data.
  datatype Proc =
    | Worker(phase: Phase, ino: nat, gen: nat, lost: bool, raided: bool)
    | Other  // any other process with this pid, a zombie included

  datatype PidFile = NoFile | Junk | Holds(pid: int)

  // `owner` is the acquisition whose directory it is: of the daemon that made it, or that was past
  // making its own when a parent made it anew; 0 if none was. `output` is the acquisition
  // output.json tells of.
  datatype Data = NoData | Data(pidFile: PidFile, lossRecord: bool, output: Option<nat>, owner: nat)

  // A parent that has read the success frame of acquisition `gen` and writes output.json: mkdir of
  // tunnel-data, then the atomic write into it. It holds no lock.
  datatype Parent = Parent(gen: nat, pc: ParentPc)

  datatype ParentPc = Reported | DirReady | Written

  // `guard`: the acquisition of the daemon whose own daemon.pid this actor read.
  datatype Stopper = Stopper(verb: Verb, pc: Pc, guard: Option<nat>)

  datatype State = State(
    link: Option<nat>,          // the inode session.lock names
    nextIno: nat,
    holder: map<nat, int>,      // who holds the flock of an inode
    recorded: map<nat, int>,    // the pid written into an inode
    data: Data,
    procs: map<int, Proc>,      // the process table
    stoppers: map<nat, Stopper>,
    parents: map<nat, Parent>,
    gen: nat)

  datatype Action =
    | Appear(pid: int)
    | Vanish(pid: int)
    | Acquire(pid: int)
    | Wipe(pid: int)
    | MakeDir(pid: int)
    | Truncate(pid: int)
    | Publish(pid: int)
    | Materialize(pid: int)
    | Lose(pid: int, required: bool, written: bool)
    | Unlink(pid: int, ok: bool)
    | Close(pid: int)
    | Sweep(pid: int)
    | Die(pid: int)
    | Arrive(actor: nat, verb: Verb)
    | Act(actor: nat, event: Event)
    | Report(parent: nat, worker: int)
    | EnsureDir(parent: nat)
    | PutOutput(parent: nat)

  // ---------------------------------------------------------------- observers

  predicate Holding(ph: Phase) { !ph.Closed? }

  // Holding the lock and not yet released: the unlink has not taken effect.
  predicate ActivePhase(ph: Phase) {
    !ph.Closed? && (ph.Releasing? ==> !ph.unlinked)
  }

  // The worker has made its tunnel-data.
  predicate Past(ph: Phase) { ph.Made? || ph.Truncated? || ph.Published? || (ph.Releasing? && ph.made) }

  predicate IsWorker(s: State, p: int) { p in s.procs && s.procs[p].Worker? }

  predicate Active(s: State, p: int) { IsWorker(s, p) && ActivePhase(s.procs[p].phase) }

  predicate ActiveGen(s: State, g: nat) {
    exists p :: p in s.procs && Active(s, p) && s.procs[p].gen == g
  }

  // session.lock is held, by a daemon that has made its directory.
  predicate HeldPastMakeDir(s: State) {
    s.link.Some? && s.link.value in s.holder && IsWorker(s, s.holder[s.link.value])
    && Past(s.procs[s.holder[s.link.value]].phase)
  }

  // Whose directory a tunnel-data that appears now would be.
  function OwnerNow(s: State): nat {
    if HeldPastMakeDir(s) then s.procs[s.holder[s.link.value]].gen else 0
  }

  // verify_session, when no system call fails.
  function Verify(s: State, pid: int): Check {
    if pid <= 0 || pid !in s.procs then NotFound
    else if s.link.None? then NotFound
    else if s.link.value !in s.holder then NotFound
    else if s.link.value !in s.recorded then Unavailable
    else if s.recorded[s.link.value] == pid then Match
    else Mismatch
  }

  // read_identity, when no system call fails.
  function Identify(s: State): Identity {
    match s.data
    case NoData => Missing
    case Data(NoFile, _, _, _) => Missing
    case Data(Junk, _, _, _) => Unreadable
    case Data(Holds(p), _, _, _) => if p > 0 then Recorded(p) else Unreadable
  }

  // ------------------------------------------------------------------- steps

  function SetPhase(s: State, p: int, ph: Phase): State
    requires IsWorker(s, p)
  {
    s.(procs := s.procs[p := s.procs[p].(phase := ph)])
  }

  // Deleting tunnel-data, with a note in the worker whose directory it was.
  function Raided(s: State, w: Proc): Proc {
    if w.Worker? && ActivePhase(w.phase) && s.data.Data? && s.data.owner == w.gen then w.(raided := true) else w
  }

  function Delete(s: State): State {
    s.(data := NoData, procs := map p | p in s.procs :: Raided(s, s.procs[p]))
  }

  // The kernel drops the flocks of a dead process; its files stay.
  function Dead(s: State, p: int): State {
    s.(procs := s.procs[p := Other],
       holder := map i | i in s.holder && s.holder[i] != p :: s.holder[i])
  }

  function AcquireStep(s: State, p: int): Option<State> {
    if p !in s.procs || !s.procs[p].Other? then None
    else if s.link.Some? && s.link.value in s.holder then Some(s)  // SessionActive
    else
      var i := if s.link.Some? then s.link.value else s.nextIno;
      Some(s.(link := Some(i),
              nextIno := if s.link.Some? then s.nextIno else s.nextIno + 1,
              holder := s.holder[i := p],
              recorded := s.recorded[i := p],
              gen := s.gen + 1,
              procs := s.procs[p := Worker(Locked, i, s.gen + 1, false, false)]))
  }

  // atomic_write makes the directory when it is not there.
  function Present(s: State, owner: nat): Data {
    if s.data.Data? then s.data else Data(NoFile, false, None, owner)
  }

  // create() and write_identity.
  function StartStep(s: State, p: int, a: Action): Option<State>
    requires IsWorker(s, p)
  {
    match (s.procs[p].phase, a)
    case (Locked, Wipe(_)) => Some(SetPhase(s, p, Wiped).(data := NoData))
    case (Wiped, MakeDir(_)) =>
      // an existing directory makes mkdir fail
      if s.data.Data? then None
      else Some(SetPhase(s, p, Made).(data := Data(NoFile, false, None, s.procs[p].gen)))
    case (Made, Truncate(_)) =>
      if s.data.Data? then Some(SetPhase(s, p, Truncated).(data := s.data.(pidFile := Junk))) else None
    case (Truncated, Publish(_)) =>
      Some(SetPhase(s, p, Published).(
        data := if s.data.Data? && s.data.pidFile == Junk then s.data.(pidFile := Holds(p)) else s.data))
    case _ => None
  }

  // What a started worker writes.
  function ServeStep(s: State, p: int, a: Action): Option<State>
    requires IsWorker(s, p)
  {
    var w := s.procs[p];
    match (w.phase, a)
    case (Published, Materialize(_)) => Some(s.(data := Present(s, w.gen)))
    case (Published, Lose(_, required, written)) =>
      Some(s.(procs := s.procs[p := w.(lost := w.lost || required)],
              data := if written then Present(s, w.gen).(lossRecord := true) else s.data))
    case _ => None
  }

  // Releasing the lock, then cleaning up.
  function LeaveStep(s: State, p: int, a: Action): Option<State>
    requires IsWorker(s, p)
  {
    var w := s.procs[p];
    match (w.phase, a)
    case (Releasing(_, keep, _), Close(_)) =>
      Some(SetPhase(s, p, Closed(keep)).(holder := map i | i in s.holder && i != w.ino :: s.holder[i]))
    case (Closed(keep), Sweep(_)) => if keep then None else Some(SetPhase(Delete(s), p, Closed(true)))
    case (_, Unlink(_, ok)) =>
      if w.phase.Releasing? || w.phase.Closed? then None
      else
        // create() failing keeps the data, a failing start cleans up, and a running worker keeps it
        // exactly when a required tunnel was lost
        var keep := w.phase.Locked? || w.phase.Wiped? || w.lost;
        Some(SetPhase(s, p, Releasing(ok, keep, Past(w.phase))).(link := if ok then None else s.link))
    case _ => None
  }

  function WorkerStep(s: State, p: int, a: Action): Option<State> {
    if !IsWorker(s, p) then None
    else if a.Materialize? || a.Lose? then ServeStep(s, p, a)
    else if a.Unlink? || a.Close? || a.Sweep? then LeaveStep(s, p, a)
    else StartStep(s, p, a)
  }

  // Answers are truthful, or report a failed system call.
  predicate Truthful(s: State, e: Event) {
    match e
    case ReadIdentity(id) => id == Identify(s) || id == Unreadable
    case Verified(p, a) => a == Verify(s, p) || a == Unavailable
    case Terminated(p, d) => (d == Gone <==> p !in s.procs)
    case Killed(p, d) => (d == Gone <==> p !in s.procs)
    case Polled(p, r) =>
      (r == Exited ==> !IsWorker(s, p)) && (r == Alive ==> p in s.procs)
    case _ => true
  }

  function Effect(s: State, e: Event): State {
    match e
    case Killed(p, Delivered) => Dead(s, p)
    case Removed => Delete(s)
    case _ => s
  }

  // The daemon whose own pid a read of daemon.pid returned, if it is active.
  function Addressee(s: State, e: Event): Option<nat> {
    if e.ReadIdentity? && e.id.Recorded? && Active(s, e.id.pid) then Some(s.procs[e.id.pid].gen) else None
  }

  function ActStep(s: State, k: nat, e: Event): Option<State> {
    if k !in s.stoppers || !Truthful(s, e) then None
    else
      var t := s.stoppers[k];
      match Next(t.verb, t.pc, e)
      case None => None
      case Some(pc) =>
        var t' := Stopper(t.verb, pc, if e.ReadIdentity? then Addressee(s, e) else t.guard);
        Some(Effect(s, e).(stoppers := s.stoppers[k := t']))
  }

  // The parent's part of a start. A write into a directory that has gone away fails and changes
  // nothing.
  function ParentStep(s: State, a: Action): Option<State> {
    match a
    case Report(k, p) =>
      if k in s.parents || !IsWorker(s, p) || !s.procs[p].phase.Published? then None
      else Some(s.(parents := s.parents[k := Parent(s.procs[p].gen, Reported)]))
    case EnsureDir(k) =>
      if k !in s.parents || !s.parents[k].pc.Reported? then None
      else Some(s.(data := Present(s, OwnerNow(s)), parents := s.parents[k := s.parents[k].(pc := DirReady)]))
    case PutOutput(k) =>
      if k !in s.parents || !s.parents[k].pc.DirReady? || s.data.NoData? then None
      else Some(s.(data := s.data.(output := Some(s.parents[k].gen)),
                   parents := s.parents[k := s.parents[k].(pc := Written)]))
    case _ => None
  }

  predicate IsParents(a: Action) { a.Report? || a.EnsureDir? || a.PutOutput? }

  // A step of the worker the action names.
  predicate IsWorkers(a: Action) { !IsParents(a) && !a.Act? && !a.Arrive? }

  function Apply(s: State, a: Action): Option<State> {
    match a
    case Appear(p) => if p > 0 && p !in s.procs then Some(s.(procs := s.procs[p := Other])) else None
    case Vanish(p) => if p in s.procs && s.procs[p].Other? then Some(s.(procs := s.procs - {p})) else None
    case Acquire(p) => AcquireStep(s, p)
    case Die(p) => if IsWorker(s, p) then Some(Dead(s, p)) else None
    case Arrive(k, v) =>
      if k in s.stoppers then None else Some(s.(stoppers := s.stoppers[k := Stopper(v, Fresh, None)]))
    case Act(k, e) => ActStep(s, k, e)
    case Report(_, _) => ParentStep(s, a)
    case EnsureDir(_) => ParentStep(s, a)
    case PutOutput(_) => ParentStep(s, a)
    case _ => WorkerStep(s, a.pid, a)
  }

  // No tunstrap process yet; the directory may hold anything an earlier one left.
  ghost predicate Init(s: State) {
    && (s.link.Some? ==> s.link.value < s.nextIno)
    && s.holder == map[] && s.stoppers == map[] && s.parents == map[]
    && (forall p :: p in s.procs ==> p > 0 && s.procs[p].Other?)
    && (s.data.Data? ==> s.data.owner <= s.gen)
  }

  ghost predicate IsRun(states: seq<State>, acts: seq<Action>) {
    && |states| == |acts| + 1
    && Init(states[0])
    && forall i :: 0 <= i < |acts| ==> Goes(states[i], acts[i], states[i + 1])
  }

  ghost predicate Goes(s: State, a: Action, s': State) { Apply(s, a) == Some(s') }

  // --------------------------------------------------------------- invariant

  ghost predicate InvProc(s: State, p: int) {
    && p > 0
    && (IsWorker(s, p) ==>
          && s.procs[p].ino < s.nextIno
          && 0 < s.procs[p].gen <= s.gen
          && (Holding(s.procs[p].phase) ==> s.procs[p].ino in s.holder && s.holder[s.procs[p].ino] == p))
  }

  ghost predicate InvHolder(s: State, i: nat) {
    i in s.holder && IsWorker(s, s.holder[i]) && Holding(s.procs[s.holder[i]].phase) && s.procs[s.holder[i]].ino == i
  }

  ghost predicate InvLock(s: State) {
    && (s.link.Some? ==> s.link.value < s.nextIno)
    && (forall p :: p in s.procs ==> InvProc(s, p))
    && (forall i :: i in s.holder ==> InvHolder(s, i))
    && (forall p, q :: IsWorker(s, p) && IsWorker(s, q) && s.procs[p].gen == s.procs[q].gen ==> p == q)
  }

  // The inode a daemon holds is the one session.lock names, and it records the daemon's pid.
  ghost predicate InvActive(s: State) {
    && (forall p :: Active(s, p) ==> Linked(s, p))
    && (s.link.Some? && s.link.value in s.holder ==> Active(s, s.holder[s.link.value]))
  }

  ghost predicate Linked(s: State, p: int) {
    && IsWorker(s, p)
    && s.link == Some(s.procs[p].ino)
    && s.procs[p].ino in s.recorded && s.recorded[s.procs[p].ino] == p
  }

  // What an active daemon p can rely on. Only a deletion by somebody else takes its directory away,
  // and what appears in its place later is its own to use, but holds no pid it did not write.
  ghost predicate InvDataOf(s: State, p: int)
    requires IsWorker(s, p)
  {
    var w := s.procs[p];
    && (s.data.Data? ==> (Past(w.phase) <==> s.data.owner == w.gen))
    && (if Past(w.phase) then !w.raided ==> s.data.Data? else !w.raided)
    && (s.data.Data? ==>
          match w.phase
          case Made => s.data.pidFile == NoFile && !s.data.lossRecord
          case Truncated => s.data.pidFile == Junk || (w.raided && s.data.pidFile == NoFile)
          case Published => s.data.pidFile == Holds(p) || (w.raided && s.data.pidFile == NoFile)
          case _ => true)
  }

  ghost predicate InvData(s: State) {
    && (s.data.Data? ==> s.data.owner <= s.gen)
    && (forall p :: Active(s, p) ==> InvDataOf(s, p))
  }

  // The pid an actor goes on to verify or signal.
  function Target(pc: Pc): Option<int> {
    match pc
    case Addressed(p) => Some(p)
    case Matched(p) => Some(p)
    case Waiting(p) => Some(p)
    case Expired(p) => Some(p)
    case Rematched(p) => Some(p)
    case _ => None
  }

  ghost predicate InvStopper(s: State, t: Stopper) {
    t.guard.Some? ==>
      && t.guard.value <= s.gen
      && (Target(t.pc).Some? ==>
            forall p :: IsWorker(s, p) && s.procs[p].gen == t.guard.value ==> p == Target(t.pc).value)
      && (t.pc.Cleared? ==> forall p :: Active(s, p) ==> s.procs[p].gen != t.guard.value)
  }

  ghost predicate Inv(s: State) {
    InvLock(s) && InvActive(s) && InvData(s)
    && forall k :: k in s.stoppers ==> InvStopper(s, s.stoppers[k])
  }

  // ------------------------------------------------------------ preservation

  lemma {:induction false} VerifyExact(s: State, p: int)
    requires InvLock(s) && InvActive(s)
    ensures Verify(s, p) == Match <==> Active(s, p)
    ensures Verify(s, p) == Mismatch <==> p in s.procs && !Active(s, p) && exists q :: Active(s, q)
    ensures Verify(s, p) == NotFound <==> p !in s.procs || forall q :: !Active(s, q)
  {
    if q :| Active(s, q) {
      assert s.link == Some(s.procs[q].ino);
    }
  }

  lemma {:induction false} OneActive(s: State, p: int, q: int)
    requires InvLock(s) && InvActive(s) && Active(s, p) && Active(s, q)
    ensures p == q
  {
    assert Linked(s, p) && Linked(s, q);
    assert InvProc(s, p) && InvProc(s, q);
  }

  // Stoppers are unaffected when no worker gains its acquisition or becomes active.
  lemma {:induction false} StoppersKept(s: State, s': State)
    requires forall k :: k in s.stoppers ==> InvStopper(s, s.stoppers[k])
    requires s'.stoppers == s.stoppers && s.gen <= s'.gen
    requires forall p :: IsWorker(s', p) && s'.procs[p].gen <= s.gen ==>
               IsWorker(s, p) && s.procs[p].gen == s'.procs[p].gen
    requires forall p :: Active(s', p) && s'.procs[p].gen <= s.gen ==> Active(s, p)
    ensures forall k :: k in s'.stoppers ==> InvStopper(s', s'.stoppers[k])
  {
    forall k | k in s'.stoppers ensures InvStopper(s', s'.stoppers[k]) {
      assert InvStopper(s, s.stoppers[k]);
    }
  }

  lemma {:induction false} DeadLock(s: State, p: int)
    requires InvLock(s) && p in s.procs
    ensures InvLock(Dead(s, p))
  {
    var s' := Dead(s, p);
    forall q | q in s'.procs ensures InvProc(s', q) { assert InvProc(s, q); }
    forall i | i in s'.holder ensures InvHolder(s', i) { assert InvHolder(s, i); }
  }

  lemma {:induction false} DeadKeepsInv(s: State, p: int)
    requires Inv(s) && p in s.procs
    ensures Inv(Dead(s, p))
  {
    var s' := Dead(s, p);
    DeadLock(s, p);
    forall q | Active(s', q) ensures Linked(s', q) && InvDataOf(s', q) {
      assert Active(s, q) && Linked(s, q) && InvDataOf(s, q);
    }
    if s'.link.Some? && s'.link.value in s'.holder { assert Active(s, s.holder[s.link.value]); }
    StoppersKept(s, s');
  }

  lemma {:induction false} DeleteKeepsInv(s: State)
    requires Inv(s)
    ensures Inv(Delete(s))
  {
    var s' := Delete(s);
    assert forall q :: IsWorker(s', q) <==> IsWorker(s, q);
    assert forall q :: IsWorker(s, q) ==> s'.procs[q].(raided := false) == s.procs[q].(raided := false);
    forall q | q in s'.procs ensures InvProc(s', q) { assert InvProc(s, q); }
    forall i | i in s'.holder ensures InvHolder(s', i) { assert InvHolder(s, i); }
    forall q | Active(s', q) ensures Linked(s', q) && InvDataOf(s', q) {
      assert Active(s, q) && Linked(s, q) && InvDataOf(s, q);
    }
    StoppersKept(s, s');
  }

  // A free lock file, or none, means no active daemon, and the next inode is nobody's.
  lemma {:induction false} NoneActive(s: State)
    requires InvLock(s) && InvActive(s)
    requires s.link.Some? ==> s.link.value !in s.holder
    ensures forall q :: !Active(s, q)
    ensures s.nextIno !in s.holder
  {
    forall q ensures !Active(s, q) {
      assert Active(s, q) ==> Linked(s, q) && InvProc(s, q);
    }
    assert s.nextIno in s.holder ==> InvHolder(s, s.nextIno) && InvProc(s, s.holder[s.nextIno]);
  }

  lemma {:induction false} AcquireLock(s: State, p: int)
    requires Inv(s) && AcquireStep(s, p).Some? && AcquireStep(s, p).value != s
    ensures InvLock(AcquireStep(s, p).value)
  {
    var s' := AcquireStep(s, p).value;
    var i := s'.procs[p].ino;
    NoneActive(s);
    forall q | q in s'.procs ensures InvProc(s', q) { assert InvProc(s, q); }
    forall j | j in s'.holder ensures InvHolder(s', j) { if j != i { assert InvHolder(s, j); } }
    forall q, r | IsWorker(s', q) && IsWorker(s', r) && s'.procs[q].gen == s'.procs[r].gen ensures q == r {
      assert InvProc(s, q) && InvProc(s, r);
    }
  }

  lemma {:induction false} AcquireKeepsInv(s: State, p: int)
    requires Inv(s) && AcquireStep(s, p).Some?
    ensures Inv(AcquireStep(s, p).value)
  {
    var s' := AcquireStep(s, p).value;
    if s' != s {
      NoneActive(s);
      AcquireLock(s, p);
      forall q | Active(s', q) ensures Linked(s', q) && InvDataOf(s', q) { assert q != p ==> Active(s, q); }
      StoppersKept(s, s');
    }
  }

  // What one step of worker p may change, apart from the sweep of its data.
  ghost predicate Local(s: State, s': State, p: int) {
    && IsWorker(s, p) && IsWorker(s', p)
    && s'.procs == s.procs[p := s'.procs[p]]
    && s'.procs[p].ino == s.procs[p].ino && s'.procs[p].gen == s.procs[p].gen
    && s'.recorded == s.recorded && s'.nextIno == s.nextIno && s'.gen == s.gen && s'.stoppers == s.stoppers
    && (Active(s', p) ==> Active(s, p) && s'.link == s.link)
    && (s'.link == s.link || (Active(s, p) && s'.link == None))
    && (!Active(s, p) ==> s'.data == s.data)
    && (if Holding(s.procs[p].phase) && !Holding(s'.procs[p].phase)
        then s'.holder == map i | i in s.holder && i != s.procs[p].ino :: s.holder[i]
        else s'.holder == s.holder && Holding(s'.procs[p].phase) == Holding(s.procs[p].phase))
    && (Active(s, p) && !Active(s', p) && Holding(s'.procs[p].phase) ==> s'.link == None)
  }

  lemma {:induction false} WorkerLocal(s: State, p: int, a: Action)
    requires WorkerStep(s, p, a).Some? && !a.Sweep?
    ensures Local(s, WorkerStep(s, p, a).value, p)
  {
    if a.Materialize? || a.Lose? {
      ServeLocal(s, p, a);
    } else if a.Unlink? || a.Close? {
      LeaveLocal(s, p, a);
    } else {
      StartLocal(s, p, a);
    }
  }

  lemma {:induction false} StartLocal(s: State, p: int, a: Action)
    requires IsWorker(s, p) && StartStep(s, p, a).Some?
    ensures Local(s, StartStep(s, p, a).value, p)
  {
  }

  lemma {:induction false} ServeLocal(s: State, p: int, a: Action)
    requires IsWorker(s, p) && ServeStep(s, p, a).Some?
    ensures Local(s, ServeStep(s, p, a).value, p)
  {
  }

  lemma {:induction false} LeaveLocal(s: State, p: int, a: Action)
    requires IsWorker(s, p) && LeaveStep(s, p, a).Some? && !a.Sweep?
    ensures Local(s, LeaveStep(s, p, a).value, p)
  {
  }

  // The acting worker's own picture of tunnel-data.
  lemma {:induction false} WorkerData(s: State, p: int, a: Action)
    requires Inv(s) && WorkerStep(s, p, a).Some? && !a.Sweep? && Active(s, p)
    ensures Active(WorkerStep(s, p, a).value, p) ==> InvDataOf(WorkerStep(s, p, a).value, p)
    ensures WorkerStep(s, p, a).value.data.Data? ==> WorkerStep(s, p, a).value.data.owner <= s.gen
  {
    assert InvDataOf(s, p) && InvProc(s, p);
    if a.Materialize? || a.Lose? {
      ServeData(s, p, a);
    } else if a.Unlink? || a.Close? {
      LeaveData(s, p, a);
    } else {
      StartData(s, p, a);
    }
  }

  lemma {:induction false} StartData(s: State, p: int, a: Action)
    requires IsWorker(s, p) && InvDataOf(s, p) && StartStep(s, p, a).Some?
    ensures InvDataOf(StartStep(s, p, a).value, p)
    ensures var d := StartStep(s, p, a).value.data; d.Data? ==> d.owner == s.procs[p].gen || d.owner == s.data.owner
  {
  }

  lemma {:induction false} ServeData(s: State, p: int, a: Action)
    requires IsWorker(s, p) && InvDataOf(s, p) && ServeStep(s, p, a).Some?
    ensures InvDataOf(ServeStep(s, p, a).value, p)
    ensures var d := ServeStep(s, p, a).value.data; d.Data? ==> d.owner == s.procs[p].gen
  {
  }

  lemma {:induction false} LeaveData(s: State, p: int, a: Action)
    requires IsWorker(s, p) && InvDataOf(s, p) && LeaveStep(s, p, a).Some? && !a.Sweep?
    ensures a.Unlink? ==> InvDataOf(LeaveStep(s, p, a).value, p)
    ensures LeaveStep(s, p, a).value.data == s.data
  {
  }

  lemma {:induction false} LocalLock(s: State, s': State, p: int)
    requires Inv(s) && Local(s, s', p)
    ensures InvLock(s')
  {
    assert InvProc(s, p);
    forall q | q in s'.procs ensures InvProc(s', q) { assert InvProc(s, q); }
    forall j | j in s'.holder ensures InvHolder(s', j) { assert InvHolder(s, j); }
  }

  lemma {:induction false} LocalActive(s: State, s': State, p: int)
    requires Inv(s) && Local(s, s', p)
    ensures InvActive(s')
  {
    forall q | Active(s', q) ensures Linked(s', q) {
      assert Active(s, q) && Linked(s, q);
      if Active(s, p) { OneActive(s, p, q); }
    }
    if s'.link.Some? && s'.link.value in s'.holder {
      assert Active(s, s.holder[s.link.value]) && InvHolder(s, s.link.value);
    }
  }

  lemma {:induction false} LocalData(s: State, s': State, p: int)
    requires Inv(s) && Local(s, s', p)
    requires Active(s', p) ==> InvDataOf(s', p)
    requires Active(s, p) && s'.data.Data? ==> s'.data.owner <= s.gen
    ensures InvData(s')
  {
    forall q | Active(s', q) ensures InvDataOf(s', q) {
      assert Active(s, q) && InvDataOf(s, q);
      if Active(s, p) { OneActive(s, p, q); }
    }
  }

  lemma {:induction false} WorkerKeepsInv(s: State, p: int, a: Action)
    requires Inv(s) && WorkerStep(s, p, a).Some? && !a.Sweep?
    ensures Inv(WorkerStep(s, p, a).value)
  {
    var s' := WorkerStep(s, p, a).value;
    WorkerLocal(s, p, a);
    if Active(s, p) { WorkerData(s, p, a); }
    LocalKeepsInv(s, s', p);
  }

  lemma {:induction false} LocalKeepsInv(s: State, s': State, p: int)
    requires Inv(s) && Local(s, s', p)
    requires Active(s', p) ==> InvDataOf(s', p)
    requires Active(s, p) && s'.data.Data? ==> s'.data.owner <= s.gen
    ensures Inv(s')
  {
    LocalLock(s, s', p);
    LocalActive(s, s', p);
    LocalData(s, s', p);
    assert forall q :: IsWorker(s', q) <==> IsWorker(s, q);
    StoppersKept(s, s');
  }

  lemma {:induction false} SweepKeepsInv(s: State, p: int)
    requires Inv(s) && WorkerStep(s, p, Sweep(p)).Some?
    ensures Inv(WorkerStep(s, p, Sweep(p)).value)
  {
    var mid := Delete(s);
    var s' := WorkerStep(s, p, Sweep(p)).value;
    DeleteKeepsInv(s);
    LocalKeepsInv(mid, s', p);
  }

  // The acting stopper itself: a call that clears it shows its addressee is no longer active.
  lemma {:induction false} StopperAdvances(s: State, k: nat, e: Event)
    requires Inv(s) && ActStep(s, k, e).Some?
    ensures InvStopper(ActStep(s, k, e).value, ActStep(s, k, e).value.stoppers[k])
  {
    var s' := ActStep(s, k, e).value;
    assert InvStopper(s, s.stoppers[k]);
    EffectShrinks(s, e);
    if e.ReadIdentity? {
      if e.id.Recorded? && Active(s, e.id.pid) { assert InvProc(s, e.id.pid); }
    } else if s'.stoppers[k].pc.Cleared? {
      ClearedMeansGone(s, k, e);
    }
  }

  lemma {:induction false} EffectShrinks(s: State, e: Event)
    ensures var s' := Effect(s, e);
            && s'.gen == s.gen
            && (forall p :: IsWorker(s', p) ==> IsWorker(s, p) && s'.procs[p].gen == s.procs[p].gen)
            && (forall p :: Active(s', p) ==> Active(s, p))
            && (e.Killed? && e.delivery == Delivered ==> !IsWorker(s', e.pid))
  {
  }

  // The call that clears an actor names its target, and that process is no active daemon any more.
  lemma {:induction false} ClearedMeansGone(s: State, k: nat, e: Event)
    requires Inv(s) && ActStep(s, k, e).Some? && ActStep(s, k, e).value.stoppers[k].pc.Cleared? && !e.ReadIdentity?
    ensures e.Verified? || e.Terminated? || e.Polled? || e.Killed?
    ensures Target(s.stoppers[k].pc) == Some(e.pid)
    ensures !Active(Effect(s, e), e.pid)
  {
    if e.Verified? { VerifyExact(s, e.pid); }
    EffectShrinks(s, e);
  }

  lemma {:induction false} ActKeepsInv(s: State, k: nat, e: Event)
    requires Inv(s) && ActStep(s, k, e).Some?
    ensures Inv(ActStep(s, k, e).value)
  {
    var s' := ActStep(s, k, e).value;
    var mid := Effect(s, e);
    if e.Killed? && e.delivery == Delivered {
      DeadKeepsInv(s, e.pid);
    } else if e.Removed? {
      DeleteKeepsInv(s);
    }
    StoppersOnly(mid, s');
    StopperAdvances(s, k, e);
    forall j | j in s'.stoppers && j != k ensures InvStopper(s', s'.stoppers[j]) {
      assert InvStopper(mid, mid.stoppers[j]);
    }
  }

  lemma {:induction false} StoppersOnly(s: State, s': State)
    requires InvLock(s) && InvActive(s) && InvData(s) && s' == s.(stoppers := s'.stoppers)
    ensures InvLock(s') && InvActive(s') && InvData(s')
    ensures forall t :: InvStopper(s, t) ==> InvStopper(s', t)
  {
    forall q | q in s'.procs ensures InvProc(s', q) { assert InvProc(s, q); }
    forall i | i in s'.holder ensures InvHolder(s', i) { assert InvHolder(s, i); }
    forall q | Active(s', q) ensures Linked(s', q) && InvDataOf(s', q) {
      assert Active(s, q) && Linked(s, q) && InvDataOf(s, q);
    }
  }

  // Processes that are not workers come and go.
  lemma {:induction false} OthersKeepInv(s: State, a: Action)
    requires Inv(s) && (a.Appear? || a.Vanish?) && Apply(s, a).Some?
    ensures Inv(Apply(s, a).value)
  {
    var s' := Apply(s, a).value;
    assert forall q :: IsWorker(s', q) <==> IsWorker(s, q);
    forall q | q in s'.procs ensures InvProc(s', q) { assert q in s.procs ==> InvProc(s, q); }
    forall i | i in s'.holder ensures InvHolder(s', i) { assert InvHolder(s, i); }
    forall q | Active(s', q) ensures Linked(s', q) && InvDataOf(s', q) {
      assert Active(s, q) && Linked(s, q) && InvDataOf(s, q);
    }
    StoppersKept(s, s');
  }

  // A parent's steps touch nothing but tunnel-data, and leave daemons what they rely on.
  lemma {:induction false} ParentKeepsInv(s: State, a: Action)
    requires Inv(s) && ParentStep(s, a).Some?
    ensures Inv(ParentStep(s, a).value)
  {
    var s' := ParentStep(s, a).value;
    assert s'.procs == s.procs && s'.holder == s.holder && s'.link == s.link && s'.recorded == s.recorded;
    forall q | q in s'.procs ensures InvProc(s', q) { assert InvProc(s, q); }
    forall i | i in s'.holder ensures InvHolder(s', i) { assert InvHolder(s, i); }
    forall q | Active(s', q) ensures Linked(s', q) && InvDataOf(s', q) {
      assert Active(s, q) && Linked(s, q) && InvDataOf(s, q) && InvProc(s, q);
    }
    if HeldPastMakeDir(s) { assert InvProc(s, s.holder[s.link.value]); }
    StoppersKept(s, s');
  }

  lemma {:induction false} StepKeepsInv(s: State, a: Action)
    requires Inv(s) && Apply(s, a).Some?
    ensures Inv(Apply(s, a).value)
  {
    match a
    case Acquire(p) => AcquireKeepsInv(s, p);
    case Die(p) => DeadKeepsInv(s, p);
    case Act(k, e) => ActKeepsInv(s, k, e);
    case Appear(_) => OthersKeepInv(s, a);
    case Vanish(_) => OthersKeepInv(s, a);
    case Arrive(k, v) => StoppersOnly(s, Apply(s, a).value);
    case Sweep(p) => SweepKeepsInv(s, p);
    case Report(_, _) => ParentKeepsInv(s, a);
    case EnsureDir(_) => ParentKeepsInv(s, a);
    case PutOutput(_) => ParentKeepsInv(s, a);
    case _ => WorkerKeepsInv(s, a.pid, a);
  }
}
