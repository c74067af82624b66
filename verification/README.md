# tunstrap: a verified model

tunstrap opens SSH tunnels in a detached daemon, hands out kubeconfigs whose server is a local
forward, and later finds, stops and cleans up that daemon through one session directory. This
project models the parts of it whose correctness depends on order, on sharing or on failure, and
proves what they promise. `dafny verify dfyconfig.toml` checks everything.

## How it is organised

**Session protocol.** `SessionProtocol` is a step system over one caller-supplied directory: the
entry `session.lock`, its inode and the flock on it, the recorded pid, `tunnel-data` with
`daemon.pid`, `tunnel-loss.json` and `output.json`, the process table, and any number of workers,
`start` and `run` parents, `stop`s and `run` teardowns. Workers may crash between any two steps,
parents may be arbitrarily late, pids may be reused, system calls may fail. `SessionRuns` proves
what holds in every state of every run, `SessionDisposal` what becomes of a leaving worker's data, and
`SessionSignals` whom a signal reaches. `StopScript` is
the automaton of calls a stop or teardown may make; `StopSession` proves that the imperative code,
polling loop and time bound included, makes no other ones, whatever exception lands between two of
them, and the actors of the step system follow the same automaton, so what is proved over all
interleavings is about that code.

**Losing a tunnel.** `Supervise` is the worker's event loop under any schedule of losses, signals
and idle expiry, with the record it leaves and the disposal it chooses.

**Kubeconfigs.** `Kubeconfig` is the parsed document as mutable mappings, compared by identity;
lookups are functions of a picture of them. `KubeParse` says by the keys alone what parsing reads.
`KubeRewrite` has the loops and assignments of the
source on the live mappings and ties them to the pictures `Patched` and `Renamed`; `KubeMeaning`
proves what these preserve. `KubeTargets` takes one target through parse, forward, patch and rename
on its live document, and `KubeBooks` is the loop over all of them. `KubeExamples` has two small
documents at which code and expectation part.

**Ownership under failure.** `Manager` (connections and listeners while nodes start concurrently),
`Spawn` (pipe ends, minted root, time, signals), `RunCommand` (the calls of `run`, one teardown of
`StopSession`, one exit code), `Fetcher` (one result per file).

**Smaller cores.** `AtomicWrite`, `SchemaNames`, `ShellExports`, `Activity`, `Endpoints`, `TofuArgs`.

Methods stand for code that changes things step by step and carry the contract of that code;
lemmas state what follows for a user. Answers of the operating system, of the remote side and of
libraries are arguments or arbitrary choices. Times are integers in milliseconds.

## Where the code and its words differ

- `cleanup` releases the lock before it deletes `tunnel-data` (tunstrap/session.py:386-392), so a
  daemon that starts in between loses its fresh directory: `SessionRuns.CleanupCanRaidASuccessor`
  is such a run. `SessionRuns.DeletionHits` says exactly when a deletion takes an active daemon's
  directory; `SessionRuns.DeletionHides` adds only that `status`, asked just before, would have found
  a daemon (`SessionProtocol.VerifyExact`) whose pid file is then gone. On the loss path the daemon
  touches nothing after the release, as the code comments promise
  (`SessionDisposal.NothingTouchedAfterLoss`).
- The comment of `atomic_write` says that its mkdir never has anything to do in production
  (tunstrap/session.py:60-69). The parent's write of output.json holds no lock and may come late:
  `SessionRuns.LateOutputReachesASuccessor` puts it into another session's directory and
  `SessionRuns.LateMkdirBlocksASuccessor` keeps a successor from starting. `SessionRuns.OutputHits`
  and `SessionRuns.MkdirHits` say exactly when such a step does harm, by who holds session.lock at
  that moment, and `SessionRuns.BlockedExactly` exactly when a starting daemon's mkdir is impossible.
- A `stop` that reads the pid file of a dead predecessor right before a new daemon starts deletes
  the new daemon's directory (`SessionRuns.StopCanRaidAStartingDaemon`); a daemon that had already
  published its pid when `stop` read it is safe (`SessionRuns.StopSparesThePublishedDaemon`).
- A pid is verified in one call and signalled in a later one (tunstrap/session.py:563-572 and
  584-587). `SessionSignals.StopCanSignalAStranger` is a run in which the daemon dies in between and
  the SIGTERM reaches another process; `SessionSignals.SignalReaches` says exactly when a signal
  reaches the daemon that was verified.
- The secure patch leaves an upstream `insecure-skip-tls-verify: true` in place
  (tunstrap/kube.py:276-283), so a target can be delivered with verification off while its output
  says `insecure` is false and no warning is given: `KubeExamples.UpstreamSkipSurvives`.
  `KubeTargets.VerificationOff` says exactly when a delivered document turns verification off.
- A reference that dangled before a rename stays dangling unless it already spelled the generated
  name (`KubeMeaning.ResolvabilityExact`; `KubeExamples.DanglingReferenceResolves` is such a case).
- The pattern for node and target keys ends in `$`, which in Python also accepts one trailing
  newline (`SchemaNames.NewlineKey`). An accepted key is an identifier exactly when it has none
  (`SchemaNames.AcceptedKeys`), and the leaves are still safe names.
- The comment of `atomic_write` speaks of failures before a successful rename. A close that fails after
  it raises as well, with the new content in place (`AtomicWrite.Write`).
- `[a]b]:22` is accepted by the schema only, `::1:22` by the CLI only (`Endpoints.InnerBracket`,
  `Endpoints.BareAddress`). `Endpoints.SchemaWithinCli` and `Endpoints.CliWithinSchema` say exactly
  which strings both accept.

## Model

| member | source | states |
|---|---|---|
| SessionProtocol.StepKeepsInv | tunstrap/session.py:128-204 | every step of every actor (start, reclaim, publish, materialize, loss, unlink, close, sweep, crash, the parent's write of output.json, stop, teardown) keeps the invariant over lock, inode, recorded pid, data and actors |
| SessionProtocol.ParentKeepsInv | tunstrap/envrender.py:166-170 | the steps of a start or run parent, which makes tunnel-data anew when it is gone and replaces output.json without holding the lock, keep it |
| SessionProtocol.AcquireKeepsInv | tunstrap/identity.py:37-81 | winning the flock, on a new or a leftover lock file, leaves exactly one daemon whose inode is the linked one and records its pid |
| SessionProtocol.WorkerKeepsInv | tunstrap/session.py:166-204 | the worker's own steps up to the release keep the invariant |
| SessionProtocol.SweepKeepsInv | tunstrap/session.py:386-392 | so does the deletion that follows the release on the normal path |
| SessionProtocol.DeadKeepsInv | tunstrap/session.py:536-590 | a process dying at any point, by SIGKILL or otherwise, keeps it: the kernel drops the flock, the files stay |
| SessionProtocol.ActKeepsInv | tunstrap/session.py:536-590 | a stopping actor's call, answered truthfully or with a failure, keeps it |
| SessionProtocol.StopperAdvances | tunstrap/session.py:536-590 | a call that clears an actor to delete shows that the daemon it read is no longer active |
| SessionProtocol.ClearedMeansGone | tunstrap/session.py:536-590 | not-found, no-such-process, an observed exit or a kill name the actor's target, and that process is no active daemon any more |
| SessionProtocol.VerifyExact | tunstrap/identity.py:96-133 | each answer of verify_session holds exactly in the states it is meant for |
| SessionRuns.AtMostOneDaemon | tunstrap/identity.py:37-133 | in every state of every run at most one daemon is active, session.lock names the inode it holds, that inode records its pid, and verify_session answers match for that pid and no other |
| SessionRuns.VerifyRefusals | tunstrap/identity.py:106-133 | mismatch exactly when another daemon is active and the pid exists; not-found exactly when the pid is gone or no daemon is active |
| SessionRuns.WipeIsExclusive | tunstrap/session.py:190-204 | create reclaims tunnel-data only as the one active daemon, and never a directory an active daemon made |
| SessionRuns.WhoChangesData | tunstrap/session.py:71-92 | tunnel-data changes only by the active daemon's hand, by a deletion of a clean-up or a resolved stop, or by a parent that makes an absent directory or replaces output.json |
| SessionRuns.DaemonFilesAreTheDaemons | tunstrap/session.py:291-348 | daemon.pid and the loss record of a directory are written by the active daemon alone |
| SessionRuns.RefusedExactlyWhenActive | tunstrap/session.py:166-173 | in every state of every run a start is refused as already active exactly when some daemon is active; otherwise it makes its process the active daemon, on a new or a leftover lock file |
| SessionRuns.StatusTruthful | tunstrap/cli_stop.py:135-163 | a published daemon whose directory nobody deleted is found under its own pid and verifies |
| SessionRuns.PidFileSays | tunstrap/session.py:394-433 | while a daemon starts whose directory nobody deleted, its pid file reads as missing, then as unreadable, then as its pid |
| SessionRuns.StopSparesThePublishedDaemon | tunstrap/cli_stop.py:111-130 | whatever happens in between, a stop or teardown never deletes while the daemon it found published still holds the session |
| SessionRuns.KeptStaysKept | tunstrap/cli.py:887-928 | an actor that decided to keep the data never deletes it later |
| SessionRuns.DeletionHits | tunstrap/session.py:386-392 | a deletion step, of a clean-up or of a stop, takes an active daemon's own directory away exactly when tunnel-data is there and session.lock is held by a daemon past making its own |
| SessionRuns.DeletionHides | tunstrap/session.py:435-445 | a deletion step leaves an active daemon that status would have found without its pid file exactly when status, asked just before, would report a running daemon |
| SessionRuns.OutputHits | tunstrap/envrender.py:166-170 | output.json of one session lands in the directory of another session's active daemon exactly when session.lock is held, at that moment, by a daemon past making its own that is not the parent's |
| SessionRuns.BlockedExactly | tunstrap/session.py:181-183 | a worker that has reclaimed its slot finds a directory in the way of its mkdir exactly when a parent has made sure of one since, while the worker stood there, and no deletion has come after |
| SessionRuns.MkdirHits | tunstrap/session.py:71-73 | a parent's mkdir makes a starting worker's mkdir impossible exactly when tunnel-data is not there and session.lock is held, at that moment, by a worker between its reclaim and its own mkdir |
| SessionRuns.CleanupCanRaidASuccessor | tunstrap/session.py:386-392 | a run in which a normal clean-up deletes the directory of the daemon that started after it |
| SessionRuns.StopCanRaidAStartingDaemon | tunstrap/cli_stop.py:111-130 | a run in which a stop that read a stale pid file deletes the directory of a daemon started meanwhile |
| SessionRuns.LateOutputReachesASuccessor | tunstrap/envrender.py:166-170 | a run in which the output.json of an ended session lands in its successor's directory |
| SessionRuns.LateMkdirBlocksASuccessor | tunstrap/session.py:71-73 | a run in which a late parent makes the directory between a successor's reclaim and its mkdir, so that the successor cannot start |
| SessionDisposal.RequiredLossIsKept | tunstrap/_worker.py:157-180 | after a loss of a required tunnel, as long as the worker lives, its own clean-up never deletes tunnel-data |
| SessionDisposal.NothingTouchedAfterLoss | tunstrap/session.py:350-366 | from the unlink of session.lock on, no step of a worker that lost a required tunnel changes tunnel-data |
| SessionDisposal.CleansUpExactly | tunstrap/session.py:386-392 | a worker deletes tunnel-data on its way out exactly when it made one since it won the lock, lost no required tunnel, has closed the lock, and has not done so yet |
| SessionDisposal.AlwaysLeaves | tunstrap/session.py:386-392 | an active daemon can leave at any moment, whether or not the unlink succeeds, and then none is active |
| SessionDisposal.WritesLand | tunstrap/session.py:71-92 | a materialized file or a loss record of a published daemon finds its directory, made anew when it was deleted |
| SessionDisposal.LossRecordKept | tunstrap/session.py:334-348 | the record of a loss stays until a deletion or the reclaim of the next start |
| SessionSignals.SignalReaches | tunstrap/session.py:563-590 | a pid that was verified as match is the active daemon's; a signal delivered to it later reaches that daemon exactly when no step in between ended it, and a daemon hit in its place started after the verification |
| SessionSignals.StopCanSignalAStranger | tunstrap/session.py:563-572 | a run in which the SIGTERM of a stop reaches a process that had nothing to do with the session |
| SessionSignals.EveryAnswerPossible | tunstrap/session.py:563-590 | in every state each next call of a stopping actor can get its true answer, and can fail instead |
| StopScript.LogExplained | tunstrap/session.py:536-590 | what each state of a stop says about the calls that led to it |
| StopScript.LastCallDecides | tunstrap/session.py:536-590 | the last call decides: which calls permit the deletion, and which decide for keeping the data, both exactly |
| StopScript.RemovalJustified | tunstrap/cli_stop.py:32-47 | a deletion directly follows one of: no pid file (teardown only), a first verification of not-found, no-such-process on a signal, an observed exit, a SIGKILL delivered after a second match |
| StopScript.SignalsOnlyMatched | tunstrap/session.py:536-590 | a signal goes to a positive pid that the call directly before it verified as match |
| StopSession.Stop | tunstrap/session.py:536-590 | with an exception landing between any two of its calls or in them, stop_session makes only allowed calls, its outcome is the one they stand for, it does not give up before they are final, it is resolved exactly when they permit the deletion, no poll of the grace period is skipped, SIGKILL and the give-up reasons come only after the grace period, and it ends within the grace plus one poll and the calls' own time |
| StopSession.WaitOut | tunstrap/session.py:536-590 | the grace loop ends by an observed exit, an exception, or not before the deadline and at most one poll after it |
| StopSession.Escalate | tunstrap/session.py:536-590 | SIGKILL only if forced and the identity still matches |
| StopSession.EnvelopeExplained | tunstrap/cli_stop.py:50-73 | for every outcome stop_session can end with: stopped, forced and preserved, each exactly by the last call that was made |
| StopSession.ReasonExplained | tunstrap/session.py:536-590 | each reason, exactly: not found, mismatch and unavailable by the answer of the one verification, still alive by the deadline, identity changed by the second verification |
| StopSession.RaisesByThrowing | tunstrap/session.py:536-590 | stop_session raises exactly when its last call did |
| StopSession.StopCommand | tunstrap/cli_stop.py:111-130 | the data is deleted exactly when stop exits 0, and the envelope it prints says whether it was; without an identity that can be read it exits 1, says so and calls nothing |
| StopSession.TeardownInner | tunstrap/cli.py:887-928 | the inner teardown raises exactly when its last call did, and otherwise says whether the data was kept |
| StopSession.TeardownRun | tunstrap/cli.py:830-852 | whatever the inner teardown raises is absorbed; it ends with the data kept or deleted and reports exactly when it is kept or an exception cut it short; no report means the data and a minted root are gone; a root is removed only if run minted it and the data went first; without a pid file the data goes at once, an unreadable one keeps it |
| StopSession.TeardownStop | tunstrap/cli.py:887-921 | the stop half reports resolved exactly when its calls permit the deletion |
| StopSession.TeardownClean | tunstrap/cli.py:922-928 | the deleting half, interrupted at any point, removes data before root |
| StopSession.RootFollowsRemoval | tunstrap/cli.py:887-928 | in every allowed log the root is removed only by a teardown that removed the data |
| Supervise.Supervision.RunWatchdog | tunstrap/_worker.py:125-160 | a watchdog that ran appends one loss with its node's name and flag, records all losses so far and sets the stop event exactly for a required node; a failing write changes nothing else |
| Supervise.Supervision.Advance | tunstrap/_worker.py:268-316 | what one callback does to the tasks and to the stop event |
| Supervise.Supervision.CancelWatchdogs | tunstrap/_worker.py:305-316 | after cancellation no watchdog can run, and nothing was recorded by it |
| Supervise.Supervision.CloseNext | tunstrap/_worker.py:305-316 | closing a connection in stop_all never records a loss |
| Supervise.Supervision.Wait | tunstrap/_worker.py:268-305 | for every schedule it goes on at the first turn after a signal, idle expiry or the watchdog of a lost required node, and a node's loss is recorded exactly when its watchdog ran after the connection dropped |
| Supervise.Supervision.Run | tunstrap/_worker.py:268-316 | for every schedule: record attempts, then closings, then the disposal; the losses are those of the nodes whose watchdog ran in time, with their own names and flags, each once and in the order of the turns; data is deleted exactly when the wait ended and no required node's watchdog ran |
| Supervise.StopAskedNext | tunstrap/_worker.py:125-160 | the stop event is set exactly when the schedule so far holds a reason for it |
| Supervise.ResumesExactly | tunstrap/_worker.py:268-305 | the wait ends only after a signal, idle expiry or the watchdog of a lost required node, at the first turn after it |
| Supervise.DisposalFollowsLosses | tunstrap/_worker.py:163-180 | data is deleted exactly when no required loss was recorded; the last record lists every loss and says self-terminated exactly when one was required; all attempts precede the release, which is the very last effect on the loss path |
| Supervise.RecordsGrow | tunstrap/_worker.py:99-122 | one more loss leaves earlier records and adds one listing all of them |
| Kubeconfig.FirstExact | tunstrap/kube.py:200-207 | the entry found carries the name and no earlier one does; none is found exactly when none carries it |
| KubeParse.ParsesExactly | tunstrap/kube.py:86-190 | a document parses to a view exactly when its keys say so: the first entry of each name is selected, and server, CA, client certificate and client key are the fields of those bodies, empty when absent or null |
| KubeParse.CredentialsAreTheUsers | tunstrap/kube.py:117-122 | client certificate and key are read from the body of the selected user, the CA from that of the cluster |
| KubeParse.TakenExactly | tunstrap/kube.py:338-347 | a generated name is taken exactly when some context, cluster or user entry carries it |
| KubeParse.PatchExactly | tunstrap/kube.py:257-283 | what the patch does to every key of the cluster body; keys it does not know stay |
| KubeRewrite.FindNamed | tunstrap/kube.py:200-207 | the loop finds the first mapping with the name, or none |
| KubeRewrite.ParseKubeconfig | tunstrap/kube.py:86-123 | the parser returns the view, or the first defect, of the picture of the document |
| KubeRewrite.FindRefs | tunstrap/kube.py:141-158 | cluster and user reference of the current context |
| KubeRewrite.FindCluster | tunstrap/kube.py:161-177 | body and server of the first cluster of that name |
| KubeRewrite.FindUser | tunstrap/kube.py:180-190 | body of the first user of that name, or none |
| KubeRewrite.FieldOf | tunstrap/kube.py:432-443 | absent and null fields are empty, other non-strings are refused |
| KubeRewrite.PatchView | tunstrap/kube.py:257-283 | only the body of the current cluster changes, key by key as specified |
| KubeRewrite.SweepSharedRefs | tunstrap/kube.py:286-312 | every context body but the selected entry's is repointed once, whatever bodies are shared, and nothing else changes |
| KubeRewrite.SweptExactly | tunstrap/kube.py:286-312 | the sweep key by key: in the body of every entry but the selected one the two references change when they spell the old names, and nothing else does |
| KubeRewrite.RenameIdentities | tunstrap/kube.py:315-422 | a refusal leaves every mapping as it was; otherwise the document is the renamed picture, mapping by mapping |
| KubeRewrite.FindTriple | tunstrap/kube.py:315-380 | all refusals are decided before anything changes |
| KubeRewrite.IsTaken | tunstrap/kube.py:338-347 | true exactly when a context, cluster or user already has the generated name |
| KubeRewrite.SweptIsRenamed | tunstrap/kube.py:286-422 | direct assignments followed by the sweep give the renamed picture |
| KubeMeaning.FirstRenamed | tunstrap/kube.py:200-207 | first-match lookup under a rename: the new name finds what the old one found, third names are unaffected, duplicates included |
| KubeMeaning.ReferencesPreserved | tunstrap/kube.py:286-422 | every cluster and user reference of every context that resolved resolves to the same entry afterwards |
| KubeMeaning.ResolvabilityExact | tunstrap/kube.py:286-422 | a reference resolves afterwards exactly when it did before or already spelled the new name |
| KubeMeaning.SelectionPreserved | tunstrap/kube.py:315-422 | the current context is the same entry with the same body and selects the same cluster and user bodies |
| KubeMeaning.RestUntouched | tunstrap/kube.py:315-422 | no other name and no other field of any mapping changes |
| KubeMeaning.PatchedParses | tunstrap/kube.py:257-283 | after the patch the document parses to the same view with the local server, and the CA kept or gone |
| KubeMeaning.OnlyReservedRefuses | tunstrap/kube.py:338-347 | on a document that parses, a taken name is the only ground for refusing the rename |
| KubeMeaning.RenamedParses | tunstrap/kube.py:315-422 | a renamed document parses to the same view under the generated name |
| KubeMeaning.PatchedAndRenamed | tunstrap/kube.py:86-422 | parse, patch, rename, parse again: generated names, local server, original credentials, CA kept (secure) or absent (insecure) |
| KubeTargets.ChooseName | tunstrap/kube.py:236-254 | the host itself when the certificate lists it, else the first DNS name, else the first IP, and a fallback flag exactly when it does not |
| KubeTargets.ResolveTls | tunstrap/kube.py:592-629 | a configured name wins; else the host if the certificate lists it, else its first DNS name, else its first IP, else none; the returned flag, which has verification turned off here, is set exactly when there is none and the target allows that; the warnings are exactly that flag and a name that was fallen back to |
| KubeTargets.OneFate | tunstrap/kube.py:449-552 | the answers and the document decide for exactly one end of a target, by the first step that fails |
| KubeTargets.DeliveredExactly | tunstrap/kube.py:449-552 | delivered exactly when the document parses, its server URL is good, the forward and the probe come back, there is a TLS name or leave to do without, and the generated name is free |
| KubeTargets.WarningsExactly | tunstrap/kube.py:449-629 | each kind of warning is made exactly when it should be: failure, verification turned off, a name fallen back to, and each other context of a delivered document |
| KubeTargets.DigitsReadBack | tunstrap/kube.py:257-277 | the port in the server URL is written in decimal, without leading zeros, and reads back as the port |
| KubeTargets.IgnoredContexts | tunstrap/kube.py:193-197 | the names of the contexts that are not selected, in the order of the document |
| KubeTargets.IgnoredExact | tunstrap/kube.py:193-197 | a name is among them exactly when some context entry other than the current one carries it |
| KubeTargets.IgnoredInOrder | tunstrap/kube.py:193-197 | they keep the order of the document |
| KubeTargets.Rewrite | tunstrap/kube.py:257-422 | on a document that parses, patch and rename give the renamed picture of the patched one, or refuse because the generated name is taken, which is the only ground |
| KubeTargets.OneTarget | tunstrap/kube.py:449-552 | on the live document: output, warnings, document and open listener of one target as its fate says; a target that fails leaves no listener open, an exception of the forward or the probe escapes and leaves the listener that was there |
| KubeTargets.DeliveredParses | tunstrap/kube.py:257-552 | parsing a delivered document gives the output's own fields: tunstrap-NODE-TARGET for all three names, https://127.0.0.1:PORT, and the CA (gone when insecure) and credentials of the document as it was fetched |
| KubeTargets.VerificationOff | tunstrap/kube.py:276-283 | a delivered document turns verification off exactly when its output says so or the upstream cluster did; the secure patch leaves that key and the CA as they were and sets the TLS name, the insecure one removes name and CA |
| KubeExamples.UpstreamSkipSurvives | tunstrap/kube.py:276-283 | a target with a configured TLS name is delivered with verification off, its output says it is not insecure, the target does not allow it, and no warning says so |
| KubeExamples.DanglingReferenceResolves | tunstrap/kube.py:286-422 | a document in which a dangling reference spells the generated name and finds the renamed cluster afterwards |
| KubeBooks.Append | tunstrap/kube.py:449-552 | one pass of the loop appends exactly this target's output, failure and warnings, unless an exception escapes |
| KubeBooks.Run | tunstrap/kube.py:449-552 | the whole loop returns exactly when no target's forward or probe raises: then the books are the targets' contributions in order and the open listeners exactly the ports of the outputs, pairwise distinct; else the targets before it are accounted for, and open are their listeners and the one the exception met; each document is left as its target's fate says, or as it was fetched |
| KubeBooks.OutputsExact | tunstrap/kube.py:449-552 | the output under a target's name is the one delivered for it, with its own port, and there is one exactly when it was delivered |
| KubeBooks.EveryTargetAccounted | tunstrap/kube.py:449-552 | each target is an output or has a failure warning, never both; required failures are exactly the required targets without output; every other warning is in the books exactly when its target calls for it; an output means that the document was patched and renamed |
| KubeBooks.RequiredFailuresInOrder | tunstrap/kube.py:449-552 | required failures keep the order of the targets |
| KubeBooks.GatherInOrder | tunstrap/kube.py:449-552 | outputs, failures and warnings of earlier targets come first |
| Manager.Net.CloseTransport | tunstrap/ssh.py:160-211 | the given listeners and the connection with all its listeners are gone, nothing else |
| Manager.TunnelManager.Step | tunstrap/manager.py:151-224 | one node's step from one await to the next, between any steps of the others: nobody else's connection or listeners change, and each connected node has its own connection with all its listeners open |
| Manager.TunnelManager.OpenNext | tunstrap/ssh.py:103-157 | the next forward of a node is opened and joins its listeners, or the node fails and leaves nothing open |
| Manager.TunnelManager.Fail | tunstrap/manager.py:163-224 | a node that fails loses its connection and every listener on it, and nothing else is closed |
| Manager.TunnelManager.Finish | tunstrap/manager.py:195-224 | the kube step and the end of a start: a runtime is booked exactly for a node that is up, and its kube targets' listeners are open on its connection |
| Manager.OwnedFails | tunstrap/ssh.py:160-211 | closing one node's connection leaves every other node's connection and listeners open |
| Manager.OwnedIsHeld | tunstrap/manager.py:66-84 | when every node has ended, the open connections are exactly those of the runtimes, one each, with their forwards open |
| Manager.TunnelManager.StopAll | tunstrap/manager.py:86-91 | everything is closed, and a second call closes nothing |
| Manager.TunnelManager.TakeTurns | tunstrap/manager.py:145-149 | for every interleaving of the nodes' steps, ownership holds throughout and each turn of a node that has not ended brings it nearer its end |
| Manager.TunnelManager.StartAll | tunstrap/manager.py:93-149 | for every interleaving: enough turns for each node end the start; then an error exactly when a required node failed, and nothing stays open; otherwise the open connections and forwards are those of the started nodes |
| Manager.Build | tunstrap/manager.py:93-143 | the report names each failed required node, or splits the nodes into connections and warnings, in input order |
| Manager.NamesExact | tunstrap/manager.py:93-143 | a name is in a list exactly when its node has that standing |
| Manager.NotStartedExactly | tunstrap/manager.py:151-224 | every reason for which a node does not start, and no other |
| Manager.NamesInOrder | tunstrap/manager.py:93-143 | the lists keep the order of the input |
| Manager.FailureNamesExactly | tunstrap/manager.py:93-143 | a failed start names exactly the required nodes that did not start |
| Manager.EveryNodeReportedOnce | tunstrap/manager.py:66-143 | on success each node is in exactly one of connections and warnings, and in the former exactly when it started, which is exactly when it owns a connection |
| RunCommand.RunChild | tunstrap/cli.py:532-584 | validation, the output file, the environment, the launch, both handlers and the wait, each made only if all before it went well; the outcome is what the last reply means |
| RunCommand.WaitForChild | tunstrap/cli.py:568-577 | each signal that arrives during the wait is relayed, and the wait's reply is the child's |
| RunCommand.SuperviseChild | tunstrap/cli.py:587-631 | after the child's calls the saved handlers are restored, and then one whole teardown is made, which cannot raise; the outcome is what the log of calls stands for |
| RunCommand.Run | tunstrap/cli.py:768-827 | after a success frame one teardown, after everything else; an unreadable handshake is torn down; any other frame stops and deletes no session |
| RunCommand.ExitAlike | tunstrap/cli.py:830-837 | two runs with the same replies exit alike, whatever their teardowns meet |
| RunCommand.MadeExactly | tunstrap/cli.py:532-631 | which calls are made: one of the window when all before it went well, a restoration when its handler was saved and the one before it was restored |
| RunCommand.CallsInOrder | tunstrap/cli.py:532-568 | the calls of the window come in the order of the source |
| RunCommand.WaitInOrder | tunstrap/cli.py:568-577 | the signals of the wait are relayed in the order of their arrival, before the wait's own reply |
| RunCommand.LastThrownDecides | tunstrap/cli.py:587-631 | if any call threw, the run ends with the exception of the last one that did: its own code for a tunstrap error, 4 for another, a traceback for an interrupt |
| RunCommand.StatusDecides | tunstrap/cli.py:564-584 | if none did, the exit code is the child's status n, 128+N when signal N ended it (status -N), or 127 when it could not be launched |
| RunCommand.ZeroExactly | tunstrap/cli.py:532-631 | exit code 0 exactly when every call went well and the child ended with 0 |
| RunCommand.SignalsRelayed | tunstrap/cli.py:568-576 | every signal arriving during the wait is relayed to the child once, in order, and no other |
| Spawn.Parent.ReadFrame | tunstrap/daemon.py:218-254 | the frame is everything up to the end of the file, read before the deadline, or it is reported expired or broken |
| Spawn.Parent.KillTimedOutWorker | tunstrap/daemon.py:182-194 | at most one kill and one grace period; the answer is whether the worker is gone |
| Spawn.Parent.ReapTimedOutWorker | tunstrap/daemon.py:197-215 | at most one terminate, then at most one kill, within two grace periods; a worker that heeds either is reported reaped; the kill comes exactly when it outlives the terminate's grace period |
| Spawn.Parent.ReadIpcResponse | tunstrap/daemon.py:218-277 | a message exactly when a whole frame of a known kind arrives in time; the read end is closed on every path |
| Spawn.Parent.SpawnDaemon | tunstrap/daemon.py:60-179 | what is done on every path and in which order, and at most the startup timeout plus two grace periods |
| Spawn.OwnershipExact | tunstrap/daemon.py:88-179 | both pipe ends are closed exactly once on every path; the minted root is removed exactly when no worker was launched; signals go only to a worker that timed out |
| Spawn.OrderExactly | tunstrap/daemon.py:88-179 | the order: mint, launch, close of the write end, signals if any, close of the read end; without a launch both ends and a minted root go |
| Spawn.EndsExactly | tunstrap/daemon.py:231-254 | a frame is complete, or broken, exactly when the first arrival that stops the reading is an end of the file, or a failing read, and comes before the deadline |
| Spawn.JoinedExactly | tunstrap/daemon.py:239-256 | every byte stands in the frame in the order of arrival, and nothing after the stop |
| Fetcher.FetchOne | tunstrap/fetcher.py:53-85 | content exactly when both size checks allow it, EFBIG exactly when one does not, else the transport's code |
| Fetcher.ResultExactly | tunstrap/fetcher.py:53-85 | the result of a file by numbers: content of at most 1048576 bytes, EFBIG above that in either size, else the transport's code |
| Fetcher.RecordChannelFailure | tunstrap/fetcher.py:88-105 | earlier results survive, all other names inherit the channel's code, required ones are listed |
| Fetcher.FetchInTurn | tunstrap/fetcher.py:127-133 | inside the channel each file whose turn comes gets its own result, in order |
| Fetcher.FetchFiles | tunstrap/fetcher.py:108-137 | wherever the channel fails, the results' keys are exactly the requested names, and those whose turn came have their own result |
| Fetcher.EachResult | tunstrap/fetcher.py:108-137 | under each name: its own result when the channel was up at its turn, else the channel's code and no content |
| Fetcher.ErrorsExact | tunstrap/fetcher.py:88-137 | the failures are exactly the required names whose result is an error, without repeats |
| Fetcher.ErrorsInOrder | tunstrap/fetcher.py:88-137 | in the order of the request |
| Fetcher.EveryResultSound | tunstrap/schemas.py:348-372 | every result is a success or an error, not both, and no success exceeds 1 MiB |
| AtomicWrite.WriteAll | tunstrap/fdio.py:16-27 | short writes are continued to the whole content, and a failure, which needs a failed or empty write, leaves a prefix in the temp file and reports what is missing |
| AtomicWrite.Write | tunstrap/session.py:38-92 | in every state passed through, so after a crash anywhere, the final name holds the whole old or the whole new content; success means new content and no temp file; a handled failure restores the directory, but a close that fails after the rename raises with the new content in place |
| AtomicWrite.Retry | tunstrap/session.py:71-92 | however an attempt fails, short of a failing unlink, the next one is not blocked and leaves the new content |
| SchemaNames.Absorb | tunstrap/schemas.py:317-345 | the inner loop meets a duplicate exactly when the names so far and the new ones are not all distinct |
| SchemaNames.CheckIdentities | tunstrap/schemas.py:319-329 | accepted exactly when all generated identities are pairwise distinct |
| SchemaNames.CheckLeaves | tunstrap/schemas.py:331-344 | accepted exactly when all file names are pairwise distinct |
| SchemaNames.Validate | tunstrap/schemas.py:317-345 | both at once, identities first, and the reported name is one that two items share |
| SchemaNames.ItemsExactly | tunstrap/schemas.py:317-345 | the validator looks at every key of every kube_targets and fetch_files, and at nothing else |
| SchemaNames.NamesSpelled | tunstrap/schemas.py:25-31 | kube-NODE-TARGET, fetch-NODE-FILE and tunstrap-NODE-TARGET |
| SchemaNames.ItemsHaveOwnFiles | tunstrap/manager.py:226-246 | in an accepted schema two items never share a file |
| SchemaNames.JoinCollides | tunstrap/schemas.py:319-329 | two dash-joined names are equal exactly when the parts are, or one node name continues the other by what the target name gives up |
| SchemaNames.LeafCollisions | tunstrap/schemas.py:25-31 | kube and fetch files never collide, and within a kind files collide exactly where identities do |
| SchemaNames.AcceptedKeys | tunstrap/schemas.py:11-22 | accepted exactly: at most 64 characters, an identifier, or one followed by a newline; so a key is an identifier exactly when it holds no newline |
| SchemaNames.NewlineKey | tunstrap/schemas.py:11-22 | a key that is accepted and is not an identifier |
| SchemaNames.LeavesAreSafe | tunstrap/session.py:305-322 | every file name from accepted keys passes the path checks and is none of the daemon's own files or temp names |
| ShellExports.LexQuoted | tunstrap/envrender.py:179-181 | a quoted value is read back as it was, for all NUL-free values |
| ShellExports.LexLine | tunstrap/envrender.py:173-176 | one printed line is one command: export and KEY=VALUE |
| ShellExports.ExportsReadBack | tunstrap/envrender.py:173-181 | reading the printed text with POSIX.1-2017 XCU sections 2.2.1 and 2.2.2 gives exactly the KEY=VALUE words, in order |
| ShellExports.ExportsInjective | tunstrap/envrender.py:173-181 | the printed text determines the environment |
| ShellExports.QuoteSpelled | tunstrap/envrender.py:173-181 | a quote in a value is written as '\'', and no variables as an empty line |
| Activity.IdleConnectionTracker.ConnectionMade | tunstrap/activity.py:43-51 | counts a connection once, however often the hook is called |
| Activity.IdleConnectionTracker.ConnectionLost | tunstrap/activity.py:53-59 | uncounts it once, and never before it was made |
| Activity.ActivityTracker.MakeTracker | tunstrap/activity.py:79-81 | a new tracker, made at any time, changes no count |
| Activity.AccountExact | tunstrap/activity.py:43-59 | for any interleaving of hooks, a connection counts as opened when made and as closed when lost after being made |
| Activity.ActiveExact | tunstrap/activity.py:85-93 | the count is the number of connections opened and not closed, so the clamp at zero decides nothing |
| Activity.IdleWatchdog | tunstrap/_worker.py:55-73 | with connections accepted before and while it runs, it fires at the first poll that finds no connection open and the timeout passed, and at no other |
| Activity.NeverTooEarly | tunstrap/_worker.py:55-73 | when it fires, every connection made has been lost and nothing opened or closed within the timeout before |
| Activity.FiresInTime | tunstrap/_worker.py:55-73 | if nothing opens or closes any more it fires at most one poll interval, max(1 s, T/4), after the timeout |
| Endpoints.EndpointsExact | tunstrap/cli_input.py:26-66 | the CLI accepts exactly USER@HOST, USER@HOST:PORT, USER@[HOST], USER@[HOST]:PORT and returns their parts |
| Endpoints.EndpointRoundTrip | tunstrap/cli_input.py:26-66 | parsing undoes printing, bracketed literals as in section 3.2.2 of RFC 3986 included |
| Endpoints.TargetsExact | tunstrap/schemas.py:34-62 | the schema accepts exactly HOST:PORT without a double colon and [HOST]:PORT, with a host |
| Endpoints.PortRefused | tunstrap/cli_input.py:35-66 | why the CLI refuses a port: no number, or not between 1 and 65535 |
| Endpoints.UserRefused | tunstrap/cli_input.py:26-32 | an endpoint is refused for its user exactly when it has no @ or begins with one |
| Endpoints.ParsersAgree | tunstrap/schemas.py:34-62 | on every string both accept, both parsers return the same pair |
| Endpoints.SchemaWithinCli | tunstrap/cli_input.py:35-66 | a string the schema accepts is accepted by the CLI exactly if it is unbracketed or its first closing bracket is the one before a colon |
| Endpoints.CliWithinSchema | tunstrap/schemas.py:34-62 | a string the CLI accepts is accepted by the schema exactly if it goes on after the first closing bracket and has something before it, or is unbracketed with a colon and no double one |
| Endpoints.InnerBracket | tunstrap/schemas.py:41-48 | [a]b]:22 is a target for the schema and refused by the CLI |
| Endpoints.BareAddress | tunstrap/cli_input.py:48-52 | ::1:22 is an endpoint for the CLI and refused by the schema |
| TofuArgs.FindSubcommandIndex | tunstrap/tofu_proxy.py:172-186 | the index loop computes what the token-by-token grammar reads |
| TofuArgs.FoundWord | tunstrap/tofu_proxy.py:154-186 | the index is in range and at a non-flag; every token before it is a flag or the value of one |
| TofuArgs.SubcommandExactly | tunstrap/tofu_proxy.py:172-186 | the subcommand is exactly the first token that is neither a global flag nor the value of one, with no request for version or help before it |
| TofuArgs.BypassExactly | tunstrap/tofu_proxy.py:132-144 | no tunnel exactly for init, version, validate, fmt and no subcommand |
| TofuArgs.CleanPrefix | tunstrap/tofu_proxy.py:132-186 | complete global flags in front never change the verdict and only shift the index |
| TofuArgs.ChdirPrefix | tunstrap/tofu_proxy.py:132-186 | -chdir DIR and -chdir=DIR never change the verdict, whatever DIR is |
| TofuArgs.AppendExact | tunstrap/tofu_proxy.py:132-186 | appended arguments change nothing once a subcommand is there; without one, exactly what they do |
| TofuArgs.HasPlanInput | tunstrap/tofu_proxy.py:249-263 | true exactly when some positional argument, values of flags left out, is a plan file |
| TofuArgs.PlanNames | tunstrap/tofu_proxy.py:244-246 | a plan file name is tfplan or ends in .tfplan |

## Left out

- Generated session roots: only caller-supplied directories are in the step system.
- Finer grain of the lock: taking it and verifying a session are one step each; an open that another process's unlink overtakes, and the moment verify_session itself holds the flock, are not modelled.
- A deletion of tunnel-data is one step; a partly deleted directory and the list of survivors are not modelled.
- A failing unlink leaves the lock file in place and is modelled; failing closes are not.
- The temp file of a write into tunnel-data, and a parent that dies, have no step of their own in the protocol; AtomicWrite covers the former.
- File modes, ownership, symbolic and hard links, and the checks on a supplied root.
- The loss notice that `run` prints before its teardown reads the loss record only and is left out.
- Supervise: losses of a connection that is down but whose watchdog has not run when the watchdogs are cancelled are not recorded, as in the code; the waiting of `wait_closed` itself is not part of this model.
- YAML text: aliases inside one section are covered, aliases across clusters, users and contexts are not (`Kubeconfig.Separate`); loading, dumping and the list of ignored contexts are library work or single expressions.
- KubeRewrite.FindRefs: a missing, empty or non-string reference is one defect, where the code words three messages.
- KubeBooks.Run: what the caller does with an exception that escapes the loop; Manager has the closing of the node's connection.
- StopSession.StopCommand: exceptions that land outside `stop_session`, around the command's own calls, are not modelled; those of a teardown are.
- Manager.TunnelManager.StartAll: closing a node's transport is one step, and exceptions outside the expected ones are not modelled.
- The content of materialized files, and a materialization that fails and ends the start.
- Spawn.Parent.SpawnDaemon: begins at the first `try`, so a log file that cannot be opened before it is out, and so are frames that are not UTF-8 or not an object; a broken write of the request has no effect of its own.
- RunCommand.Run: the wording of reports, the payload handed to the child, and signals that arrive before both handlers are in place.
- Activity.IdleWatchdog: sleeps are exact; being cancelled is the end of its polls.
- Endpoints: Python's int() is a parameter; what it accepts (signs, blanks, underscores) is not modelled.
- ShellExports: keys are assumed to be variable names, as the program's own names are; the lexer stops at any other part of the shell grammar.
- TofuArgs: the two flag scans for `plan -out` and `show -plan`, and the in-process call of `run`.
- SSH, SFTP, certificate decoding, JSON, pydantic, base64, digests, Click wiring, help texts and exit-code tables.
