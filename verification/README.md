# VRRelay control plane: a Dafny model

This project models the control plane of VRRelay and proves what its protocols promise. The control plane is a set of
processes that share three kinds of state: rows in a relational repository whose writes are fenced by revisions, leases
and expiring values in a coordination store, and secrets kept outside the tables by the process that uses them. Any
process may die, any call may commit and lose its acknowledgement, and other processes act at every suspension point.

## Reading guide

| module | part of the system |
|---|---|
| `CertificateRotation`, `RotationInvariant`, `RotationSafety`, `RotationAttempts`, `RotationLockouts`, `RotationTable`, `AgentTransport` | rotation of a worker's certificate between node, controller and certificate table: the machine, its invariant, that every step keeps it, reconnection, the lockout runs, the tie to the repository's tables, the two parties as objects |
| `Enrollment` | a join token becomes one node |
| `Repository`, `RepositoryIntegrity`, `RevisionFence`, `SuspendedWriters`, `SuspendedSessions`, `SqliteRepository` | the tables and their transactions, what every interleaving keeps, the revision fence, node reports and session writes that suspend between read and write, the transactions as methods over table fields |
| `ClusterService` | the bounded retry loops over cluster nodes |
| `SegmentJobs`, `SegmentAttempts` | the segment job document and its retry loops; attempt accounting |
| `LivePublisher` | the publisher slot of a live channel |
| `LoginIdentity`, `IdentityRefresh`, `OperationQueue`, `BrowserCredentials` | sign-ins: the identity document, the queues, the browser credential |
| `BindingCustody`, `ProviderCustody` | provider and binding secrets against the rows that name them |
| `Coordination`, `MessageRate`, `CacheEviction`, `PlaybackTracker`, `Migrations` | leases and viewer windows, the message limiter, the cache eviction, the client tracker, the migration runner |

How the concurrent code is modelled:

- A protocol between parties is a machine whose steps are the code between two suspension points (`Step`, `Enabled`,
  `Next`, `Runs`, `After`). Losses, failures and deaths are steps or parameters of steps. Main results are about every
  reachable state.
- A compare-and-set retry loop is a method of a class that owns the stored document. A ghost `log` names, in order, every
  update the store accepted; `Valid()` says the document is those updates applied one after the other and its revision
  counts them. `Suspend()` is the suspension point: its body is empty and its contract is the rely condition, that others
  may have had legal updates accepted. A loop ensures that it had exactly one update of its own accepted, last (`OwnLast`),
  or none (`OthersOnly`), and it may report contention only after as many updates by others as it made attempts. What is
  promised of all runs is then a lemma about legal logs.
- Time is a natural number that does not decrease. Tokens, certificates, references and identifiers are natural numbers
  that are only compared; a hash is identified with what it hashes.

## What holds only under conditions

Some properties fail without an assumption. Each is stated as an equivalence with a parameter of the model, and the failing
side is a concrete run:

- A node is never locked out of the cluster exactly when all of the following hold (`RotationLockouts.LockoutFreedom`):
  the controller's check that the staged link is still open and the table write after it are one step; the read of the
  table in a hello on the active certificate and the acceptance after it are one step; the node's state writes do not
  queue up behind one another; and, if a state write may report a failure or the node may reconnect while one is
  outstanding, the controller does not remember a staged certificate longer than the node. The code awaits between the two
  halves of the first two pairs and chains state writes, so these are conditions on timing. While one write is outstanding
  the node may connect, receive and close; what starts another write, or decides on the document it loaded (a hello, a
  rotation, a drain), waits for it. The awaits inside the upgrade request and after the table write are modelled as
  suspension points and are harmless.
- A join token yields one node exactly when the consume lease keeps calls apart (`Enrollment.OneNodeExactlyWhenExclusive`).
- An assigned owner always remains exactly when deletions are kept out of sign-ins of the same identity
  (`LoginIdentity.OwnerRemainsExactlyWhenQueued`); `OperationQueue` proves that the queue does so within a process.
- Live bindings keep their secrets exactly when an insert raises only once its commit is decided
  (`BindingCustody.CustodyExactlyWhenDecided`).
- References between tables hold after every step of a run of whole transactions exactly when each owner written without a
  check was known (`RepositoryIntegrity.ReferencesHoldThroughout`): the identity check of a session write does not compare
  owners. The repository method that writes a session suspends between its read and its write. With such writes, references
  hold over every run by callers that keep owners, and a provider marked for deletion gains no dependent, exactly when no
  session is created under an identifier that a suspended write still holds (`SuspendedSessions.ReferencesHoldExactlyWhenFresh`,
  `SuspendedSessions.ProvidersWaitExactlyWhenFresh`); then a step keeps references exactly when the owner it writes unchecked
  is known (`SuspendedSessions.HoldThroughoutExactly`). The service draws session identifiers at random
  (packages/application/src/session-service.ts:359), so it meets the condition; the repository does not enforce it.
- Attempts of a segment job are accounted for as long as a crashed attempt is recovered before the job is started again and
  a lease renewal is not answered after a later attempt has ended; each condition is needed
  (`SegmentAttempts.RestartOverCrashedAttempt`, `SegmentAttempts.LateAnswerMiscounts`).
- A read-then-write method of the repository acts as one transaction exactly when the row it finds at the revision it read
  agrees with the row it read in what it copies (`RevisionFence.SuspendedReportIsAtomic`,
  `RevisionFence.SuspendedSessionWriteIsAtomic`). That always holds unless the row was deleted and its identifier used again
  meanwhile, and then it can fail for every such method (`RevisionFence.ReportOutlivesRemoval`,
  `RevisionFence.SessionWriteOutlivesDeletion`). For sessions no caller produces such a run, as their identifiers are random;
  a local node does come back under its configured identifier.
- A revoked node leaves that state by removal only exactly when no node is registered under an identifier that a report has
  read and not yet written (`SuspendedWriters.RevokedExactlyWhenFresh`); local nodes keep their identifier, so the code does
  not see to that.

## Model

| member | source | states |
|---|---|---|
| RotationSafety.StepKeeps | apps/relay/src/agent-transport.ts:568-935 | every single step of node, controller, table or network keeps the invariant that ties them and the messages in flight together |
| RotationSafety.RunKeeps | apps/relay/src/agent-transport.ts:751-935 | the invariant survives every run of a sound deployment, with the node connecting, receiving and closing while a state write is outstanding |
| RotationSafety.SoundNeverLocksOut | apps/relay/src/agent-transport.ts:1384-1430 | in every reachable state of a sound deployment a node that is not revoked durably holds, as active or pending, the certificate the table lists as unrevoked |
| RotationAttempts.TwoAttemptsTryBoth | apps/relay/src/agent-transport.ts:1457-1471 | a connection attempt that closes unopened and the next one present both identities a node holds |
| RotationAttempts.NoOtherThreats | apps/relay/src/agent-transport.ts:568-802 | between two attempts the only certificate that can newly become able to be activated is the one the current link presents |
| RotationAttempts.ActiveCertificateIsTried | apps/relay/src/agent-transport.ts:1332-1345 | from every reachable disconnected state, whatever controller, clock and pending write do in between, an unopened attempt or the one after it presents the certificate active by then |
| RotationLockouts.LateActivationLocksOut | apps/relay/src/agent-transport.ts:751-802 | if the open check and the table write are separate steps, some run locks the node out, for every setting of the rest |
| RotationLockouts.LateAcceptanceLocksOut | apps/relay/src/agent-transport.ts:804-870 | if the table read of a hello on the active certificate and its acceptance are separate steps, some run locks the node out, for every setting of the rest |
| RotationLockouts.FaultyDropLocksOut | apps/relay/src/agent-transport.ts:1318-1330 | if a state write may commit and report a failure, a controller that remembers longer than the node can lock it out |
| RotationLockouts.ReconnectBehindDropLocksOut | apps/relay/src/agent-transport.ts:1384-1430 | if the node may reconnect behind an outstanding drop, a controller that remembers longer than the node can lock it out |
| RotationLockouts.SlowWritesLockOut | apps/relay/src/agent-transport.ts:1544-1572 | if state writes may queue up, an adoption and a drop queued behind it can lock the node out |
| RotationLockouts.LockoutFreedom | apps/relay/src/agent-transport.ts:568-935 | for all positive lifetimes and every cooldown: no lockout ever if and only if activation and acceptance are atomic, writes do not overlap, and under faults or reconnects during a write the controller forgets first |
| RotationTable.CheckAgrees | packages/application/src/cluster-service.ts:436-454 | the repository's check accepts exactly the certificate the rotation machine calls active, while it has not expired |
| RotationTable.SuspendedCheckIsAtomic | packages/application/src/cluster-service.ts:436-454 | the check reads the node and then its certificates, and answers as the whole check does at one of the two moments |
| RotationTable.RotationIsActivation | packages/adapters/src/sqlite-repository.ts:2274-2306 | the rotation transaction applies to the same serial numbers as the machine's activation, and table and transaction commute |
| RotationTable.RevocationIsFlag | packages/adapters/src/sqlite-repository.ts:2308-2347 | the revocation transaction sets the machine's flag |
| RotationTable.OthersLeaveTable | packages/adapters/src/sqlite-repository.ts:1714-2347 | transactions of other parties change neither the active certificate nor the flag and only add serial numbers |
| RotationTable.RunIsTransactions | packages/adapters/src/sqlite-repository.ts:2274-2347 | every run of the machine is a run of repository transactions that ends in tables with its registry |
| RotationTable.ReachableHasTables | packages/adapters/src/sqlite-repository.ts:1714-2347 | every reachable state of the machine has tables that repository transactions lead to from empty ones, with a sound certificate table |
| RotationTable.AcceptedCertificateIsHeld | packages/application/src/cluster-service.ts:436-454 | in a sound deployment the node durably holds whatever certificate the repository's check accepts for it |
| AgentTransport.NodeAgent.Connect | apps/relay/src/agent-transport.ts:1332-1345 | a pending identity is preferred unless the last pending attempt failed |
| AgentTransport.NodeAgent.SendHello | apps/relay/src/agent-transport.ts:1384-1399 | the hello goes out with what the state document held when it was loaded |
| AgentTransport.NodeAgent.HelloAcknowledged | apps/relay/src/agent-transport.ts:1384-1430 | a successful hello promotes the pending slot, or drops a pending identity past its lifetime on the active slot, or opens the link |
| AgentTransport.NodeAgent.RotationAnswered | apps/relay/src/agent-transport.ts:1544-1572 | an answer is adopted only for the request outstanding on this link |
| AgentTransport.NodeAgent.StageRotation | apps/relay/src/agent-transport.ts:1111-1170 | a stored request survives crashes and lost replies and is used again |
| AgentTransport.NodeAgent.MutateState | apps/relay/src/agent-transport.ts:1318-1330 | queued writes of the identity document with their success, failure and commit-then-fail outcomes |
| AgentTransport.NodeAgent.ConnectionClosed | apps/relay/src/agent-transport.ts:1457-1471 | a link that closes before it opened flips the preferred slot |
| AgentTransport.AgentController.BeginUpgrade | apps/relay/src/agent-transport.ts:586-592 | an upgrade request forgets an expired staged identity and keeps the one it saw across the table read |
| AgentTransport.AgentController.CertificateLookedUp | apps/relay/src/agent-transport.ts:592 | the answer of the table is kept with the upgrade request it was asked for |
| AgentTransport.AgentController.FinishUpgrade | apps/relay/src/agent-transport.ts:592-619 | authentication by the active certificate, or by the staged identity seen before the read if it is still the staged one |
| AgentTransport.AgentController.StagedHello | apps/relay/src/agent-transport.ts:751-775 | a staged hello needs the current staged identity and its lifetime, else the candidate is released |
| AgentTransport.AgentController.ReplaceConnections | apps/relay/src/agent-transport.ts:771-776 | after the table write every other connection of the node is dropped, before the table is read again |
| AgentTransport.AgentController.ActivationConfirmed | apps/relay/src/agent-transport.ts:777-782 | the answer of the second table read is kept with the candidate |
| AgentTransport.AgentController.CompleteActivation | apps/relay/src/agent-transport.ts:777-801 | after the second table read the candidate becomes the only accepted connection, or is released if its certificate is not active |
| AgentTransport.AgentController.ActiveHello | apps/relay/src/agent-transport.ts:804-834 | the first message of a candidate on the active certificate must be a hello, for which the table is read |
| AgentTransport.AgentController.AcceptHello | apps/relay/src/agent-transport.ts:835-861 | on that answer it is accepted as the only connection and clears a staged identity it consumed, or is released |
| AgentTransport.AgentController.RotationRequested | apps/relay/src/agent-transport.ts:872-935 | a repeated request gets the same certificate again, another one waits, the cooldown and revocation drop the link |
| AgentTransport.AgentController.CertificateSigned | apps/relay/src/agent-transport.ts:906-926 | the signed certificate becomes the staged identity, its lifetime and the cooldown counted from the request |
| AgentTransport.AgentController.ReleaseConnection | apps/relay/src/agent-transport.ts:330-343 | releasing a connection forgets exactly that connection |
| MessageRate.RateWindow.CountMessage | apps/relay/src/agent-transport.ts:135-143 | the restarting window: a message passes exactly while the count is within the maximum |
| MessageRate.WithinAllowance | apps/relay/src/agent-transport.ts:135-143 | what passes inside any minute is bounded by what the window can still allow there |
| MessageRate.RateBound | apps/relay/src/agent-transport.ts:135-143 | no half-open minute lets more than twice the maximum past, whatever came before it |
| MessageRate.BoundIsAttained | apps/relay/src/agent-transport.ts:135-143 | the factor two is attained for every positive maximum |
| Enrollment.StepKeepsInv | packages/application/src/cluster-service.ts:266-359 | each step of a call, and each change made elsewhere, keeps the claim, the calls, the certificate rows and the successes consistent |
| Enrollment.OneTokenOneNode | packages/application/src/cluster-service.ts:266-359 | one token yields at most one node, and all successful calls carried the same request and returned the same node and certificate |
| Enrollment.OneNodeExactlyWhenExclusive | packages/application/src/cluster-service.ts:266-275 | that holds if and only if the consume lease keeps calls of one token apart |
| Enrollment.ReconciledAuthenticates | packages/application/src/cluster-service.ts:759-776 | what reconciliation accepts is the only certificate of its node that the certificate check accepts |
| Enrollment.CallCreatesNode | packages/application/src/cluster-service.ts:290-345 | a call that read an unused claim goes through to a node of its own, whatever the claim became meanwhile |
| Enrollment.ElsewhereKeepsInv | packages/application/src/cluster-service.ts:759-776 | revocations, removals, rotations and heartbeats elsewhere do not let a token create again |
| Enrollment.PublicationKeepsInv | packages/application/src/cluster-service.ts:746-757 | publishing the claim with a lost acknowledgement binds the token to one identity |
| RepositoryIntegrity.CatalogKeepsSessionProviders | packages/adapters/src/sqlite-repository.ts:1017-1064 | deletion in two phases and binding creation never take a provider from under a session |
| RepositoryIntegrity.CatalogKeepsBindingProviders | packages/adapters/src/sqlite-repository.ts:2038-2137 | every binding keeps a provider that exists and is not marked for deletion |
| RepositoryIntegrity.SessionKeepsReferences | packages/adapters/src/sqlite-repository.ts:1090-1133 | session creation and session writes keep the provider and the channel a session refers to |
| RepositoryIntegrity.SessionKeepsOwners | packages/adapters/src/sqlite-repository.ts:1147-1166 | a session write keeps owners known if and only if the owner it writes is known |
| RepositoryIntegrity.ChannelKeepsSessions | packages/adapters/src/sqlite-repository.ts:1360-1386 | a channel that a session uses is not deleted |
| RepositoryIntegrity.ChannelKeepsOwners | packages/adapters/src/sqlite-repository.ts:1298-1358 | a channel write keeps owners known if and only if the owner it writes is known |
| RepositoryIntegrity.UserKeepsOwned | packages/adapters/src/sqlite-repository.ts:1571-1638 | a user who owns a session or a channel is not deleted |
| RepositoryIntegrity.NodeKeepsBindings | packages/adapters/src/sqlite-repository.ts:1869-1891 | a node that a binding uses is not removed, and revocation keeps binding references |
| RepositoryIntegrity.StepKeepsReferences | packages/adapters/src/sqlite-repository.ts:1017-2272 | one transaction keeps all references if and only if the owner it writes unchecked, if any, is known |
| RepositoryIntegrity.ReferencesNeverDangle | packages/adapters/src/sqlite-repository.ts:1017-2272 | no interleaving of whole transactions by callers that keep owners leaves a dangling reference |
| RepositoryIntegrity.ReferencesHoldThroughout | packages/adapters/src/sqlite-repository.ts:1017-2272 | references hold after every step of a run of whole transactions if and only if every unchecked owner written was known |
| RepositoryIntegrity.ForeignOwnerIsAccepted | packages/adapters/src/repository-invariants.ts:19-30 | a session write that names an unknown owner is accepted, since owners are not compared |
| RepositoryIntegrity.CreationKeepsCertificates | packages/adapters/src/sqlite-repository.ts:1714-1742 | creating a node keeps the certificate table sound unless it registers a revoked node with a certificate |
| RepositoryIntegrity.LocalRegistrationKeepsCertificates | packages/adapters/src/sqlite-repository.ts:1744-1777 | registering the local node keeps the certificate table sound unless it turns a node with a certificate revoked |
| RepositoryIntegrity.StepKeepsCertificates | packages/adapters/src/sqlite-repository.ts:1714-2347 | at most one unrevoked certificate per node and none for a revoked or removed one, kept by each transaction if and only if registrations are usable |
| RepositoryIntegrity.CertificatesStaySound | packages/adapters/src/sqlite-repository.ts:1714-2347 | the same over every run |
| RepositoryIntegrity.RotationSupersedes | packages/application/src/cluster-service.ts:436-454 | after a rotation the new certificate is the only one of its node that the check accepts |
| RepositoryIntegrity.CertificateRowsOnlyGrow | packages/adapters/src/sqlite-repository.ts:2456-2472 | certificate rows are never removed, keep node and fingerprint, and once revoked never change |
| RepositoryIntegrity.RevokedCertificateIsDead | packages/application/src/cluster-service.ts:436-454 | a revoked certificate is never accepted again, over every run |
| RepositoryIntegrity.StepKeepsRevoked | packages/adapters/src/sqlite-repository.ts:1787-1863 | only removal takes a node out of the revoked state, each report taken as one transaction |
| RepositoryIntegrity.RevokedUntilRemoved | packages/adapters/src/sqlite-repository.ts:1787-1891 | the same over every run of whole transactions |
| RepositoryIntegrity.StepKeepsOwner | packages/adapters/src/sqlite-repository.ts:1492-1638 | a transaction leaves an assigned owner if and only if it is not a whole-document write that drops the last one |
| RepositoryIntegrity.OwnerRemains | packages/adapters/src/sqlite-repository.ts:1492-1638 | an assigned owner remains over every run of such transactions |
| RepositoryIntegrity.PendingProviderWaits | packages/adapters/src/sqlite-repository.ts:1017-1064 | a provider marked for deletion keeps its row, gains no dependent, and goes only by its own finalization |
| RepositoryIntegrity.PendingProviderWaitsThroughout | packages/adapters/src/sqlite-repository.ts:1017-1064 | the same over every run of whole transactions, however long the deletion takes to be resumed |
| RevisionFence.StepAdvances | packages/adapters/src/sqlite-repository.ts:2561-2588 | while a row is not deleted each transaction leaves it as it is or raises its revision |
| RevisionFence.RunAdvances | packages/adapters/src/sqlite-repository.ts:2561-2588 | over every run the same revision means the same row |
| RevisionFence.SuspendedSessionWriteIsAtomic | packages/adapters/src/sqlite-repository.ts:1147-1166 | reading, suspending and writing a session is the atomic write at the later moment if and only if what it finds at its revision is the same session; giving up changes nothing |
| RevisionFence.ReportGivesUp | packages/adapters/src/sqlite-repository.ts:1787-1863 | a heartbeat, drain or operational state that is refused on the row read changes nothing and reports that refusal |
| RevisionFence.SuspendedReportIsAtomic | packages/adapters/src/sqlite-repository.ts:1787-1863 | one that goes on is the transaction at the later moment if and only if the row found at its revision agrees with the row read in every field it copies or decides on |
| RevisionFence.SuspendedWritesAreAtomic | packages/adapters/src/sqlite-repository.ts:1147-1863 | so it always is while the row is not deleted between the read and the write |
| RevisionFence.ReportOutlivesRemoval | packages/adapters/src/sqlite-repository.ts:1787-1863 | for every heartbeat, every drain and every operational state there is a run in which it overwrites the node registered after a removal |
| RevisionFence.SessionWriteOutlivesDeletion | packages/adapters/src/sqlite-repository.ts:1147-1166 | a session write can overwrite the session created under the same identifier after a deletion |
| SuspendedWriters.RunIsTransactions | packages/adapters/src/sqlite-repository.ts:1147-1863 | every run with suspended reports and session writes in which no identifier they hold is used again ends as a run of whole transactions does |
| SuspendedWriters.WriteKeepsRevoked | packages/adapters/src/sqlite-repository.ts:1787-1863 | exactly which suspended writes bring a revoked node back: those of an unrevoked row, found at its revision, without a guard on the state |
| SuspendedWriters.StaleHeartbeatRevives | packages/adapters/src/sqlite-repository.ts:1787-1813 | where identifiers are used again, a heartbeat read before revocation, removal and registration anew writes over the revoked row |
| SuspendedWriters.RevokedExactlyWhenFresh | packages/adapters/src/sqlite-repository.ts:1744-1891 | over all runs a revoked node leaves that state by removal only if and only if no node is registered under an identifier a report has read and not yet written |
| SuspendedSessions.HoldThroughoutExactly | packages/adapters/src/sqlite-repository.ts:1147-1166 | with fresh session identifiers references hold after every step, suspended session writes included, if and only if each owner written unchecked was known |
| SuspendedSessions.RunKeepsReferences | packages/adapters/src/sqlite-repository.ts:1147-1166 | over every such run by callers that write the owner they read, no reference dangles |
| SuspendedSessions.ReusedSessionDangles | packages/adapters/src/sqlite-repository.ts:1147-1166 | otherwise a session that is read, deleted and created again over another provider can be written back over a provider by then marked for deletion |
| SuspendedSessions.ReferencesHoldExactlyWhenFresh | packages/application/src/session-service.ts:359 | references hold over all runs by callers that keep owners if and only if no session is created under an identifier that a suspended write still holds |
| SuspendedSessions.ReusedSessionBringsDependent | packages/adapters/src/sqlite-repository.ts:1017-1064 | otherwise the same run gives a provider marked for deletion a dependent again |
| SuspendedSessions.ProvidersWaitExactlyWhenFresh | packages/adapters/src/sqlite-repository.ts:1017-1166 | in every reachable state a marked provider keeps its row, gains no dependent and goes only by its own finalization, if and only if the same condition holds |
| SqliteRepository.Sqlite.CompareAndSetProvider | packages/adapters/src/sqlite-repository.ts:996-1015 | the conditional update and the reason it did not apply, as the transaction on all tables; references and the certificate table stay sound |
| SqliteRepository.Sqlite.ProviderDependencies | packages/adapters/src/sqlite-repository.ts:2508-2524 | whether any session or binding refers to the provider |
| SqliteRepository.Sqlite.BeginProviderDeletion | packages/adapters/src/sqlite-repository.ts:1017-1040 | idempotent marking, refused while there are dependents |
| SqliteRepository.Sqlite.FinalizeProviderDeletion | packages/adapters/src/sqlite-repository.ts:1042-1064 | removal under the revision of the mark, refused while there are dependents, so nothing loses its provider |
| SqliteRepository.Sqlite.CreateProviderBinding | packages/adapters/src/sqlite-repository.ts:2038-2137 | all seven refusals in their order, and the provider created or merged with the binding, so every binding has a live provider and a node |
| SqliteRepository.Sqlite.BeginBindingDeletion | packages/adapters/src/sqlite-repository.ts:2221-2252 | idempotent marking of a binding |
| SqliteRepository.Sqlite.CompareAndSetUserPreservingOwner | packages/adapters/src/sqlite-repository.ts:1492-1532 | a role change that would demote the last owner is refused, so an owner remains |
| SqliteRepository.Sqlite.DeleteUserPreservingOwner | packages/adapters/src/sqlite-repository.ts:1571-1638 | deletion refused for a stale revision, recent activity, the last owner or owned resources, so an owner remains and no reference dangles |
| SqliteRepository.Sqlite.DeleteLiveChannel | packages/adapters/src/sqlite-repository.ts:1360-1386 | a channel is deleted only offline and unused, so no session loses its channel |
| SqliteRepository.Sqlite.EnsureLocalNode | packages/adapters/src/sqlite-repository.ts:1744-1777 | draining and revoked survive a registration, creation time and certificate expiry are kept; the certificate table stays sound exactly when no revoked state is registered beside a certificate |
| SqliteRepository.Sqlite.RevokeNodeCertificates | packages/adapters/src/sqlite-repository.ts:2464-2472 | every unrevoked certificate of the node is revoked, all others are untouched |
| SqliteRepository.Sqlite.RotateNodeCertificate | packages/adapters/src/sqlite-repository.ts:2274-2306 | supersede and insert together, or nothing when the serial number is known, so the certificate table stays sound |
| SqliteRepository.Sqlite.RevokeNode | packages/adapters/src/sqlite-repository.ts:2308-2347 | node, bindings and certificates change in one transaction, so no revoked node keeps an unrevoked certificate |
| SqliteRepository.Sqlite.RemoveNode | packages/adapters/src/sqlite-repository.ts:1869-1891 | only a revoked node without bindings is removed, so no binding loses its node |
| ClusterService.Cluster.RotateNodeCertificate | packages/adapters/src/sqlite-repository.ts:2274-2306 | the rotation transaction some time after the read: applied only to the node as it was read |
| ClusterService.Cluster.ActivateNodeCertificate | packages/application/src/cluster-service.ts:370-395 | success leaves the certificate as the only unrevoked one of a node that is not revoked; giving up needs five changes by others |
| ClusterService.Cluster.Revoke | packages/application/src/cluster-service.ts:401-434 | success leaves the node revoked without an unrevoked certificate |
| ClusterService.Cluster.Heartbeat | packages/application/src/cluster-service.ts:548-574 | a heartbeat is recorded as one transaction although it suspends before its write, a revoked node is left alone, a draining one stays draining |
| ClusterService.Cluster.Remove | packages/application/src/cluster-service.ts:607-622 | a removed node is gone; a refusal means it is not revoked or still in use |
| SegmentJobs.CancelledIsLeftOnlyByRetry | packages/application/src/session-jobs.ts:598-632 | in every history of accepted updates a cancelled job leaves that state only by a manual retry |
| SegmentJobs.CompleteIsLeftOnlyByStart | packages/application/src/session-jobs.ts:634-665 | a complete job leaves that state only by a new start, never by a late failure, cancellation or recovery |
| SegmentJobs.HistoryIsNeverLost | packages/application/src/session-jobs.ts:131-146 | no accepted update loses or rewrites an attempt: the history only grows and an ended attempt keeps its outcome |
| SegmentJobs.FoldAppends | packages/adapters/src/sqlite-repository.ts:1916-1933 | an accepted write extends the sequential application of updates by exactly itself |
| SegmentJobs.JobDocument.CompareAndSet | packages/adapters/src/sqlite-repository.ts:1916-1933 | applied only under the revision read and in an allowed state, with no update in between |
| SegmentJobs.JobDocument.StartJob | packages/application/src/session-jobs.ts:634-665 | one creation or start is accepted, keeping attempts and history, or none and the reason |
| SegmentJobs.JobDocument.TransitionActiveJob | packages/application/src/session-jobs.ts:667-692 | one update of an active job is accepted, or none and the reason |
| SegmentJobs.JobDocument.CompleteJob | packages/application/src/session-jobs.ts:694-726 | one completion is accepted, or the job already is complete, or the reason |
| SegmentJobs.JobDocument.FailJob | packages/application/src/session-jobs.ts:728-757 | one failure is accepted, or the job has already ended |
| SegmentJobs.JobDocument.CancelJob | packages/application/src/session-jobs.ts:229-258 | one cancellation is accepted, or the job has already ended |
| SegmentJobs.JobDocument.RecoverExpiredJob | packages/application/src/session-jobs.ts:186-222 | one requeue is accepted, of a job whose lease had run out when it was written over |
| SegmentJobs.JobDocument.RetryJobTransition | packages/application/src/session-jobs.ts:598-632 | one retry of a failed or cancelled job is accepted, or the reason |
| SegmentAttempts.StepKeepsInv | packages/application/src/session-jobs.ts:413-547 | every step of a runner, an administrator or the sweep keeps the accounts and the runner in step |
| SegmentAttempts.AttemptsAreAccounted | packages/application/src/session-jobs.ts:389-547 | over every run in which crashed attempts are recovered first and renewals are answered in order, at most three attempts between retries, one history entry for each, and at most the last one in progress, only while the job is active |
| SegmentAttempts.EveryHistoryIsAccounted | packages/application/src/session-jobs.ts:413-547 | that from the moment the job does not exist yet |
| SegmentAttempts.RestartOverCrashedAttempt | packages/application/src/session-jobs.ts:634-665 | while a further attempt is possible, a restart keeps the accounts if and only if no attempt was left in progress |
| SegmentAttempts.LateAnswerMiscounts | packages/application/src/session-jobs.ts:395-431 | a renewal answered between attempts keeps the accounts if and only if it carries the count of the copy it replaces |
| SegmentAttempts.LateAnswerIsReachable | packages/application/src/session-jobs.ts:395-484 | a renewal written before an attempt can be answered after that attempt failed |
| SegmentAttempts.StepIsAnAllowedUpdate | packages/application/src/session-jobs.ts:598-757 | each step writes at most one update, in a state that allows it |
| LivePublisher.AcceptedClaimCarriesNewest | packages/application/src/live-service.ts:172-222 | over every run an accepted claim carries the credential most recently issued at that moment |
| LivePublisher.ClaimsAreSeparated | packages/application/src/live-service.ts:172-222 | between two accepted claims the channel was taken offline or a new credential was issued |
| LivePublisher.SlotStaysTaken | packages/application/src/live-service.ts:338-364 | after an accepted claim the slot stays taken until it is freed |
| LivePublisher.ClaimIsGranted | packages/application/src/live-service.ts:172-196 | with distinct tokens the slot is granted exactly to the newest credential while free or being replaced |
| LivePublisher.NewestIsExpected | packages/application/src/live-service.ts:247-257 | the credential a channel expects is the one last issued, through promotion |
| LivePublisher.ChannelDocument.CompareAndSet | packages/adapters/src/sqlite-repository.ts:1345-1358 | applied only to the channel as it was read |
| LivePublisher.ChannelDocument.ReplacePublisher | packages/application/src/live-service.ts:140-170 | one credential is issued, or the channel is gone, or five others came first |
| LivePublisher.ChannelDocument.ClaimPublisherSlot | packages/application/src/live-service.ts:172-222 | one claim is accepted, or a refusal that the stored channel justifies |
| LivePublisher.ChannelDocument.ReconcilePublisherPath | packages/application/src/live-service.ts:338-364 | the stored state follows the published paths, or another writer came first |
| LivePublisher.AuthorizePublish | packages/application/src/live-service.ts:424-477 | a publish request is submitted exactly to the first channel of its path whose token it knows, or admitted as normalized output |
| LoginIdentity.StepKeepsInv | apps/relay/src/auth.ts:286-501 | every sign-in, role change from an earlier read and deletion keeps an owner, and what a sign-in holds is no newer than what is stored |
| LoginIdentity.QueuedRunKeepsOwner | apps/relay/src/auth.ts:459-501 | with the queue an assigned owner remains over every run |
| LoginIdentity.OwnerRemainsExactlyWhenQueued | apps/relay/src/auth.ts:503-519 | an assigned owner always remains if and only if deletions are kept out of sign-ins of the same identity |
| LoginIdentity.UnqueuedLosesOwner | apps/relay/src/auth.ts:459-501 | without the queue a stale sign-in can write back the old roles of the last owner |
| IdentityRefresh.SignInsKeepRoles | apps/relay/src/auth.ts:459-501 | the stored roles are always the last ones assigned: no sign-in undoes them |
| IdentityRefresh.IdentityDocument.RefreshAfterLogin | apps/relay/src/auth.ts:459-501 | the sign-in is recorded once, or a later one was seen, or five others came first |
| OperationQueue.StepKeepsInv | apps/relay/src/auth.ts:503-536 | entering, starting and leaving keep the chain of operations linked |
| OperationQueue.OneAtATimeInOrder | apps/relay/src/auth.ts:503-536 | at most one operation is at work at any time and they start in order of entry |
| OperationQueue.SomebodyMayStart | apps/relay/src/auth.ts:503-536 | when everything before it is released, a waiting operation can start |
| BrowserCredentials.AuthService.Login | apps/relay/src/auth.ts:157-204 | row, secret, session in that order; every state in between is write-ahead, and a failed sign-in leaves no session |
| BrowserCredentials.AuthService.Logout | apps/relay/src/auth.ts:270-282 | the session always goes; only its own row and secret may go with it |
| BrowserCredentials.AuthService.DeletePersisted | apps/relay/src/auth.ts:558-561 | the secret goes before the row that names it |
| BrowserCredentials.AuthService.EndExpiredSessions | apps/relay/src/auth.ts:427-437 | exactly the expired sessions end and live ones keep row and secret |
| BrowserCredentials.AuthService.EraseOrphans | apps/relay/src/auth.ts:438-450 | it throws and erases nothing if a settings row does not parse; else rows without a session are erased, and without faults rows, secrets and sessions then agree |
| BrowserCredentials.AuthService.Cleanup | apps/relay/src/auth.ts:427-450 | expired sessions end even if the rows cannot be read, and live sessions keep everything; if they can, rows, secrets and sessions agree without faults |
| BrowserCredentials.AuthService.Recover | apps/relay/src/auth.ts:452-457 | success leaves no browser secret and no row; a row that does not parse makes it throw before it erases anything |
| BrowserCredentials.AuthService.DeleteUserCredentials | apps/relay/src/auth.ts:371-395 | success leaves no session, row or secret of that identity, and other identities keep theirs, in whatever order the erasures take turns |
| BrowserCredentials.AuthService.EraseTogether | apps/relay/src/auth.ts:379-386 | erasures started at once and interleaved call by call stay write-ahead; success means that all are gone, and nothing else is lost |
| BrowserCredentials.NothingOrphaned | apps/relay/src/auth.ts:427-450 | in a write-ahead state where every row has a session, rows, secrets and sessions coincide |
| BindingCustody.StepKeepsInv | packages/application/src/provider-service.ts:132-259 | each step of binding attempts, deletions and node changes keeps live bindings with their secrets and removals justified |
| BindingCustody.RemovalOnlyAfterCleanup | apps/relay/src/server.ts:373-413 | over every run a binding row goes only once its secret is erased or its orphan was acknowledged |
| BindingCustody.AcknowledgedOnlyForGoneNodes | apps/relay/src/server.ts:390-406 | an orphan is acknowledged only for a node that is revoked or missing |
| BindingCustody.CustodyExactlyWhenDecided | packages/application/src/provider-service.ts:183-246 | every live binding keeps its secret if and only if an exception is raised only once the commit is decided |
| BindingCustody.LateCommitLosesSecret | packages/application/src/provider-service.ts:222-246 | otherwise the cleanup after an exception can erase the secret of a row that appears after it |
| BindingCustody.FinalizeKeepsInv | packages/application/src/cluster-service.ts:482-509 | a finalization round removes under the expected revision or re-enters the idempotent begin |
| BindingCustody.EraseKeepsInv | packages/application/src/provider-service.ts:249-259 | the worker erases only the secret of a binding marked for deletion |
| BindingCustody.InsertKeepsInv | packages/application/src/provider-service.ts:183-221 | an insert, acknowledged or not, adds a row only with its secret in place |
| ProviderCustody.Provider.Create | packages/application/src/provider-service.ts:100-117 | the secret is staged first and kept exactly when the row may name it |
| ProviderCustody.Provider.BeginDeletion | packages/application/src/provider-service.ts:393-406 | idempotent: success means marked or gone |
| ProviderCustody.Provider.FinalizeDeletion | packages/application/src/provider-service.ts:408-427 | a lost acknowledgement is resolved by re-entering begin; without faults the row goes |
| ProviderCustody.Provider.Delete | packages/application/src/provider-service.ts:123-130 | from every state an earlier attempt left, a request without faults ends with row and secret gone, or refuses while something depends on the provider |
| ProviderCustody.DeleteUntilDone | packages/application/src/provider-service.ts:123-130 | after any number of failing requests the first one without faults finishes the deletion |
| Coordination.OneHolderAtATime | packages/adapters/src/local-infrastructure.ts:177-193 | at any instant a key belongs to at most one tenure |
| Coordination.GrantRecorded | packages/adapters/src/local-infrastructure.ts:177-182 | a grant continues the tenure of the same owner or starts after the last one ended |
| Coordination.LeaseTable.Acquire | packages/adapters/src/local-infrastructure.ts:177-182 | granted exactly when the key is free, expired or already owned at the moment asked, and tenures stay disjoint |
| Coordination.LeaseTable.Renew | packages/adapters/src/local-infrastructure.ts:184-189 | extends exactly a lease still held; a failed renewal extends nothing |
| Coordination.LeaseTable.Release | packages/adapters/src/local-infrastructure.ts:191-193 | ends only the own lease of the caller |
| Coordination.FaithfulPruned | packages/adapters/src/local-infrastructure.ts:332-337 | pruning what left the window keeps the count equal to that over the full history |
| Coordination.FaithfulRecorded | packages/adapters/src/local-infrastructure.ts:213-230 | recording an observation keeps every pruned entry exact |
| Coordination.EdgeWithinTotal | packages/adapters/src/local-infrastructure.ts:213-230 | an edge never counts more viewers than the session |
| Coordination.ViewerWindows.PruneViewers | packages/adapters/src/local-infrastructure.ts:332-337 | exactly the entries past the cutoff go |
| Coordination.ViewerWindows.RecordViewer | packages/adapters/src/local-infrastructure.ts:213-230 | both counts are the distinct viewers last observed within the window, over the whole history |
| Coordination.ViewerWindows.CountViewers | packages/adapters/src/local-infrastructure.ts:232-242 | the same without a new observation |
| CacheEviction.ByAgeSorts | packages/application/src/session-cache.ts:250-252 | the order of eviction is a permutation of the files, oldest first |
| CacheEviction.CandidatesExactly | packages/application/src/session-cache.ts:240-254 | the candidates are exactly the unprotected files within their time to live |
| CacheEviction.KeptFiles | packages/application/src/session-cache.ts:234-256 | a protected file is never removed, none past its time to live is kept unprotected, and younger files go after older ones |
| CacheEviction.NeededExactly | packages/application/src/session-cache.ts:248-259 | the number of evicted files is the only one that meets the limit, or exhausts the candidates, with every file going while the total still exceeded it |
| CacheEviction.Cache.RemoveExpired | packages/application/src/session-cache.ts:216-242 | exactly the expired unprotected files go |
| CacheEviction.Cache.RemoveOldest | packages/application/src/session-cache.ts:248-259 | exactly the first candidates needed to meet the limit go, in order |
| CacheEviction.Cache.CleanupExpired | packages/application/src/session-cache.ts:209-263 | what is left is exactly what is not expired and not among the first candidates needed to meet the limit |
| PlaybackTracker.MovesToEnd | apps/relay/src/request-logging.ts:105-115 | deleting and setting a client again keeps the table the most recent end of all observations |
| PlaybackTracker.Tracker.Prune | apps/relay/src/request-logging.ts:126-139 | only the oldest end goes, each entry out of retention or while the table is full |
| PlaybackTracker.Tracker.Observe | apps/relay/src/request-logging.ts:40-124 | the table holds the most recently observed clients in order and never more than 10,000; the idle time is that of the tracked client |
| Migrations.Database.ValidateDefinitions | packages/adapters/src/sqlite-repository.ts:671-682 | definitions are accepted exactly when contiguous, complete and unchanged |
| Migrations.Database.ValidateHistory | packages/adapters/src/sqlite-repository.ts:712-734 | a record is accepted exactly when it is a contiguous matching prefix of the build |
| Migrations.Database.NameLegacy | packages/adapters/src/sqlite-repository.ts:750-758 | entries from before the metadata columns get the names and checksums of the build |
| Migrations.Database.ApplyMigration | packages/adapters/src/sqlite-repository.ts:747-769 | one missing migration takes effect once and is recorded |
| Migrations.Database.ApplyMissing | packages/adapters/src/sqlite-repository.ts:747-769 | each missing migration takes effect once, in order; it fails exactly when one of them is rejected |
| Migrations.Database.RunMigrations | packages/adapters/src/sqlite-repository.ts:773-785 | succeeds exactly for a valid record whose missing statements execute, and otherwise changes nothing |
| Migrations.Database.RunTwice | packages/adapters/src/sqlite-repository.ts:773-785 | a second call finds a full record and changes nothing |
| Migrations.LegacyPrefixMigrates | packages/adapters/src/sqlite-repository.ts:712-785 | a record without names is migrated exactly when it ends before the migration that records them and the missing statements execute |
| Migrations.EarlyMetadataIsRejected | packages/adapters/src/sqlite-repository.ts:712-745 | metadata columns without the migration that adds them pass validation and fail in that migration |

## Left out

- Sockets, TLS, timers as operating-system objects, FFmpeg, MediaMTX, Jellyfin, cloud stores and keychains: foreign calls, kept only as "may succeed, fail, or commit and then fail".
- Cryptography: signing gives fresh numbers and hashing is the identity on them.
- The PostgreSQL repository and the Valkey coordination store: same contracts by other means, with small differences, so nothing here is claimed of them.
- Routes, configuration, schemas, redaction, audit wording, metrics, events and log rows: no state the properties depend on.
- Ranking of remote candidates and of edges: an attempt names an arbitrary node.
- Fencing of job writes by the lease owner: the code checks state and revision only, so a runner that lost its lease can still write; the accounts are claimed for one runner at a time.
- The drain state as the last administrator command: it is read before the heartbeat write, so it is not guaranteed.
- Timestamps and display fields that no branch reads; `(provider, user)` uniqueness of identities, which the identity's identifier already encodes.
- Expiry of certificates inside the rotation machine: `RepositoryIntegrity.CertificateIsActive` has it, the machine treats the listed certificate as unexpired.
- RotationAttempts.ActiveCertificateIsTried: a restart of the node's process between the two attempts starts the count again, as it forgets which slot was tried.
- RotationSafety.SoundNeverLocksOut: for sound deployments, whose conditions on timing the code does not enforce; `RotationLockouts.LockoutFreedom` says that each is needed.
- RepositoryIntegrity.ReferencesNeverDangle: takes session writes as whole transactions; `SuspendedSessions.RunKeepsReferences` and `SuspendedSessions.ReferencesHoldExactlyWhenFresh` are the statements about suspended ones.
- RepositoryIntegrity.ReferencesHoldThroughout: the same; `SuspendedSessions.HoldThroughoutExactly` is the statement about suspended ones.
- RepositoryIntegrity.PendingProviderWaitsThroughout: the same; `SuspendedSessions.ProvidersWaitExactlyWhenFresh` is the statement about suspended ones.
- RepositoryIntegrity.RevokedUntilRemoved: takes each heartbeat, drain and operational state as one transaction; `SuspendedWriters.RevokedExactlyWhenFresh` is the statement about the code's suspended ones.
- RepositoryIntegrity.StepKeepsRevoked: the same.
- ClusterService.Cluster.Heartbeat: while the repository's write is outstanding no node is created under an identifier in use, the condition of `SuspendedWriters.RevokedExactlyWhenFresh`.
- `setSessionViewers`: a second read in front of the session write of `RevisionFence`, fenced by the same revision.
- SegmentJobs.JobDocument.RecoverExpiredJob: models one listed job; the sweep calls it for each of up to a thousand jobs and counts.
- SegmentAttempts.AttemptsAreAccounted: needs renewals answered in order; the code does not see to that, and `LateAnswerMiscounts` says what follows.
- LivePublisher.ChannelDocument.ReconcilePublisherPath: models one listed channel and its state; starting and stopping the normalizer is left out.
- LivePublisher.AuthorizePublish: models the publish action; read and playback actions compare a fixed token.
- BrowserCredentials.AuthService.DeleteUserCredentials: waits for every erasure; the code stops waiting at the first failure and lets the others end beside the next operation.
- BrowserCredentials.AuthService.EraseTogether: the same.
- ProviderCustody.Provider.Create: an exception whose outcome cannot be read back leaves the staged secret behind, as in the code; `Delete` therefore starts from states in which a missing row has no secret.
- ProviderCustody.Provider.Delete: one request at a time; that no dependent appears meanwhile is `RepositoryIntegrity.PendingProviderWaits`.
- BindingCustody.StepKeepsInv: a binding identifier that was removed is not bound again, as identifiers are drawn at random for each request; the bound on finalization rounds is a flow that dies.
- IdentityRefresh.IdentityDocument.RefreshAfterLogin: the identity is not deleted during the loop, which `LoginIdentity` and the queue see to.
- CacheEviction.Cache.RemoveExpired: files that vanish during the walk and object-reference files are left out.
- CacheEviction.Cache.CleanupExpired: files that vanish during the walk, failing removals and object-reference files are left out; the walk is given as the sequence of files it finds.
- PlaybackTracker.Tracker.Observe: the classification of seeks and resumptions is left out.
- Coordination.ViewerWindows.RecordViewer: needs observation times that do not decrease and one window, as the property does.
- Migrations.Database.RunMigrations: the backup before a migration and the inspection of table shapes are left out; statements either take effect or raise.
- Segment demands, VOD producers, profiles, personal tokens and job logs: further members of the same kinds.
- Settings rows as a table of the repository: `BrowserCredentials` keeps its own.
