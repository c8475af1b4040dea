# Quorapay: a verified model of the replicated payment ledger

Quorapay keeps a ledger of payments on several nodes. A leader, elected through
ZooKeeper, appends each payment to its own ledger and to its followers, and
commits or cancels it once a majority acknowledged; followers that missed
messages catch up from the leader. This project models that machinery in Dafny
and proves what it guarantees in every interleaving, and shows by concrete runs
what it does not.

## How the model is laid out

- `Replication.dfy`, `Storage.dfy`: entries, statuses, and the SQLite table as a
  map keyed by payment id. The class `SQLiteStore` has the source's operations;
  each is proved equal to a function on tables, and the properties are proved
  about those functions. Database failures are parameters (`Db`).
- `Quorum.dfy`: one replication call, from the local append to the finalize
  messages, as methods with the source's loops; counting acknowledgements; what a
  quorum is worth.
- `Counters.dfy`: the versioned counter registers and the compare-and-set loops,
  with the other writers as interference.
- `Cluster.dfy`: the whole cluster as a state machine. Every SQL statement,
  register access and message is one atomic step, steps are taken in any order, any
  node may act as leader at any time, calls may die anywhere, and messages may be
  lost, delayed, duplicated and reordered. A finalizer is two steps, its guarded
  UPDATE and its report.
- `ClusterInvariants.dfy`, `ClusterTheorems.dfy`: the invariants every step keeps,
  and the theorems over all runs.
- `Answers.dfy`: what a call must answer, step by step and over runs, and what it must
  leave in its row.
- `Agreement.dfy`: the nodes agree exactly when the run's deciding steps do; agreement
  under one leader, and across leaders under conditions on each handover.
- `Handover.dfy`: which handovers are safe, exactly, as a condition on the state at the
  handover.
- `Runs.dfy`, `Limits.dfy`: building runs step by step; runs in which leaders disagree
  when either condition is missing, and in which a blank payment id is paid twice.
- `CatchUp.dfy`, `Rounds.dfy`, `LiveCatchUp.dfy`, `Paging.dfy`: follower catch-up; when
  it converges, in one round, over runs in which the leader acts between any two turns
  of the follower's loop, and in the cluster, where the follower also hears its leader;
  and paging.
- `FollowerHandlers.dfy`: the follower's append handler.
- `Refinement.dfy`: the sequential handlers, the announcements and the pay handler's own
  FAILED mark are runs of the cluster's steps.
- `Recovery.dfy`, `Lease.dfy`: the fault-state machine with its three threads, and
  the leader lease with its separate create, stamp and delete steps.
- `Lamport.dfy`, `Ordering.dfy`: logical clocks over multi-node runs and the order on
  events.

Where code and intent part, the model follows the code:

- A node can enter REJOINED on a read from before a lost session
  (`RejoinedCanBeStale`), and only so (`RejoinedIsHonestIff`); HEALTHY is honest
  nevertheless.
- The follower list is not checked for duplicates, and a quorum counted over a list
  with duplicates need not be a majority (`DuplicatesBreakTheMajority`);
  `QuorumsAreMajoritiesIff` says for which lists it is.
- `lockPaymentID` takes no lock for an id of spaces, which request validation lets
  through (`BlankIdsCanBePaidTwice`); every other id is safe, and no blank one is
  (`NeverPaidTwiceIffNotBlank`).
- Two leaders can finalize one payment differently although each has a majority,
  because followers never compare terms: when the new leader has not heard of a
  decision (`LeadersCanDisagree`), or when an old call can still decide
  (`UndecidedCallBreaksAgreement`). Once the old calls are concluded, a handover is safe
  exactly when the new leader has every final status, save that for a CANCELED payment
  it may still be PENDING (`HandOverIsSafeIff`); old messages and announcements do no
  harm.
- A pay call on a PENDING payment is refused with the advice to retry, and every retry
  is refused too, until a new cancel (`PendingPaymentIsStuck`).
- Catch-up starts from the greatest finalized index, so a payment finalized below it,
  or skipped after a failed database call, is never sent again (`GapsStay`,
  `LateCommitIsLost`); convergence holds exactly when no event left one behind
  (`ConvergesIffNoGapOpened`).
- Paging skips rows when two share an index; it is lossless for every page size
  exactly when none do, which every reachable ledger satisfies.
- A mark made while a node is FAILED survives a further session loss, since a transition
  to the same state changes the reason only (`SessionLossFails`); the next session clears
  it.
- In AppendPending the branch for an empty status is dead, since validation rejects it.

## Model

| member | source | states |
|---|---|---|
| Replication.TrimSpaceCuts | internal/api/http.go:695-699 | trimming cuts off white space at both ends and nothing else, and gives the empty text iff there is nothing but white space |
| Storage.SQLiteStore.AppendPending | internal/storage/sqlite.go:110-150 | exactly when it succeeds, finds a duplicate or rejects the entry; a new row holds every field of the entry, PENDING, with the leader as receiver when that is blank; no other row changes, and none at all on an error |
| Storage.SQLiteStore.SetStatus | internal/storage/sqlite.go:152-237 | the only change is a PENDING row of the payment, when the statement runs; exactly when it succeeds and when it reports not found, for every failing call |
| Storage.SQLiteStore.CommitByPaymentID | internal/storage/sqlite.go:152-179 | success implies the row is COMMITTED; the table moves by the guarded update alone |
| Storage.SQLiteStore.FailByPaymentID | internal/storage/sqlite.go:181-208 | success implies the row is FAILED; the table moves by the guarded update alone |
| Storage.SQLiteStore.CancelByPaymentID | internal/storage/sqlite.go:210-237 | success implies the row is CANCELED; the table moves by the guarded update alone |
| Storage.SQLiteStore.ExistsByPaymentID | internal/storage/sqlite.go:268-278 | true exactly for payments with a row |
| Storage.SQLiteStore.ListFinalizedAfter | internal/storage/sqlite.go:320-357 | exactly the finalized rows above the index, each once, by ascending index and then ascending row id |
| Storage.OrderRows | internal/storage/sqlite.go:322-326 | the ordered sequence of any set of rows with distinct ids |
| Storage.ListingIsUnique | internal/storage/sqlite.go:320-357 | the contents and the order together determine the listing |
| Storage.InsertExtends | internal/storage/sqlite.go:127-147 | an insert keeps every row and the table's well-formedness, and leaves the payment present |
| Storage.UpdateExtends | internal/storage/sqlite.go:153-157 | a guarded update loses no row, changes no payload, never leaves a terminal status, and leaves no pending row behind |
| Storage.ReportIsExactUnderInterleaving | internal/storage/sqlite.go:152-179 | whatever runs between a finalizer's UPDATE and its query, it reports success iff the row it reads has its status |
| Storage.FirstFinalizerWins | internal/storage/sqlite.go:110-237 | after any sequence of operations a payment has a row iff one could create it; every field is that of the first such append, the status that of the first finalizer after it |
| Storage.FinalizerReportsTheOutcome | internal/storage/sqlite.go:152-237 | after any history a finalizer succeeds exactly when the resulting status is its target |
| Quorum.AckedMember | internal/replication/service.go:143-150 | the followers counted are exactly those whose result on the channel is an acknowledgement |
| Quorum.TallyIgnoresOrder | internal/replication/service.go:116-150 | any permutation of the results channel gives the same acknowledgements |
| Quorum.FlagsAreAcks | internal/replication/service.go:143-150 | one result per listed follower, in order, its append flag set iff its result on the channel is an acknowledgement, and the flags are the acknowledgements that were counted |
| Quorum.Tally | internal/replication/service.go:143-150 | AckCount is one plus the number of distinct acknowledging followers, and each follower's flag says whether it is one |
| Quorum.Announce | internal/replication/service.go:167-184 | every follower is sent exactly one finalize message, in order, and is flagged iff it replied with success |
| Quorum.ReplicationService.AppendLocally | internal/replication/service.go:88-96 | the local append counts as done iff it succeeded or the payment is known to exist |
| Quorum.ReplicationService.Replicate | internal/replication/service.go:57-187 | the whole result, error, ledger and messages: no finalize message unless the quorum was reached and the local update succeeded; QuorumReached iff AckCount reaches n/2+1; which error for which failure |
| Quorum.AppendOrFindExtends | internal/replication/service.go:88-96 | the local append counts iff the payment is new and the INSERT runs, or it is there and the lookup works; it loses nothing and leaves a present row alone |
| Quorum.CourseStages | internal/replication/service.go:65-161 | exactly when a call is rejected, not appended, without a quorum, or decided, for every failing call |
| Quorum.CourseIsSafe | internal/replication/service.go:88-161 | a decided call had its quorum and holds its status; a call without one finalizes nothing |
| Quorum.HealthyCourseIsExact | internal/replication/service.go:88-161 | on a healthy store a call with a quorum leaves its row terminal, and is decided iff that is its own status |
| Quorum.AddressedSize | internal/replication/service.go:71-72 | over a list without duplicates the addressed nodes number one plus the followers |
| Quorum.QuorumsAreMajoritiesIff | internal/replication/service.go:71-72 | every quorum over a follower list is more than half of the distinct nodes addressed iff no group of half of them or fewer is listed often enough to pass, for every list |
| Quorum.DistinctListsAreSafe | internal/coordination/manager.go:143-161 | a list without duplicates, and without the caller, lets no minority pass |
| Quorum.QuorumsIntersect | internal/replication/service.go:152-155 | two quorums over the same nodes, whoever calls and in whatever order, share a node, for all lists that let no minority pass |
| Quorum.DuplicatesBreakTheMajority | internal/coordination/manager.go:143-161 | any list with one node three times among five entries lets two of four nodes pass for a quorum |
| Quorum.DuplicatesCanBeSafe | internal/coordination/manager.go:143-161 | a list of one other node, twice, has a duplicate and yet lets no minority pass |
| Counters.NextIndexIsNextOrRejected | internal/api/http.go:611-618 | head plus one in int64 is the next index except at the last int64, where it is not above the head |
| Counters.CounterNode.AdvanceLogHead | internal/coordination/counters.go:111-144 | under arbitrary interference by other writers it writes once onto the register it saw, strictly raising it, or fails because it was overtaken; it loops at most its initial distance plus one times |
| Counters.CounterNode.BumpTerm | internal/coordination/counters.go:86-109 | the term returned is one more than all bumps before it, in int64, after exactly as many retries as races were lost |
| ClusterInvariants.StepKeepsInv | internal/api/http.go:592-692 | every step of the cluster keeps all invariants and takes nothing back: rows, payloads, terminal statuses, indices, acknowledgements |
| ClusterInvariants.StepKeepsIndices | internal/coordination/counters.go:120-143 | index assignment stays a bijection between calls and 1..head under every interleaving of the three register accesses |
| ClusterInvariants.StepKeepsNet | internal/replication/service.go:157-168 | every message ever sent stays true of its sender, however late it arrives |
| ClusterInvariants.StepKeepsJustifications | internal/replication/service.go:152-161 | a status becomes terminal only by a decided call, its relay or a catch-up copy of it |
| ClusterInvariants.StepKeepsLocks | internal/api/http.go:695-711 | pay calls that share a lock never overlap, and none passes admission once one succeeded |
| ClusterInvariants.RunGrows | internal/storage/sqlite.go:152-237 | any later state of a run extends any earlier one |
| ClusterTheorems.EveryFinalizationIsJustified | internal/replication/service.go:152-161 | any COMMITTED or CANCELED row on any node goes back to a call of that kind whose quorum, a majority unless its list lets a minority pass, hold the payment, and whose own row has that status |
| ClusterTheorems.MajorityDurability | internal/replication/service.go:143-155 | after Committed the quorum, a majority of the addressed nodes unless the list lets a minority pass, hold the payment forever, and every flagged follower and the caller have the status |
| ClusterTheorems.SuccessesMeet | internal/replication/service.go:71-72 | two successful calls over the same nodes leave a node holding both payments |
| ClusterTheorems.OkIsForever | internal/api/http.go:592-600 | an OK answer is true of the answering node's row in every later state |
| ClusterTheorems.PayAndCancelNeverBothSucceed | internal/api/http.go:341-410 | on one node no payment gets both an OK pay and an OK cancel answer, although cancel takes no lock |
| Answers.AdmissionTable | internal/api/http.go:341-360 | for every row a call can meet, whether it is answered OK, refused, or goes on, and that nothing else changes |
| Answers.RetryIsAnsweredOk | internal/api/http.go:592-600 | a call on a payment that already has its status takes no index, asks nobody, and is answered OK unless it dies |
| Answers.StepAnswers | internal/api/http.go:643-692 | past admission, which step gives which answer, and that a payment that misses its quorum or a local call goes on to mark itself FAILED |
| Answers.OnlyDeathLeavesNoAnswer | internal/api/http.go:643-692 | in every run only a call that dies ends without an answer |
| Answers.CleanPaymentsAreSettled | internal/api/http.go:643-669 | a pay call that got an index, did not die and had no failing database call leaves its row terminal for good |
| Answers.NoQuorumMeansFailed | internal/api/http.go:658-669 | a pay call that got an index, did not die and has no quorum ends marked FAILED |
| Answers.MarkedRowsAreFailed | internal/api/http.go:643-669 | the row is FAILED for good if the mark met it PENDING |
| Answers.QuorumIsCountedLast | internal/replication/service.go:143-155 | a call that counts its quorum as reached has heard from every follower |
| Answers.EveryFollowerIsTold | internal/replication/service.go:166-184 | a call that answers OK has told each follower, one by one |
| Answers.PayCallsExclude | internal/api/http.go:695-711 | pay calls on one node whose ids differ in surrounding white space at most, and are not blank, never run at once |
| ClusterTheorems.PaidAtMostOnce | internal/api/http.go:519-521 | per node a payment with a non-blank id is replicated by at most one pay call |
| ClusterTheorems.SettledPaymentsAreLeftAlone | internal/api/http.go:592-609 | a call that starts on a settled payment never takes an index, asks no follower and is never replicated, and is answered OK only if the payment has its status |
| ClusterTheorems.PendingPaymentIsStuck | internal/api/http.go:601-603 | while a payment is PENDING on its node, final nowhere, and without a call past admission, and no new cancel or other node's call on it comes, it stays so, and every new pay call on it is refused or dies |
| ClusterTheorems.IndicesAreIssuedOnce | internal/coordination/counters.go:111-144 | no two calls on any nodes share an index, and the indices are 1..head without a gap |
| ClusterTheorems.HeadRisesByOne | internal/coordination/counters.go:134-142 | the head never falls, moves only by a successful Set and then by exactly one; other writers leave or raise it |
| ClusterTheorems.OneIndexOnePayment | internal/api/handlers.go:361-371 | any two rows on any nodes with one index are for one payment, catch-up copies included |
| ClusterTheorems.ReachableIndicesAreFree | internal/api/http.go:611-618 | no finalized row of a node shares its index with a row still pending there |
| ClusterTheorems.ReachableLedgersPageLosslessly | internal/api/handlers.go:343-385 | every ledger of every run pages losslessly for every page size |
| Agreement.SingleLeaderAgreement | internal/replication/service.go:157-184 | under one leader, any terminal status on any node is the leader's, in every interleaving, with any message loss, delay, duplication or reordering, and whoever serves catch-up |
| Agreement.NodesAgreeIffDecisionsDo | internal/api/handlers.go:193-283 | in every run with any number of leaders, no two nodes disagree at the end iff no two of the run's steps in which a call's own UPDATE took effect decided a payment differently |
| Agreement.TerminalWasDecided | internal/replication/service.go:157-161 | every terminal row on any node goes back to a step of the run in which a call's own UPDATE made a PENDING row that status |
| Agreement.AgreementAcrossLeaders | internal/replication/service.go:157-184 | over any number of handovers to nodes that know enough of what is final, with no call elsewhere that can still decide, no two nodes ever disagree, whatever old messages and announcements are outstanding |
| Handover.HandOverIsSafeIff | internal/api/http.go:592-609 | once every call is concluded, no continuation whose new calls start at one node ever makes two nodes disagree iff, for each payment final somewhere, that node has the same status, or is PENDING where the status is CANCELED |
| Handover.HandOverSuffices | internal/api/http.go:601-602 | the same safety when calls of the new leader are under way, unless one of them may pay a payment that is PENDING there and CANCELED elsewhere |
| Handover.HandOverNeedsKnowledge | internal/api/http.go:397-401 | in any state of a run, whatever calls are under way, a leader without that knowledge has a continuation that ends in disagreement |
| Agreement.StepKeepsKnowledge | internal/api/handlers.go:193-283 | a leader's step leaves no node with a terminal status the leader does not have |
| Agreement.StepKeepsHandOver | internal/api/http.go:592-609 | every step under a leader that knows enough leaves it knowing enough |
| Limits.LeadersCanDisagree | internal/api/handlers.go:67-191 | a run in which the old call is settled but the new leader has not heard of it: each with two of three nodes, they commit and cancel one payment |
| Limits.UndecidedCallBreaksAgreement | internal/replication/service.go:157-161 | a run in which the new leader knows everything but an old call can still decide, with the same end |
| Limits.BlankIdsCanBePaidTwice | internal/api/http.go:695-699 | for every blank id, a run in which two pay calls on one node are both replicated, under different indices |
| Limits.NeverPaidTwiceIffNotBlank | internal/api/http.go:695-711 | a payment is never paid twice on one node, in any run, iff its id is empty, which is rejected, or not blank |
| CatchUp.TransferKeepsRows | internal/api/handlers.go:352-372 | sending a finalized row and inserting and finalizing it again gives the same row |
| CatchUp.ApplyEntries | cmd/quorapay-node/main.go:172-209 | the ledger after the apply loop and its applied count, with any database failures |
| CatchUp.TurnCounts | cmd/quorapay-node/main.go:179-208 | a turn counts as applied iff the calls that decide it worked and the payment ends with the entry's status |
| CatchUp.AttemptApproachesGoal | cmd/quorapay-node/main.go:173-209 | an attempt, failed or not, moves its payment towards one fixed row and touches no other |
| CatchUp.AttemptsReachGoals | cmd/quorapay-node/main.go:172-209 | after any attempts at a response each payment soundly tried once is at its fixed row, and payments outside it are untouched |
| CatchUp.CatchUpIsConfluent | cmd/quorapay-node/main.go:172-209 | any order, repetition, interruption and failure leaves the same rows once every entry was soundly tried |
| CatchUp.ReadLocalCommittedHead | cmd/quorapay-node/main.go:216-233 | the greatest finalized index, zero if none is above it |
| CatchUp.AttemptsSetFinals | cmd/quorapay-node/main.go:172-209 | after any attempts at the leader's answer, failed, repeated, reordered or cut off, exactly the payments for which both statements ran have become final |
| CatchUp.PullSetsFinals | cmd/quorapay-node/main.go:153-209 | payment by payment, which status an error-free round leaves on the follower |
| CatchUp.OneRoundConverges | cmd/quorapay-node/main.go:153-209 | one error-free round makes the finals equal iff the follower knew nothing else final and had no gap below its head |
| LiveCatchUp.RoundIsARun | cmd/quorapay-node/main.go:153-209 | from any state of a run, an error-free round of one node from another is a continuation that leaves exactly what a round leaves and touches no other ledger |
| LiveCatchUp.LiveFollowerConvergesIff | cmd/quorapay-node/main.go:153-209 | in every run of the cluster under one leader, whatever happened to messages, the next error-free round makes a node's finals its leader's iff the node has no gap |
| LiveCatchUp.LostMessageOpensGap | internal/replication/service.go:166-184 | for any two payments, a run with one leader and no failed call in which a lost finalize message below a delivered one leaves a gap |
| Rounds.StepMovesGap | cmd/quorapay-node/main.go:173-209 | an appended or finalized payment, a new round, or one turn of the loop, failed or not, leaves a gap iff there was one or the event leaves a payment behind |
| Rounds.ConvergesIffNoGapOpened | cmd/quorapay-node/main.go:137-213 | for every interleaving of appends, finalizations in any order, turns of the loop, failed database calls and crashes, the next error-free round makes the finals equal iff no event left a payment behind |
| Rounds.EveryRoundConverges | cmd/quorapay-node/main.go:137-213 | with in-order finalization, and nothing applied past an entry of the same answer that failed, every error-free round makes the finals equal |
| Rounds.RoundLeavesNoGapIff | cmd/quorapay-node/main.go:173-206 | a round with any failures, repetitions or interruption leaves no gap iff it tried no entry soundly above one that it did not |
| Rounds.GapsStay | cmd/quorapay-node/main.go:226-232 | a payment at or below the follower's head is untouched by any round, and the head does not go back |
| Rounds.LateCommitIsLost | cmd/quorapay-node/main.go:226-232 | for any two payments, a run without a failed call in which the follower never hears of the earlier one, because it was committed later |
| Paging.InternalCatchUp | internal/api/handlers.go:343-385 | the page, HasMore and TotalAvailable for every limit, zero meaning none |
| Paging.PageMeans | internal/api/handlers.go:374-385 | a page is a prefix of all there is, all or exactly the limit; HasMore iff something is missing; TotalAvailable counts it all |
| Paging.ListingIsSuffix | internal/storage/sqlite.go:320-326 | a listing from a later index is a suffix of the earlier listing, cut where the index is passed |
| Paging.LastIndex | internal/api/handlers.go:374-378 | while HasMore holds, asking from the last index given leaves strictly fewer rows |
| Paging.PagesAreLossless | internal/api/handlers.go:374-378 | with distinct indices the pages are the full list, each row once and in order |
| Paging.OnePerIndexIsEnough | internal/api/handlers.go:316-385 | a table with one payment per index lists distinct indices |
| Paging.PagingIsLosslessIffIndicesDiffer | internal/api/handlers.go:316-385 | paging is lossless for every page size iff no two listed rows share an index |
| FollowerHandlers.Follower.InternalAppend | internal/api/handlers.go:82-190 | success iff there are entries and every one passes, whether or not its row exists, and then the last entry's index; clock, ledger and last index wherever it stops |
| FollowerHandlers.HandleOutcome | internal/api/handlers.go:93-189 | an entry passes iff the checks and the append allow it, on any follower; a payment that is there is acknowledged and left alone |
| FollowerHandlers.HandleReceives | internal/api/handlers.go:164-165 | the clock ends just above the greater of its old value and the entry's |
| FollowerHandlers.HandleStores | internal/api/handlers.go:165-167 | a new row holds what the entry carried, and the time of its receipt |
| FollowerHandlers.RequestStopsAt | internal/api/handlers.go:93-183 | a request stops at its first entry that does not pass, keeps what came before, and reports the index before it or zero |
| FollowerHandlers.RequestExtends | internal/api/handlers.go:92-183 | whatever the outcome, no row is lost or changed |
| FollowerHandlers.SuccessMeansPresent | internal/api/handlers.go:167-190 | success means that every entry's payment has a row |
| FollowerHandlers.OnlyNamedRowsAppear | internal/api/handlers.go:92-183 | no row appears that the request does not name |
| Refinement.HandlerIsFollowerAppend | internal/api/handlers.go:164-189 | handling a leader's entry is the cluster's follower step or nothing; it is acknowledged iff it passes, and then was the former |
| Refinement.LoopTurnIsCatchUp | cmd/quorapay-node/main.go:173-209 | from any state of a run, a turn of the apply loop, whichever calls fail, is a continuation of at most two catch-up steps that ends in the ledger the turn leaves and changes nothing else |
| Refinement.CallIsARun | internal/replication/service.go:88-161 | from any state of a run, a replication call, whoever acknowledges, in whatever order, and whichever calls fail, is a continuation of enabled steps that ends in the ledger the call leaves and the phase its stage stands for |
| Refinement.UndecidedPayIsARun | internal/api/http.go:643-669 | a payment that stops short of a decision continues to its FAILED mark, and ends with the ledger that the mark leaves |
| Refinement.UnansweredPaymentFails | internal/api/http.go:658-669 | a new payment without a quorum, on a healthy store, ends FAILED |
| Refinement.AnnouncementsAreARun | internal/replication/service.go:166-187 | for any followers that confirm, as far as their rows let them, a successful call continues to its OK with exactly their flags set |
| Recovery.Manager.SetFaultState | internal/coordination/status.go:43-103 | success for exactly the listed transitions; every field after a transition; no change on failure, and only the reason within a state |
| Recovery.SessionLossFails | internal/coordination/manager.go:227-240 | a lost session fails the node from every state and takes its mark, unless it had failed already |
| Recovery.SessionStartsRecovery | internal/coordination/manager.go:222-226 | a new session leads to RECOVERING without a mark from HEALTHY and FAILED, and leaves RECOVERING and REJOINED |
| Recovery.PassMovesOn | internal/coordination/manager.go:306-325 | an undisturbed reconcile moves a marked node one state on, marks a leader first, and leaves all others |
| Recovery.RecoveryCompletes | internal/coordination/manager.go:306-325 | with a mark, or as leader, two undisturbed reconciles lead from RECOVERING to HEALTHY |
| Recovery.Manager.MarkRecoveryCaughtUp | internal/coordination/manager.go:81-88 | the shared flag is up afterwards, the fault state is as it was, the derived fields still say what it says, and the reason changes during recovery only |
| Recovery.Manager.MarkRecoveryCatchUpFailed | internal/coordination/manager.go:91-97 | nothing but the reason changes, and outside recovery nothing at all |
| Recovery.StepKeepsInv | internal/coordination/manager.go:306-325 | after reading REJOINED with the mark, a node still in REJOINED still has the mark |
| Recovery.FlagIsExact | internal/coordination/status.go:87-89 | in every interleaving the flag is up iff the node was marked since it last entered RECOVERING or FAILED |
| Recovery.HealthyIsHonest | internal/coordination/manager.go:306-325 | a node enters HEALTHY only if it was marked since its last entry into RECOVERING or FAILED |
| Recovery.RejoinedIsHonestIff | internal/coordination/manager.go:306-320 | an entry into REJOINED is backed by a mark iff, since the reading reconcile acts on, the node has not relapsed without being marked again |
| Recovery.RejoinedCanBeStale | internal/coordination/manager.go:306-320 | a run that enters REJOINED without a mark since the last loss |
| Lease.LeaseExclusion | internal/coordination/lease.go:90-111 | at any instant at most one instance passes the check, even among equal node ids, and it created the node it holds |
| Lease.FencingTerms | internal/coordination/lease.go:45-74 | terms rise in the order of counter writes, and won elections have distinct terms, while the counter has not wrapped |
| Lease.TermZeroIffUnstamped | internal/coordination/lease.go:32-71 | a lease shows term zero iff it was not overwritten since its creation; once overwritten it names the winner of its term |
| Lease.HeldAfterStamp | internal/coordination/lease.go:67-71 | in every run, after a winner overwrites the lease, an instance passes the check iff it created the node and has the winner's name |
| Lease.LeaderNodeLife | internal/coordination/lease.go:45-71 | the leader node appears by a Create when there is none, goes by a Delete or its owner's session, and keeps its owner and creator meanwhile |
| Lease.OnlyHoldersComeToDelete | internal/coordination/lease.go:164-169 | an instance comes to delete the node only by having held the lease at its check |
| Lease.ReleaseDeletesOwnLease | internal/coordination/lease.go:164-169 | an undisturbed release by the holder leaves no leader node, by anyone else everything |
| Lease.GivingUpReleases | internal/coordination/lease.go:54-71 | a holder whose election fails after its Create, undisturbed, leaves no leader node |
| Lease.LostTermRaceRetries | internal/coordination/counters.go:99-104 | a term write lost to another bump changes nothing and is tried again |
| Lease.ElectionCompletes | internal/coordination/lease.go:45-74 | an undisturbed election ends with the lease held and stamped with the next term |
| Lease.HeldBeforeStamped | internal/coordination/lease.go:32-54 | a run in which the check passes while the lease still shows term zero |
| Ordering.CompareIsTotalOrder | internal/timesync/ordering.go:18-34 | antisymmetric, transitive, and zero exactly for equal time and node |
| Ordering.CompareDirection | internal/timesync/ordering.go:18-34 | the smaller time comes first, and with equal times the node id first in the alphabet |
| Lamport.LamportClock.Tick | internal/timesync/lamport.go:16-21 | the value returned is the clock's, and above its old one except at the last uint64, in uint64 arithmetic |
| Lamport.LamportClock.Receive | internal/timesync/lamport.go:28-37 | above both clocks unless the greater is the last uint64 |
| Lamport.IncRaisesUnlessItWraps | internal/timesync/lamport.go:16-21 | a tick raises the clock except at the last uint64 |
| Lamport.CarriedTimeIsExact | internal/api/handlers.go:109-116 | the int64 on the wire is the sender's clock whenever the follower accepts it |
| Lamport.TimesAreBounded | internal/timesync/lamport.go:28-37 | no clock exceeds the number of events, and every event raises its own clock and its message's |
| Lamport.EventsAreTotallyOrdered | internal/timesync/lamport.go:16-37 | happened-before implies a smaller clock, and Compare on time and node is a strict total order on the events that extends it |

## Left out

- HTTP, JSON, CORS, URLs, environment configuration, logging, the gateway, the admin
  service and the web client: input and output. Transport is nondeterministic
  delivery or failure.
- Stripe calls, leader forwarding and its retry: foreign services and thin clients.
- Wall-clock checks (message age, drift, skew), creation times and the event log: a
  follower's rejection is a free choice instead.
- Error texts, including their merging, and configuration errors such as a missing
  ledger or transport.
- The handlers of internal/api/http.go and the lease functions of
  internal/coordination/lease.go are steps of state machines, not methods: their
  interleaving is what is proved.
- Floating-point amounts are real numbers, and the int32 version of a ZooKeeper node
  does not wrap around.
- ZooKeeper errors are deaths of the call (in the cluster) or a release of the lease
  (in the lease machine); the register methods do not model them.
- Candidate ordering in internal/coordination/election.go: any node may try for the
  lease.
- Client-side paging: the repository's own client sends no limit, so the paging client
  is the one the HasMore flag is for.
- AgreementAcrossLeaders: its conditions on a handover are hypotheses, because the code
  does not enforce them; LeadersCanDisagree and UndecidedCallBreaksAgreement show a run
  without each.
- HandOverIsSafeIff: the head is below the last int64, since no index can be taken
  there, and the old calls are concluded; for a running old call only
  UndecidedCallBreaksAgreement says what can happen.
- ConvergesIffNoGapOpened: the leader's finalized rows have distinct indices, which
  ReachableIndicesAreFree proves of the cluster, and the leader answers and the follower
  receives in one step, since the follower's ledger does not change while it waits.
- CallIsARun: a call that already holds its index; AdmissionTable and StepAnswers say what
  comes before.
- EventsAreTotallyOrdered: fewer than 2^64 events and no restarts, since a restarted
  node's clock begins at zero again.
- FencingTerms: fewer than 2^63 term writes, after which the int64 counter wraps.
