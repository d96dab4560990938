# Tasks, subscriptions and storage of a core, verified

This project models three stacked parts of a CoLink core and proves properties of them in Dafny 4.11.
`dafny verify dfyconfig.toml` checks everything.

**Tasks.** Several users on several cores agree on a task. Every core keeps a copy with one decision
slot for each participant and a status. The initiator signs its approval and sends the task out, every
participant votes once, votes flow to the initiator, and the initiator merges them and broadcasts the
outcome. The handler that merges has two critical sections with a gap between them.

**Subscriptions.** A change of a key is stored and then published. A subscriber is to receive the
history of a key from a start on and then every later change, without a gap and without a repetition,
although writers, subscribers and unsubscribers interleave.

**Storage.** Three maps keyed by printed strings hold the values by path, the current timestamp by
name, and the listings by prefix. Old versions stay readable, and directory markers make the tree of
keys navigable.

## How it is built

| modules | what they are |
|---|---|
| `Tasks`, `Agreement` | the task data and the step machine of one task: cores, a bag of messages, handlers between their two sections, and the set of everything signed |
| `AgreementTheorems`, `AgreementOutcome`, `AgreementVotes` | what holds in every run, where quiet runs end, and what a status says about a vote |
| `AgreementFinish`, `AgreementListing`, `AgreementExamples` | when a finished task stays finished, what the listing of the task decides, and two concrete runs |
| `ListingGate` | the order of first messages when sends are acknowledged |
| `Strings`, `KeyPaths` | splitting, searching, decimal numbers; names and paths printed and parsed |
| `VersionedStore`, `BasicStorage` | the storage as versions and cells, with listings defined by scanning; the class with its three maps, proved against it |
| `Routing` | the in-memory router as a class, and its routing keys |
| `Subscription`, `SubscriptionInvariant`, `SubscriptionStreams`, `SubscriptionWriters`, `SubscriptionSubscribers`, `SubscriptionTheorems`, `SubscriptionHistory` | the processes with their phases, the invariant, the steps, the theorems over all runs, and what a run does to the storage |
| `SubscriptionQueues`, `SubscriptionSkipping` | that registered queues have streams, and the comparison with a machine that always publishes, over whole runs |
| `SubscriptionAnnouncements` | what the messages in the queues say, over whole runs |
| `SubscriptionService`, `SubscriptionRuns` | the subscribing storage as a class, and that its uninterrupted calls are runs of the processes |
| `SubscriptionDeletion` | who deletes streams, when a deleted stream comes back, and a run in which it does |
| `TaskKeys`, `TaskLists`, `TaskListNames`, `TaskInsertion`, `TaskHandlers` | the task lists in the storage, their names spelled out, insertions in the middle of a move, and the handlers as a class over it |
| `TaskRefinement`, `TaskRuns` | that the handlers do what the machine's steps say, one by one and over whole runs |
| `Delivery`, `DeliveryMoves` | task lists, storage and subscriptions together, over runs of the processes, and a handler's writes as such a run |

Code that works by changing maps and lists in place is a class with loops (`BasicStorage`,
`RedisRouter`, `StorageWithMQSubscription`, `TaskService`); interleaving is modelled by machines whose
steps are the critical sections. Each class is tied to the machine: `TaskRefinement` and `TaskRuns` for the handlers,
`SubscriptionRuns` for the subscribing storage, and `BasicStorage` by the equation of every method with
`VersionedStore.Apply`, which is what the machines use.

## Standing assumptions

- User ids hold no colon (they are hexadecimal), and task ids hold none
  (they are UUIDs). `KeyPaths.ColonInUserClashes` shows why the first is needed.
- Nanosecond readings of the clock fit in 64 bits, exceed 9223372036, and are later than every stored
  version of the name that they are taken for. A task handler's readings are strictly increasing.
- Storage and broker do not fail. Signatures are ideal: a signed decision verifies exactly when its
  signer produced it, and the signed text is the task without decisions and status, plus the vote.
- Participants are distinct and there is at least one; participant 0 is the initiator; the client's
  request carries no decisions; a message about a task carries one decision for each participant.
- The digest of long routing keys is injective and printed without colons.

## Where the code and its documentation differ

The model follows the code. The trait's comment says that listing under an empty prefix is an error
(`src/storage/common.rs:67`, `:77`); the code returns an empty list
(`VersionedStore.EmptyPrefixListsNothing`). The comment's example lists no
directory markers (`src/storage/common.rs:79-82`); the code does. The comment swaps the two meanings of
`include_history` (`src/storage/common.rs:88`). A test's comment expects a deleted key in a listing
without history (`tests/grpc_service_storage.rs:309`); a deletion takes it out.

Four claims that one might expect are false of the code. For each there is a lemma that shows it, and
the exact condition under which the code does what one expects.

- A finished task may become started again (`AgreementExamples.FinishedMayStartAgain`), because the
  early return of the merging handler leaves out that status. It stays finished at a step exactly if the
  step is not a second section that meets it (`AgreementFinish.FinishedUntilSettled`), and a message
  about it starts such a section exactly if the task needs an agreement and has not expired
  (`AgreementFinish.LateMessageReopens`). Such a message only arrives if some peer sends one again: in
  runs without repeated messages, however delayed or reordered, finished is final
  (`AgreementFinish.FinishedIsFinal`).
- Everybody may have approved, and all votes may have been merged, without the initiator ever starting
  (`AgreementExamples.EarlyReplyStrandsTheInitiator`). The initiator gets an outcome exactly if some
  second section runs there after it has listed its task (`AgreementListing.InitiatorClosesExactly`); a
  vote that is merged before the listing and settled after it is not lost. Any other core gets one
  exactly if such a section runs there or its own vote decides (`AgreementListing.CoreClosesExactly`).
  When nothing is under way and nothing was lost, expired or refused, the initiator has the outcome of
  votes that settle the matter exactly if its last second section found the task listed
  (`AgreementListing.QuietInitiatorExactly`).
- A subscription from a start that is not positive can fail on its snapshot
  (`SubscriptionTheorems.SnapshotMayFail`): exactly when its name is also a directory
  (`SubscriptionTheorems.SnapshotFailsExactly`).
- A stream that was deleted for an unsubscriber may exist again: two subscriptions to one name, the
  first given up, and then a write (`SubscriptionDeletion.DeletedStreamExistsAgain`). In every reached
  world, a subscriber's stream that is gone comes back at a step exactly if the step publishes a change
  of the subscription's own name, whose route its queue is bound to, or sends what is left of its own
  snapshot (`SubscriptionDeletion.StreamComesBackExactly`).

## Model

| member | source | states |
|---|---|---|
| Tasks.StartTests | src/service/task.rs:123-129 | the count of approvals, the exclusive-or count without a rejection, and the test that settles an outcome mean: everybody approved, and somebody rejected |
| Tasks.CheckMeans | src/service/task.rs:681-753 | the check passes if and only if the decision is signed, the user signed exactly these flags and this reason about this task, and not both flags are set; otherwise the error names what is missing |
| Tasks.MergeableMeans | src/service/task.rs:247-258 | a vector can be merged if and only if what it says in the slot of every other participant is empty or signed by that participant |
| Tasks.MergingKeepsForeignSigned | src/service/task.rs:247-258 | whatever vector is merged, the slot of every other participant stays empty or signed |
| Tasks.ConfirmedWritesVote | src/service/task.rs:110-135 | a vote puts its flags and its reason, signed, into the voter's slots and changes no other |
| Tasks.NewTaskIsRequest | src/service/task.rs:28-39 | a new task has the initiator's signed approval, empty slots for all others, and is approved if it needs the agreement of others and started if not |
| Agreement.NextOk | src/service/task.rs:18-317 | every step of every handler and of the network keeps the invariant of the protocol |
| Agreement.OutcomesExclude | src/service/task.rs:259-269 | two vectors of authentic decisions about one task never show unanimous approval and a rejection |
| Agreement.ConfirmedCopyOk | src/service/task.rs:109-135 | a vote fills only the voter's own slot, which was empty, with its flags and its reason, stays the voter's only vote, and starts the task only on unanimity |
| Agreement.MergedCopyOk | src/service/task.rs:247-269 | merging authentic decisions passes every signature check, fills empty slots only, spares the own slot, and settles exactly when the vector shows an outcome |
| AgreementTheorems.NoSplitOutcome | src/service/task.rs:123-304 | in no reachable state has one core started or finished a task that another core holds rejected |
| AgreementTheorems.StartedMeansUnanimous | src/service/task.rs:123-294 | a started or finished task carries a signed approval of every participant, in whichever of the two ways it was started |
| AgreementTheorems.RejectedMeansSomeoneRefused | src/service/task.rs:259-292 | a rejected task carries a signed rejection |
| AgreementTheorems.VotesAreAuthenticAndSingle | src/service/task.rs:92-140 | decisions that are not empty, for one slot, anywhere in a copy or a message, are the one vote that its participant signed |
| AgreementTheorems.ComputedOutcomeStaysJustified | src/service/task.rs:229-304 | whatever happens between the two sections, the outcome from the first is exactly what the decisions stored at the second say |
| AgreementTheorems.MergingNeverFailsOnSignatures | src/service/task.rs:247-258 | no message that cores sent is refused for its signatures |
| AgreementTheorems.OutcomesAreStable | src/service/task.rs:97-304 | over the rest of any run decisions are write-once, waiting is never re-entered, rejected stays, and running stays running |
| AgreementVotes.StatusIsTheUsersVote | src/service/task.rs:76-135 | in every reachable state a status tells its user's own vote: none, approval, abstention; only a rejection may come from another, and only with an agreement |
| AgreementVotes.WithoutAgreementVotesDecide | src/service/task.rs:126-240 | without an agreement a copy is running, rejected, ignored or waiting exactly as its own user voted, and no outcome is ever merged |
| AgreementVotes.VoteGoesOut | src/service/task.rs:110-155 | the voter signs its flags and its reason, stores them in its slot, and sends that vector to the initiator unless it abstains or no agreement is needed |
| AgreementVotes.VoteIsHeldForGood | src/service/task.rs:110-258 | after whatever else happens in any run, the voter's copy carries the vote with flags and reason, and every vector stored or under way carries it or nothing in that slot |
| AgreementFinish.FinishedUntilSettled | src/service/task.rs:276-304 | a finished copy stays finished at a step if and only if the step is not a second section that finds it listed |
| AgreementFinish.LateMessageReopens | src/service/task.rs:236-280 | a message about a finished task starts a second section if and only if the task needs an agreement and has not expired |
| AgreementFinish.NextOnce | src/service/task.rs:123-317 | while nobody refuses and no message is repeated, every step keeps each vote, each outcome and each second section there at most once |
| AgreementFinish.FinishedIsFinal | src/service/task.rs:159-304 | in runs without repeated messages, whatever is delayed, reordered or lost, a finished copy stays finished |
| AgreementListing.UnlistedIsNeverBroadcast | src/service/task.rs:280-316 | in every run, until the initiator has listed the task its status is the one it was created with, and only the request travels to the others |
| AgreementListing.CoreClosesExactly | src/service/task.rs:109-304 | in every run of an agreement, any core has an outcome if and only if some second section ran there after the listing, or its own vote rejected or was the last approval |
| AgreementListing.InitiatorClosesExactly | src/service/task.rs:280-304 | in every run, the initiator has an outcome if and only if some second section ran there after the listing |
| AgreementListing.QuietInitiatorExactly | src/service/task.rs:280-304 | when nothing is under way in a run without faults and the votes settle the matter, the initiator has the outcome if and only if its last second section was not wasted on an unlisted task |
| AgreementOutcome.NextLive | src/service/task.rs:123-317 | every step without a fault keeps votes and outcomes in place, under way, or wasted on an unlisted task |
| AgreementOutcome.QuietOutcome | src/service/task.rs:123-317 | when nothing is under way in a run without faults, all approvals mean that a copy runs and any rejection that it is rejected, unless the last second section there or at the initiator was wasted on an unlisted task; otherwise it is neither |
| AgreementOutcome.OutcomeHasVotes | src/service/task.rs:259-294 | a running task was approved by everybody and a rejected one was rejected by somebody, in every state |
| AgreementOutcome.SettlingNeedsTheListing | src/service/task.rs:280-304 | the second section closes the copy if and only if the task is listed by then, and is wasted otherwise |
| AgreementExamples.EarlyReplyStrandsTheInitiator | src/service/task.rs:43-60 | a run in which everyone approves, nothing is lost, expired, refused or under way, and the initiator has not started |
| AgreementExamples.FinishedMayStartAgain | src/service/task.rs:276-279 | a run in which a finished task is started again |
| ListingGate.NextOk | src/service/task.rs:43-226 | every step keeps at most one opening request under way before the initiator lists the task |
| ListingGate.SecondMessageFindsListedCopy | src/service/task.rs:43-60 | with acknowledged sends, a second message finds the participant's copy stored and listed |
| ListingGate.AbsentCheckStaysTrue | src/service/task.rs:206-226 | the check for an absent copy still holds when the copy is inserted |
| ListingGate.ListedMeansAllInPlace | src/service/task.rs:57-60 | when the initiator lists the task, every participant's copy is stored and listed |
| Strings.ParsePrintInt | src/subscription/mq.rs:244-247 | a printed 64-bit number parses back to itself |
| Strings.PrintIntInjective | src/storage/basic.rs:24 | different numbers print differently |
| Strings.PrintsDecimal | src/storage/basic.rs:24 | numbers are printed in decimal, digit by digit, with a minus sign if negative |
| Strings.CanonicalIsPrinted | src/storage/basic.rs:24 | digits without a leading zero parse to a number that prints as them, so nothing is printed with one |
| KeyPaths.GetPrefix | src/storage/common.rs:122-129 | the longest prefix that ends in a colon, or the empty string |
| KeyPaths.PathLooksLike | src/storage/basic.rs:24-25 | a path is the user, two colons, the key, an at-sign and the decimal timestamp |
| KeyPaths.PathGivesName | src/subscription/mq.rs:239-242 | a printed path gives back its name, whatever characters the key holds |
| KeyPaths.PathGivesTimestamp | src/subscription/mq.rs:244-247 | a printed path gives back its timestamp if and only if that fits in 64 bits |
| KeyPaths.NameGivesUser | src/subscription/mq.rs:249-254 | a printed name gives back its user if and only if the user id holds no colon |
| KeyPaths.KeyPathInjective | src/storage/basic.rs:24 | different triples of user, key and timestamp never print the same path |
| KeyPaths.ColonInUserClashes | src/storage/basic.rs:25 | two users' names can print alike once a user id holds a colon |
| KeyPaths.PrefixesAgree | src/subscription/mq.rs:232-237 | the subscriber's prefix with the colon that listing appends is the key of the index set of the name |
| VersionedStore.ActsAsMap | src/storage/basic.rs:21-177 | on readable values the operations act as on a plain map: create fails on a live name and succeeds on a deleted one, update always succeeds, delete needs a value, failures change nothing |
| VersionedStore.CreateAnswers | src/storage/basic.rs:21-51 | a creation answers the path stamped with the clock, or that the name exists already |
| VersionedStore.DeleteAnswers | src/storage/basic.rs:143-176 | a deletion answers the path stamped with the second that the clock is in, and leaves that stamp, or answers that the name was not found and changes nothing |
| VersionedStore.WithoutValue | src/storage/basic.rs:69-92 | a name has a cell if and only if it was ever written, and one without a value was deleted |
| VersionedStore.VersionsStay | src/storage/basic.rs:38-39 | no operation of any run removes or changes a version |
| VersionedStore.HistoryIsImmutable | src/storage/basic.rs:24-50 | the path that a write returns reads back that value and no other in every later state |
| VersionedStore.DeletedPathIsNeverReadable | src/storage/basic.rs:143-172 | the path that a deletion returns is not readable, then or later |
| VersionedStore.SecondsStayBelow | src/storage/basic.rs:145 | the stamp of a deletion is the second that the reading falls in, and lies below every reading in nanoseconds |
| VersionedStore.LatestIsCurrent | src/storage/basic.rs:123-139 | the versions of greatest timestamp of the live names are those that the current timestamps point to |
| VersionedStore.EmptyPrefixListsNothing | src/storage/basic.rs:94-98 | listing the empty prefix gives nothing, with or without history |
| VersionedStore.WrittenHistory | src/storage/basic.rs:42-49 | a write adds its path and the directory markers of its name to the histories, and nothing else |
| VersionedStore.WrittenLatest | src/storage/basic.rs:129-138 | a write puts its path in place of the name's old entry among the latest versions |
| VersionedStore.ErasedLatest | src/storage/basic.rs:154-171 | a deletion takes exactly the name's entry out of the latest versions |
| VersionedStore.ErasedHistory | src/storage/basic.rs:143-177 | a deletion keeps the whole history |
| VersionedStore.EveryKeyIsReachable | src/storage/basic.rs:179-193 | from the user's root listing, markers lead one listing at a time to the listing that holds every version of the key |
| VersionedStore.EveryMarkerLeadsToAKey | src/storage/basic.rs:179-193 | every listed marker is that of a directory which some created key lies in |
| BasicStorage.BasicStorage.MaintainPrefixesAlongPath | src/storage/basic.rs:179-193 | the walk over the components adds, to every listing, exactly the markers of the key's directories |
| BasicStorage.BasicStorage.Create | src/storage/basic.rs:21-51 | the three maps stay in agreement with a scan, the state is that of the versioned store, and the answer is the stamped path or that the name exists already |
| BasicStorage.BasicStorage.Update | src/storage/basic.rs:109-141 | the same for updates, of names that are new, live or deleted; the answer is the stamped path |
| BasicStorage.BasicStorage.Delete | src/storage/basic.rs:143-176 | the same for deletions, which are stamped with the second of the clock in cell and path, and the error for names without a value |
| BasicStorage.BasicStorage.ReadFromKeyPaths | src/storage/basic.rs:53-67 | all paths with the values of their versions, or the error for the first path that no version has |
| BasicStorage.BasicStorage.ReadFromKeyNames | src/storage/basic.rs:69-92 | for every name the path and value of its latest version and nothing else, or for the first name without a value that it was not found, or that it was deleted and when |
| BasicStorage.BasicStorage.ListKeys | src/storage/basic.rs:94-107 | each path once that a scan of all versions and names finds under the prefix, latest or with history |
| Routing.RedisRouter.QueueBind | src/mq/redis.rs:175-185 | one more binding of the queue under the key |
| Routing.RedisRouter.PublishMessage | src/mq/redis.rs:187-208 | one append for every binding of the key, in order |
| Routing.RedisRouter.DeleteQueue | src/mq/redis.rs:159-173 | the stream goes and the bindings stay |
| Routing.DeliveredContents | src/mq/redis.rs:197-207 | every queue keeps what it had and gets the message exactly as often as it is bound to the key |
| Routing.BindCounts | src/mq/redis.rs:175-185 | binding adds one to the count of that queue under that key and changes no other count |
| Routing.DeletedStreamComesBack | src/mq/redis.rs:159-208 | a stream exists after a message if and only if it did before or its queue is bound to the key |
| Routing.RoutingKeyInjective | src/subscription/mq.rs:91-98 | two names never share a routing key, not even a long one and a short one |
| Routing.RouteLooksLike | src/subscription/mq.rs:91-98 | a name of at most 200 characters is its own route, and a longer one's is its digest with its prefix |
| SubscriptionInvariant.LockKept | src/subscription/mq.rs:21-82 | whoever is inside the lock exclusively is inside alone |
| SubscriptionInvariant.CountedDownOk | src/subscription/mq.rs:142-153 | counting down finds the count and keeps counts equal to registered queues and holders |
| SubscriptionSubscribers.NextOk | src/subscription/mq.rs:20-229 | every step of every writer, subscriber and unsubscriber keeps the whole invariant |
| SubscriptionTheorems.ExactlyOnceHandOff | src/subscription/mq.rs:66-129 | in every run each version from the start on is in a registered queue exactly once, or not yet while its writer is between storing and publishing; none is there twice, and each message of a version carries its value |
| SubscriptionTheorems.QuietHandOff | src/subscription/mq.rs:20-26 | with no writer inside the lock, every version from the start on has arrived exactly once |
| SubscriptionTheorems.DeliveryIsIsolated | src/subscription/mq.rs:193-228 | every message in a subscriber's queue parses to the subscriber's own name and user, and is a version of it with its value or a deletion |
| SubscriptionTheorems.SnapshotIsAlone | src/subscription/mq.rs:77-127 | in every run, from counting its key to the last message of its snapshot a subscriber is alone: every writer has not begun or has returned, and every other subscriber is before the lock or done |
| SubscriptionTheorems.CountConservation | src/subscription/mq.rs:79-153 | a count is the number of registered queues, of processes between counting and registering or between unregistering and counting down, and of denied unregistrations; the entry exists exactly when that is not zero |
| SubscriptionTheorems.CountIsAlwaysFound | src/subscription/mq.rs:150-152 | the branch for a missing count is never reached |
| SubscriptionQueues.NextExist | src/subscription/mq.rs:77-157 | every step keeps it that each registered queue belongs to a subscriber and has a stream |
| SubscriptionSkipping.SkippingIsInvisible | src/subscription/mq.rs:202-227 | in one world, whatever its streams: publishing a name that is not counted would leave every queue as it is whose subscriber is registered, at whatever phase, or has not come to register |
| SubscriptionSkipping.NextAlike | src/subscription/mq.rs:202-227 | every step keeps a world and the one in which everything was published alike in all but streams, with only streams of bound queues added and the same contents for whoever is registered or has not come to register |
| SubscriptionSkipping.SkippingIsInvisibleInRuns | src/subscription/mq.rs:202-227 | over every run, publishing without asking for the count would change nothing but streams, and the stream of no registered queue |
| SubscriptionDeletion.StreamComesBackExactly | src/mq/redis.rs:159-208 | in every reached world, a subscriber's stream that is gone is there after a step if and only if the step publishes a change of the subscription's own name, to whose route its queue is bound, or sends the subscriber more of its snapshot |
| SubscriptionDeletion.DeletedStreamExistsAgain | src/mq/redis.rs:159-208 | a run in which a stream that was deleted for an unsubscriber exists again, with one message, though its queue is registered no more |
| SubscriptionDeletion.OnlyTheOwnerDeletes | src/subscription/mq.rs:131-157 | in every run, a subscriber's stream goes only at the request of the user whose subscription it is |
| SubscriptionTheorems.SnapshotFailsExactly | src/subscription/mq.rs:102-114 | reading a listing fails if and only if the start is not positive and the name is also a directory |
| SubscriptionTheorems.SnapshotMayFail | src/subscription/mq.rs:102-114 | a store with one key below a directory, in which a subscription to the directory from 0 on fails |
| SubscriptionTheorems.PositiveStartNeverFails | src/subscription/mq.rs:114 | no subscription from a positive start ends with a failed read |
| SubscriptionHistory.ExecuteKeeps | src/subscription/mq.rs:20-129 | over any run versions stay with their values, new versions of a name are later than all that it had, and a subscription keeps its name, start and queue |
| SubscriptionAnnouncements.QueuesHoldAnnouncements | src/subscription/mq.rs:20-126 | over every run, each message in a queue is of a snapshot, or announces an operation that the run performed as the creation, update or deletion that it was, with the path that it returned; two announcements of values with one path are the same |
| SubscriptionAnnouncements.AnnouncedBySomeStep | src/subscription/mq.rs:193-228 | every announcement is that of some step of the run that performed its operation |
| SubscriptionService.StorageWithMQSubscription.Create | src/subscription/mq.rs:20-26 | what the storage does, and then a message `create` with the returned path and the value at every queue of the name if the name is counted |
| SubscriptionService.StorageWithMQSubscription.Update | src/subscription/mq.rs:47-53 | the same for updates, with a message `update` |
| SubscriptionService.StorageWithMQSubscription.Delete | src/subscription/mq.rs:55-61 | the same for deletions, with a message `delete` that has the path stamped with the second of the clock and no value |
| SubscriptionService.StorageWithMQSubscription.Filter | src/subscription/mq.rs:106-113 | exactly the listed paths of the name from the start on, each once |
| SubscriptionService.StorageWithMQSubscription.ReadWanted | src/subscription/mq.rs:102-114 | a listing of exactly the wanted paths, and their values unless the name is a directory and the start not positive |
| SubscriptionService.StorageWithMQSubscription.PublishSnapshot | src/subscription/mq.rs:115-126 | one message with its value for each entry that was read, to the queue's own key |
| SubscriptionService.StorageWithMQSubscription.Subscribe | src/subscription/mq.rs:66-129 | the new count, registration, bindings and streams, and the exact condition of failure, which leaves count and bindings behind |
| SubscriptionService.StorageWithMQSubscription.Unsubscribe | src/subscription/mq.rs:131-157 | each of the three errors and what it leaves behind, and the new count and streams of the success |
| SubscriptionRuns.WritingIsARun | src/subscription/mq.rs:20-61 | a storage call with nothing beside it is a run of the writer's steps |
| SubscriptionRuns.SubscribingIsARun | src/subscription/mq.rs:66-129 | a call of subscribe is a run of the subscriber's steps, whichever way it ends |
| SubscriptionRuns.QueueHoldsSnapshot | src/subscription/mq.rs:77-126 | after a call of subscribe a fresh queue holds the snapshot and nothing else, and no other stream has changed |
| SubscriptionRuns.UnsubscribingIsARun | src/subscription/mq.rs:131-157 | a call of unsubscribe is a run of the unsubscriber's steps: an owner's counts down and deletes the stream, another's only takes the registration away |
| TaskKeys.ListNamesDiffer | src/service/task.rs:519-522 | different lists, whatever the protocol name, have different names |
| TaskKeys.TaskIsNoList | src/service/task.rs:41 | no task is stored where a list is, nor where a list's additions are |
| TaskKeys.ListIsNotLatest | src/service/task.rs:535 | no list is stored where a list's additions are |
| TaskKeys.RoleOfParticipant | src/service/task.rs:569-574 | with distinct participants the loop finds the role of the user's own entry |
| TaskLists.UnlistedOk | src/service/task.rs:482-506 | taking a task out of a list succeeds if and only if it is there, and changes one count of one list |
| TaskLists.AddedOk | src/service/task.rs:529-564 | adding a task changes one count of one list, and the new entry is later than all others |
| TaskLists.UnlistedStays | src/service/task.rs:508-527 | for a task that is stored but not listed the removal fails and nothing has been written |
| TaskLists.MovedOk | src/service/task.rs:109-140 | a status change ends with the task in exactly its two new lists and every other task untouched, or changes nothing if the task is not listed |
| TaskLists.ListsPartitionTasks | src/service/task.rs:508-585 | what a tidy storage means: an id is in a list, and then once, if and only if its task is listed and the list is one of its two; of the status lists that is the one of its status |
| TaskLists.ProtocolListsAreByRole | src/service/task.rs:566-579 | of the protocol lists, a task is in the one under its participant's role if it is started, and in the one without a role otherwise |
| TaskLists.EntriesReadBack | src/service/task.rs:529-564 | an entry's key path reads back its task id and nothing else, and timestamps increase strictly along the list |
| TaskLists.OtherUsersStayTidy | src/service/utils.rs:97-108 | what is written for one user leaves tasks and lists of every other user as they were |
| TaskListNames.StatusListsByName | src/service/task.rs:566-585 | under the name of each status, spelled out, the tidy storage holds each listed task of that status once and no other |
| TaskListNames.ProtocolListsByName | src/service/task.rs:566-585 | under the name of each protocol and status, spelled out, it holds each listed task of that protocol and status once, and started ones under the user's role |
| TaskListNames.EntriesByName | src/service/task.rs:529-564 | each entry of a list has a path of the list's name with `:latest`, which reads the task's id |
| TaskListNames.NewStatusByName | src/service/task.rs:566-585 | a task's new entries are at the end of the two lists with the names of its status, and the `:latest` names of both hold its id |
| TaskListNames.OldStatusByName | src/service/task.rs:508-527 | its first entry goes from the two lists with the names of its old status |
| TaskInsertion.InsertionCommutes | src/service/task.rs:41-42 | storing another task's copy commutes with every single write of a move |
| TaskInsertion.InsertionDuringMove | src/service/task.rs:219-222 | an insertion without the mutex, at any point of a move, ends as if it had come after: the lists are a partition, the moved task is in its new lists, the new one in none |
| TaskHandlers.TaskService.InternalRead | src/service/utils.rs:110-126 | the value of the latest version of the name, or the error for a name never written and for one deleted |
| TaskHandlers.TaskService.RemoveTaskFromList | src/service/task.rs:482-506 | the list without the first entry of the task, or one of two errors with nothing written |
| TaskHandlers.TaskService.AddTaskToList | src/service/task.rs:529-564 | a version of the list's latest name, and an entry with its path at the end of the list |
| TaskHandlers.TaskService.RemoveTaskOldStatus | src/service/task.rs:508-527 | both removals in order, from the lists with the names of the status spelled out, the first failure ending it |
| TaskHandlers.TaskService.AddTaskNewStatus | src/service/task.rs:566-585 | both additions, to the lists with the names of the status spelled out, role-qualified only when started |
| TaskHandlers.TaskService.ConfirmTask | src/service/task.rs:68-157 | the vote succeeds exactly under its five conditions, stores its flags and its reason, signed, in the voter's slots and changes no other slot and no other task, sends that vector to the initiator unless ignored or unneeded, and keeps the lists a partition; each error with its cause |
| TaskHandlers.SecondVoteFails | src/service/task.rs:97-102 | whatever is voted after a vote that succeeded fails because the task is already confirmed |
| TaskHandlers.TaskService.FinishTask | src/service/task.rs:159-184 | the same for finishing a started task |
| TaskHandlers.TaskService.StoreNewTask | src/service/task.rs:25-55 | the initiator's copy, with its approval and nobody else's, is stored, also while another task is being moved, no list changes, and one message goes to every other participant |
| TaskHandlers.TaskService.ListTask | src/service/task.rs:58-60 | the stored copy is listed under its status |
| TaskHandlers.TaskService.StoreFirstCopy | src/service/task.rs:206-222 | a first message is stored as waiting, also while another task is being moved, if and only if the initiator signed exactly the decision in it and that approves; otherwise the cause, and nothing written |
| TaskHandlers.TaskService.MergeDecisions | src/service/task.rs:227-281 | if what the message says for others is theirs, and only then, the merged copy and the outcome that it settles, if any; otherwise the cause, and nothing written |
| TaskHandlers.AnyMergeKeepsForeignSigned | src/service/task.rs:227-281 | whatever message arrives and whatever becomes of it, the slot of every other participant in the stored copy stays empty or signed |
| TaskHandlers.TaskService.MergeInto | src/service/task.rs:247-258 | succeeds if and only if every decision that it says for another is signed by that participant, takes exactly those, and otherwise names what is wrong with the first that is not |
| TaskHandlers.TaskService.SettleOutcome | src/service/task.rs:280-317 | the outcome on the copy stored now, and a broadcast from the initiator of three or more |
| TaskRefinement.ConfirmRefines | src/service/task.rs:68-157 | the handler does to the stored copy and the network what the machine's step does |
| TaskRefinement.FinishRefines | src/service/task.rs:159-184 | the same for finishing |
| TaskRefinement.CreateRefines | src/service/task.rs:25-55 | the same for creating |
| TaskRefinement.ListRefines | src/service/task.rs:58-60 | the same for listing |
| TaskRefinement.FirstCopyRefines | src/service/task.rs:206-226 | the same for a first message |
| TaskRefinement.MergeRefines | src/service/task.rs:227-281 | the same for the first section, with the same outcome left for the second |
| TaskRefinement.SettleRefines | src/service/task.rs:280-317 | the same for the second section |
| TaskRefinement.StoresFollow | src/service/task.rs:18-317 | a step at one core leaves the storages of all others in agreement with the machine |
| TaskRefinement.NetworkTouchesNoStore | src/service/task.rs:337-390 | what is duplicated or lost on the way changes no storage |
| TaskRuns.EventFollows | src/service/task.rs:18-317 | an event that respects the contract of its handler takes storages that follow the machine to storages that follow its next state |
| TaskRuns.RunFollows | src/service/task.rs:18-317 | every run of handlers from storages without the task, other tasks' handlers in between, follows a run of the machine |
| TaskRuns.ListsPartitionTasksInRuns | src/service/task.rs:482-585 | at the end of every such run, any id is in a list, and then once, exactly when its task is listed and the list is one of its two |
| TaskRuns.StoragesNeverSplit | src/service/task.rs:123-304 | at the end of every run of handlers, no stored copy is started or finished while another is rejected |
| Delivery.FirstEntryCovers | src/service/task.rs:529-564 | the first entry's timestamp is positive and no entry of the list is older |
| Delivery.WriteKeepsCover | src/service/task.rs:482-564 | every write that respects the handlers' names keeps the lists sound, and a list without an entry older than the start so |
| Delivery.AddingIsHandlerWrites | src/service/task.rs:529-564 | adding a task to a list is two writes of the kind that the delivery allows |
| Delivery.RemovingIsHandlerWrite | src/service/task.rs:482-506 | taking a task out of a list is one |
| Delivery.StoringIsHandlerWrite | src/service/task.rs:136-139 | storing a copy is one |
| DeliveryMoves.MoveIsHandlerWrites | src/service/task.rs:109-140 | whatever a status change does to the storage, complete or cut short by an error, is a sequence of such writes, each allowed at the state that the ones before it leave |
| DeliveryMoves.MoveIsARun | src/service/task.rs:109-140 | made by writers of the subscribing storage, it is a run of the processes in which every write is of that kind, and which leaves the storage as the status change does |
| Delivery.EntriesDiffer | src/service/task.rs:543-560 | no two entries of a list have the same path, so there are as many messages as entries |
| Delivery.EveryAdditionIsHeardOnce | src/subscription/mq.rs:66-129 | subscribing to a list's latest name from its first entry's timestamp: after any run, every version that was added to the name since has been heard of exactly once, or is still to be published |
| Delivery.EntriesThenAreHeardOnce | src/subscription/mq.rs:102-126 | the same for every entry that the list had at the subscription, removed since or not, with its task id |
| Delivery.EveryEntryIsDeliveredOnce | src/service/task.rs:482-564 | if only handlers wrote the user's tasks and lists meanwhile, the same for every entry that the list has now |

## Left out

- gRPC, TLS, tokens, server start-up and command line: plumbing.
- Real cryptography and wire formats: signatures are facts, encoding is the identity. The user consent that a decision carries, and its expiry, are part of this.
- Reverse connections, forwarding and the registry lookup (`src/service/task.rs:322-480`, `:587-678`): transport is a bag of messages, and only `ListingGate` needs acknowledged sends.
- Protocol operators, fetching and user initialisation: processes, files and polling.
- Broker accounts, access lists and the brokers' own protocols; consumers that take messages out of queues.
- The Rust `rfind` and `len` work on bytes and the model on characters, so the bound of 200 for a routing key counts characters.
- Cores that send what the handlers would not send: the machine's messages come from its cores, duplicated, lost or reordered.
- Agreement.NextOk: takes the check for an absent copy and its insertion as one step; `ListingGate.AbsentCheckStaysTrue` shows for acknowledged sends that nothing comes between them.
- Agreement.NextOk: follows one task, whose decisions no other task's handlers touch; `TaskLists.MovedOk` and the handlers' contracts say that for the storage.
- AgreementOutcome.QuietOutcome: is about runs without faults; a fault is a message lost, a task expired, or a message refused.
- SubscriptionTheorems.ExactlyOnceHandOff: leaves out the broker's own key `_internal:mq_uri`, which is created past the lock and never published, and starts that are not positive.
- SubscriptionTheorems.ExactlyOnceHandOff: says nothing on the order of messages; concurrent writers share the lock, and a snapshot comes in the order of a hash map.
- SubscriptionService.StorageWithMQSubscription.Subscribe: takes the broker's address and the name of the new queue as given; that a first subscription creates the address is the step `CreateMqUri` of the processes.
- TaskHandlers.TaskService.ConfirmTask: works on the plain in-memory storage; publishing the writes is the subscribing storage's part. `Delivery` takes each write of a handler as an update by a writer of that storage.
- TaskRuns.RunFollows: gives every participant a storage of its own; participants on one core share one, where `TaskLists.OtherUsersStayTidy` keeps them apart.
- TaskHandlers.TaskService.SettleOutcome: the sends of a handler are its results; a send that fails after the copy has been written ends the handler with an error.
