# True Family: verified models

Dafny models of the parts of True Family whose guarantees span many steps, with proofs about every
run. `dafny verify dfyconfig.toml` checks the whole project.

| files | component |
|---|---|
| `FileJournal.dfy` | crash-durable file journal: one lock holder, a filesystem with volatile and durable views, crashes and power cuts between any two boundaries |
| `ExtentTree.dfy`, `ExtentLayout.dfy` | bounded recursive reader of an ext4 extent tree over arbitrary device bytes, and the on-disk layout it decodes |
| `JournalDatabase.dfy`, `JournalStore.dfy`, `StartupScan.dfy` | the App's SQLite compare-and-swap store with durable receipts, its startup scan, and what that scan finds |
| `ReplayGuard.dfy` | the bounded guard over claimed request IDs |
| `RemoteClient.dfy`, `RemoteProtocol.dfy`, `RemoteExchanges.dfy` | the signed client with ambiguous outcomes and explicit replay, the protocol of many clients, a lossy network and a restarting server, and every reply and result in terms of the history |
| `Projection.dfy`, `ReferenceMeaning.dfy` | semantic replacement of entity references in JSON trees, as a walk and place by place |
| `MigrationPlan.dfy`, `MigrationWorld.dfy`, `MigrationSafety.dfy`, `MigrationCoordinator.dfy`, `MigrationExamples.dfy` | the reference migration coordinator over persistent providers and journal, and one migration that cannot be rolled back |
| `ProbeRecord.dfy`, `ProbeRuns.dfy`, `ProbeTransitions.dfy`, `ProbeExamples.dfy` | the physical probe's durable record, its runs, when each transition is available, and two runs of interest |
| `PermitClient.dfy`, `PermitRuns.dfy`, `PermitVerdicts.dfy` | permit-join attribution in the Zigbee2MQTT client, and its verdicts in terms of the messages received |
| `Basics.dfy` | options and duplicate-free sequences |

Conventions. A run is a sequence of events with a total step function: an event that is not enabled
changes nothing, so lemmas about `Run(events)` are about every run. Where the program updates
objects in place there is a class whose methods are tied to the step functions: their
postconditions equate the new state with the step of the old one, or say that the states passed are
states of a run. Hash functions are datatype constructors, which are injective. Numeric limits are
the program's constants; the receipt window, the generation space and the guard limit are
parameters.

How faults enter. The file journal may raise at any boundary; a process crash keeps what the kernel
holds; a power cut keeps one of the directory versions since the last directory sync, and arbitrary
bytes in files not synced. In the remote protocol every post is delivered at most once, late or
never, any reply may be lost, a storage failure may strike before or after the commit, and the
server restarts between transactions. In the migration model every journal or provider call may
raise before or after its effect, other writers may act before any call, and the trace of a
deployment lists every world a crash could find. A deployment also counts the faults that struck and
the document writes among them, so that a contract can say what happens without a fault (`Spared`)
and when the only fault strikes a write (`OneBadWrite`); both also mean no other writers.

Findings. Four promises hold only under a condition.

- A failed migration is restored only if every document that changed counts as attempted. A write
  that took effect and whose read-back then raises is not counted (reference_migration.py:754-759),
  so the apply leaves the document changed, finds it in the verification, and ends blocked.
  `RollBack` and `RestoreOriginals` state the exact condition, `Covered`; `WriteOne` says which fault
  breaks it; `MigrationExamples.UnreadWriteIsNotCovered` is such a world. A fault in the write
  itself, before or after its effect, is always restored (`Apply`).
- A restore the probe begins after a result can never be proved, unless it ends in remediation: its
  proof would be a sixth. `ProbeTransitions.ProofAcceptedExactlyWhen` is the exact condition.
- After a remediation record the probe can carry a result only if a restore is begun with
  `remediation_after_restore=False` given explicitly. `ProbeRuns.OnlyExplicitIntentUnbinds` is the
  exact condition and `ProbeExamples.ExplicitIntentCanClaim` a run that does it.
- A verified probe result cannot always be acknowledged, so clean-up can stay forbidden: the result
  may be built at generation 64, where an acknowledgement, itself a transition, is refused, and the
  bound boot may have no request ID slot or no later request deadline left.
  `ProbeRuns.AcknowledgeableExactlyWhen` is the exact condition, and
  `ProbeExamples.VerifiedAtTheCapCannotBeAcknowledged` a run that ends so.

Several runtime checks cannot fire: the file journal's compare-and-swap conflict, the ext4 reader's
metadata read limit (the caller's earlier reads included), the migration's count mismatches, most
conditions of the permit-join baseline, and the stamp's sequence comparison. That the migration's
plan ID collision cannot fire is no more than the assumption that the ID, 24 hex digits of a SHA-256
digest, determines its plan.

## Model

| member | source | states |
|---|---|---|
| `FileJournal.AcknowledgedNeverGoesBack` | custom_components/true_family/reference_journal_file.py:4603-4789 | over all opens, saves, failures, crashes and power cuts, what loads return and returned saves wrote never goes back a generation, and one generation always has the same bytes |
| `FileJournal.AcknowledgedOneByOne` | custom_components/true_family/reference_journal_file.py:4678-4687 | each acknowledgement repeats the one before, starts at generation zero, or is the next generation |
| `FileJournal.OpenThenLoad` | custom_components/true_family/reference_journal_file.py:4029-4627 | with the lock free and a readable final file, an opener accepts a load and nothing else, returns what is there, and then accepts a load or a save |
| `FileJournal.SaveThenBarrier` | custom_components/true_family/reference_journal_file.py:4663-4825 | in every reachable state that accepts a save, one of the next generation with nothing in its way commits; then only the barrier is accepted, and after it only a load |
| `FileJournal.AcknowledgedIsDurable` | custom_components/true_family/reference_journal_file.py:4603-4762 | the root a load returns or a returned save wrote is what every later power cut leaves, not only what the kernel holds |
| `FileJournal.AcknowledgedSurvives` | custom_components/true_family/reference_journal_file.py:4029-4088 | whatever a power cut leaves at any later point of the run still decodes and is not before any root acknowledged earlier |
| `FileJournal.SaveIsAtomic` | custom_components/true_family/reference_journal_file.py:4663-4789 | at every point of a save a crash or power cut leaves the complete previous root or the complete candidate; only the previous before the rename, only the candidate after the directory sync |
| `FileJournal.PlainPoisonKeepsFinal` | custom_components/true_family/reference_journal_file.py:4366-4388 | a save that ended in a non-ambiguous poison left the final file, inode and bytes, as its snapshot has it, also after a power cut |
| `FileJournal.OnlyFaultsPoison` | custom_components/true_family/reference_journal_file.py:4688-4762 | with lock-respecting writers none of the store's own checks fires: compare-and-swap, exclusive create, temporary read-back, replacement check, reopen check; only exceptions, undecodable bytes or a bad candidate poison |
| `FileJournal.StampIsAlwaysImmediate` | custom_components/true_family/reference_journal_file.py:4791-4825 | an unconsumed commit stamp always carries the current sequence number, so the barrier's sequence check never refuses, and save, load and barrier exclude each other |
| `FileJournal.ReopenReturnsWhatWasLeft` | custom_components/true_family/reference_journal_file.py:4029-4088 | once anything was acknowledged, taking the lock, syncing, removing a stale temporary file and loading succeeds after any power cut and returns what it left |
| `FileJournal.RunSound` | custom_components/true_family/reference_journal_file.py:4029-4825 | the invariant of every reachable state: final files are synced, directory versions since the last sync differ only while a replacement is unsynced, acknowledgements follow each other by equal or next generation |
| `FileJournal.StoreStepKeepsSound` | custom_components/true_family/reference_journal_file.py:4663-4825 | every single boundary of open, load, save, barrier and exception handling keeps that invariant |
| `FileJournal.PowerCutKeepsSound` | custom_components/true_family/reference_journal_file.py:4029-4088 | a power cut that keeps any directory version since the last sync, and arbitrary bytes in unsynced files, keeps it |
| `FileJournal.OnlyLoadAndCommitAcknowledge` | custom_components/true_family/reference_journal_file.py:4603-4762 | only a successful load and the last step of a save acknowledge a root |
| `FileJournal.CrashDurableReferenceJournalStore.Open` | custom_components/true_family/reference_journal_file.py:4029-4088 | opening passes lock, directory sync and stale-temporary removal with its own sync; success leaves the final file alone and settled, an exception gives the lock up; every intermediate state is a state of the run |
| `FileJournal.CrashDurableReferenceJournalStore.Load` | custom_components/true_family/reference_journal_file.py:4603-4627 | a load is refused while poisoned or with an unconsumed stamp, returns exactly the durable root or absence, and poisons on an exception while reading or on bytes it refuses |
| `FileJournal.CrashDurableReferenceJournalStore.Save` | custom_components/true_family/reference_journal_file.py:4663-4789 | whatever strikes it, before the temporary file exists, between any two written chunks, or at any later boundary: returns exactly when nothing strikes and the candidate is encodable and next; then the candidate is durable and stamped; a plain failure leaves the final file, an ambiguous one the old or the new; nothing else |
| `FileJournal.CrashDurableReferenceJournalStore.CompareAndSwap` | custom_components/true_family/reference_journal_file.py:4678-4701 | the candidate is compared by generation and the final file by inode and bytes before anything is created |
| `FileJournal.CrashDurableReferenceJournalStore.CreateTemp` | custom_components/true_family/reference_journal_file.py:4629-4661 | exclusive creation: fails exactly when the temporary name exists |
| `FileJournal.CrashDurableReferenceJournalStore.WriteAll` | custom_components/true_family/reference_journal_file.py:4703-4705 | chunks are written one after another, each a content a crash could leave, until the file holds the candidate; an exception after any number of them poisons plainly |
| `FileJournal.CrashDurableReferenceJournalStore.PrepareTemp` | custom_components/true_family/reference_journal_file.py:4702-4727 | create, write, sync, read back: ends with a synced, checked temporary file or a plain poison, the final name untouched |
| `FileJournal.CrashDurableReferenceJournalStore.ReplaceAndCommit` | custom_components/true_family/reference_journal_file.py:4728-4774 | replace, verify, sync the directory, reopen, commit: ends committed, or poisoned ambiguously exactly once the replacement was attempted |
| `FileJournal.CrashDurableReferenceJournalStore.Barrier` | custom_components/true_family/reference_journal_file.py:4791-4825 | consumes the stamp of the save just before after two matching reads around a directory sync; a failure is ambiguous; refused without a stamp |
| `FileJournal.CrashDurableReferenceJournalStore.PoisonStore` | custom_components/true_family/reference_journal_file.py:4366-4388 | poisoning records whether a replacement was attempted and changes nothing else |
| `ExtentTree.AcceptedExactlyWhen` | custom_components/true_family/reference_journal_file.py:1809-1970 | for arbitrary device bytes the reader accepts exactly the bounded well-formed trees whose extents, in ascending order, store every logical block below the journal size once and nothing else, no two in one physical block, none in a block of the tree |
| `ExtentLayout.InodeMapAcceptedExactlyWhen` | custom_components/true_family/reference_journal_file.py:1809-1970 | written out in its bytes, the map of an inode that holds one to four extents itself is accepted exactly when each has 1 to 32768 blocks on the device past block zero, they run through the journal from its first to its last block, and no two overlap |
| `ExtentLayout.HeaderDecodes` | custom_components/true_family/reference_journal_file.py:1823-1844 | an encoded node has a header the reader takes, at its own depth and no other |
| `ExtentLayout.LeafDecodes` | custom_components/true_family/reference_journal_file.py:1857-1875 | every extent encoded into a leaf, 48-bit physical block included, is read back |
| `ExtentLayout.IndexDecodes` | custom_components/true_family/reference_journal_file.py:1890-1901 | every key and 48-bit child block encoded into an index node is read back, and accepted exactly when the block is on the device past zero |
| `ExtentTree.AcceptedIsInRange` | custom_components/true_family/reference_journal_file.py:1858-1874 | every logical block of an accepted map lies in a physical block on the device, past block zero |
| `ExtentTree.ContiguousExactlyWhenCovering` | custom_components/true_family/reference_journal_file.py:1939-1944 | the running hole-or-overlap check holds exactly for an ascending exact cover |
| `ExtentTree.DisjointExactlyWhenInjective` | custom_components/true_family/reference_journal_file.py:1945-1956 | the pairwise range check holds exactly when no two logical blocks share a physical one |
| `ExtentTree.ApartExactlyWhenAvoiding` | custom_components/true_family/reference_journal_file.py:1957-1964 | the tree-block check holds exactly when no logical block is stored in the tree |
| `ExtentTree.LeavesInRange` | custom_components/true_family/reference_journal_file.py:1858-1874 | every extent of a well-formed tree is nonempty and on the device |
| `ExtentTree.ExtentParser.ParseNode` | custom_components/true_family/reference_journal_file.py:1818-1925 | the recursive walk accepts exactly the well-formed nodes that fit the node and extent budgets with no block twice, and collects exactly the extents, nodes and blocks they denote; it terminates by depth |
| `ExtentTree.ExtentParser.ParseIndexEntry` | custom_components/true_family/reference_journal_file.py:1890-1917 | an index entry is accepted exactly when its block is new and in range and the node there starts at its key |
| `ExtentTree.ExtentParser.ParseLeafEntry` | custom_components/true_family/reference_journal_file.py:1857-1889 | a leaf entry is accepted exactly when its extent is initialized, in range and within the extent budget |
| `ExtentTree.ExtentParser.ReadBlock` | custom_components/true_family/reference_journal_file.py:1785-1806 | a metadata read returns the block exactly when it is on the device and the read budget is not spent |
| `ExtentTree.ExtentParser.Map` | custom_components/true_family/reference_journal_file.py:1809-1970 | the whole reader decides acceptance exactly, returns the extents left to right, and stays within 8 nodes and 64 extents; it makes one read fewer than there are nodes, so after up to 8 earlier reads (the caller makes two, lines 2191-2232) the read limit is never met |
| `ExtentTree.ExtentParser.CheckExtents` | custom_components/true_family/reference_journal_file.py:1935-1957 | one pass decides contiguity and disjointness and computes the covered length |
| `ReplayGuards.HoldsTheMostRecent` | true_family_journal/server.py:1280-1305 | the guard always holds exactly the most recently claimed request IDs, newest last, up to its limit |
| `ReplayGuards.RememberedExactlyWhileRecent` | true_family_journal/server.py:1287-1305 | an ID is remembered exactly when it was accepted and fewer than the limit of distinct IDs have been accepted since its latest acceptance |
| `ReplayGuards.HoldsTheLastIdentity` | true_family_journal/server.py:1287-1305 | a remembered ID is held with the identity of its latest accepted claim, through every move and eviction |
| `ReplayGuards.RefusedExactlyWhileRecent` | true_family_journal/server.py:1287-1305 | any claim, idempotent or not, is refused exactly when its ID is remembered in that sense and it is not an idempotent repeat of the identity accepted last |
| `ReplayGuards.ReclaimNeedsLimitOthers` | true_family_journal/server.py:1287-1305 | a non-idempotent ID, once claimed, is accepted again only after at least the limit of other distinct IDs |
| `ReplayGuards.AfterWellFormed` | true_family_journal/server.py:1295-1305 | claiming keeps the ordered dictionary duplicate-free and within its limit |
| `ReplayGuards.ReplayGuard.TryClaim` | true_family_journal/server.py:1287-1305 | the method that moves, adds and evicts entries in place is that claim function, and refuses without a change |
| `JournalDatabase.SaveKeepsConsistent` | true_family_journal/server.py:1065-1198 | every save transaction keeps tables and append-only history in agreement: one receipt per retained generation, the newest agreeing with the journal row |
| `JournalDatabase.CommitsExactlyWhen` | true_family_journal/server.py:1065-1198 | a delivered save commits exactly when its root is admitted and not in the history, its generation is the number of commits so far, and it names the last committed revision, or none for a new journal |
| `JournalDatabase.DeliveryIsAnsweredFromHistory` | true_family_journal/server.py:1065-1198 | every delivery, conflicts and replays included, is answered as a server that keeps the whole history would answer it |
| `JournalDatabase.AdmissionFromHistory` | true_family_journal/server.py:1108-1124 | which conflict a save of admitted root meets, in terms of the length of the history and its last root alone |
| `JournalDatabase.EveryOutcomeIsFromHistory` | true_family_journal/server.py:1065-1198 | so is every delivery of every run, in any order and with any repetitions |
| `JournalDatabase.RunConsistent` | true_family_journal/server.py:1065-1198 | after any deliveries in any order the tables reflect the history |
| `JournalDatabase.RedeliveryNeverCommitsAgain` | true_family_journal/server.py:1077-1106 | delivering a committed body again never commits; it gives the same response while its receipt is retained and stale_generation afterwards |
| `JournalDatabase.CommittedByOneDelivery` | true_family_journal/server.py:1077-1186 | every body in a journal's history was committed by exactly one delivery |
| `JournalDatabase.HistoryKeeps` | true_family_journal/server.py:1126-1185 | a committed body stays in the history for the rest of the run |
| `JournalDatabase.DeliveryKeepsHistory` | true_family_journal/server.py:1126-1185 | one delivery never removes a body from the history |
| `JournalDatabase.AdmittedIsUnique` | true_family_journal/server.py:1108-1193 | an admitted save violates no uniqueness constraint, so the insert cannot fail after admission |
| `JournalDatabase.ExtendsChain` | true_family_journal/server.py:1108-1124 | an admitted save is the next generation and names the current revision, so the history is a chain |
| `JournalDatabase.EvictedIsStale` | true_family_journal/server.py:1108-1124 | any body already in the history, its receipt evicted or not, fails admission with stale_generation |
| `JournalStore.SQLiteJournalStore.SaveSync` | true_family_journal/server.py:1065-1198 | the row-by-row transaction commits, replays, refuses and evicts exactly as the table function says, and rolls back to the old tables otherwise |
| `JournalStore.SQLiteJournalStore.BarrierSync` | true_family_journal/server.py:1209-1238 | a barrier answers by the receipt that holds the token, or unknown_commit_token |
| `JournalStore.BarrierMeansRetained` | true_family_journal/server.py:1209-1238 | in a consistent store a barrier succeeds exactly for tokens of retained commits |
| `JournalStore.SQLiteJournalStore.ValidateDurableRows` | true_family_journal/server.py:972-1020 | the startup scan accepts exactly the tables whose rows decode, relate, and whose receipts are the retained suffix |
| `JournalStore.SQLiteJournalStore.CollectGenerations` | true_family_journal/server.py:981-996 | the scan collects, per journal, the generations of its receipts, or rejects a receipt without its row |
| `JournalStore.SQLiteJournalStore.ValidateSuffixes` | true_family_journal/server.py:997-1020 | the collected generations are compared, sorted, with the retained window of every journal |
| `JournalStore.ConsistentRowsAreValid` | true_family_journal/server.py:972-1020 | tables that agree with their history always pass the startup scan |
| `JournalStore.SuffixExactMeansOnePerGeneration` | true_family_journal/server.py:997-1020 | the suffix comparison holds exactly when each retained generation has one receipt and no other generation has any |
| `JournalStore.StartupAcceptsEveryRun` | true_family_journal/server.py:972-1020 | after a crash at any transaction boundary of any run, startup accepts the database |
| `StartupScan.AcceptedExactlyWhen` | true_family_journal/server.py:972-1020 | for arbitrary tables and any scan order, startup accepts exactly when every row describes one root of its journal, every receipt its own token and response and an earlier or the newest commit, and each retained generation has one receipt |
| `StartupScan.ChangedRowIsFound` | true_family_journal/server.py:972-1020 | any change to one journal row of a consistent store makes startup refuse it |
| `StartupScan.LostRowIsFound` | true_family_journal/server.py:981-996 | so does the loss of a journal row |
| `StartupScan.ChangedReceiptIsFound` | true_family_journal/server.py:981-1020 | so does a change to any one field of any one receipt |
| `StartupScan.LostReceiptIsFound` | true_family_journal/server.py:997-1020 | so does the loss of any receipt |
| `StartupScan.AcceptedBarrierAnswers` | true_family_journal/server.py:1209-1238 | in tables startup accepted, a barrier for a known token never answers corruption |
| `StartupScan.AcceptedReplayAnswers` | true_family_journal/server.py:1077-1106 | in tables startup accepted, a known save ID is answered by its receipt, as a conflict for another body, and as corruption only for another journal |
| `RemoteProtocol.CommitIsInHistory` | custom_components/true_family/reference_journal_remote.py:877-1052 | in every run of many clients, lost and replayed posts and server restarts, a client that holds a commit finds in the server's history, at that generation, exactly its own submitted root and token |
| `RemoteExchanges.LoadReturnsTheNewest` | custom_components/true_family/reference_journal_remote.py:838-871 | in every run, what a load returns, root or absence, is what was newest in the journal when its post was served |
| `RemoteExchanges.SnapshotIsInHistory` | custom_components/true_family/reference_journal_remote.py:838-1052 | in every run, a client that is ready to save and holds a root finds exactly that root in the server's history at its generation |
| `RemoteExchanges.EveryReplyIsFromHistory` | true_family_journal/server.py:1065-1238 | every reply of every run, to a hello, load, save or barrier, is what the history at its delivery calls for |
| `RemoteExchanges.ServedFromHistory` | true_family_journal/server.py:1550-1690 | one delivery gives exactly that reply and makes exactly that change, whichever storage failure strikes |
| `RemoteExchanges.UndisturbedLoad` | custom_components/true_family/reference_journal_remote.py:838-871 | after any run, while client and server share a session, an undisturbed load returns the newest root, or absence, and readies the next save |
| `RemoteExchanges.UndisturbedSave` | custom_components/true_family/reference_journal_remote.py:877-965 | after any run, while client and server share a session, an undisturbed save of the next generation commits exactly when the client's snapshot is still the newest root, and is rejected without ambiguity otherwise |
| `RemoteExchanges.UndisturbedReplay` | custom_components/true_family/reference_journal_remote.py:1008-1052 | after any run, while client and server share a session, an undisturbed replay is accepted exactly when the server still holds the receipt of the retained save, or the save never arrived and is still the next; any other answer leaves it ambiguous and replayable |
| `RemoteExchanges.UndisturbedBarrier` | custom_components/true_family/reference_journal_remote.py:1059-1097 | after any run, while client and server share a session, an undisturbed barrier succeeds exactly while the server retains the receipt of the commit |
| `RemoteProtocol.CommitStaysInHistory` | custom_components/true_family/reference_journal_remote.py:993-1006 | and it stays there for the rest of the run |
| `RemoteProtocol.PoisonedPostsOnlyTheRetainedSave` | custom_components/true_family/reference_journal_remote.py:471-499 | once a client is poisoned the only request it can post is its retained save, identical to one posted before |
| `RemoteProtocol.ReplayExactlyWhenAllowed` | custom_components/true_family/reference_journal_remote.py:1008-1030 | replay is possible exactly while it is allowed and the store is open, and a save is then retained |
| `RemoteProtocol.RejectedNeverCommits` | custom_components/true_family/reference_journal_remote.py:923-965 | a save the client saw rejected without ambiguity is in no later server history |
| `RemoteProtocol.EveryDeliverableClaimIsAccepted` | true_family_journal/server.py:1287-1305 | the server's replay guard never refuses a post the network still may deliver |
| `RemoteProtocol.RestartFindsValidTables` | true_family_journal/server.py:972-1020 | whenever the server restarts, its startup check accepts the tables |
| `RemoteProtocol.RunSound` | custom_components/true_family/reference_journal_remote.py:838-1097 | the invariant over clients, posts, replies, guard and tables that every run keeps |
| `RemoteProtocol.NextSaveIsNew` | custom_components/true_family/reference_journal_remote.py:877-922 | a save a client may start has a body no post ever had |
| `RemoteProtocol.RunGrows` | custom_components/true_family/reference_journal_remote.py:838-1097 | histories and the set of rejected saves only grow |
| `RemoteClient.RemoteReferenceJournalStore.StartLoad` | custom_components/true_family/reference_journal_remote.py:838-871 | a load posts exactly when the store is usable and no commit waits for its barrier |
| `RemoteClient.RemoteReferenceJournalStore.CompleteLoad` | custom_components/true_family/reference_journal_remote.py:782-871 | a load returns the root of a valid readback, or absence, and keeps it as the snapshot; anything else poisons without replay |
| `RemoteClient.RemoteReferenceJournalStore.StartSave` | custom_components/true_family/reference_journal_remote.py:877-922 | a save retains the request it posts, derived from the snapshot; a bad candidate poisons without posting |
| `RemoteClient.RemoteReferenceJournalStore.CompleteSave` | custom_components/true_family/reference_journal_remote.py:923-965 | each way a save can end sets commit, poison, ambiguity and replay permission as the protocol needs |
| `RemoteClient.RemoteReferenceJournalStore.AcceptSaveResponse` | custom_components/true_family/reference_journal_remote.py:993-1006 | accepting clears poison, keeps the retained request for replay and demands a new load before the next save |
| `RemoteClient.RemoteReferenceJournalStore.StartReplay` | custom_components/true_family/reference_journal_remote.py:1008-1030 | a replay posts the retained request, byte for byte, exactly when permitted |
| `RemoteClient.RemoteReferenceJournalStore.CompleteReplay` | custom_components/true_family/reference_journal_remote.py:1031-1052 | a replay accepts a confirming response and otherwise stays ambiguous and replayable |
| `RemoteClient.RemoteReferenceJournalStore.StartBarrier` | custom_components/true_family/reference_journal_remote.py:1059-1070 | a barrier posts the held token exactly when the store is usable |
| `RemoteClient.RemoteReferenceJournalStore.CompleteBarrier` | custom_components/true_family/reference_journal_remote.py:1071-1097 | a confirmed barrier drops commit and retained save; anything else poisons without replay |
| `RemoteClient.RemoteReferenceJournalStore.MarkPoisoned` | custom_components/true_family/reference_journal_remote.py:491-499 | poisoning sets ambiguity and replay permission and nothing else |
| `Projection.ReplaceIsRewriting` | custom_components/true_family/reference_projection.py:298-339 | replacing at the scanned path set never raises, rewrites every text exactly on its own merits, and counts one replacement per scanned path, templates included |
| `ReferenceMeaning.FoundExactlyWhere` | custom_components/true_family/reference_projection.py:236-295 | a path is approved exactly when the text there is the whole ID under an approved field, or a template with one safe literal call directly in a template field of a provider with templates |
| `ReferenceMeaning.BlockedExactlyWhere` | custom_components/true_family/reference_projection.py:236-295 | an occurrence is blocked exactly when it is a mapping key with the ID in it, or a text that is neither approved nor harmless where it stands |
| `ReferenceMeaning.ReplacedStands` | custom_components/true_family/reference_projection.py:298-339 | where a text stood there stands the target, the spliced template, or the same text |
| `ReferenceMeaning.ReplacedIsFreeExactlyWhen` | custom_components/true_family/reference_projection.py:236-339 | without templates, no key and no text of the result mentions the old entity exactly when the scan blocked nothing |
| `ReferenceMeaning.NearestKeyIsLast` | custom_components/true_family/reference_projection.py:342-358 | the field that decides about a text is the last mapping key of its path, list positions skipped |
| `Projection.TemplateIsSpliced` | custom_components/true_family/reference_projection.py:368-386 | a replaced template has the target where the literal was, and every other character as before |
| `Projection.TemplateRoundTrip` | custom_components/true_family/reference_projection.py:368-386 | replacing the target by the old ID again, where the parser finds it, restores the template |
| `Projection.ReplaceKeepsElsewhere` | custom_components/true_family/reference_projection.py:307-339 | replacement keeps the shape, every key and every value outside the approved paths |
| `Projection.RescanIsCleanExactlyWhen` | custom_components/true_family/reference_projection.py:236-295 | in a template-free tree with nothing blocked, a rescan of the result finds nothing exactly when nothing was replaced or the target does not mention the old entity |
| `Projection.RescanFindsNothing` | custom_components/true_family/reference_projection.py:236-339 | with two different entity IDs the rescan finds nothing |
| `Projection.EntityMentionsOnlyItself` | custom_components/true_family/reference_projection.py:361-365 | an entity ID contains another as a whole token only if they are equal, and is never a template |
| `Projection.NothingToRewrite` | custom_components/true_family/reference_projection.py:311-339 | a tree in which the scan approves nothing is returned unchanged |
| `Projection.ScanAgrees` | custom_components/true_family/reference_projection.py:252-295 | paths are unique, so the scanned path set tells replaceable texts from all others |
| `Projection.ReplaceableRewrites` | custom_components/true_family/reference_projection.py:368-386 | a replaceable template has one call and one source literal, so the branch that raises during replacement cannot be taken |
| `Projection.Scanner.Walk` | custom_components/true_family/reference_projection.py:252-293 | the recursive walk that appends to two lists computes the scan |
| `Projection.Replacer.ReplaceAt` | custom_components/true_family/reference_projection.py:311-337 | the recursive copy with a shared counter computes the replacement and its count |
| `Projection.ReplaceSemanticReferences` | custom_components/true_family/reference_projection.py:298-339 | scan and replacement together return the rewriting and as many replacements as scanned paths |
| `MigrationCoordinator.ReferenceMigrationCoordinator.Apply` | custom_components/true_family/reference_migration.py:664-821 | an apply ends complete with every document at its postimage, rolled back with every fetched document verified at its original, or blocked; every other exit makes no write; a blocked coordinator refuses; undisturbed, every world in between is one a crash can be recovered from; without a fault a startable plan is always applied, and when the one fault of the call strikes a document write, before or after its effect, it always ends rolled back |
| `MigrationCoordinator.RecoverAfterCrash` | custom_components/true_family/reference_migration.py:618-662 | from any world an undisturbed apply or recovery leaves, a fresh coordinator finds the plan complete with all postimages, or brings or finds every planned document at its original payload |
| `MigrationCoordinator.ReferenceMigrationCoordinator.RecoverIncomplete` | custom_components/true_family/reference_migration.py:618-662 | recovery applies exactly to incomplete plans; without faults and other writers it restores every planned document and unblocks unless another plan is incomplete; a failure blocks; a crash during recovery is recoverable again |
| `MigrationCoordinator.ReferenceMigrationCoordinator.CreatePlan` | custom_components/true_family/reference_migration.py:425-616 | planning is refused while blocked; an issued plan covers the whole inventory, has nothing blocked, and its postimages are the replacements; without faults a plan is issued exactly when the request is valid, the authority names the subject, every document can be planned, and an expected reference exists |
| `MigrationCoordinator.ReferenceMigrationCoordinator.PlanDocument` | custom_components/true_family/reference_migration.py:518-558 | a document is planned, as it stands, exactly when its payload is valid and writable and its scan blocks nothing |
| `MigrationCoordinator.ReferenceMigrationCoordinator.constructor` | custom_components/true_family/reference_migration.py:388-407 | a fresh coordinator knows exactly the completed plans, each with its recorded completion, and is blocked exactly when an incomplete one is journaled |
| `MigrationCoordinator.ReferenceMigrationCoordinator.Execute` | custom_components/true_family/reference_migration.py:694-784 | from the preflight on: changes, journaled originals, writes, verification, and one of the three ends |
| `MigrationCoordinator.ReferenceMigrationCoordinator.BuildChanges` | custom_components/true_family/reference_migration.py:694-708 | the replacement of every planned document gives its planned postimage, and the branch for a differing count cannot be taken |
| `MigrationCoordinator.ReferenceMigrationCoordinator.JournalOriginals` | custom_components/true_family/reference_migration.py:712-731 | every original is journaled before the first write, and documents stay as they are |
| `MigrationCoordinator.ReferenceMigrationCoordinator.WriteChanges` | custom_components/true_family/reference_migration.py:733-759 | writes go one by one, each read back; with one faulty write the attempted documents cover all that may have changed, and with any other one faulty call a written document is overlooked |
| `MigrationCoordinator.ReferenceMigrationCoordinator.RestoreOriginals` | custom_components/true_family/reference_migration.py:1034-1096 | without faults, restoring succeeds exactly when the attempted documents cover everything that changed; no failure reported means the whole inventory matches the fetched originals in content, writability and membership |
| `MigrationCoordinator.ReferenceMigrationCoordinator.RestoreOne` | custom_components/true_family/reference_migration.py:1042-1065 | one restoration writes the original back only over the postimage and verifies it |
| `MigrationCoordinator.ReferenceMigrationCoordinator.VerifyInventory` | custom_components/true_family/reference_migration.py:1066-1083 | without faults the full verification succeeds exactly when the keys, contents and writability match the originals, whatever the revisions are |
| `MigrationCoordinator.ReferenceMigrationCoordinator.VerifyEach` | custom_components/true_family/reference_migration.py:1084-1095 | the per-document verification finds every difference, and only differences or faults |
| `MigrationCoordinator.ReferenceMigrationCoordinator.VerifyApplied` | custom_components/true_family/reference_migration.py:760-762 | the final pass succeeds only with every document at its postimage and the subject unchanged |
| `MigrationCoordinator.ReferenceMigrationCoordinator.Finish` | custom_components/true_family/reference_migration.py:786-821 | a completion is recorded before the complete state; if either cannot be persisted the coordinator blocks |
| `MigrationCoordinator.ReferenceMigrationCoordinator.RollBack` | custom_components/true_family/reference_migration.py:763-784 | a failed apply restores and reports failed, or blocks; without further faults it restores exactly when the attempted documents cover everything that changed |
| `MigrationCoordinator.ReferenceMigrationCoordinator.WriteOne` | custom_components/true_family/reference_migration.py:735-759 | one write with its read-back: a faulty write counts as attempted exactly when its postimage is there; a faulty read-back after the write took effect leaves the document changed and not attempted |
| `MigrationSafety.CoveredMatches` | custom_components/true_family/reference_migration.py:1034-1096 | restoring the attempted documents of a recoverable world brings every original back exactly when they cover what changed |
| `MigrationExamples.UnreadWriteIsNotCovered` | custom_components/true_family/reference_migration.py:744-759 | a concrete recoverable migration whose only write took effect but could not be read back: what was attempted does not cover it, what was journaled does |
| `MigrationCoordinator.ReferenceMigrationCoordinator.ReplayCompleted` | custom_components/true_family/reference_migration.py:1098-1115 | without faults a completed plan replays exactly while every document is at its recorded snapshot and the subject is unchanged; otherwise it latches in memory |
| `MigrationCoordinator.ReferenceMigrationCoordinator.FetchInventory` | custom_components/true_family/reference_migration.py:898-932 | the fetched inventory is exactly the documents of the providers asked for, when nobody writes meanwhile |
| `MigrationSafety.PostimageIsClean` | custom_components/true_family/reference_migration.py:1021-1032 | for a valid request the postimage of a template-free document has no old reference left, so the last check of the final pass cannot fire for it |
| `MigrationPlan.RecordedCompletionIsValid` | custom_components/true_family/reference_migration.py:1305-1385 | every completion an apply records passes the check a later coordinator makes of it |
| `MigrationPlan.PlannedReplacement` | custom_components/true_family/reference_migration.py:699-708 | replacing in a planned document counts exactly the planned paths and gives the planned postimage |
| `MigrationPlan.PlanIdsDoNotCollide` | custom_components/true_family/reference_migration.py:605-612 | two sound plans with one ID are equal, the replacement count included; that the ID determines the content is the assumption that its hash is injective, and only under it the collision branch cannot be taken |
| `MigrationPlan.RewritingKeepsShallow` | custom_components/true_family/reference_migration.py:1388-1434 | replacement keeps payloads valid, nesting bound included |
| `MigrationWorld.Deployment.WriteDocument` | custom_components/true_family/reference_migration.py:1155-1186 | a document is replaced only at the expected revision and when writable; an exception may come before or after the effect |
| `MigrationWorld.Deployment.RecordOriginal` | custom_components/true_family/reference_migration.py:1217-1239 | an original is journaled once per document; the same again is accepted, a different one refused |
| `MigrationWorld.Deployment.RecordCompletion` | custom_components/true_family/reference_migration.py:1280-1286 | only a valid completion, and never a different one for the same plan, is recorded |
| `MigrationWorld.Deployment.SetState` | custom_components/true_family/reference_migration.py:1241-1253 | a state is recorded or the call raises, before or after its effect |
| `ProbeRuns.OneResultId` | custom_components/true_family/physical_probe.py:837-921 | once a record of an operation carries a result ID, no later record carries a different one |
| `ProbeRuns.NothingClaimedAfterRemediation` | custom_components/true_family/physical_probe.py:970-995 | with the restore intent at its default, no record after remediation carries an outcome, a result ID or cleanup permission |
| `ProbeRuns.OnlyExplicitIntentUnbinds` | custom_components/true_family/physical_probe.py:878-884 | a transition leaves remediation, or a restore bound to it, exactly when it is a restore begun with the explicit intent not to end in remediation |
| `ProbeExamples.ExplicitIntentCanClaim` | custom_components/true_family/physical_probe.py:856-884 | a concrete run where that explicit intent ends in a result after remediation |
| `ProbeRuns.ThreeSlotsStayFree` | custom_components/true_family/physical_probe.py:1782-1802 | in every reachable record the used sequences number at most ten plus the restore attempts, and three slots are free |
| `ProbeRuns.RestoreNeverLacksCapacity` | custom_components/true_family/physical_probe.py:885-921 | while attempts remain and the sequence is fresh, whether a restore begins depends on phase, code, history, generation and time alone |
| `ProbeRuns.RestoreExactlyWhen` | custom_components/true_family/physical_probe.py:856-921 | the exact condition, for every valid record within the budget |
| `ProbeRuns.RemediationAlwaysLatches` | custom_components/true_family/physical_probe.py:970-995 | from every valid record, at the generation cap too, remediation latches exactly with an allowed failure code |
| `ProbeRuns.VerifiedMeans` | custom_components/true_family/physical_probe.py:739-854 | a reachable verified record rests on five proofs in order, at the canonical targets, with five different sequences, each accepted before a deadline within the operation deadline of the arm, which also lies after the end of settling |
| `ProbeTransitions.VerifiedIsNotResumed` | custom_components/true_family/physical_probe.py:923-942 | a run ends verified only if a new restore attempt was begun after its last restore resumed by a restart |
| `ProbeTransitions.ReuseExactlyWhen` | custom_components/true_family/physical_probe.py:923-942 | the exact condition for resuming a restore, and the whole record it yields: another boot, a new deadline, and a failure code from then on |
| `ProbeTransitions.ProofAcceptedExactlyWhen` | custom_components/true_family/physical_probe.py:739-854 | the exact condition for accepting a proof of a valid record: phase, boot, target, sequence, deadline, and room for what follows |
| `ProbeTransitions.FailSafeExactlyWhen` | custom_components/true_family/physical_probe.py:943-968 | a safe failure is available exactly before the challenge, on the bound boot, with an allowed code |
| `ProbeTransitions.ResumeExactlyWhen` | custom_components/true_family/physical_probe.py:997-1054 | an unfinished operation can be bound to a new request exactly before the challenge, by a fresh one with a later deadline, in time; and the whole record it yields |
| `ProbeTransitions.ProofsAreTimely` | custom_components/true_family/physical_probe.py:739-854 | in every run an accepted proof came within its window since it was last asked for, and within the operation |
| `ProbeTransitions.RequestDeadlinesClimb` | custom_components/true_family/physical_probe.py:997-1089 | in every run the deadlines of accepted requests climb, so none is accepted twice |
| `ProbeTransitions.RequestIdsAreFresh` | custom_components/true_family/physical_probe.py:997-1089 | while a record stays bound to one boot no request ID is accepted twice |
| `ProbeRuns.AcknowledgeExactlyWhen` | custom_components/true_family/physical_probe.py:1056-1089 | the exact condition for acknowledging a valid record: a pending result, the right boot, result ID and time, a fresh request with a later deadline, and a generation and a request slot left |
| `ProbeRuns.AcknowledgeableExactlyWhen` | custom_components/true_family/physical_probe.py:1056-1139 | a result can be acknowledged by some call at some time exactly when its record has a generation, a request slot and a request deadline left |
| `ProbeExamples.VerifiedAtTheCapCannotBeAcknowledged` | custom_components/true_family/physical_probe.py:1091-1139 | a concrete run, 58 rebinds to fresh boots and then the five proofs, ends in a verified result at the generation cap that no acknowledgement whatever is accepted for |
| `ProbeExamples.VerifiedBelowTheCapCanBeAcknowledged` | custom_components/true_family/physical_probe.py:1056-1139 | with one rebind fewer the same result can be acknowledged |
| `ProbeRuns.RunIsSound` | custom_components/true_family/physical_probe.py:739-1139 | the invariant of every record in a run, stronger than the validator, and the log of acceptances |
| `ProbeRuns.NextIsValid` | custom_components/true_family/physical_probe.py:1131-1139 | no transition changes the operation deadline or the targets, and every record it yields passes the validator |
| `ProbeRuns.NextExtends` | custom_components/true_family/physical_probe.py:739-854 | a transition adds at most the accepted proof, and a new expected command gets an unused sequence |
| `ProbeRuns.NextStaysSealed` | custom_components/true_family/physical_probe.py:1614-1635 | after a result, only its own phases, remediation with a settled history, or a restore with all five proofs can follow |
| `ProbeRecord.ValidateProofs` | custom_components/true_family/physical_probe.py:1614-1635 | the single pass over stored proofs accepts exactly ordered, known, canonical proofs |
| `PermitRuns.ProofMeansClosed` | custom_components/true_family/mqtt.py:334-408 | while there is a closed proof the bridge is online, and from the proof on only well-formed, closed, unretained bridge/info came, and no bridge/state |
| `PermitRuns.EveryOpenFollowsAClose` | custom_components/true_family/mqtt.py:586-686 | every open that passed the baseline, the first one and the first after a shutdown included, comes directly after a close of its own subscription that was acknowledged and then proved by bridge/info newer than its request, before the open was requested |
| `PermitRuns.OpensAreSeparated` | custom_components/true_family/mqtt.py:586-686 | two opens that passed the baseline, on either side of shutdowns or not, are separated by such a close of the later one's subscription; within one subscription it was requested no earlier than the first open |
| `PermitRuns.CloseIsAcknowledged` | custom_components/true_family/mqtt.py:653-682 | a close is proved only when acknowledged, by a closed state newer than its request with nothing unsafe in between |
| `PermitRuns.BaselineExactlyWhen` | custom_components/true_family/mqtt.py:563-584 | of the baseline's conditions only the proof and its age decide; the others follow |
| `PermitRuns.OpenIsAttributed` | custom_components/true_family/mqtt.py:602-621 | an open that succeeds was acknowledged, and a live bridge/info after its request says open until the requested end |
| `PermitVerdicts.OpenVerdictMeans` | custom_components/true_family/mqtt.py:602-621 | an acknowledged open fails on any message since its request that is not live, well-formed bridge/info, and on any open state among them that does not fit it; it succeeds only if every one fits, and then exactly when one came |
| `PermitVerdicts.FirstMessageDecides` | custom_components/true_family/mqtt.py:602-621 | after the acknowledgement the first message, whatever it is and whenever it comes, makes the open succeed, fail or wait by its content and time alone |
| `PermitVerdicts.NextMessageDecides` | custom_components/true_family/mqtt.py:804-841 | so does every further one: foreign or late open states fail it, closed ones change nothing |
| `PermitVerdicts.UndisturbedOpen` | custom_components/true_family/mqtt.py:586-621 | a fitting state and the acknowledgement, in either order and in time, make an open succeed |
| `PermitVerdicts.OpenStartsExactlyWhen` | custom_components/true_family/mqtt.py:586-601 | an open starts exactly while idle on a proof at most 15 seconds old, for 15 to 60 seconds |
| `PermitVerdicts.AcknowledgedExactlyWhen` | custom_components/true_family/mqtt.py:434-484 | a request in progress is acknowledged exactly by its own live, successful response with its own duration |
| `PermitVerdicts.CloseVerdictExactlyWhen` | custom_components/true_family/mqtt.py:658-682 | a close fails exactly when a message since its request was not live, well-formed bridge/info, and is proved exactly when all were, one came, and the last says closed |
| `PermitVerdicts.CloseStartsExactlyWhen` | custom_components/true_family/mqtt.py:628-656 | a close is published while the bridge last said online, waits while it was never heard, and fails otherwise |
| `PermitVerdicts.WaitingCloseExactlyWhen` | custom_components/true_family/mqtt.py:628-656 | a waiting close meets the same three cases at each look |
| `PermitVerdicts.UndisturbedClose` | custom_components/true_family/mqtt.py:628-682 | an acknowledgement and then a closed state prove a close and restore the baseline for 15 seconds |
| `PermitRuns.RunSound` | custom_components/true_family/mqtt.py:334-894 | the invariant over counters, message log and request in progress that every run keeps |
| `PermitRuns.ClassifyEffect` | custom_components/true_family/mqtt.py:804-841 | classifying a state changes only the attribution and the count of unattributed opens |
| `PermitClient.Zigbee2MqttClient.BridgeStateReceived` | custom_components/true_family/mqtt.py:334-359 | the bridge/state callback as a function of the state before |
| `PermitClient.Zigbee2MqttClient.BridgeInfoReceived` | custom_components/true_family/mqtt.py:361-408 | the bridge/info callback as a function of the state before |
| `PermitClient.Zigbee2MqttClient.JoinResponseReceived` | custom_components/true_family/mqtt.py:434-484 | the response callback: acknowledge, reject, or fail the pending request |
| `PermitClient.Zigbee2MqttClient.ClassifyOpenState` | custom_components/true_family/mqtt.py:804-841 | an open state is attributed, held provisionally, or recorded as nobody's |
| `PermitClient.Zigbee2MqttClient.CommitProvisionalOpen` | custom_components/true_family/mqtt.py:864-878 | provisional evidence is accepted at the acknowledgement only if it still fits |
| `PermitClient.Zigbee2MqttClient.MarkUnsafe` | custom_components/true_family/mqtt.py:761-765 | an unsafe message drops proof and attribution |
| `PermitClient.Zigbee2MqttClient.OpenJoin` | custom_components/true_family/mqtt.py:586-597 | an open starts exactly from the closed baseline and consumes its proof |
| `PermitClient.Zigbee2MqttClient.ReconcileJoinClosed` | custom_components/true_family/mqtt.py:658-682 | one look of a close at the state: unsafe fails, a newer closed state proves, anything else waits |

## Left out

- HMAC, SHA-256 and canonical JSON text: injective constructors stand for them, accepted responses are authentic, and identifier patterns, byte limits and JSON lexical limits are not modelled (`encodable` stands for the journal's encoding bounds).
- HTTP framing, aiohttp, sockets, timeouts, Supervisor discovery and signals: a post is delivered or lost, and its reply is an input.
- SQLite internals, pragmas and schema checks: a transaction is one step on two maps.
- Sysfs, mount and certification records, held identity checks, directory and lock-file provisioning, fork handling, and `KeyboardInterrupt` or `SystemExit` during a save, which bypass the poison step.
- The file journal assumes that a sync that returns made its object durable, that only lock holders write, that the rename is one directory version, and that inode numbers are not reused within a run.
- Device read errors and the digest of each node in the ext4 reader; the model reads a fixed device.
- Async cancellation and executor threads: each serialized operation is one step, or a named sequence of steps.
- Jinja parsing: what the template inspector reports for a text is a parameter, so a replaced template is known character by character, and whether a rescan of it is clean depends on the parser.
- Object key order in JSON: mappings list their fields in key order, which is the order of the scan and of fingerprints.
- MigrationCoordinator.ReferenceMigrationCoordinator.CreatePlan: does not model the order in which documents enter a plan, the single-target shorthand of a request, or string revisions; targets come per provider and revisions are integers.
- MigrationCoordinator.ReferenceMigrationCoordinator.FetchInventory: malformed or duplicate listings cannot occur, since a provider's inventory is a map.
- Calls that only read the migration journal do not raise in the model.
- The "no other writer" assumption of the migration's final verification pass covers its reads and the journal writes that follow until the call returns.
- The probe's profile and candidate identity, topics, frame kind, request parsing, and status, ready and result messages; the profile's constants are those of the one supported valve.
- Bridge payload decoding in the Zigbee2MQTT client beyond the permit-join fields, bridge/event messages, listener notifications, subscription failures and retry; times are whole seconds.
- physical_probe_preflight.py, backend/replacement.py and bootstrap.py: comparisons with constants and smaller invariants.
- Home Assistant adapters, config flow, climate proxies, WebSocket API, the frontend and release scripts.
