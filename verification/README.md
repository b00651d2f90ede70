# Nodepool: what its coordination code keeps

Nodepool hands cloud nodes to a CI system. Several launchers and builders share records in
ZooKeeper; each keeps watch-driven caches, takes locks, launches and deletes instances, scans
their host keys, counts quota, and retains images. This project models that code in Dafny and
proves what it keeps over every run, and, where the code does not keep something, exactly when
it does, with an input that shows the difference.

| files | what they model |
|---|---|
| TreeCache, TreeCacheRuns, TreeCacheProofs, TreeCacheTheorems, TreeCacheLocks, ZkPaths | the cache of a ZooKeeper subtree: two queues, asynchronous fetches, mzxid suppression, the resynchronising walk; next to a store that keeps changing |
| Handler, RequestHandler | one request handler: filling a node set over several calls, polling it to its end |
| Allocation, AllocationProofs, AllocationSteps, AllocationTheorems, AllocationRuns, AllocationLeaks, AllocationEffects, AllocationCleaners | the protocol of handlers, cleanup workers and consumers over shared records under locks |
| Launcher, LauncherRuns, LauncherOutcomes, AwsMachines | launching one node: create machine, delete machine and nodescan in a retry loop; the AWS machines as an adapter |
| Quota, QuotaAdmission, QuotaProvider, QuotaRuns | quota arithmetic in place, the cached cloud quota, admission, and runs of several pools |
| ImageBackup, ImageRetention, ImageBuilds | export and import of image records, which uploads a cleanup pass keeps, builds against stale passes |
| Nodescan, NodescanOutcomes, NodescanWorker | the host key scan and its bounded worker |
| Uploader | chunked uploads and EBS blocks |
| Wrappers | Option |

Code that updates objects in place is a class here, each method proved against a function of
the old state; runs are sequences of steps of a step relation over such values, and the main
results quantify over all of them. ZooKeeper appears as its guarantees: exclusive locks,
ordered watches, answers no older than the question, sequence numbers that count the children
ever created. Answers of the network, of the cloud and of clocks are inputs of the steps.

Results that differ from what the code or its notes promise:

* Data that does not decode leaves a stale object in the tree cache (UpToDateIffDecodable,
  UndecodableWriteGoesStale, StalenessIsReached); otherwise a drained cache is the store.
* The node sets of two live handlers can meet, in a node one of them has already let go,
  once it is free and unallocated, and only then (NodesetsMeetOnlyAfterRelease,
  NodesetsMeetIff, NodesetsCanMeet).
* A poll that cannot store the fulfilled request can never repair it (FailedStoreIsNeverRepaired, GetsStuck).
* The max-ready-age worker re-checks a node's state under the lock but not its allocation, and
  can mark a node of a fulfilled request (MaxReadyAgeTakesIff, HandoverIsReached,
  HandoverCanBeTaken).
* A handler that raises between locking a node and adding it to its set leaves the lock behind
  until its session ends (StraysIff), and nothing else does (LocksAreKnown).
* A restart that raises inside the retry leaves the old create machine in charge
  (ReadyNeedsMachineAndScan, StaleMachineBecomesReady); a READY that cannot be stored is
  kept locally while the next attempt begins (ReadyStaysIffStored).
* An AWS create request that is still pending may already have made an instance that the
  external id does not name, and only then (NamesAllButThePending, PendingIffCanHide,
  PendingRequestsHideResources).
* The cloud quota, unlike pool limits, is not kept by pools that ask concurrently
  (RaceOverrunsTheCloud), but exactly if each admission leaves room for what the other pools
  have pending (CheckIsSafeIff, SafeIff, SafeThroughoutIffGuarded).
* A build can be lost to a cleanup pass if its worker loses the image lock between deciding and
  storing READY, and only then (ReadyIsLostIff, TheLockCanBeLost); and while its worker still holds
  the lock if it FAILED, or is READY but not among the two most recent (UnderTheLockGoesIff,
  FailedBuildsMayGoUnderTheLock, ReadyBuildsMayGoUnderTheLock).
* A connect that succeeds at once leaves the scan in START, which then opens another socket
  without closing the first (ArmedIff, CompleteScansCloseAllIff, ImmediateConnectLeaks).

## Model
| member | source | states |
|---|---|---|
| TreeCache.NodepoolTreeCache.ResetQueues | nodepool/zk/zookeeper.py:772-800 | a (re)start replaces both queues and keeps objects and known paths |
| TreeCache.NodepoolTreeCache.EventWorkerTurn | nodepool/zk/zookeeper.py:859-911 | the event at the head leaves the event queue and, unless ignored, enters the playback queue with a fetch exactly when it is not a delete and its path has a key or it is a walk event; nothing else changes |
| TreeCache.NodepoolTreeCache.PlaybackWorkerTurn | nodepool/zk/zookeeper.py:912-1000 | one playback: what happens to known paths and objects, including suppression by mzxid and by a local lock, the removal on empty data, and the early exits; LockedIsLeftAlone and VersionsGoForward say what that comes to |
| TreeCache.NodepoolTreeCache.EmitUnseen | nodepool/zk/zookeeper.py:850-857 | the walk ends with one NONE event, each exactly once, for every known path it did not see |
| TreeCacheProofs.StepKeepsInv | nodepool/zk/zookeeper.py:760-1000 | every step of store, watch, fetch, worker, walk, session loss and restart keeps the coherence invariant |
| TreeCacheProofs.PlaybackSettles | nodepool/zk/zookeeper.py:935-1000 | playing back the last item pending for a path leaves the path coherent with the store |
| TreeCacheProofs.WriteKeepsPath | nodepool/zk/zookeeper.py:880-911 | a write owes its path an event that no older item can hide |
| TreeCacheProofs.RestartRestoresInv | nodepool/zk/zookeeper.py:772-816 | whatever the lost session left behind, a restart re-establishes the invariant for every path, the walk owing an event to each path the store or the cache knows |
| TreeCacheProofs.WalkReachesAll | nodepool/zk/zookeeper.py:823-857 | a walk that has begun owes every stored path an event, through the ancestor it still has to list, while the tree keeps changing |
| TreeCacheTheorems.EveryRunIsCoherent | nodepool/zk/zookeeper.py:760-1000 | in every run and for every path: the youngest pending item reads data at least as new as the store's, or the cached entry is the store's, or the walk still owes the path an event |
| TreeCacheTheorems.DrainedCacheIsTheStore | nodepool/zk/zookeeper.py:772-1000 | once the walk is over and both queues are drained, known paths are the store's and, path by path: no data, no object; decodable data, an object, and exactly the stored version unless that object was locked locally since the cache last wrote it; whatever happened before and to other paths |
| TreeCacheTheorems.UpToDateIffDecodable | nodepool/zk/zookeeper.py:960-1000 | a drained cache is up to date about an object exactly when the stored data is absent, empty or decodes |
| TreeCacheTheorems.UndecodableWriteGoesStale | nodepool/zk/zookeeper.py:960-1000 | one undecodable write leaves the previous object in a drained cache: documentation promises agreement, the code keeps the stale entry |
| TreeCacheTheorems.StalenessIsReached | nodepool/zk/zookeeper.py:760-1000 | such a run from a fresh cache: walk, drain, one undecodable write, drain |
| TreeCacheTheorems.QueuesDrain | nodepool/zk/zookeeper.py:859-934 | from any state the two workers alone can empty every queue, without changing the store |
| TreeCacheLocks.LockedIsLeftAlone | nodepool/zk/zookeeper.py:960-1000 | no step but the process's own changes an object it has locked; it goes exactly when an item is played back that found its data gone |
| TreeCacheLocks.HolderSeesItsOwnWrites | nodepool/zk/zookeeper.py:960-1000 | in every run from locking to unlocking in which the data is never found gone, the holder sees what its own writes and refreshes made of its object and nothing else |
| TreeCacheLocks.VersionsGoForward | nodepool/zk/zookeeper.py:975-990 | an object is replaced only by a newer version, never while locked, and only by playing an item back |
| TreeCacheLocks.PlaybackIsLocal | nodepool/zk/zookeeper.py:912-1000 | playing an item back changes at most the object of its own key and its own path; one whose fetch failed changes nothing |
| TreeCacheLocks.FetchedIff | nodepool/zk/zookeeper.py:880-911 | events of the session and of the root are ignored; any other is queued last, and waits for a fetch exactly if it is no delete and what a fetch finds can make a difference to some cache |
| TreeCacheLocks.DeletesDoNotWait | nodepool/zk/zookeeper.py:880-1000 | a delete at the head of the queue is played back at once and takes path and object away |
| ZkPaths.JoinSplit | nodepool/zk/zookeeper.py:1239-1330 | joining the components of a path gives the path back |
| ZkPaths.SplitJoin | nodepool/zk/zookeeper.py:1239-1330 | splitting joined components gives them back, when none holds a slash |
| ZkPaths.ParseLeafIff | nodepool/zk/zookeeper.py:1336-1379 | exactly which paths a node, request or image parser accepts for an id, its blind spot after the root included |
| ZkPaths.ParseLeafInvertsBuilder | nodepool/zk/zookeeper.py:1333-1379 | below its own root a leaf parser accepts for an id exactly the path its builder makes, if the id has no slash and is not the lock directory |
| ZkPaths.RequestLockParsesAsRequest | nodepool/zk/zookeeper.py:1364-1381 | off its own root the request parser accepts too much: a request's lock directory, outside the tree the request cache watches, would parse as the request |
| ZkPaths.LeafConfigIsValid | nodepool/zk/zookeeper.py:1120-1148 | the node and request caches meet what the tree cache needs of a parser: distinct paths of their tree have distinct keys |
| ZkPaths.ImageConfigIsValid | nodepool/zk/zookeeper.py:1057-1103 | the image cache meets it too, over the layout the builders use |
| ZkPaths.FixedComponentsAreNotRead | nodepool/zk/zookeeper.py:1277-1318 | that layout is needed: build parsers accept any text where a fixed component belongs |
| ZkPaths.UploadPathRoundTrip | nodepool/zk/zookeeper.py:1300-1318 | the parser inverts the upload path builder |
| Handler.LabelRecorder.Pop | nodepool/driver/__init__.py:328-339 | the first record of the label goes and its id is returned; without one the name is unbound |
| Handler.LabelRecorder.RemoveNode | nodepool/driver/__init__.py:341-348 | the first record with the id goes, the rest stays in order |
| Handler.NeededCount | nodepool/driver/__init__.py:453-459 | the types still needed are the multiset difference of requested and recorded ones |
| Handler.PopAllIff | nodepool/driver/__init__.py:775-779 | popping the requested types one after the other misses none exactly when each is recorded as often as requested |
| Handler.PopAllIds | nodepool/driver/__init__.py:775-779 | what is popped is, for each requested type in order, a record of that type, each record once |
| RequestHandler.NodeRequestHandler.TryReuse | nodepool/driver/__init__.py:466-512 | the first candidate of this pool that is granted the lock and is still READY and unallocated when re-read under it joins set and recorder together; none such, nothing changes |
| RequestHandler.NodeRequestHandler.SatisfyType | nodepool/driver/__init__.py:463-583 | one needed type: the first reusable candidate joins, or where there is none a new node, BUILDING, allocated and locked, exactly if the quota has room; a refused quota declines a min-ready request, pauses another one with its set as it was, or lets it go undeclined where the driver does not wait |
| RequestHandler.NodeRequestHandler.SatisfyAll | nodepool/driver/__init__.py:463-583 | after the loop the handler is done, paused, or complete; it is stopped only by a refused quota, with the same outcome, and a new node joins only where the quota had room |
| RequestHandler.GetReadyNodesOfTypes | nodepool/zk/zookeeper.py:2732-2752 | the keys are wanted labels some node has, and under each are exactly the READY unallocated nodes that have it |
| RequestHandler.NodeRequestHandler.Run | nodepool/driver/__init__.py:605-710 | from any valid state: recorded ids are the node set's, labels a sub-multiset of the requested types, an unpaused, not-done handler has all of them, a request that is not wanted is given up, a refused quota ends as above, and new nodes joined only where the quota had room |
| RequestHandler.NodeRequestHandler.MarkDeclined | nodepool/driver/__init__.py:687-699 | a pool is added to declined_by at most once and the request fails exactly when every registered pool is in it |
| RequestHandler.NodeRequestHandler.UnlockNodeSet | nodepool/driver/__init__.py:660-685 | every node of the set ends unlocked, allocations cleared exactly if asked and locked, others untouched, and the set is emptied |
| RequestHandler.NodeRequestHandler.DeclineRequest | nodepool/driver/__init__.py:632-654 | declining ends the handler, empties the set and deallocates every locked node |
| RequestHandler.NodeRequestHandler.SortOut | nodepool/driver/__init__.py:730-743 | aborted nodes leave the set and are unlocked; failures are remembered |
| RequestHandler.NodeRequestHandler.ForgetAborted | nodepool/driver/__init__.py:764-769 | the recorder loses exactly the aborted ids |
| RequestHandler.PoppedNodes | nodepool/driver/__init__.py:775-779 | what a complete handler pops is one distinct node of its set per requested type, the i-th carrying the i-th type |
| RequestHandler.NodeRequestHandler.PopInOrder | nodepool/driver/__init__.py:775-779 | the popped ids are appended to request.nodes in order; a pop misses exactly when the recorder lacks a requested type |
| RequestHandler.NodeRequestHandler.Poll | nodepool/driver/__init__.py:718-787 | an active poll keeps the handler valid and settled; otherwise the outcome is decided by failures, then aborts, then completeness, a fulfilled request lists one distinct node per requested type in order, and whenever that ends the handler its nodes are unlocked, with their records kept, or deallocated if the request is gone |
| RequestHandler.Live | nodepool/driver/__init__.py:701-787 | over every sequence of runs, polls and node changes: while the handler lives, set and recorder are in step and an unpaused, not-done handler has all its types; if it ends with the request fulfilled, the request lists one distinct READY node per type, the i-th carrying the i-th type and allocated to the request; no pop misses, since a poll raises only where storing does |
| RequestHandler.GetsStuck | nodepool/driver/__init__.py:605-787 | such a handler from its construction: one run, every launch READY, one poll whose store fails, and every later poll raises |
| RequestHandler.FailedStoreIsNeverRepaired | nodepool/driver/__init__.py:775-787 | if storing the fulfilled request fails, every later poll misses its first pop, for ever |
| AllocationSteps.StepKeepsInv | nodepool/launcher.py:604-654 | every step of handlers, requestors, cleanup workers, the lost-request worker, consumers, orphaned launchers and session expiry keeps the protocol invariant |
| AllocationSteps.LockReadyKeeps | nodepool/driver/__init__.py:466-490 | locking a node picked from any cached version of its record never takes one just stored INIT |
| AllocationSteps.StoreLostNodeKeeps | nodepool/launcher.py:617-649 | the lost-request worker may deallocate what it re-read under the lock; LostNodesAreFreed says what it writes |
| AllocationSteps.DeleterRemovesNodeKeeps | nodepool/zk/zookeeper.py:2712-2730 | deleting removes the lock before the node; the window between harms no handler |
| AllocationTheorems.HandlersOwnDisjointNodes | nodepool/driver/__init__.py:466-583 | in every run no node is owned by two live handlers, nodes just stored and not yet locked included |
| AllocationTheorems.NodesetsMeetOnlyAfterRelease | nodepool/driver/__init__.py:660-685 | the node sets of two live handlers meet, if at all, in a node one of them has unlocked after its request went away or its allocation was taken back |
| AllocationRuns.ReusesIff | nodepool/driver/__init__.py:466-512 | a handler with any nodes in hand can take a node by lock, re-check and store exactly if it is free, READY and unallocated |
| AllocationRuns.NodesetsMeetIff | nodepool/driver/__init__.py:466-512 | in every reachable state: a handler can bring a node of another handler's set into its own exactly if the other has let the node go and it is free, READY and unallocated; both sets then hold it |
| AllocationRuns.NodesetsCanMeet | nodepool/driver/__init__.py:660-685 | a run in which they do: one handler has let the node go and not yet emptied its set, the other reuses it |
| AllocationTheorems.FulfilledRequestsShareNoNode | nodepool/driver/__init__.py:775-787 | no two existing FULFILLED requests list the same node |
| AllocationTheorems.FulfilledNodesAreNobodysWork | nodepool/driver/__init__.py:775-787 | no live handler owns a node of an existing fulfilled request |
| AllocationTheorems.LockAfterCreateSucceeds | nodepool/driver/__init__.py:569-573 | the lock taken right after storing a new node always succeeds |
| AllocationTheorems.OwnedNodesAreUntouched | nodepool/launcher.py:892-985 | no step of anybody else, a cleanup worker above all, writes a node a live handler owns |
| AllocationTheorems.HandlerWritesWhatItHolds | nodepool/driver/__init__.py:500-583 | a handler writes only nodes it has locked, or a new one |
| AllocationTheorems.CleanerWritesWhatItHolds | nodepool/launcher.py:717-985 | a cleanup worker writes only the node it has locked, or the one whose lock it has just removed to delete it |
| AllocationTheorems.LockHoldersSeeTheStore | nodepool/zk/zookeeper.py:2447-2514 | a lock holder's refreshed copy is the stored record; for a node being deleted its owner is |
| AllocationTheorems.OnlyMaxReadyAgeTakesAllocated | nodepool/launcher.py:717-777 | of all cleanup work only the max-ready-age worker can mark a READY node allocated to an existing request |
| AllocationTheorems.MaxReadyAgeTakesIff | nodepool/launcher.py:755-777 | it can take an unlocked one exactly when the node's record was once READY and unallocated; the request is left listing a node marked for deletion |
| AllocationRuns.HandoverIsReached | nodepool/launcher.py:755-777 | a run that ends in what the condition asks for: a free READY node of a fulfilled request, once seen READY and unallocated |
| AllocationRuns.HandoverCanBeTaken | nodepool/launcher.py:755-777 | a run from the empty system: build, fulfil, retire, reuse, fulfil, and the worker leaves an existing fulfilled request listing a node marked for deletion |
| AllocationTheorems.StepMovesRequest | nodepool/driver/__init__.py:687-787 | the life cycle of a request: the only changes any step makes to an existing one |
| AllocationTheorems.TerminalIsForever | nodepool/driver/__init__.py:687-787 | FULFILLED and FAILED are never left while the request exists |
| AllocationTheorems.EachPoolDeclinesOnce | nodepool/launcher.py:164-170 | over a whole run each pool declines a request at most once |
| AllocationTheorems.FailsWhenTheLastPoolDeclines | nodepool/driver/__init__.py:687-699 | an existing request is FAILED exactly when every registered pool has declined it |
| AllocationEffects.NewNodesAreAllocated | nodepool/launcher.py:617-649 | in every run no node is INIT and unallocated, a record that no cleanup worker would ever look for |
| AllocationEffects.LostNodesAreFreed | nodepool/launcher.py:617-649 | what the lost-request worker stores leaves the node unallocated, unlocked, its state kept unless it was INIT, and then marked for deletion and fit for the deleting worker |
| AllocationEffects.FulfilledAfter | nodepool/driver/__init__.py:775-787 | the only step that makes a request fulfilled is its handler's, with the nodes in the order of its plan |
| AllocationEffects.FulfilsWithItsSet | nodepool/driver/__init__.py:775-787 | in every run the request then lists exactly the handler's node set, each node allocated to it |
| AllocationEffects.OnlyHoldersAllocate | nodepool/driver/__init__.py:500-583 | no step but that of the handler at work on a request allocates a node to it, and the allocation ends exactly when the handler gives it back, the request is retired, or a cleanup worker deallocates it |
| AllocationEffects.GivingUpGivesBack | nodepool/driver/__init__.py:660-685 | in every run, when a handler that gave up declines or forgets its request no node of its set is allocated to it |
| AllocationEffects.DecliningReopens | nodepool/driver/__init__.py:687-699 | in every run a handler that gave up leaves an existing request open, or FAILED if all registered pools have declined, its own decline added, its lock given back and nothing else changed |
| AllocationEffects.AbandonedLaunchesGoOn | nodepool/driver/__init__.py:632-654 | the launch of a node goes on after its handler has let it go exactly if the handler gave up on the request, and leaves the node free and unallocated |
| AllocationLeaks.StraysIff | nodepool/driver/__init__.py:466-583 | a lock its holder no longer knows of comes about exactly when a handler raises between locking a node and adding it to its set, and goes exactly when the session does |
| AllocationLeaks.LocksAreKnown | nodepool/driver/__init__.py:466-583 | in every run without such a raise each node lock is one its holder knows of and will give back |
| AllocationLeaks.RequestLocksAreKnown | nodepool/driver/__init__.py:605-654 | in every run a request's lock is known to its holder or the request is gone |
| AllocationCleaners.WorkerGoesOnIff | nodepool/launcher.py:717-985 | under the lock each cleanup worker goes on exactly if the record is what it is for, and otherwise gives the lock back |
| AllocationCleaners.WorkerFinds | nodepool/launcher.py:717-985 | in every run that is still so when it writes; of a node to delete, its allocation |
| AllocationCleaners.WorkerWrites | nodepool/launcher.py:717-985 | its write deallocates a READY node of a gone request and marks any other node for deletion, allocation kept, all others untouched, and gives the lock back |
| AllocationCleaners.DeletionIff | nodepool/launcher.py:892-985 | a free node can be taken through to its deletion exactly if its state is one nobody wants any more; then node and lock are gone |
| AllocationCleaners.ResetIff | nodepool/launcher.py:604-654 | a lost request is handed back exactly if it is unlocked and PENDING: open again, listing nothing, unlocked |
| Launcher.StateMachineNodeLauncher.FirstStartEnds | nodepool/driver/statemachine.py:82-137 | the thread pool has run the first startStateMachine: there is a create machine exactly if it did not raise |
| Launcher.StateMachineNodeLauncher.RunDeleteStateMachine | nodepool/driver/statemachine.py:193-238 | one turn of the delete machine: when it is dropped, replaced or kept, and that the turn in which it completes still reports work |
| Launcher.StateMachineNodeLauncher.HandleException | nodepool/driver/statemachine.py:307-393 | the except clauses: what becomes of node, machines, scan and attempts, and when the handler itself raises |
| Launcher.StateMachineNodeLauncher.AdvanceCreate | nodepool/driver/statemachine.py:284-306 | from the advance of the create machine to the submission of the nodescan |
| Launcher.StateMachineNodeLauncher.RunStateMachine | nodepool/driver/statemachine.py:240-402 | one call of runStateMachine, as a function of the launcher and of what it meets |
| LauncherRuns.RunKeeps | nodepool/driver/statemachine.py:240-402 | one turn keeps the launcher's invariant |
| LauncherRuns.UndeletedIsOneAttempts | nodepool/driver/statemachine.py:240-402 | whatever this launcher made and still exists was made by one attempt, and the node's or the current machine's external id names it |
| LauncherRuns.AtMostOneInstance | nodepool/driver/statemachine.py:225-231 | with one instance per create machine, at most one is undeleted over all attempts |
| LauncherRuns.NoAdvanceBeforeDeletion | nodepool/driver/statemachine.py:280-284 | a create machine advances only when all that other machines made is gone |
| LauncherRuns.AttemptsAreBounded | nodepool/driver/statemachine.py:82-95 | attempts never exceed max(1, retries) |
| LauncherRuns.ReadyNeedsMachineAndScan | nodepool/driver/statemachine.py:254-271 | a node becomes READY only with a complete machine and a successful scan of the current attempt; the machine is the current attempt's exactly when the attempt's startStateMachine did not raise |
| LauncherRuns.ReadyStaysIffStored | nodepool/driver/statemachine.py:269-279 | READY is final exactly when it is stored; otherwise the launcher goes on to the next attempt, or raises, with a node that calls itself READY |
| LauncherRuns.FailedIsNeverStored | nodepool/driver/statemachine.py:307-380 | FAILED is the launcher's own view of a node; it never stores it |
| LauncherRuns.StaleMachineBecomesReady | nodepool/driver/statemachine.py:378-393 | a run in which a restart raises and the previous attempt's machine, its instance deleted, makes the node READY |
| LauncherOutcomes.TimedOutTurn | nodepool/driver/statemachine.py:275-278 | a turn past the launch timeout drops the scan and is the attempt's end: it raises exactly if the handler's store or the restart does, leaves the node FAILED exactly if attempts are used up, and otherwise deletes and begins the next attempt |
| LauncherOutcomes.FailedScanTurn | nodepool/driver/statemachine.py:254-271 | so does a failed scan |
| LauncherOutcomes.SuccessfulScanTurn | nodepool/driver/statemachine.py:254-271 | a successful scan makes the node READY and stores it, unless the write raises, which ends the attempt by what it raised |
| LauncherOutcomes.BeforeTheMachine | nodepool/driver/statemachine.py:240-253 | before the first start is over nothing happens; a first start that failed ends the attempt by what it raised |
| LauncherOutcomes.AdvancesIff | nodepool/driver/statemachine.py:280-284 | the create machine advances exactly when nothing is left to delete |
| LauncherOutcomes.DeletingTurn | nodepool/driver/statemachine.py:193-238 | until then a turn only drives the delete machine, which keeps what it deletes |
| LauncherOutcomes.QuietAdvance | nodepool/driver/statemachine.py:284-306 | an advance in which nothing raises: the id is recorded and stored once there is one, the scan submitted once the machine is complete |
| LauncherOutcomes.RaisingAdvance | nodepool/driver/statemachine.py:307-393 | an advance that raises: a quota error aborts the node for good and uses up no attempt, a lost session stores nothing, anything else ends the attempt |
| LauncherOutcomes.TimeoutsEnd | nodepool/driver/statemachine.py:332-393 | each timed-out turn that does not raise uses up one attempt, and the last one leaves the node FAILED and the launcher stopped |
| LauncherOutcomes.LaunchingEnds | nodepool/driver/statemachine.py:332-393 | from any reachable state there are at most max(1, retries) of them |
| AwsMachines.AwsDeleteStateMachine.Advance | nodepool/driver/aws/adapter.py:286-319 | one advance of the AWS delete machine |
| AwsMachines.CompleteMeansGone | nodepool/driver/aws/adapter.py:269-319 | with truthful listings the delete machine is complete only when instance and host are gone, and touches the host only once the instance is |
| AwsMachines.DeletesIff | nodepool/driver/aws/adapter.py:286-319 | an advance completes the delete machine exactly if what it still awaited is seen gone, the instance first and then the host |
| AwsMachines.AwsCreateStateMachine.Advance | nodepool/driver/aws/adapter.py:357-424 | one advance of the AWS create machine |
| AwsMachines.NamesAllButThePending | nodepool/driver/aws/adapter.py:322-424 | the create machine's external id names all that is alive of what it made, but for what a pending request has made |
| AwsMachines.PendingIffCanHide | nodepool/driver/aws/adapter.py:393-404 | the condition is exact: the cloud can make something the external id does not name exactly while a request is pending |
| AwsMachines.PendingHidesWhatItMakes | nodepool/driver/aws/adapter.py:393-404 | in every run, at every pending request: whatever new thing the cloud makes for it is not named |
| AwsMachines.PendingRequestsHideResources | nodepool/driver/aws/adapter.py:393-404 | a run from the start: an instance exists and the external id is empty |
| AwsMachines.CreatesIff | nodepool/driver/aws/adapter.py:357-424 | an advance completes the create machine exactly if it has a good host, where it needs one, and a good instance; it raises exactly if one of them fails or the finished instance's quota cannot be read |
| AwsMachines.CompleteHasEverything | nodepool/driver/aws/adapter.py:357-424 | in every run a complete machine has an instance, and a host if it is to have its own |
| Quota.Category.AddSubtract | nodepool/driver/utils.py:226-232 | one inner dictionary combined in place |
| Quota.QuotaInformation.constructor | nodepool/driver/utils.py:190-215 | the initial totals |
| Quota.QuotaInformation.AddSubtract | nodepool/driver/utils.py:220-232 | the in-place loops compute the combined totals, create no sharing and leave the operand alone |
| Quota.QuotaInformation.IsNonNegative | nodepool/driver/utils.py:240-245 | true exactly when no listed amount is negative |
| Quota.QuotaInformation.DeepCopy | nodepool/driver/utils.py:316-318 | the copy has the same totals and shares no dictionary |
| QuotaAdmission.CombinedAt | nodepool/driver/utils.py:220-238 | for a zero-default finite operand, add and subtract are pointwise on every category and resource, listed or not |
| QuotaAdmission.AddsCommute | nodepool/driver/utils.py:234-238 | two additions commute, as whole objects |
| QuotaAdmission.FoldIgnoresOrder | nodepool/driver/utils.py:345-387 | the used quota does not depend on the order of the node list |
| QuotaAdmission.GuardIff | nodepool/driver/statemachine.py:605-612 | limit minus used minus needed is non-negative exactly when used plus needed is within the limit everywhere |
| QuotaProvider.QuotaSupport.EstimatedNodepoolQuota | nodepool/driver/utils.py:301-343 | the cache is kept while younger than MAX_QUOTA_AGE or when the cloud does not answer, and otherwise holds the answer less the unmanaged use; what is handed out is a copy that shares nothing with it |
| QuotaProvider.QuotaSupport.EstimatedNodepoolQuotaUsed | nodepool/driver/utils.py:345-387 | the sum over the provider's (or pool's) nodes of their recorded or declared resources, unknown pools and labels skipped |
| QuotaProvider.QuotaSupport.HasRemainingQuota | nodepool/driver/statemachine.py:568-612 | yes exactly when used plus needed is within the cloud quota (unless ignored) and, resource by resource, within the pool's cores, instances, ram and extra limits, an unset one bounding nothing; the cache, object, age and totals, ends as the estimate alone would leave it, and stays fit for the next question |
| QuotaProvider.PoolLimitIs | nodepool/driver/statemachine.py:591-612 | being within the limits object built for a pool is the same as each resource being within the maximum configured for it |
| QuotaProvider.NodeCountsFor | nodepool/driver/utils.py:345-387 | a node counts exactly if it is the provider's, the pool's if one is given, and its pool and label are configured; for what the cloud reported, or else what the label declares |
| QuotaProvider.TwoQuestions | nodepool/driver/utils.py:301-343 | how two questions share one cache: the second gets the first answer while that is younger than five minutes and the cloud's new one from then on |
| QuotaProvider.UnansweredQuestion | nodepool/driver/utils.py:301-343 | where the cloud does not answer the last answer serves on, however old, and is as old as it was |
| QuotaRuns.UsedIsUsedAt | nodepool/driver/utils.py:345-387 | the totals object answers the plain sum of the nodes' shares |
| QuotaRuns.PoolLimitsHold | nodepool/driver/statemachine.py:568-612 | in every run, from usage within limits, a pool's nodes stay within every limit of the pool, whatever other pools and cleanup do between question and store |
| QuotaRuns.CheckIsSafeIff | nodepool/driver/statemachine.py:576-589 | one admission leaves all that is used and pending within the cloud quota exactly when used plus all pending plus needed is: the guard the question leaves the pending part out of |
| QuotaRuns.SafeIff | nodepool/driver/statemachine.py:576-589 | used plus pending within the cloud quota is the exact point of no return: as long as it holds no order of stores overruns the quota, and once it does not, storing what has been admitted does |
| QuotaRuns.SafeThroughoutIffGuarded | nodepool/driver/statemachine.py:568-612 | a run of several pools stays safe throughout exactly when the guard held at each of its admissions, and then keeps the cloud quota |
| QuotaRuns.SerialRunsKeepTheCloudLimit | nodepool/driver/statemachine.py:576-589 | in particular when no pool ignores the cloud quota and each admission is stored before the next question |
| QuotaRuns.RaceOverrunsTheCloud | nodepool/driver/__init__.py:443-451 | two pools that ask before either stores fail the guard and overrun the cloud quota, as the source's note says |
| ImageBackup.ParsePadded | nodepool/zk/zookeeper.py:3035-3041 | the number read off a sequence node's name is the one it was made from |
| ImageBackup.ZooKeeper.ExportImageData | nodepool/zk/zookeeper.py:2973-3003 | the nested listings collect exactly the pause flags, builds and uploads of the tree |
| ImageBackup.ZooKeeper.HighestNumbers | nodepool/zk/zookeeper.py:3035-3041 | the first loop finds the highest number below every upload parent |
| ImageBackup.ZooKeeper.ReserveNumber | nodepool/zk/zookeeper.py:3043-3050 | a reservation never collides, uses up one number and leaves no node that is not imported |
| ImageBackup.ZooKeeper.ImportImageData | nodepool/zk/zookeeper.py:3005-3063 | on an empty store: every record is there, nothing else but what is above records, and the next sequence number below any upload parent is one more than the highest imported |
| ImageBackup.ZooKeeper.Restore | nodepool/zk/zookeeper.py:2973-3063 | export, import into an empty store and export again gives the same backup |
| ImageBackup.BackupIsImportable | nodepool/zk/zookeeper.py:2973-3003 | what an export of a tree yields can be imported, and lists each upload's build |
| ImageBackup.BackupOfRestored | nodepool/zk/zookeeper.py:3051-3063 | a tree of exactly the imported records and the nodes above them backs up to the imported data |
| ImageRetention.CountTopTwo | nodepool/builder.py:214-219 | sorting and keeping two answers every question of how many are as recent as t, up to two, as the whole list does |
| ImageRetention.ImageRecords.MostRecentUploads | nodepool/zk/zookeeper.py:1965-1991 | two READY uploads of a build, every other READY one covered by two as recent |
| ImageRetention.ImageRecords.BuildUploadRecencyTable | nodepool/builder.py:188-219 | the table is a global top two: its rows are READY uploads of READY builds, and each such upload is a row or no newer than two rows |
| ImageRetention.LeftOutIsOlder | nodepool/builder.py:188-219 | an upload left out is no newer than two different rows |
| ImageRetention.ImageRecords.IsRecentUpload | nodepool/builder.py:221-234 | true exactly for rows of the table |
| ImageRetention.ImageRecords.DeleteUpload | nodepool/builder.py:309-349 | an upload goes exactly if nobody is making or holding it and the cloud lets go of its image; otherwise it is at most marked, and one being made or held stays as it is; no other changes |
| ImageRetention.ImageRecords.CleanBuild | nodepool/builder.py:568-641 | one build of a pass, exactly: protected uploads and their build stay; a build that is neither kept nor in progress is marked once all its uploads are being deleted and goes with the last of them; uploads of providers no longer listing the image are dealt with either way |
| ImageRetention.ImageRecords.CleanupImage | nodepool/builder.py:547-641 | rows are safe for providers still listing the image; of a configured image's READY builds only those go that are no newer than two it keeps; and unless a mark fails every build is cleaned up: gone with its uploads if all of them can be removed |
| ImageRetention.ImageRecords.CleanupPass | nodepool/builder.py:377-395 | a pass over an otherwise unchanging store neither marks nor deletes a row, nor its build, for a provider still listing the image, and cleans up every build that is neither kept nor in progress |
| ImageBuilds.StepKeepsInv | nodepool/builder.py:777-842 | every step of build workers, cleanup passes and session loss keeps the invariant |
| ImageBuilds.BuildsBeingMadeAreSpared | nodepool/builder.py:356-375 | no pass, however stale, marks or deletes a build whose worker holds the image lock and has not stored its result |
| ImageBuilds.FinishedBuildsAreSpared | nodepool/builder.py:356-375 | nor one its snapshot has as BUILDING that was stored READY under the lock since |
| ImageBuilds.ReadyWithoutTheLockIsTaken | nodepool/builder.py:822-842 | a worker that stores READY without the lock, whoever has it, loses the build to a pass that took it for abandoned |
| ImageBuilds.ReadyIsLostIff | nodepool/builder.py:356-375 | the exact condition: a worker about to store READY can lose the build to a pass that has it as BUILDING if and only if it no longer holds the image lock and the build is still stored BUILDING, or taken for abandoned already and not yet deleted |
| ImageBuilds.SparedForever | nodepool/builder.py:356-375 | otherwise no continuation of the run, as long as the worker keeps its session, makes the build one that such a pass can take |
| ImageBuilds.TheLockCanBeLost | nodepool/builder.py:822-842 | a run that reaches such a state |
| ImageBuilds.UnderTheLock | nodepool/builder.py:547-641 | in every run, what a pass however stale can do to a build whose worker still holds the image lock: nothing while it is being made, and afterwards only if the pass saw it FAILED, marked already, or READY in an image no longer configured or with two READY builds at least as recent |
| ImageBuilds.UnderTheLockGoesIff | nodepool/builder.py:547-641 | and exactly when one pass can take it: never while BUILDING, always once FAILED, once READY if and only if the image is not configured or two READY builds are at least as recent |
| ImageBuilds.LeftOutIff | nodepool/builder.py:566-568 | sorting the READY builds by time and keeping two can leave one out exactly when two others are at least as recent |
| ImageBuilds.FailedBuildsMayGoUnderTheLock | nodepool/builder.py:592-641 | a run from the empty system in which a FAILED build goes under its worker's lock |
| ImageBuilds.ReadyBuildsMayGoUnderTheLock | nodepool/builder.py:592-641 | a run in which a READY one does, its builder's clock being behind |
| ImageBuilds.LocksAreGivenBack | nodepool/builder.py:777-842 | in every run nobody who has finished still has the image lock |
| ImageBuilds.LostBuildsAreNeverReady | nodepool/builder.py:822-842 | a build during which its worker lost the session is never stored READY |
| Nodescan.AdvanceKeepsShape | nodepool/driver/statemachine.py:1394-1502 | one call of advance, whatever the network answers, keeps the scan in order |
| Nodescan.AdvanceGoesForward | nodepool/driver/statemachine.py:1383-1502 | once negotiated, a scan keeps its key types, never returns to an initial state, and every change brings it strictly closer to its end |
| Nodescan.ScansAreOrderly | nodepool/driver/statemachine.py:1383-1502 | a whole scan tries the offered key types in order, each at most once, returns at most one key per type, and has closed its current socket and transport once complete |
| Nodescan.NegotiatedScansEnd | nodepool/driver/statemachine.py:1394-1502 | it changes at most 2n + 1 times more, n being the key types left |
| Nodescan.AdvanceLeaksIff | nodepool/driver/statemachine.py:1356-1367 | one call of advance replaces at most one socket without closing it, and exactly when it starts a scan that still has one |
| Nodescan.ArmedIff | nodepool/driver/statemachine.py:1394-1450 | a call leaves a scan so exactly when a connect succeeded at once, on starting or after a failed negotiation |
| Nodescan.CompleteScansCloseAllIff | nodepool/driver/statemachine.py:1356-1502 | a complete scan has closed every socket it opened exactly when none of its calls met it in START with a socket |
| Nodescan.ImmediateConnectLeaks | nodepool/driver/statemachine.py:1356-1367 | a run: two calls, the first connect succeeding at once, lose a socket |
| NodescanOutcomes.StartSettles | nodepool/driver/statemachine.py:1394-1420 | where nobody is to be asked the first call completes the scan, failed exactly if the worker does not know it, with the fake key exactly if keys are wanted |
| NodescanOutcomes.WaitingIs | nodepool/driver/statemachine.py:1394-1502 | while what it waits for does not come a scan waits, starts over if a first connection is slow, and fails, closed, once its time is up |
| NodescanOutcomes.KeyTypeIs | nodepool/driver/statemachine.py:1450-1502 | a call records exactly the remote key of its negotiation, for the current key type, and moves to the next type exactly if the connection was refused or negotiated |
| NodescanOutcomes.ScansReturnOfferedKeys | nodepool/driver/statemachine.py:1383-1502 | in every scan each key is one some answer had, or the fake one |
| NodescanOutcomes.SmoothScan | nodepool/driver/statemachine.py:1383-1502 | where nothing goes wrong a scan takes a call per offered key type and returns the key of each, in order |
| NodescanWorker.NodescanRequest.Advance | nodepool/driver/statemachine.py:1394-1502 | advance in place, as a function of the old fields and the answers |
| NodescanWorker.NodescanRequest.NextKey | nodepool/driver/statemachine.py:1383-1392 | closes, moves to the next key type or completes |
| NodescanWorker.NodescanWorker.AddRequest | nodepool/driver/statemachine.py:1167-1175 | the request enters exactly one list, the active one only below the maximum |
| NodescanWorker.NodescanWorker.Refill | nodepool/driver/statemachine.py:1223-1230 | pending requests move up oldest first until none or no room is left; nobody is lost |
| NodescanWorker.NodescanWorker.RemoveRequest | nodepool/driver/statemachine.py:1177-1189 | the request is closed and leaves both lists, everybody else stays in order |
| NodescanWorker.NodescanWorker.Turn | nodepool/driver/statemachine.py:1240-1249 | a turn advances the request, fails it on an exception, and removes it exactly when complete |
| Uploader.StartsTile | nodepool/driver/utils.py:640-643 | segments read until the next offset is past the end tile the file: offset = index * size, none empty, together the file |
| Uploader.UploadInner | nodepool/driver/utils.py:639-664 | the submitted segments are the file's; without a timeout at most 2 * concurrency are outstanding, and a normal return means that every upload succeeded |
| Uploader.BlocksFitTheVolume | nodepool/driver/aws/adapter.py:433-433 | every padded block lies inside the declared volume |
| Uploader.BlocksHoldTheImage | nodepool/driver/aws/adapter.py:456-465 | reading the blocks as a disk gives the image followed by zeros |

## Left out
- Logging, statistics, the web application, command line, configuration schemas, status tables and driver loading: no decisions to prove.
- Kubernetes, Azure, GCE and IBM machines: repeats of the AWS shape. The metastatic and openstack adapters are not part of this model.
- TreeCache: the pre- and post-cache hooks and lock contenders; object identity, represented by the locked flag and the set of objects changed locally; the recursion of the tree walk, represented by its explicit stack of visits; fetches that fail while the watch is up, which the code logs and drops.
- Allocation: the unlocked write of removeCompletedRequests is one step with the deletion of the request, taken while the request's nodes are unlocked; manual edits of records; priorities, tenant quota and the yielding between pools for requests that name a provider; which of several candidates the oldest-unused worker tries first, its five-minute pause and the age test of the max-age workers; ZooKeeper writes that fail for other reasons than a vanished record or a lost session; whether a declined request's READY nodes are deallocated.
- Allocation: session expiry drops the locks of any set of actors and ends what they were doing; the code's own retries after reconnecting are not modelled.
- RequestHandler: node ids are unique over runs and never seen before, as ZooKeeper's sequence numbers are; the path taken with PAUSE_AT_QUOTA false ends the handler and leaves the request PENDING for the lost-request worker.
- Launcher: the image, user and connection attributes copied to a node; statistics; the console log; the cloud's deletions are only those the delete machine asked for or the cloud makes on its own.
- AwsMachines.CompleteMeansGone: listings are taken to show what is alive; their caching and eventual consistency are not modelled.
- QuotaProvider.QuotaSupport.HasRemainingQuota: used and needed amounts are finite and zero by default, as everywhere in the code; floating point infinity minus infinity is not modelled. The volume limits' differently spelled key is one of the extra limits.
- QuotaRuns.PoolLimitsHold: nodes consume what their label declares, the node view is caught up and configuration does not change.
- ImageBackup: exactly one writer, as importImageData demands; locks below image records are not exported and not counted after the import.
- ImageRetention: one image at a time; the outer loops over images, the local files of a build and the pruning of formats are left out. Which locks other workers hold and what the cloud answers are arbitrary inputs, fixed for a pass.
- ImageBuilds: building itself, local files, manual build requests, and the uploads of a build, which can only delay that a pass marks and deletes it; a pass reads its builds at one moment.
- Nodescan: sockets and transports are flags, fail() closes both; fairness of a round of NodescanWorker.run, which removes from the list it iterates.
- NodescanWorker: adding, refilling and removing are atomic; a removal by another thread in the middle of an advance is not modelled.
- Uploader: the file does not change while it is read; the block count kept by the EBS uploader's threads; the float division before math.ceil, exact for sizes below 2^53; retries of single calls.
- RateLimiter, LazyExecutorTTLCache and StateMachineNodeDeleter: small members whose properties can be read off one body.
- Nothing was executed: every statement here is about the model.
