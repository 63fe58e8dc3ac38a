# Verified model of the CSI driver

A Dafny model of the storage logic of this Nomad CSI driver and proofs of what it promises over
every input, every failure and every run. `dafny verify dfyconfig.toml` checks all of it.

What is modelled, by component:

- **Directory walk pool** (`DirTree`, `WalkPool`, `WalkInvariant`, `WalkTheorems`, `ClosedWalks`,
  `WalkCode`). The pool is a state machine over the atomic steps of its goroutines, for any number of workers and
  concurrent walks. `WalkCode` is the same code run by one goroutine.
- **Volume statistics** (`StatsRegistry`, `RegistryHistory`, `StagedSessions`, `StatsSweep`). The
  registry, its grace-period eviction, and its rehydration from the host after a restart.
- **Host listings** (`Text`, `IscsiSessions`, `Mounts`, `Portals`). The parsers of iscsiadm and
  findmnt output, proved to undo those listings.
- **Session-leak guard** (`SessionReconciler`, `SweepHistory`). Which targets are logged out, over
  any sequence of sweeps.
- **Local backend** (`LocalId`, `Zfs`, `LocalOps`, `LocalRuns`, `LocalTheorems`, `LocalClones`,
  `LocalHalfway`, `LocalSizes`, `LocalCapacity`, `LocalRetry`, `LocalReserve`, `LocalCases`,
  `Placement`, `LocalCluster`). The zvol operations against a ZFS state, placement, and forwarding
  between nodes.
- **QNAP controller** (`QnapId`, `QnapController`, `QnapService`, `QnapIdentity`). The guarded
  destructive calls against an appliance that reuses indices, and the three ways a volume is named.
- **QNAP node** (`Attach`, `Teardown`, `TeardownTheorems`, `NodeRuns`, `NodeCases`). Stage and
  unstage, failed stages, restarts, and their runs.

`Base`, `Driver`, `Sums` and `StringOrder` hold shared definitions.

How the model is built. An operation that talks to the outside is a specification function from the
old state and the answers it gets to the new state and its result. The imperative method of the same
name is proved equal to that function, and the theorems are proved about the function. Failures are
part of the state or the arguments: a ZFS or appliance state carries a tape that makes each next
command succeed, fail before its effect, or fail after it; a sweep, stage or unstage takes a record
saying which of its commands work. A theorem holds for every tape and every record, except where its
own hypotheses say that some command works.

What is assumed of the outside. ZFS: creating or receiving onto an existing dataset is refused, a
destroy without recursion is refused while there are snapshots, sizes are rounded up to the block,
thick volumes are charged their full size and a received copy the size it captured, snapshots are
free, and size queries answer for zvols only. QNAP: calls act on the index they name. iscsiadm: a
logout ends the sessions of that target on that portal, with the default port understood. Text is
taken as bytes and white space as the ASCII kind.

Where the code does less than its documentation says, the code is modelled and the exact condition
is proved:

- localCreate is described as idempotent by name and size; a restore or clone whose source is larger
  than the request, or whose blocks the request does not fit, cannot be repeated, nor can a fresh
  create of a size that is no multiple of its block, which CreateVolume never asks for
  (`LocalRetry.RetryExactlyWhen`). A create that fails half way is refused
  from then on exactly when it left a dataset of another size or without its source
  (`LocalRetry.RepeatRefusedExactly`).
- The capacity guard looks at the request, not at what a copy takes: a larger source spends the
  reserve (`LocalReserve.CreateSpendsExactly`, `LocalCases.LargerCloneSpendsReserve`).
- A clone can leave its transient snapshot on the source (`LocalClones.CloneSparesItsSource`).
- The eviction grace counts consecutive passes since the last eviction only
  (`RegistryHistory.EvictedExactlyAfterGrace`, `RegistryHistory.RetrackedStartsOver`).
- A walk on a closed pool may report no error and too few entries
  (`WalkTheorems.ClosedPoolUndercounts`, `ClosedWalks.ClosedPoolCountsNothing`).
- sanitizeName keeps double dots, which the id parser refuses (`LocalId.CreatedIdParses`).
- A shared target stays logged in for its other LUNs only if sessions can be counted
  (`TeardownTheorems.SharedLunSurvivesExactlyWhenCounted`), and a stage that finds no
  device logs it out regardless (`NodeRuns.StageKeepsExactly`). A stage that fails later leaves its
  sessions, on record (`NodeRuns.FailedStageLeavesExactly`).
- After a restart the unstage of any volume of a target can log out the one LUN of it that is attached,
  unless that LUN's map is found in use
  (`TeardownTheorems.ColdUnstageEndsForeignSessionExactly`).
- Teardown after a restart matches the cached one only for mapper-named mounts, one portal without
  multipath, or a last listed session of the own LUN (the three `Exactly` lemmas of
  `TeardownTheorems`).
- An erased volume context comes back only as far as the node's own portals, the SAN and the volume id
  allow (`Attach.ErasedContextIsRebuilt`); controller and node write some IPv6 portals differently
  (`Attach.AdvertisedIsNormalExactly`).
- The LUN number in the volume context is always 0, also on shared targets
  (`QnapIdentity.LunZeroIsTheVolumeExactly`).
- A QNAP clone does not check the name at its source index
  (`QnapController.CloneCopiesNamedExactly`).
- A QNAP delete takes a failed read for a LUN already gone
  (`QnapController.SuccessfulDeleteKeepsLunExactlyWhen`).
- The ownership flag of a created id is listed again only if the alias tells owned from shared
  targets (`QnapIdentity.CreatedIdIsListedId`).

## Model

| member | source | states |
|---|---|---|
| `WalkInvariant.StepKeeps` | internal/stats/walk.go:72-160 | Every step of every goroutine keeps the pool invariant: no lost wakeup, each WaitGroup equal to the items still queued or in hand, and each counter plus what is still pending plus what was skipped equal to the recursive count of its own tree. |
| `WalkInvariant.RunKeeps` | internal/stats/walk.go:43-160 | The invariant holds after every interleaving of walks, workers, cancellations and a close. |
| `WalkInvariant.InitInv` | internal/stats/walk.go:50-68 | A new pool, with any worker count, satisfies the invariant. |
| `WalkTheorems.WaitGroupIsOutstanding` | internal/stats/walk.go:72-160 | In every reachable state the WaitGroup is the number of outstanding items, never negative; a waiting caller may go on exactly when nothing of its walk is left anywhere. |
| `WalkTheorems.WalkReportsItsTree` | internal/stats/walk.go:134-160 | In every run, for any number of concurrent walks sharing the workers: reported plus skipped entries are the recursive count of that walk's own tree, and a walk that returns no error on an open pool reports exactly that count, for files, directories and other entries. |
| `WalkTheorems.SettledStays` | internal/stats/walk.go:144-160 | Once nothing of a walk is outstanding no step changes its counters, so the loads after the wait read one consistent value. |
| `WalkTheorems.ClosedPoolUndercounts` | internal/stats/walk.go:72-104 | The open-pool condition is needed: on a closed pool a walk of a tree with one file returns no error and no counts. |
| `ClosedWalks.ClosedPoolCountsNothing` | internal/stats/walk.go:72-160 | The other half: in every run, a walk whose root is submitted to a closed pool reports nothing and no directory error, so it is exact if and only if its tree is empty. |
| `WalkTheorems.StepLowersWork` | internal/stats/walk.go:84-160 | Every worker and caller step lowers a natural-number measure of the work left. |
| `WalkTheorems.RunIsBounded` | internal/stats/walk.go:84-160 | A run of worker and caller steps is no longer than the work left at its start. |
| `WalkTheorems.SomeStepEnabled` | internal/stats/walk.go:84-160 | No deadlock: while a walk has not returned, some worker or caller can step, also after close and cancel. |
| `WalkTheorems.EveryRunDrains` | internal/stats/walk.go:43-160 | From every reachable state the internal steps come to an end, and then every walk has returned, every WaitGroup is zero, the queue is empty, and after a close every worker has exited. |
| `WalkCode.ErrAgg.Add` | internal/stats/walk.go:200-217 | Every error is counted, the first sixteen are kept in order. |
| `WalkCode.Pool.Submit` | internal/stats/walk.go:72-82 | An open pool queues the directory; a closed one drops it and takes the job's token back. |
| `WalkCode.Pool.Process` | internal/stats/walk.go:106-132 | One directory: tokens move by what was queued minus its own, and counters plus queued trees grow by exactly the directory's recursive count when nothing failed, never by more. |
| `WalkCode.Pool.Walk` | internal/stats/walk.go:144-160 | The whole walk run by one goroutine: the exact recursive counts when it returns no error on an open pool, never more than them, and the context error when cancelled. |
| `StatsRegistry.Registry.Track` | internal/stats/registry.go:83-108 | The tracked view after Track, including the empty id, the disabled registry and an already tracked volume. |
| `StatsRegistry.Registry.Untrack` | internal/stats/registry.go:110-124 | Untrack removes worker and cache entry of that volume only; its grace counter stays. |
| `StatsRegistry.Registry.Update` | internal/stats/registry.go:221-233 | A late result of a worker whose volume was untracked is dropped. |
| `StatsRegistry.Registry.CountAbsences` | internal/stats/registry.go:158-177 | The counting loop: who is evicted, and the counters left. |
| `StatsRegistry.Registry.TrackDesired` | internal/stats/registry.go:139-150 | The tracking loop: exactly the non-empty desired ids are tracked. |
| `StatsRegistry.Registry.EvictAll` | internal/stats/registry.go:179-185 | The eviction loop removes exactly the given volumes. |
| `StatsRegistry.Registry.Reconcile` | internal/stats/registry.go:126-185 | The whole pass: the registry and the evicted ids as functions of the old registry. |
| `StatsRegistry.TrackedAllKeeps` | internal/stats/registry.go:139-150 | Tracking a list adds exactly its ids, keeps validity and touches no grace counter. |
| `RegistryHistory.WorkersMatchAccess` | internal/stats/registry.go:83-185 | In every run of tracks, untracks, updates and passes, a cached volume has a worker exactly when its access type is not block. |
| `RegistryHistory.CounterIsStretch` | internal/stats/registry.go:152-185 | The grace counter of a volume is the length of the longest run of evicting passes up to now that found it cached, not desired, and spared it. |
| `RegistryHistory.EvictedExactlyAfterGrace` | internal/stats/registry.go:126-185 | Over every run, an evicting pass with grace g evicts a volume if and only if it is at least the g-th consecutive evicting pass since its last eviction to find it cached and not desired. |
| `RegistryHistory.RetrackedStartsOver` | internal/stats/registry.go:126-185 | A concrete run showing that passes before an eviction do not count towards the next one. |
| `RegistryHistory.AddOnlyDropsNothing` | internal/stats/registry.go:126-155 | A pass without eviction leaves exactly the old volumes and the desired ones. |
| `RegistryHistory.PassKeepsWanted` | internal/stats/registry.go:126-185 | No pass drops a cached volume that is desired. |
| `RegistryHistory.FreshPassTracksWanted` | internal/stats/registry.go:126-150 | On an empty registry any pass tracks exactly what is desired. |
| `RegistryHistory.GracePassesConverge` | internal/stats/registry.go:126-185 | From any valid registry, as many evicting passes as the grace leave exactly the desired volumes. |
| `IscsiSessions.ParseSessions` | internal/iscsi/iscsi.go:139-175 | The line loop computes the session list of the specification function. |
| `IscsiSessions.ParseUndoesListing` | internal/iscsi/iscsi.go:133-215 | Parsing undoes the iscsiadm listing: one session per LUN line, in order, with its own target, portal without tag, number and disk, whatever unrelated lines stand between and after. |
| `Mounts.UnescapeRaw` | internal/mountutil/mountutil.go:295-314 | The decoding loop computes the specified decoding; malformed escapes stay as they are. |
| `Mounts.UnescapeUndoesEscape` | internal/mountutil/mountutil.go:295-314 | Decoding undoes the hexadecimal escaping of any byte string, for any set of escaped characters with the backslash in it. |
| `Mounts.ParseMounts` | internal/mountutil/mountutil.go:275-293 | The line loop computes the mount list of the specification function. |
| `Mounts.ParseUndoesFindmnt` | internal/mountutil/mountutil.go:250-314 | Parsing undoes findmnt's raw listing for every list of mounts, spaces and newlines in paths included, with or without a final newline. |
| `Portals.NormalizedHostPort` | internal/driver/qnap/node.go:194-208 | A host:port stays as it is; a bare host gets port 3260. |
| `SessionReconciler.Reconciler.Group` | internal/driver/qnap/reconciler.go:98-128 | The grouping loop: exactly this plugin's targets, each with its portals and whether any session of it is mounted or cached. |
| `SessionReconciler.Reconciler.Act` | internal/driver/qnap/reconciler.go:130-158 | The acting loop: which timers start, stay and go, and exactly which logouts are attempted. |
| `SessionReconciler.Reconciler.Sweep` | internal/driver/qnap/reconciler.go:85-159 | One sweep: timers and logouts as functions of the old timers and the host. |
| `SweepHistory.TimerIsFirstSighting` | internal/driver/qnap/reconciler.go:85-159 | Over every sequence of sweeps a timer runs exactly while a streak of leak sightings is open, and shows the time of its first sighting. |
| `SweepHistory.AttemptedExactlyWhenLeaked` | internal/driver/qnap/reconciler.go:85-189 | Over every sequence of sweeps a target gets a logout attempt if and only if it is leaked now and has been in every completed sweep since a first sighting at least the grace ago. |
| `SweepHistory.LogoutsStayOurs` | internal/driver/qnap/reconciler.go:99-159 | Every logout goes to a portal of this plugin used by that very target, none of whose sessions is mounted or cached. |
| `StagedSessions.SameMountJoin` | internal/driver/qnap/node.go:135-163 | The mount join of the stats sweep and that of the leak guard decide alike for every device. |
| `StagedSessions.MountFor` | internal/driver/qnap/node.go:152-159 | The mount loop finds a mount of the device exactly when there is one. |
| `StagedSessions.StagingMountFor` | internal/driver/qnap/node.go:140-163 | A mount is found exactly when one backs some member device, directly or through its mapper. |
| `StagedSessions.DevicesByKey` | internal/driver/qnap/node.go:103-120 | The grouping loop: each owned (target, LUN) once, with exactly its devices. |
| `StagedSessions.StagedOn` | internal/driver/qnap/node.go:85-133 | Each owned (target, LUN) exactly once; mount access exactly when a device behind it is mounted. |
| `StatsSweep.MemoKeyInjective` | internal/driver/qnap/stats_reconcile.go:78-86 | Distinct sessions never share a memo entry, also for IQNs with slashes. |
| `StatsSweep.StatsReconciler.Sweep` | internal/driver/qnap/stats_reconcile.go:64-95 | One sweep: memo and registry as functions of the old ones; a failed listing changes nothing and an unresolved session makes the pass add-only. |
| `StatsSweep.ListedVolumeStaysTracked` | internal/driver/qnap/stats_reconcile.go:64-95 | Over every run, a tracked volume whose session is in every successful listing is never evicted, whatever listings and resolutions fail. Once the session was resolved to it the SAN may answer anything; before, it must not name another volume for it. |
| `StatsSweep.SweepRehydrates` | internal/driver/qnap/stats_reconcile.go:64-95 | From an empty registry one fully resolved sweep tracks exactly the staged sessions. |
| `StatsSweep.TwoSweepsConverge` | internal/driver/qnap/stats_reconcile.go:64-95 | From any valid registry, two like sweeps that resolve every session leave exactly the volumes they resolve to. |
| `StatsSweep.SweepResolvesStagedIdExactly` | internal/driver/qnap/sancache.go:102-146 | A sweep resolves a staged volume's session to the id it was created, and tracked, under if and only if the target lists its LUN at the session's number and the alias tells owned from shared as the creation did. |
| `LocalId.ExternalIDCodec` | internal/driver/local/externalid.go:28-48 | A string is accepted as an id if and only if the id is well formed and prints as that string. |
| `LocalId.SnapshotIDCodec` | internal/driver/local/externalid.go:61-93 | The same for snapshot ids, whose dataset itself contains slashes. |
| `LocalId.IdsDisjoint` | internal/driver/local/externalid.go:38-80 | No string is both a volume id and a snapshot id. |
| `LocalId.SanitizeName` | internal/driver/local/externalid.go:111-136 | The cleaning loop computes the character-wise cleaning. |
| `LocalId.SanitizedTwice` | internal/driver/local/externalid.go:111-136 | Cleaning twice is cleaning once. |
| `LocalId.CreatedIdParses` | internal/driver/local/externalid.go:84-136 | The id of a created volume is accepted again if and only if its cleaned name is not empty and has no double dot. |
| `LocalId.DottedNameIsRefused` | internal/driver/local/externalid.go:84-136 | The name "a..b" gets an id that no later call accepts. |
| `LocalRuns.CreateZvolKeeps` | internal/zfs/zfs.go:39-54 | Making a zvol, whatever fails: every volume and snapshot stays, and on success the new one has its size rounded up to its block and no recorded source. |
| `LocalRuns.SetVolsizeKeeps` | internal/zfs/zfs.go:113-119 | Growing a zvol, whatever fails: nothing shrinks or goes, and on success that volume alone has the rounded size. |
| `LocalRuns.SnapshotKeeps` | internal/zfs/zfs.go:147-153 | Taking a snapshot, whatever fails: no volume changes, no snapshot is lost, and on success the new one, absent before, has the volume's present size. |
| `LocalRuns.DestroySnapshotKeeps` | internal/zfs/zfs.go:156-162 | Dropping a snapshot, whatever fails: no volume changes and no other snapshot goes. |
| `LocalRuns.DestroyZvolKeeps` | internal/zfs/zfs.go:56-64 | Destroying a dataset, whatever fails: it goes only without snapshots, and no other volume or snapshot changes. |
| `LocalRuns.SendRecvKeeps` | internal/zfs/zfs.go:164-187 | Sending to a new dataset, whatever fails: only that dataset is touched, and on success it is a new volume of the captured size in the source's blocks. |
| `LocalRuns.CloneIndependentKeeps` | internal/zfs/zfs.go:164-187 | A finished independent clone is a new volume without any snapshot, and nothing else changed; an unfinished one leaves at most the copy and its snapshot. |
| `Zfs.Host.CloneIndependent` | internal/zfs/zfs.go:164-187 | Send and receive, then the inherited snapshot is dropped from the copy, as one command sequence. |
| `LocalOps.Node.LocalCreate` | internal/driver/local/localops.go:34-200 | Pool and dataset checks, then reuse, or restore, clone or fresh create with their clean-up, with every early return: the new state and the answer are those of the specification function the run theorems are about. |
| `LocalOps.Node.LocalDelete` | internal/driver/local/localops.go:202-233 | Existence, snapshot refusal and destroy, with every early return: the new state and the answer are those of the specification function the run theorems are about. |
| `LocalOps.Node.LocalExists` | internal/driver/local/localops.go:235-248 | One existence query, with every early return: the new state and the answer are those of the specification function the run theorems are about. |
| `LocalOps.Node.LocalExpand` | internal/driver/local/localops.go:286-328 | Block read, 64-bit rounding, limit and shrink refusals, resize and read-back, with every early return: the new state and the answer are those of the specification function the run theorems are about. |
| `LocalOps.Node.LocalSnapshot` | internal/driver/local/localops.go:330-355 | Snapshot, size and creation time, with every early return: the new state and the answer are those of the specification function the run theorems are about. |
| `LocalOps.Node.LocalDeleteSnapshot` | internal/driver/local/localops.go:357-376 | Existence and destroy, with every early return: the new state and the answer are those of the specification function the run theorems are about. |
| `LocalOps.Node.LocalStats` | internal/driver/local/localops.go:378-414 | The five queries behind placement, with every early return: the new state and the answer are those of the specification function the run theorems are about. |
| `LocalTheorems.RunKeepsInv` | internal/driver/local/localops.go:34-376 | In every run, with any command failing before or after its effect, no snapshot outlives its dataset. |
| `LocalTheorems.LiveVolumeOnlyGrows` | internal/driver/local/localops.go:34-376 | Over every run, a volume that stays alive never shrinks and never changes its recorded source. |
| `LocalTheorems.SnapshottedVolumeSurvives` | internal/driver/local/localops.go:202-233 | Over every run, a dataset with a snapshot survives the next operation, whatever it is. |
| `LocalTheorems.CreatedFromItsSource` | internal/driver/local/localops.go:34-186 | In every run, a create naming a source succeeds only for a dataset recorded as made from that source and at least as large as asked; a copy made by this call carries no snapshot. |
| `LocalClones.CopyLeavesTransient` | internal/driver/local/localops.go:155-186 | After a copy, whatever failed in it, the transient snapshot is on the source if and only if it was there before, or it was made by a command that then failed, or dropping it failed at once. |
| `LocalClones.CloneSparesItsSource` | internal/driver/local/localops.go:37-186 | In every run and for every way its own commands go, a cloning create leaves the transient snapshot if and only if a condition on the state and the tape before the call holds; otherwise the source has exactly the snapshots it had, unchanged, and the source itself never changes. |
| `LocalHalfway.CreateLeavesExactly` | internal/driver/local/localops.go:34-200 | Exactly what a create adds to the volumes, finished or not: nothing, or under its own name the dataset whose size and recorded source follow from the state and from how each command goes, counted from the first. |
| `LocalRuns.CreateKeeps` | internal/driver/local/localops.go:34-102 | A create, whatever fails in it, keeps the invariant, and every volume is still there afterwards, no smaller and with the same recorded source. |
| `LocalRuns.CloneKeeps` | internal/driver/local/localops.go:155-186 | The clone path, whatever fails in it: only the new dataset is touched, no snapshot is lost or changed, and on success the copy has the recorded source and at least the requested size. |
| `LocalRuns.RestoreKeeps` | internal/driver/local/localops.go:131-153 | The same for the restore path, which on success leaves exactly the snapshots there were; a malformed source touches nothing. |
| `LocalSizes.RoundedRequestCases` | internal/driver/local/localops.go:296-310 | The 64-bit rounding of a positive request is the least multiple of the block, or has wrapped to something not positive. |
| `LocalSizes.ExpandLeavesLeastMultiple` | internal/driver/local/localops.go:286-328 | For every positive 64-bit request, overflow included, a successful expand leaves and reports the least multiple of the volume's own block that is at least the request, within the limit and no smaller than before. |
| `LocalSizes.ExpandTwice` | internal/driver/local/localops.go:286-328 | After a successful expand, repeating it changes nothing whatever fails in the repeat, and reports the same size if and only if its two queries answer. |
| `LocalCapacity.RunConserves` | internal/zfs/zfs.go:258-265 | Over every run of operations, available bytes plus the sum of volume sizes is constant in every pool. |
| `LocalReserve.CreateSpendsExactly` | internal/driver/local/localops.go:34-200 | Whatever fails in it, a create takes from each pool exactly the size of the dataset it leaves. |
| `LocalReserve.ReserveIsNeverSpent` | internal/driver/local/localops.go:104-122 | Runs of creates, copies included, deletes, snapshots and queries, with any command failing, never take a pool below its reserve, as long as each create that leaves something is repeatable. |
| `LocalCases.LargerCloneSpendsReserve` | internal/driver/local/localops.go:155-200 | A concrete clone of a larger volume that passes the guard and takes the pool below its reserve. |
| `LocalCapacity.AcceptedNodePassesItsGuard` | internal/driver/local/localops.go:378-414 | A node whose stats accept a size passes its own capacity guard while its pool is unchanged. |
| `LocalCapacity.AcceptedNodeCreates` | internal/driver/local/localops.go:34-122 | So a fresh volume placed there is created. |
| `LocalRetry.RetryExactlyWhen` | internal/driver/local/localops.go:34-200 | For every state and every way the first call's commands went, a create that succeeded can be repeated if and only if, before the first call, its dataset was there, or the source of the copy had the requested size or was smaller with the request fitting its blocks, or the fresh size fitted its blocks; else the repeat is refused and changes nothing. |
| `LocalRetry.CreateOnExisting` | internal/driver/local/localops.go:54-79 | On an existing dataset, however it came about, a create is accepted if and only if size and, for a copy, recorded source are those asked for, and refused for good otherwise. |
| `LocalRetry.RefusedExactly` | internal/driver/local/localops.go:37-102 | Without failures, a create answers AlreadyExists if and only if its pool is online and its dataset is there but differs in size or, for a copy, in recorded source. |
| `LocalRetry.RepeatRefusedExactly` | internal/driver/local/localops.go:34-200 | For every state without the dataset and every way the commands of a create go, failed or not, repeating it without failures is refused, then and ever after, if and only if it left a dataset that is not what the request asks for. |
| `LocalCases.UnrecordedCloneIsRefused` | internal/driver/local/localops.go:155-186 | A concrete clone of the right size whose recording failed: refused on every repeat. |
| `LocalCases.LargerSourceIsRefusedOnRepeat` | internal/driver/local/localops.go:34-102 | A concrete clone of a larger volume that succeeds once and is then refused. |
| `LocalCases.TransientCanStay` | internal/driver/local/localops.go:155-186 | A concrete create that leaves its transient snapshot on the source. |
| `Placement.PickRoomiest` | internal/driver/local/controller.go:371-414 | The loop returns a roomiest eligible node, and Unavailable exactly when none is eligible. |
| `Placement.RoomiestIsUnique` | internal/driver/local/controller.go:371-414 | Among distinct names there is one roomiest node. |
| `Placement.OrderDoesNotMatter` | internal/driver/local/controller.go:371-414 | Any two answers of pickRoomiest on the same distinct, named peers in any order are equal, the refusal included. |
| `LocalCluster.WireKeepsResult` | internal/driver/local/forwardapi.go:202-231 | A result, error code included, is the same after crossing the wire. |
| `LocalCluster.ReceiversDoNotMatter` | internal/driver/local/controller.go:98-187 | For every sequence of requests and any two assignments of receiving controllers, all results, error codes included, and the final state of every node are the same. |
| `LocalCluster.RunHopsAndFrame` | internal/driver/local/controller.go:425-458 | A run makes one hop for each request received by a node that is not its owner and knows the owner, no other; a node that owns none of the requests ends as it began. |
| `LocalCluster.Controller.RunLocally` | internal/driver/local/forwardapi.go:122-200 | The dispatch runs the operation the request names. |
| `LocalCluster.Controller.Receive` | internal/driver/local/controller.go:98-187 | Serving a request, here or at its owner, has the specified result and cluster state. |
| `QnapId.ExternalIDRoundTrip` | internal/driver/qnap/externalid.go:35-58 | Parsing undoes printing for all 64-bit indices and slash-free names. |
| `QnapId.AcceptedIdIsCanonicalised` | internal/driver/qnap/externalid.go:35-58 | Every accepted id means the same as its reprint. |
| `QnapId.PrintExternalIDInjective` | internal/driver/qnap/externalid.go:35-41 | Distinct volumes have distinct ids. |
| `QnapId.SnapshotIDRoundTrip` | internal/driver/qnap/externalid.go:70-88 | Parsing undoes printing of snapshot ids, which are never volume ids. |
| `QnapController.DeleteSpares` | internal/driver/qnap/controller.go:273-341 | A delete of a named id, from any appliance state and with any call failing, leaves every LUN of another name with its size and snapshots, every target of another alias, and, on every target that stays, every mapping of a LUN of another name. |
| `QnapController.ExpandSpares` | internal/driver/qnap/controller.go:343-390 | The same for an expand, retried session included. |
| `QnapController.SnapshotVolumeSpares` | internal/driver/qnap/controller.go:343-412 | The same for a snapshot. |
| `QnapController.CallsSpareOtherVolumes` | internal/driver/qnap/controller.go:273-412 | Over every run mixing driver calls with arbitrary outside reuse of indices, every call on a named id leaves other LUNs, their snapshots, targets of other aliases, and the mappings of other LUNs on every target that stays. |
| `QnapController.DeleteRemovesItsOwn` | internal/driver/qnap/controller.go:273-341 | Without failures a delete removes its own LUN if and only if the index still holds it without snapshots, its own target if and only if the alias still matches, and is refused exactly while it has snapshots. |
| `QnapController.OtherLunOnOwnTarget` | internal/driver/qnap/controller.go:318-341 | The one way a delete reaches another LUN: mapped on the target the id owns, it loses that mapping if and only if the id owns the target and no snapshot holds the delete back. |
| `QnapController.NameIsTheGuard` | internal/driver/qnap/controller.go:287-296 | A LUN of another name at the index survives a delete if and only if the id carries a name. |
| `QnapController.SuccessfulDeleteKeepsLunExactlyWhen` | internal/driver/qnap/controller.go:273-326 | A delete that reports success has removed its LUN except exactly when its first read failed, or the delete command failed before its effect and the confirming read failed too. |
| `QnapController.FailedReadPassesForGone` | internal/driver/qnap/controller.go:286-289 | A concrete case: one failed read, and the LUN is still there after a successful delete. |
| `QnapController.CloneCopiesNamedExactly` | internal/driver/qnap/controller.go:118-132 | A clone that succeeds has copied the volume its source id names if and only if the index still holds that name; a snapshot is taken only then. |
| `QnapController.CloneCopiesReusedIndex` | internal/driver/qnap/controller.go:118-132 | A concrete clone of a volume that took over the index. |
| `QnapService.Service.EnsureLUNIsOurs` | internal/driver/qnap/controller.go:343-363 | The guard, with one retry after a session expiry, has the specified effect and status. |
| `QnapService.Service.RemoveLUN` | internal/driver/qnap/controller.go:297-317 | Snapshot check, unmap, delete and wait in order, as specified. |
| `QnapService.Service.DeleteVolume` | internal/driver/qnap/controller.go:273-326 | The whole delete as specified; a malformed id touches nothing. |
| `QnapService.Service.ResizeWithRetry` | internal/driver/qnap/client.go:87-104 | A resize and its wait, repeated once with a fresh login when the session expired. |
| `QnapService.Service.ExpandVolume` | internal/driver/qnap/controller.go:365-390 | The whole expand as specified; a malformed id or size touches nothing. |
| `QnapService.Service.CreateSnapshot` | internal/driver/qnap/controller.go:392-412 | The whole snapshot call as specified; a malformed id touches nothing. |
| `QnapIdentity.SanIdentityCache.Hydrate` | internal/driver/qnap/sancache.go:71-100 | One pair of listings replaces all three maps, or none. |
| `QnapIdentity.SanIdentityCache.ResolveIQN` | internal/driver/qnap/sancache.go:46-69 | The IQN from the cached or refreshed maps by age; nothing on a failed refresh. |
| `QnapIdentity.SanIdentityCache.ResolveExternalID` | internal/driver/qnap/sancache.go:102-146 | The id from the cached or refreshed maps by age, with both ways to pick the LUN. |
| `QnapIdentity.LunCache.EnsureFresh` | internal/driver/qnap/cache.go:42-75 | The nested loops build the index of the listing; a fresh or failed refresh changes nothing. |
| `QnapIdentity.LunCache.Remove` | internal/driver/qnap/cache.go:110-121 | A deleted index is no longer listed and nothing else changes in the listing. |
| `QnapIdentity.LunCache.ListVolumes` | internal/driver/qnap/controller.go:469-488 | The listing loop reports exactly the ids of the cached LUNs that have a target. |
| `QnapIdentity.AddAgreesWithListing` | internal/driver/qnap/cache.go:102-108 | After a create the cached listing is what the appliance would list. |
| `QnapIdentity.RemoveAgreesWithListing` | internal/driver/qnap/cache.go:110-121 | After a delete likewise. |
| `QnapIdentity.ListsServedVolumes` | internal/driver/qnap/controller.go:469-488 | An id is listed if and only if it is made of the two rows of a LUN mapped to a target. |
| `QnapIdentity.NodeRebuildsListedId` | internal/driver/qnap/sancache.go:102-146 | From a session's IQN and LUN number the node rebuilds the very id the controller lists. |
| `QnapIdentity.RebuiltIdIsListed` | internal/driver/qnap/sancache.go:102-146 | Whatever the node rebuilds is an id the controller lists. |
| `QnapIdentity.IdLeadsBackToIqn` | internal/driver/qnap/sancache.go:46-69 | The id of a served volume parses back and resolves to the IQN it was made for. |
| `QnapIdentity.ReusedIndexIsNotResolved` | internal/driver/qnap/sancache.go:46-69 | An id resolves if and only if its LUN index still has its name and its target index exists. |
| `QnapIdentity.CreatedIdIsListedId` | internal/driver/qnap/controller.go:179-241 | The id CreateVolume returned is listed later if and only if the target was made for the volume exactly when its alias is the LUN name. |
| `QnapIdentity.SharedAliasIsListedAsOwned` | internal/driver/qnap/controller.go:179-241 | A concrete shared target named like the LUN: the volume is created as sharing it and listed as owning it. |
| `QnapIdentity.CreatedIdIsRebuiltExactly` | internal/driver/qnap/sancache.go:102-146 | From a session's IQN and LUN number the node rebuilds the id a volume was created under if and only if its target lists its LUN at that number and the alias tells owned from shared as the creation did. |
| `QnapIdentity.LunZeroIsTheVolumeExactly` | internal/driver/qnap/controller.go:221-227 | CreateVolume tells the node LUN 0 for every volume: that is the volume's LUN if and only if its target lists it first. |
| `QnapIdentity.SecondLunGetsFirstNumber` | internal/driver/qnap/controller.go:221-227 | A concrete shared target whose second volume is told the first one's number. |
| `Teardown.MapWWID` | internal/multipath/multipath.go:109-132 | The line loop finds the map of a path device. |
| `Teardown.Members` | internal/multipath/multipath.go:134-154 | The line loop finds the path devices of a map. |
| `StringOrder.SortedKeys` | internal/driver/qnap/node.go:596-605 | The keys in order, each once. |
| `Teardown.NodeService.ReconstructFromMount` | internal/driver/qnap/node.go:318-368 | The identity the specification reads off the staging mount, with sorted portals. |
| `Teardown.NodeService.ReconstructFromSAN` | internal/driver/qnap/node.go:545-594 | The identity the specification reads off the SAN and the live sessions. |
| `Teardown.NodeService.ResolveTeardown` | internal/driver/qnap/node.go:299-316 | The cheapest source that answers: cache, mount, SAN. |
| `Teardown.NodeService.DeviceInUse` | internal/driver/qnap/node.go:370-403 | In use exactly when another mount has the staging path or the mapper as source, or the mapper is held open. |
| `Teardown.NodeService.LastLUNOnTarget` | internal/driver/qnap/node.go:421-442 | The refcount: exactly the own LUN, no LUN at all, or a failed listing. |
| `Teardown.NodeService.Logout` | internal/driver/qnap/node.go:279-284 | The logout loop ends exactly the target's sessions on the portals whose logout works. |
| `Teardown.NodeService.UnstageVolume` | internal/driver/qnap/node.go:243-297 | The whole unstage, with every listing, unmount, flush and logout free to fail, as specified. |
| `TeardownTheorems.UnstageEndsExactly` | internal/driver/qnap/node.go:243-297 | A session ends in an unstage if and only if the volume was identified on that target, was not in use, the session's portal was logged out, and, if sessions could be counted, no session of the target carried another LUN than the one identified. |
| `TeardownTheorems.WarmUnstageSparesOthers` | internal/driver/qnap/node.go:243-297 | An unstage that finds its volume in the cache never ends a session of another LUN while sessions can be counted. |
| `TeardownTheorems.ColdUnstageEndsForeignSessionExactly` | internal/driver/qnap/node.go:545-594 | After a restart, the unstage of any volume of a target, whatever its own LUN and even if never attached here, ends a session of the target if and only if it unmounts, the map it takes for its own is not found in use, and, if sessions can be counted, the session's LUN is the only one of the target attached here. |
| `TeardownTheorems.SharedLunSurvivesExactlyWhenCounted` | internal/driver/qnap/node.go:421-442 | A LUN sharing the target survives another's teardown if and only if the refcount listing worked or no logout reaches its portal. |
| `TeardownTheorems.ColdMatchesWarmExactlyForMapperNames` | internal/driver/qnap/node.go:318-368 | For every name findmnt may give the mount, a restarted node rebuilds from it exactly what the stage recorded if and only if it is the volume's mapper path; under a name that is no session's device it finds nothing. |
| `TeardownTheorems.RestartDetachesTheSame` | internal/driver/qnap/node.go:249-316 | Then a cold unstage has the same status and leaves the same mounts, maps and sessions as a warm one. |
| `TeardownTheorems.ColdWithoutMultipathExactlyForOnePortal` | internal/driver/qnap/node.go:326-368 | Without multipath a restarted node finds what the stage recorded if and only if one portal had been logged in. |
| `TeardownTheorems.SanTierExactlyForLastSession` | internal/driver/qnap/node.go:545-594 | For a block volume the SAN tier finds what the stage recorded if and only if the target's last listed session is of the volume's own LUN, as always on a dedicated target. |
| `TeardownTheorems.MemberHasWwid` | internal/multipath/multipath.go:109-154 | The two multipathd lookups agree: a member of a map has that map's WWID. |
| `TeardownTheorems.TeardownLeavesNothing` | internal/driver/qnap/node.go:243-297 | When nothing fails and no other LUN shares the target, no session of it is left, its map is gone and the node has forgotten the volume; all other sessions stay. |
| `Attach.TrimmedList` | internal/driver/qnap/node.go:615-624 | The loop keeps exactly the trimmed, non-blank entries in order. |
| `Attach.NormalizedList` | internal/driver/qnap/node.go:686-691 | The loop keeps exactly the normalised, non-empty configured portals in order. |
| `Attach.ResolveAttachIdentity` | internal/driver/qnap/node.go:645-722 | Every field from the context, else rebuilt, with each refusal, as specified. |
| `Attach.ScanForPort` | internal/driver/qnap/controller.go:569-579 | The scan from the end computes the specified test. |
| `Attach.AdvertisePortals` | internal/driver/qnap/controller.go:555-567 | The loop writes each configured portal as specified, in order. |
| `Attach.ErasedContextIsRebuilt` | internal/driver/qnap/node.go:626-722 | Whichever fields were erased, and whatever portals and SAN the node has, it attaches exactly where CreateVolume said if and only if the context is complete, or the id parses and each missing field comes back: the IQN from the SAN, the portals because the node's own are those advertised, the LUN number because the target is the volume's own. |
| `Attach.NoPortalsIsRefused` | internal/driver/qnap/node.go:681-692 | A node without portals of its own, the usual case, refuses an erased portal whatever the SAN knows. |
| `Attach.AdvertisedIsNormalExactly` | internal/driver/qnap/controller.go:555-579 | Controller and node write the same portal if and only if it is host:port as Go accepts it, or has no colon. |
| `Attach.BareAddressDiffers` | internal/driver/qnap/controller.go:569-579 | A bare IPv6 address is written differently. |
| `Attach.BracketedAddressDiffers` | internal/driver/qnap/controller.go:569-579 | So is a bracketed one without a port. |
| `Attach.NodePortalsAgreeExactly` | internal/driver/qnap/node.go:682-687 | From one configuration, the node's portals are the advertised ones if and only if each of them is written alike. |
| `Attach.AdvertisedRoundTrip` | internal/driver/qnap/node.go:615-624 | The node reads back the portal list the controller wrote if and only if no configured portal contains the separator. |
| `Attach.StagingService.LoginPortals` | internal/driver/qnap/node.go:505-543 | The login loop: the reachable portals in order, their sessions added, an error only when none is reachable. |
| `Attach.StagingService.CleanupAttach` | internal/driver/qnap/node.go:809-829 | A claimed map is flushed and every portal that came up is logged out. |
| `Attach.StagingService.AttachVolume` | internal/driver/qnap/node.go:724-807 | The attach with each point of failure and its clean-up, as specified. |
| `Attach.StagingService.StageVolume` | internal/driver/qnap/node.go:210-241 | The whole stage as specified; metadata is saved before formatting and mounting. |
| `NodeRuns.StageKeepsExactly` | internal/driver/qnap/node.go:210-241 | A stage keeps a session that was there if and only if it does not clean up on that target and portal, which it does exactly when the device, its map or the map's path does not appear; it then cuts every LUN attached through them. |
| `NodeRuns.FailedStageLeaves` | internal/driver/qnap/node.go:210-241 | A session a failed stage leaves either had its logout fail, or the device was attached and only the format or mount failed, and then the stage is on record with that target and portal. |
| `NodeRuns.FailedStageLeavesExactly` | internal/driver/qnap/node.go:210-241 | On a fresh target with working logouts, a failed stage leaves sessions if and only if it got its device and then failed to format or mount. |
| `NodeRuns.StageAttaches` | internal/driver/qnap/node.go:724-807 | A stage that got its device, finished or not, leaves exactly the sessions its record speaks of, one per recorded portal. |
| `NodeRuns.UnstageUndoesStage` | internal/driver/qnap/node.go:210-297 | Unstaging undoes a stage that got its device, finished or failed at the format or mount: sessions, mounts and maps are those from before, and the volume is forgotten. |
| `NodeRuns.RestartBetweenStageAndUnstage` | internal/driver/qnap/node.go:210-316 | A restart between stage and unstage makes no difference to what is detached, when the mount is named by its mapper path. |
| `NodeRuns.RetryAfterUnpublishFinishes` | internal/driver/qnap/node.go:249-297 | A premature unstage is refused, the volume unpublished, the plugin perhaps restarted, and the retry then finishes: no session of the target is left, all others stay, and of the mounts only those two are gone. |
| `NodeRuns.AttachedLunStaysAttached` | internal/driver/qnap/node.go:210-442 | Over every run of stages, unstages, unpublishes and restarts, whatever fails, an attached LUN keeps a session it has, as long as, before each unstage, record, mount and SAN cannot take that LUN for the unstaged one, and no stage cleans up on its target and portal. |
| `NodeRuns.AttachedThroughoutExactly` | internal/driver/qnap/node.go:210-442 | Over every run of stages, unstages, unpublishes and restarts, whatever fails, a session is there throughout if and only if no step ends it, each step judged on the state before it. |
| `NodeCases.UncountedTeardownCutsNeighbour` | internal/driver/qnap/node.go:421-442 | A concrete teardown that, unable to count sessions, ends another LUN's session. |
| `NodeCases.ColdUnstageCutsForeignLun` | internal/driver/qnap/node.go:545-594 | A concrete restarted node that, asked to unstage a volume never attached here, logs out another one, with every command working. |
| `NodeCases.MountedLunIsSpared` | internal/driver/qnap/node.go:370-403 | The same host with that LUN mounted: the unstage is refused and the session stays. |
| `NodeCases.FailedStageCutsNeighbour` | internal/driver/qnap/node.go:724-829 | A concrete failed stage that ends another LUN's session. |
| `NodeCases.FailedFormatLeavesSession` | internal/driver/qnap/node.go:210-241 | A concrete stage that cannot format leaves its session, on record. |
| `NodeCases.ResolvedNameIsNotFound` | internal/driver/qnap/node.go:322-368 | A concrete attached host whose mount is listed under its resolved name: nothing is found. |
| `NodeCases.SecondPortalIsForgotten` | internal/driver/qnap/node.go:322-368 | A concrete host without multipath where a restarted node finds one of two portals. |
| `NodeCases.SanTierTakesNeighbour` | internal/driver/qnap/node.go:545-594 | A concrete host with two LUNs attached where the SAN tier takes the last listed one's LUN and map. |

## Left out

- WalkCode.Pool.Process: leaves out the check of the context before each entry, because one goroutine running alone cannot see it change; the state machine in WalkPool has that step.
- WalkCode.Pool.Walk: states the counts of one goroutine doing all the work; the concurrent claims are those of WalkTheorems.
- LocalReserve.ReserveIsNeverSpent: leaves out expands, which have no reserve check in the code, and copies of larger sources, which the guard does not see.
- LocalCapacity.AcceptedNodeCreates: speaks of a pool that does not change between placement and create; concurrent creates on one node are not modelled.
- LocalRetry.RetryExactlyWhen: the repeat is one without command failures; the first call may have any that let it succeed.
- StatsRegistry.Registry.Reconcile: taken as one step; a Track racing between its loops is not modelled.
- QnapIdentity.NodeRebuildsListedId: for a shared target it takes the appliance to list LUNs in LUN-number order, as the code does.
- QnapIdentity.CreatedIdIsListedId: takes LUN names without slashes and listings with unique indices, names and IQNs.
- Attach.ErasedContextIsRebuilt: takes configured portals without commas; Attach.AdvertisedRoundTrip says what a comma does.
- QnapController.OtherLunOnOwnTarget: speaks of calls without failures; with failures QnapController.DeleteSpares still bounds what is lost.
- Attach.StagingService.AttachVolume: waiting for a device is one answer, found or not; polling and timeouts are left out.
- NodeRuns.UnstageUndoesStage: takes a target of which nothing was attached before and which serves this LUN only, and a staging path and multipath map not there before.
- NodeRuns.AttachedLunStaysAttached: the condition on each unstage is sufficient; the exact one is that of NodeRuns.AttachedThroughoutExactly.
- QnapController.DeleteRemovesItsOwn: speaks of calls without failures; those with failures are the subject of QnapController.SuccessfulDeleteKeepsLunExactlyWhen.
- CreateVolume of the QNAP controller, beyond the id, the context and the source of a clone: targets, parameters and the growth of a clone.
- CreateVolume, ListVolumes, ListSnapshots and GetCapacity of the local controller: fan-out over the operations modelled here.
- Reading block sizes from text, error messages, JSON encoding and log output.
- Worker timers, jitter and backoff of the statistics workers.
- Mounting, formatting, publishing and node expansion, beyond their place in stage and unstage.
- Discovery of peers, the gRPC services, metrics, HTTP debug pages, configuration and start-up.
- White space outside ASCII, and the single-portal field older metadata carried.
