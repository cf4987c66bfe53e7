# Verified model of the drive server's protocols

This project models the parts of the server in which correctness spans several functions or a whole history, and proves
what they promise. The server is one process over a PostgreSQL database and a payload disk; its hard parts are small
protocols over rows and files, and a few algorithms.

Every SQL transaction, single statement or file operation is one atomic step, with the row trigger and the unique
indexes it runs into. Isolation anomalies between concurrent transactions are not modelled. Fresh identifiers and tokens
repeat none drawn before, and a digest identifies its bytes. Clocks, the outcome of file removal, remote listings and
detectors are parameters or arbitrary choices.

State that the source updates in place is held by classes (`FaceStore.Store`, `DriveStore.Drive`, `ImportPass.Worker`,
`ObjectGc.Store`, `Leases.JobTable`, `Devices.Registry`), whose methods are proved against the functions and predicates
the theorems are about. Where any step may be the last before a crash, or other clients act in between, the steps are
also a transition function, and the theorems range over every sequence of them.

A drive request is several statements. The methods of `DriveStore.Drive` say what an undisturbed request does;
`DriveRuns` takes the same statements apart, lets every other request commit between a check and the write, and says
what holds in every run.

| file | what it models |
|---|---|
| `Common.dfy` | options, results, identifiers, sorting |
| `FaceMerge.dfy`, `FacePlan.dfy` | descriptor distance and the union-find merge plan |
| `FaceLabel.dfy` | the names an owner gives to face groups |
| `FaceStore.dfy`, `FaceRuns.dfy` | observations and clusters under face jobs and the owner's renames, merges and separations; every run of them |
| `DriveForest.dfy`, `DriveCopy.dfy`, `TrashPurge.dfy` | the entry forest and its names, queries, moves, copies and purges |
| `Shares.dfy`, `DriveWrites.dfy` | links and grants against the tree; the writing statements |
| `DriveStore.dfy` | the drive's requests, each undisturbed |
| `DriveRuns.dfy`, `DriveRaces.dfy` | the same requests interleaved, and three bad interleavings |
| `DriveProtected.dfy` | the protected photos folder over those runs |
| `RemoteWalk.dfy` | listing a remote folder graph, cyclic or not |
| `ImportWorker.dfy`, `ImportBooks.dfy`, `ImportPass.dfy` | the crash-recoverable import worker, its counters, its functions |
| `ObjectGc.dfy` | shared stored objects against both collectors |
| `Leases.dfy` | the media job lease protocol |
| `Devices.dfy` | device authorization and refresh rotation |
| `WebP.dfy` | the container check of generated previews |
| `ArchivePath.dfy`, `Archive.dfy` | the storage archive of a backup |
| `PhotoPages.dfy` | keyset pagination of the photo library |

Check everything with `dafny verify dfyconfig.toml`.

## What turned out false

- Trashing a folder does not revoke every link below it. A link request whose checks passed before the trash inserts an
  unrevoked link afterwards (`DriveRaces.LinkLeftBehind`); nobody can open it while the folder is in the trash, but a
  restore makes it live (`DriveRaces.RestoreOpensIt`). A run shows no unrevoked link to a trashed entry exactly when no
  link is inserted for, and no linked entry moved into, a place that is trashed by the time of the write
  (`DriveRuns.StepCleanIff`, `DriveRuns.RunCleanIff`). Visitors are protected by the active-link query alone, which
  refuses exactly such links (`DriveRuns.VisitorsSeeCleanLinks`).
- The checks of a move do not keep the forest: two moves can both pass them, and the second update would close a cycle.
  The row trigger refuses it (`DriveRaces.TriggerKeepsForest`), and with the trigger the forest holds in every run
  (`DriveRuns.At`).
- The protected photos folder is not safe. A move whose checks passed before the folder became the protected one is
  written afterwards and puts it below another folder (`DriveRaces.DisplacementHappens`); trashing that folder hides it
  while it still counts as the owner's photos folder (`DriveRaces.ProtectedHidden`), and emptying the trash deletes it
  (`DriveRaces.ProtectedLost`). Without such a write it stays, untrashed and at the top level, in every run
  (`DriveProtected.StepOnTop`, `DriveProtected.TopUntil`); and an owner never has two (`DriveProtected.RunKeepsOne`).
- Lease fencing does not survive an owner retry. `retry_failed` resets the attempt number, so the number of a worker
  that lost the job comes up again (`Leases.StaleWriteAfterRetry`). A claim passes the fence exactly while its job runs
  and either it is the newest claim or the job was retried since and has been claimed again exactly as often as the
  claim's own number says (`Leases.FencePassedIff`); each retry of a failed job can bring back each of its old workers
  (`Leases.RetryUnfences`).
- The WebP check reads the transparency flag from byte 20 of the file, which is the VP8X chunk's flag only when that
  chunk comes first; section 2.7 of RFC 9649 demands that position, the code does not
  (`WebP.WrongFlagAccepted`, `WebP.FlagToldIff`, `WebP.LateFlagIsIgnored`).
- Listing a remote is not complete: a continuation token that is refused ends its folder early and whatever lies on
  later pages is lost, for every token the check refuses (`RemoteWalk.RefusedTokenLosesFile`). Everything a drained walk
  reaches has been read whole exactly when no folder connected to the root sends such a token
  (`RemoteWalk.ReadWholeIff`), and then the walk has found all there is (`RemoteWalk.DrainedIsComplete`).
- A device revoked between approval and exchange still gets tokens (`Devices.DeadTokensHappen`); they are never accepted
  (`Devices.DeadOnArrival`).

## Model

| member | source | states |
|---|---|---|
| `FaceMerge.ClosestDescriptorDistance` | src/media_indexer.rs:909-920 | the smallest distance over all comparable pairs, attained by one of them; none exactly when no pair is comparable |
| `FaceMerge.MatchingCluster` | src/media_indexer.rs:922-939 | the nearest candidate within the threshold, ties to the smaller id; none exactly when no candidate matches |
| `GroupForest.HalveKeepsRoot` | src/media_indexer.rs:858-864 | one path-halving write leaves the root of every element unchanged |
| `GroupForest.LinkMovesRoots` | src/media_indexer.rs:884-895 | linking one root under another moves exactly the members of its class |
| `GroupForest.Find` | src/media_indexer.rs:858-864 | terminates, returns the root, and keeps every element's root while it rewrites the parent array |
| `FacePlan.GroupCandidates` | src/media_indexer.rs:832-855 | one group per cluster id, with exactly its descriptors and its first label |
| `FacePlan.MergedAfterLink` | src/media_indexer.rs:884-895 | joining two close roots keeps classes connected and descriptors gathered at roots |
| `FacePlan.ComparePair` | src/media_indexer.rs:865-897 | one step of the inner loop keeps the forest, connected classes and all pairs settled so far, and settles this pair |
| `FacePlan.MergeGroups` | src/media_indexer.rs:865-897 | after the nested loops every pair of groups is settled: same class, both classes labelled, or no close descriptors |
| `FacePlan.PlanIsMergePlan` | src/media_indexer.rs:898-907 | the table of roots yields a sound and maximal plan in ascending order of sources |
| `FacePlan.ClusterMergePlan` | src/media_indexer.rs:832-907 | for every candidate list the result is a merge plan: classes connected by pairs at distance at most 28, remaining classes that do not both hold a label farther apart, sources unlabelled, targets never sources |
| `FacePlan.LabelsStayApart` | src/media_indexer.rs:872-892 | a labelled group is its own target, so no class holds two labels |
| `FacePlan.ClassesAreComponents` | src/media_indexer.rs:832-920 | without labels two groups share a class exactly when they are connected in the closeness graph of the original descriptors |
| `FacePlan.TargetsAreDetermined` | src/media_indexer.rs:832-907 | without labels all merge plans agree on every target |
| `FaceStore.RowByRow` | src/media_indexer.rs:802-822 | because no target is a source, moving rows one entry at a time equals moving them all at once |
| `FaceStore.MergePlanApplies` | src/media_indexer.rs:802-822 | a merge plan for candidates of one owner names existing clusters of that owner, with unlabelled sources |
| `FaceStore.RedirectConsistent` | src/media_indexer.rs:802-822 | after the plan every clustered observation points to an existing cluster of its file's owner |
| `FaceStore.FaceJobConserves` | src/media_indexer.rs:692-829 | from the sweep on, a face job keeps labelled clusters and every remaining observation, leaves those in labelled clusters in place, and adds one observation per face |
| `FaceStore.Store.ApplyPlan` | src/media_indexer.rs:802-822 | every observation is sent to its target and exactly the sources disappear |
| `FaceStore.Store.FileFace` | src/media_indexer.rs:762-801 | one new observation, in the nearest known cluster or else in a new unlabelled one that is known from then on |
| `FaceStore.Store.FileFaces` | src/media_indexer.rs:762-801 | the same for every face in turn, with the candidates known at that moment |
| `FaceStore.AnswersAreBacked` | src/media_indexer.rs:709-744 | what the candidate query answers (clustered observations of the owner's untrashed files at the job's recipe, at most five of a cluster and 512 in all, every one below those bounds) names existing clusters of the owner, with their labels |
| `FaceStore.Store.ProcessFaceJob` | src/media_indexer.rs:613-830 | all or nothing; on success old recipes dropped, empty unlabelled clusters swept, faces filed and a merge plan applied, for the candidates the query answers on the swept tables; every labelled cluster that was there before is kept with its label |
| `FaceStore.Store.RenameFace` | src/faces.rs:345-385 | succeeds exactly for an acceptable label and a cluster of the owner, and sets or clears that one label |
| `FaceLabel.RefusedIff` | src/faces.rs:609-619 | a label is refused exactly when it is blank or longer than 80 characters once white space goes at both ends; of others that core is stored |
| `FaceLabel.NormalizedIsGood` | migrations/0007_face_indexing.sql:7-13 | what is stored is trimmed and has 1 to 80 characters, as the table demands, and exactly such labels are stored unchanged |
| `FaceStore.Store.MergeFaces` | src/faces.rs:387-468 | succeeds exactly on a well-formed request over the owner's clusters; observations move to the target, exactly the sources go, the count is right |
| `FaceStore.Store.SeparateFaces` | src/faces.rs:476-565 | succeeds exactly when some observation qualifies; those observations get a new cluster, an emptied unlabelled one goes, labelled ones stay |
| `FaceRuns.RunKeepsInv` | src/media_indexer.rs:613-830 | in every run of face jobs, renames, merges and separations each clustered observation points to an existing cluster of its file's owner, and every label is trimmed with 1 to 80 characters |
| `FaceRuns.StepOnLabelled` | src/faces.rs:345-468 | in one request a labelled cluster goes exactly when a successful merge names it as a source, is left without a label exactly then or when its owner clears it, and otherwise changes only by a rename |
| `FaceRuns.LabelledUntil` | src/faces.rs:345-565 | over every run a labelled cluster stays labelled until an owner merge absorbs it or its owner clears the label |
| `FaceRuns.LostOnlyByMerge` | src/faces.rs:387-565 | over every run a cluster labelled before step i, whose label is not cleared until step k, is gone then exactly when a successful owner merge in between took it as a source |
| `FaceRuns.KeepsItsLabel` | src/faces.rs:345-385 | without a merge or a rename of it, it is there with the same label |
| `FaceRuns.StepOnPlaced` | src/media_indexer.rs:692-829 | a face in a labelled cluster keeps its row in a step exactly when the owner does not merge the cluster away or separate the face, and no newer recipe replaces it |
| `FaceRuns.PlacedUntil` | src/media_indexer.rs:692-829 | over every run it keeps its row and its labelled cluster until one of these, or until the label is cleared |
| `FaceRuns.LabelledIsLost` | src/faces.rs:345-565 | a run: a face is indexed, its group named, the face separated and the named group merged away |
| `FaceRuns.ObservationsAreConserved` | src/media_indexer.rs:692-829 | over every run the number of observations is what face jobs added less what they dropped; renames, merges and separations change no count |
| `DriveForest.EnsureActive` | src/drive.rs:1098-1128 | true exactly when the entry is the owner's, of the wanted kind, and neither it nor an ancestor is trashed |
| `DriveForest.Subtree` | src/maintenance.rs:389-405 | lists exactly the entries below the top, each once, parents before children |
| `DriveForest.FolderContains` | src/drive.rs:1013-1068 | true exactly when the candidate lies below the folder through untrashed entries |
| `DriveForest.NoCycleMissed` | src/drive.rs:588-614 | for an active destination the check that skips trashed children finds every move that would close a cycle |
| `DriveForest.MoveKeepsForest` | src/drive.rs:588-614 | moving any set of entries under a home outside their subtrees keeps the forest of one owner's folders |
| `DriveForest.ChainAfterMove` | src/drive.rs:588-614 | what every entry's ancestor chain is after such a move |
| `DriveForest.InsertKeepsForest` | src/drive.rs:291-323 | a new row under a folder of the same owner keeps the forest |
| `DriveForest.RowKeepsNames` | migrations/0001_initial.sql:28-34 | a row whose folded name is free under its parent keeps untrashed sibling names unique |
| `DriveForest.TakenBreaksNames` | migrations/0001_initial.sql:28-34 | a row whose name is taken would break it, so the index refuses nothing else |
| `DriveForest.RowTrigger` | migrations/0001_initial.sql:39-84 | lets a row pass exactly when its parent is an active folder of the owner and, for a folder, not at or below it |
| `DriveForest.GuardIfActive` | src/drive.rs:588-614 | for an active destination the trigger refuses exactly the moves into the own subtree |
| `DriveForest.MoveOwned` | src/drive.rs:588-614 | succeeds exactly for an untrashed, unprotected entry of the owner, a destination outside its subtree that the trigger accepts, and a free name there; then changes that one parent |
| `DriveCopy.CopyOne` | src/drive.rs:656-779 | refuses exactly beyond depth 40 or 500 entries, for missing, trashed or protected sources, under a closed parent and without a free name; otherwise adds one row and lists the children |
| `DriveCopy.CopyingStep` | src/drive.rs:631-652 | popping a job and pushing the children keeps the partial copy exact |
| `DriveCopy.ChasingStep` | src/drive.rs:631-652 | inside the own subtree some waiting job always copies an entry to a place below itself |
| `DriveCopy.ChildNeverCollides` | src/drive.rs:656-779 | below the copied root no name is ever taken, so only the root needs a new one |
| `DriveCopy.CopyOwned` | src/drive.rs:623-654 | terminates; succeeds exactly when the destination is open and lies outside the source's subtree, one of 40 names is free there, and the untrashed subtree is unprotected, at most 40 deep and within 500 entries; then it is an isomorphic copy with the same stored objects |
| `DriveCopy.CopyIsWellFormed` | src/drive.rs:623-654 | such a copy keeps the forest and the unique names |
| `TrashPurge.DeletedTailHasNoOrphan` | src/maintenance.rs:419-444 | after each single row delete no entry is left without its parent |
| `TrashPurge.PurgeKeepsChains` | src/maintenance.rs:368-464 | removing a whole subtree leaves every other entry's ancestors as they were |
| `TrashPurge.PurgeOne` | src/maintenance.rs:368-464 | removes exactly the subtree of a trashed root, children first, and counts the rows |
| `TrashPurge.NothingTrashed` | src/maintenance.rs:341-366 | when no trash root is left, no entry of the owner is trashed |
| `TrashPurge.EmptyTrash` | src/maintenance.rs:275-332 | terminates; removes only trashed entries and what is below them; below the cap of 5000 roots the trash is empty; the count equals the entries removed |
| `TrashPurge.PurgeSelected` | src/maintenance.rs:286-318 | succeeds exactly on 1 to 100 trash roots of the owner and removes exactly what lies at or below them |
| `Shares.MoveCleanIff` | src/drive.rs:588-614 | a move leaves no unrevoked link to a trashed entry exactly when its destination is untrashed up to the root or no unrevoked link lies at or below what moves |
| `Shares.CleanAfterMove` | src/drive.rs:588-614 | which entries are untrashed up to the root after a move |
| `Shares.TrashKeepsConsistent` | src/drive.rs:526-586 | trashing a subtree and revoking the links below it keeps: links name entries of their owner and kind, revoked links hold no grant, grants end with their link |
| `Shares.TrashKeepsLinks` | src/drive.rs:526-586 | it leaves no unrevoked link to a trashed entry, if there was none |
| `Shares.RestoreKeepsLinks` | src/drive.rs:398-439 | nor does restoring |
| `Shares.CascadeKeepsConsistent` | src/maintenance.rs:410-464 | purging takes links and grants of purged entries with it and keeps the rest in order |
| `Shares.CascadeKeepsLinks` | src/maintenance.rs:410-464 | nor does purging |
| `Shares.RevokeKeepsConsistent` | src/shares.rs:467-505 | revoking any set of links together with their grants keeps both |
| `Shares.RevokedHasNoGrant` | src/shares.rs:467-505 | wherever that invariant holds, a revoked link has no grant |
| `Shares.NewLinkIff` | src/shares.rs:371-408 | a new link leaves no unrevoked link to a trashed entry exactly when its own entry is untrashed up to the root |
| `DriveWrites.UpdateParentIff` | src/drive.rs:588-614 | the update of one parent, with trigger and index, keeps forest, names and grants always, and clean links exactly when the destination is untrashed at that moment or no link moves |
| `DriveWrites.MoveBatchIff` | src/drive.rs:489-524 | the same for the transaction of a batch |
| `DriveWrites.InsertShareIff` | src/shares.rs:371-408 | the same for the insert of a link |
| `DriveWrites.LinkFileIsHarmless` | src/devices.rs:754-880 | linking a file's content, old or new, does no harm: it keeps both |
| `DriveWrites.PhotosIsHarmless` | src/drive.rs:851-973 | nor does protecting or adding the photos folder |
| `DriveWrites.PurgeIsHarmless` | src/maintenance.rs:368-464 | nor does purging a trash root with what is below it |
| `DriveRuns.At` | src/drive.rs:291-586 | in every run of interleaved requests the entries are a forest of one owner's folders with unique untrashed sibling names, links name entries of their owner and kind, no revoked link holds a grant and no grant outlives its link |
| `DriveRuns.StepCleanIff` | src/shares.rs:325-408 | a step leaves every link clean exactly when it is not a link inserted for, or a linked entry moved to, a place that is trashed at the moment of the write |
| `DriveRuns.RunCleanIff` | src/drive.rs:356-382 | the same over whole runs, at every moment |
| `DriveRuns.VisitorsSeeCleanLinks` | src/shares.rs:833-875 | at every moment of every run the active-link query answers a live link exactly when it was not left behind and its album exists |
| `DriveRaces.LinkLeftBehind` | src/shares.rs:325-408 | a run: check, trash, insert; an unrevoked link leads to a trashed folder |
| `DriveRaces.RestoreOpensIt` | src/drive.rs:398-439 | the same run and a restore: the link is live again |
| `DriveRaces.TriggerKeepsForest` | migrations/0001_initial.sql:56-75 | a run in which two moves pass all their checks, the second update would close a cycle, and the trigger makes it change nothing |
| `DriveProtected.RunKeepsOne` | migrations/0013_system_photos_folder.sql:12-14 | over every run of interleaved requests an owner has at most one protected entry, a folder that is not in the trash itself |
| `DriveProtected.StepOnTop` | src/drive.rs:356-382 | a protected top-level folder stays protected in every step, and at the top level exactly unless a single move of it is written |
| `DriveProtected.TopUntil` | src/drive.rs:356-382 | over every run it is there, untrashed and at the top level, until such a write |
| `DriveProtected.TopIsActive` | src/drive.rs:1098-1128 | at the top level it is active |
| `DriveRaces.DisplacementHappens` | src/drive.rs:356-382 | a run: a move is checked, the folder becomes protected, the move is written |
| `DriveRaces.ProtectedHidden` | src/drive.rs:919-933 | the same run and trashing the folder above: the protected folder is still found, but not active |
| `DriveRaces.ProtectedLost` | src/maintenance.rs:368-464 | and emptying the trash: it is deleted |
| `DriveStore.TrashOwned` | src/drive.rs:526-586 | succeeds exactly for an untrashed, unprotected entry of the owner, and then is the trash transaction |
| `DriveStore.TrashRevokesBelow` | src/drive.rs:526-586 | a link is revoked afterwards exactly if it was before or leads to an entry at or below the trashed one; nothing else about links changes |
| `DriveStore.BatchMove` | src/drive.rs:489-524 | succeeds exactly when every named entry could be moved at the start, no two of them share a name and no destination name is taken; the others stay |
| `DriveStore.BatchTrash` | src/drive.rs:489-524 | succeeds exactly when every named entry is trashable and named once |
| `DriveStore.BatchCopy` | src/drive.rs:489-524 | each entry in turn is copied exactly, on one budget of 500; a failure names a copy that was impossible |
| `DriveStore.Drive.CreateFolder` | src/drive.rs:291-323 | succeeds exactly under an active parent with a free name; adds one row |
| `DriveStore.Drive.LinkContent` | src/devices.rs:754-880 | fails exactly on a closed parent, when no ready object has the content, or when a folder or a file without a version has the name; otherwise the file of that name, old or new, refers to an object with the content, and is unchanged if it did |
| `DriveStore.Drive.EnsurePhotosFolder` | src/drive.rs:851-973 | answers the owner's protected folder if there is one; else protects the top-level folder under the first of three names that has one; else adds one under the first name that is free; fails exactly when nothing of that is possible, and the owner never gets a second one |
| `DriveStore.Drive.MoveEntry` | src/drive.rs:356-382 | undisturbed, succeeds exactly when entry, destination and name allow it, and then changes one parent |
| `DriveStore.Drive.TrashEntry` | src/drive.rs:384-396 | succeeds exactly for an active unprotected entry; every link below it is revoked |
| `DriveStore.Drive.RestoreEntry` | src/drive.rs:398-439 | undisturbed, succeeds exactly for a trashed entry whose parent is active again and whose name is still free |
| `DriveStore.Drive.BatchEntries` | src/drive.rs:459-524 | all or nothing; undisturbed, exact conditions and exact new rows for move, trash and copy |
| `DriveStore.Drive.PurgeTrash` | src/maintenance.rs:275-332 | emptying the trash keeps forest, names and grants, and clean links clean |
| `DriveStore.Drive.PurgeNamed` | src/maintenance.rs:286-318 | so does purging chosen roots, with the exact condition and the exact rows that stay |
| `DriveStore.Drive.CreateShare` | src/shares.rs:298-425 | undisturbed, succeeds exactly for a shareable resource, valid limits and a valid key; adds one unrevoked link |
| `DriveStore.Drive.RevokeShare` | src/shares.rs:467-505 | revokes exactly that link and removes its grants |
| `DriveStore.Drive.RevokeKeyShares` | src/developer.rs:340-344 | revokes exactly the links one API key made and removes their grants |
| `DriveStore.Drive.FetchActiveShare` | src/shares.rs:833-875 | a live link is refused exactly when it was left behind, or its album is gone |
| `DriveStore.Drive.UnlockShare` | src/shares.rs:665-752 | grants exactly for the right password on a live, unlocked link, until the link's end at most; a wrong one counts |
| `DriveStore.Drive.RecordPasswordFailure` | src/shares.rs:911-977 | five failures lock the link, an expired lock restarts the count, no other link changes |
| `DriveStore.Drive.ReserveDownload` | src/shares.rs:979-1010 | counts a download exactly while the link is live and below its limit |
| `RemoteWalk.RunKeepsInv` | src/google_drive.rs:2737-3009 | over every sequence of steps and crashes the queue and item tables match what was read |
| `RemoteWalk.DrainedIsExact` | src/google_drive.rs:2737-3009 | once the queue drains, queued folders are exactly those reachable through the pages the code follows, items exactly the files on those pages, and both counters are exact, with cycles and pages read twice |
| `RemoteWalk.DrainedIsComplete` | src/google_drive.rs:2737-3009 | if no folder connected to the root sends a refused token, queue and items are all folders and files connected to the root, over all pages |
| `RemoteWalk.ReadWholeIff` | src/google_drive.rs:2737-2787 | every page of every queued folder has been read exactly when no folder connected to the root sends a refused token |
| `RemoteWalk.RefusedTokenLosesFile` | src/google_drive.rs:3313-3315 | for every refused token there is a folder of two pages whose listing ends without the file on the second |
| `RemoteWalk.CompleteShrinksTodo` | src/google_drive.rs:2737-2787 | completing a page leaves strictly less to list |
| `RemoteWalk.ListOnePage` | src/google_drive.rs:2737-2787 | a page that is answered is a run of the walk's steps and makes progress; an unanswered one changes nothing |
| `RemoteWalk.ListAll` | src/google_drive.rs:1838-1865 | left alone the worker drains the queue, cyclic or not, exactly when every reachable folder answers; otherwise it names one that does not |
| `ImportWorker.StepKeepsPayloads` | src/google_drive.rs:1838-2068 | each transaction, file operation or crash keeps: a committing item has its payload in staging or in place, a ready object has its payload |
| `ImportBooks.RunKeepsPayloads` | src/google_drive.rs:1838-2506 | the same over every run with crashes anywhere |
| `ImportBooks.NeverAbandons` | src/google_drive.rs:2446-2506 | no reachable state makes resuming give up a committing item |
| `ImportBooks.ReadyMeansPresent` | src/google_drive.rs:2330-2413 | a ready object has its payload at its path, with the recorded checksum |
| `ImportBooks.OutcomeIsFinal` | src/google_drive.rs:2330-2413 | an item stored, skipped or failed stays so; none is both stored and failed |
| `ImportBooks.ResumeStores` | src/google_drive.rs:2446-2506 | three steps of the next pass turn any committing item into a stored one |
| `ImportBooks.RunKeepsBooks` | src/google_drive.rs:2388-2412 | over every run downloaded counts and bytes equal the stored items, failed never exceeds the failed items, discovered is exact, and a completed run holds only final items |
| `ImportPass.Worker.RecoverDownloads` | src/google_drive.rs:2425-2444 | is a run of the worker's steps that leaves no item downloading and touches no object |
| `ImportPass.Worker.ClaimItem` | src/google_drive.rs:1932-1964 | claims the first claimable item by priority, size, age and id; none exactly when no pending item of an active run has its source, connection and account enabled |
| `ImportPass.Worker.ReleaseItem` | src/google_drive.rs:2623-2633 | hands the claimed item back as pending |
| `ImportPass.Worker.StageDownload` | src/google_drive.rs:2070-2197 | is a run of steps ending with the written bytes staged, or with the item given up, also when the staging key could not be noted |
| `ImportPass.Worker.CommitStaged` | src/google_drive.rs:2199-2299 | one transaction that makes the item committing with its object, or gives it up |
| `ImportPass.Worker.PromoteAndFinish` | src/google_drive.rs:2301-2328 | ends with the item stored and its object ready with the staged bytes |
| `ImportPass.Worker.FinishReady` | src/google_drive.rs:2330-2413 | the finishing transaction, item, object and counters together |
| `ImportPass.Worker.ResumeCommit` | src/google_drive.rs:2446-2506 | works exactly when an item is committing, takes the longest waiting one and stores it with its payload |
| `ImportPass.Worker.ResumeAll` | src/google_drive.rs:1838-1846 | repeated passes end with every committing item stored and no other state changed |
| `ImportPass.Worker.FailItem` | src/google_drive.rs:2586-2621 | is a run of steps that ends with the item failed and counted |
| `ImportPass.Worker.DownloadClaimed` | src/google_drive.rs:1973-2068 | left to itself an import ends stored with the bytes written, or failed |
| `ObjectGc.StepKeepsObject` | src/maintenance.rs:466-584 | each step keeps a deleting object free of versions and finalizing uploads and a ready one on disk |
| `ObjectGc.RunKeepsInv` | src/maintenance.rs:410-584 | the same over every interleaving of linking, copying, importing, uploading, purging and both collectors |
| `ObjectGc.DeletingIsUnreferenced` | src/maintenance.rs:466-584 | in every reachable state an object being deleted has no version and no finalizing upload |
| `ObjectGc.NewReference` | src/devices.rs:771-869 | no way of creating a version refers to an object that is being deleted |
| `ObjectGc.ReferencedPayloadStays` | src/maintenance.rs:466-584 | no step of any run removes the payload of an object some version refers to |
| `ObjectGc.ReadyVersionsAreReadable` | src/drive.rs:728-757 | every version of a ready object has its payload on disk at every moment |
| `ObjectGc.CollectionFinishes` | src/maintenance.rs:508-584 | one undisturbed pass removes row and payload of a collectable object and nothing else |
| `ObjectGc.DeletingIsCollectable` | src/maintenance.rs:508-584 | an object left deleting by a stopped collector is collectable again |
| `ObjectGc.Store.RemoveUnreferencedObjects` | src/maintenance.rs:508-584 | a pass removes exactly what it reports, leaves the failures deleting, and changes no version or upload |
| `Leases.RetryDelays` | src/media_indexer.rs:1192-1223 | retries wait 10, 20, 40 or 80 seconds; the fifth failure is final |
| `Leases.RunKeepsInv` | src/media_indexer.rs:344-397 | over every run attempt numbers stay within five and the newest claim carries the row's number |
| `Leases.StaleWriteNeedsRetry` | src/media_indexer.rs:1040-1094 | a write that takes effect comes from the newest claim, unless the owner retried the job after the writer's claim |
| `Leases.ReclaimedWorkerIsFenced` | src/media_indexer.rs:1153-1223 | without owner retries a worker whose job was reclaimed changes nothing any more |
| `Leases.StaleWriteAfterRetry` | src/media_admin.rs:366-378 | a concrete run in which, after a retry, the worker that lost a job completes it under another worker's lease |
| `Leases.RetryUnfences` | src/media_admin.rs:366-378 | from every reachable state with a failed job a retry can let each of its old workers through the fence again |
| `Leases.FencePassedIff` | src/media_indexer.rs:1153-1223 | over every run a claim passes the fence exactly while its job runs and it is the newest claim or, after a retry, the claims since the last retry are as many as its own number |
| `Leases.WritesIffFenced` | src/media_indexer.rs:1040-1223 | completing and recording a failure change something exactly for a claim that passes the fence |
| `Leases.CompletesOnce` | src/media_indexer.rs:1040-1094 | in any run a job completes at most once, and derivative rows are written exactly then |
| `Leases.ClaimsAreBounded` | src/media_indexer.rs:358-397 | claims of a job between two retries carry different numbers from 1 to 5 |
| `Leases.AtMostFiveClaims` | src/media_indexer.rs:358-397 | so there are at most five of them |
| `Leases.NothingIsStuck` | src/media_indexer.rs:344-397 | every unfinished job becomes claimable after a bounded wait, or is failed by the sweep |
| `Leases.JobTable.ClaimNext` | src/media_indexer.rs:358-397 | claims the first claimable job by kind, waiting time and id; none exactly when paused or nothing is claimable |
| `Leases.JobTable.FailExhaustedLeases` | src/media_indexer.rs:344-356 | fails exactly the running jobs with a lapsed lease and no attempt left |
| `Leases.JobTable.RenewLease` | src/media_indexer.rs:1153-1178 | extends the lease exactly while the caller's claim passes the fence |
| `Leases.JobTable.OwnsLease` | src/media_indexer.rs:1180-1190 | an owned lease means the fence holds and nobody can claim the job now |
| `Leases.JobTable.PublishAndComplete` | src/media_indexer.rs:1010-1094 | commits exactly while the fence holds |
| `Leases.JobTable.RecordOutcome` | src/media_indexer.rs:1192-1223 | records a failure only while the fence holds |
| `Leases.JobTable.RetryFailedJobs` | src/media_admin.rs:354-396 | resets exactly the failed jobs asked for and counts them |
| `Leases.JobTable.SetPaused` | src/media_admin.rs:312-349 | sets the pause and leaves every job as it is |
| `Devices.RunKeepsInv` | src/devices.rs:217-550 | over every run of requests no two grants share a device and only the newest credential of a device is unrevoked |
| `Devices.TokensOnce` | src/devices.rs:217-324 | a device code yields tokens at most once |
| `Devices.TokensNeedApproval` | src/devices.rs:440-525 | it yields them only after an approval of that code, for the device that approval created |
| `Devices.RotationChain` | src/devices.rs:1228-1257 | every credential was issued by its device's one exchange or by rotating the newest credential the device had |
| `Devices.OnlyNewestIsLive` | src/devices.rs:333-407 | all but the newest credential of a device are revoked |
| `Devices.RevokedIffKilled` | src/devices.rs:1184-1226 | a device is revoked exactly when it was revoked by its owner or a rotated token was replayed |
| `Devices.AcceptedIff` | src/devices.rs:938-985 | an access token is accepted exactly within an hour of its issue, while the account is enabled, unless it was rotated or its device killed before or since |
| `Devices.KilledForGood` | src/devices.rs:347-407 | after that no token of the device, old or issued later, is ever accepted or refreshed |
| `Devices.ReplayKills` | src/devices.rs:364-390 | replaying a refresh token that was rotated earlier kills the device |
| `Devices.DeadOnArrival` | src/devices.rs:282-317 | revoking the device between approval and exchange does not stop the exchange, but its tokens are never accepted |
| `Devices.DeadTokensHappen` | src/devices.rs:282-317 | a run: create, approve, revoke, exchange; it ends with tokens of a revoked device |
| `Devices.PollsAreSpaced` | src/devices.rs:254-281 | two polls that get past the gate are at least the interval apart, whatever is polled in between |
| `Devices.Registry.CreateCode` | src/devices.rs:137-208 | refuses beyond 30 codes a minute, sweeps lapsed requests and uses the first free of five user codes |
| `Devices.Registry.ExchangeToken` | src/devices.rs:217-324 | the whole reply and new state of an exchange |
| `Devices.Registry.RefreshToken` | src/devices.rs:333-407 | rotation, or revocation of the device on reuse |
| `Devices.Registry.ApproveRequest` | src/devices.rs:440-525 | approval of a pending request creates its device |
| `Devices.Registry.DenyRequest` | src/devices.rs:527-550 | denies exactly a pending, unexpired request |
| `Devices.Registry.RevokeAll` | src/devices.rs:364-378 | revokes the device and exactly its credentials |
| `Devices.Registry.RevokeOwnedDevice` | src/devices.rs:1184-1226 | revokes exactly a device of that owner |
| `Devices.Registry.AuthenticateAccessToken` | src/devices.rs:938-985 | answers the device exactly for an accepted token |
| `WebP.ParsedTiles` | src/media_indexer.rs:1800-1859 | the chunks read serialise back to the same bytes |
| `WebP.TiledParses` | src/media_indexer.rs:1800-1859 | what is serialised is read back, so a file has one list of chunks |
| `WebP.ReadChunk` | src/media_indexer.rs:1800-1858 | reads a chunk exactly where one starts, and finds its end |
| `WebP.ReadChunks` | src/media_indexer.rs:1793-1859 | the loop either reads the whole file into admissible chunks or no list of chunks makes the file acceptable |
| `WebP.ValidateMetadataFreeWebp` | src/media_indexer.rs:1780-1879 | accepts exactly the files within the limit that header and acceptable chunks tile without gap, and answers the image's size |
| `WebP.AcceptedShape` | src/media_indexer.rs:1780-1879 | an accepted file has one image chunk, at most three chunks, and a size in 1..16384 |
| `WebP.FlagToldIff` | src/media_indexer.rs:1872-1877 | the transparency flag of an accepted file is right exactly when the VP8X chunk comes first or happens to agree with byte 20 |
| `WebP.LateFlagIsIgnored` | src/media_indexer.rs:1872-1877 | for a VP8X chunk in any later place flipping its flag never changes the verdict |
| `WebP.WrongFlagAccepted` | src/media_indexer.rs:1872-1877 | an accepted file whose VP8X chunk announces transparency that the image does not have |
| `ArchivePath.CanonicalIff` | scripts/storage_archive.py:57-64 | a string of hex digits and dashes is its own canonical form exactly when it is a UUID |
| `ArchivePath.MemberPathIff` | scripts/storage_archive.py:33-69 | a member passes exactly when its name spells, with or without final slash, plain components under an allowed root, at a permitted place |
| `Archive.ReadMember` | scripts/storage_archive.py:135-160 | reading in chunks succeeds exactly when the data has the declared size |
| `Archive.Admit` | scripts/storage_archive.py:112-119 | admits exactly new paths without a file above them, and records the implied directories |
| `Archive.EnsureDirectory` | scripts/storage_archive.py:79-89 | fails exactly on a file in the way, and otherwise adds the missing directories |
| `Archive.CompatibleIff` | scripts/storage_archive.py:112-119 | the two lookups in `seen` decide compatibility with every earlier member |
| `Archive.WriteEntry` | scripts/storage_archive.py:124-162 | below a compatible path extraction adds exactly that entry and its parents |
| `Archive.ProcessArchive` | scripts/storage_archive.py:98-183 | validating and extracting accept exactly the same streams, described member by member and pair by pair; the total is the sum of file sizes; what is extracted is the described tree plus missing optional roots |
| `Archive.AcceptedTree` | scripts/storage_archive.py:33-183 | an accepted tree is closed under parents, lies under allowed roots, has files only as leaves, and its files are exactly the archive's |
| `PhotoPages.CursorRoundTrip` | src/library.rs:657-668 | a cursor parses back to the key it was made from |
| `PhotoPages.ListPhotos` | src/library.rs:615-655 | fails exactly on a bad limit or cursor; otherwise the first rows below the cursor, with a next cursor exactly when more remain |
| `PhotoPages.WalkDescends` | src/library.rs:615-655 | following cursors over changing rows gives strictly descending items |
| `PhotoPages.CompleteWalk` | src/library.rs:615-655 | a finished walk shows every photo present throughout exactly once, whatever else came or went |
| `PhotoPages.QuietWalk` | src/library.rs:615-655 | without changes it shows exactly the photos there are, each once |

## Left out

- Isolation levels, lock order and lost acknowledgements of commits; each transaction is atomic and its outcome known.
- Name normalisation, case folding and the wording of numbered copy names, which are parameters; that their names are well formed.
- The display order of listings and of batches of trash roots; ascending ids stand in for it.
- Purging by age of the trash, and its hourly limit: the same subtree deletion with another choice of roots.
- Quota, discovered bytes, audit rows, timestamps that decide nothing, and notification of the media indexer.
- The object state `failed`, and the age and batch limits of the collectors: they may pick any set of objects.
- The upload protocol beyond a finalizing session holding its object, and album links beyond their existence.
- Removal of a source, disconnection and cancellation in the importer: the worker is modelled alone.
- Rewriting file versions when a commit is abandoned: `ImportBooks.NeverAbandons` shows that path is not taken.
- A remote that changes while it is listed, and tokens that do not name a page.
- FaceRuns.RunKeepsInv: file versions neither come nor go during a run, so observations deleted with a purged version are not modelled.
- FaceStore.Store.ProcessFaceJob: which rows the candidate query prefers at its bounds, a matter of their age, is left open.
- Leases.JobTable.ClaimNext: rows locked by another claim, which the source skips, do not arise between atomic claims.
- DriveForest.Subtree: rows of equal depth are ordered by id.
- Length and format checks of codes and tokens before they are looked up.
- Detection, decoding, previews, floating-point descriptors, password hashing, encryption and digests.
- PhotoPages.CursorRoundTrip: that RFC 3339 stamps and hyphenated ids read back is an assumption on foreign code.
- Archive.ProcessArchive: file modes, ownership, name-length limits and a full disk; a failed extraction's partial tree.
- Sessions, CSRF, rate limits on addresses, HTTP routing and JSON shapes.
- Deletion of accounts, which cascades to devices, requests and links.
