# avahi-manager: a verified model

This project models the parts of avahi-manager that must not go wrong and proves
what they promise:

* the Safe Apply transaction engine over a file system that can lose power, with
  its journal, snapshots, retention and pinned baseline (`internal/config`);
* the discovery cache, its resolver workers and its fan-out to slow subscribers
  (`internal/avahi`);
* the native formats: service XML, `avahi-daemon.conf` and `hosts`
  (`internal/config`);
* the login limiter (`internal/auth`), and the reconciliation of the helper's
  baseline into the manager's database with the drift report (`internal/api`,
  `internal/database`).

Check everything with `dafny verify dfyconfig.toml`.

## How it is built

**The disk.** `Disks` is a value: the live directory, the snapshot directories,
`pending.json` and `baseline.json`. Next to what each name holds now, it keeps what
a power loss may still bring back; a directory sync empties that. `PowerLoss`
relates a disk to everything that may be found after a crash: any subset of the
unsynced changes, name by name.

**The helper.** `Primitives.Store` is a class with one method per system call. Each
call may succeed, fail, or be the moment at which the process is killed; after
that no call is possible, so nothing the source would still do (deferred calls
included) happens. All operations are methods built from these calls, with the
source's branches in the source's order. The flag `power` selects the layer: with
it, a crash loses power and a directory sync that returns has worked; without it,
a crash only kills the process and a sync may fail.

**Runs.** Two views decide everything: `Committed(d)` is what the journal promises
to restore while there is a journal, and otherwise the live image with its
baseline. `Torn(d, was, next)` says that whatever a crash makes of `d` stands for
`was` or for `next` and that a surviving journal stands for `was`. Apply and
Restore take as a parameter the edit that somebody else makes while they run, and
their contract fixes both views by the image they read, the image asked for and
that edit: nothing in it is left open. `Runs.Step` records each call with its
request, both images and its result; `Serving.Request` shows that every RPC is the
step that was asked for, and `Serving.Lives` that any number of lives of the
process, each ended by a crash at any step or by a stop, form one run. `Crashes`,
`Ledgers` and `Histories` prove what every run keeps: killed calls come to all or
nothing, successes form a chain and only named steps move the baseline, and a
snapshot name never gives any other image.

**Discovery.** `Discoveries.Discovery` is the cache with its one-slot channels;
receivers may drain a channel between any two steps of a sender. `Browsing.Session`
is one browse session: loop, workers and queues, each step a method, with the
invariant `Live` between any two of them. What should be shown is defined in `Logs`
from nothing but the history of signals and replies.

**Formats.** Each parser and printer is a method with the source's loop, proved
equal to a specification function; the theorems are about those functions.

## What turned out not to hold

Each of these is proved, with the exact condition where there is one.

* `validPath` accepts second spellings such as `services//x.service`
  (`Paths.AliasAccepted`). A successful Apply leaves the live image that was asked
  for if and only if no written path is such a spelling
  (`Agreement.SuccessAgrees`, `Replace.ReplaceReaches`), and a snapshot loads back
  if and only if paths that name one file agree on its bytes
  (`Snapshots.StoredLoads`). The helper's own RPCs take their paths from listed
  files or fresh names and never send one.
* "rollback failed; recovery remains pending" does not always mean that a journal
  remains: when only the directory sync after its removal fails, the same message
  is given and the journal is gone, with the old configuration fully restored
  (`Transactions.Recover`, the errors `RollbackFailed` and `RollbackUnsynced`).
  "configuration applied but commit journal failed" has the same two meanings.
* A Restore between two images that `apply` accepts can pass through a directory
  larger than the limit that `read` enforces (`Stranding.RestoreCanStrand`); a
  crash there leaves a journal that no number of restarts can work off
  (`Stranding.Stranded`). A killed process can always be recovered from if and only
  if the largest size on the way stays within the limit
  (`Agreement.AlwaysRecoverable`). A loss of power keeps any of the unsynced
  renames, and needs more room: every such crash can be recovered from if and only
  if the larger versions of all paths fit together (`PowerLosses.CutsReadableIff`);
  two files that trade places already tell the two conditions apart
  (`PowerLosses.SwapGrows`). Changes of one path, which is all the write calls
  make, meet both (`Agreement.OnePathRecoverable`, `PowerLosses.OnePathFits`).
* A process killed just after removing the journal leaves a removal that nobody
  syncs: the next start finds no journal and returns at once. A later loss of power
  can bring the journal back, and then undoes the committed change, unless it stands
  for just what the disk stands for (`Crashes.StaleJournal`).
* A snapshot directory left incomplete by a kill (`Histories.KilledSnapshotWedges`)
  stays broken for good (`Histories.WedgedStays`): listing, pruning and the Snapshot
  operation fail from then on, and DeleteSnapshot refuses to remove it
  (`Retention.Prune`, `Transactions.Snapshot`, `Transactions.Delete`). Apply still
  commits, with a warning; "Reload from disk" and an Apply that changes no file
  report an error although the baseline has already moved
  (`Transactions.AcceptDisk`, `Transactions.NoChange`).
* The cache mirrors the signals only if every resolver reply is about the item that
  was asked for; `Resolve` overwrites the identity from the reply
  (`Browsing.HeardMirrorsIff`).
* The limiter is stricter than five per window suggests: nine admissions fit into
  fifteen minutes, never ten (`Limits.NinePerInterval`, `Limits.NineHappen`).

## Model

| member | source | states |
|---|---|---|
| Paths.CanonManaged | internal/config/store.go:88-93 | whatever `validPath` accepts resolves to a file that `read` lists |
| Paths.CanonicalIff | internal/config/store.go:88-93 | an accepted path is itself listed exactly when cleaning leaves it alone |
| Paths.AliasAccepted | internal/config/store.go:88-93 | every service file has a second accepted spelling of the same file, which `read` never lists |
| Paths.TempUnmanaged | internal/config/store.go:177-181 | staged temporaries never show up in `read` |
| Images.Overlay | internal/config/apply.go:116-134 | the loop over the change set yields exactly the requested changes over the old image, keeps mode and owner of files that existed, and fails exactly for an invalid path |
| Images.ChangeAction | internal/config/apply.go:41-62 | the answer is none, restart or reload by which paths differ, whatever order the paths are visited in |
| Images.TotalWithout | internal/config/store.go:185-199 | the size of an image does not depend on the order in which its files are added up |
| Revision.SortedUnique | internal/config/store.go:107-114 | a set of paths has one sorted listing, so map iteration order cannot show in a revision |
| Revision.Revise | internal/config/store.go:97-105 | the loop feeds the hash the canonical text of the image |
| Revision.TextInjective | internal/config/store.go:97-105 | with NUL-free paths, two hashed texts are equal exactly when every path, digest, mode and owner agrees |
| Revision.RevisionNamesImage | internal/config/store.go:95-105 | without hash collisions, equal revisions mean equal images and conversely |
| Disks.DurableSurvives | internal/config/store.go:236-243 | once everything is synced a crash changes nothing |
| Disks.CrashSettles | internal/config/apply.go:64-65 | a torn disk is found, after any crash, at rest and standing for one of the two views, the old one if the journal survived |
| Primitives.Store.WriteTemp | internal/config/store.go:245-278 | staging creates only a free name, with any content if it fails part-way and the whole file if it succeeds |
| Primitives.Store.Rename | internal/config/apply.go:94-98 | a rename moves one file over another name or does nothing, and is not durable before a sync |
| Primitives.Store.SyncLiveDir | internal/config/store.go:236-243 | a sync makes durable the names of one directory and no others |
| Primitives.Store.RemoveSnap | internal/config/apply.go:310-312 | an interrupted removal leaves part of the directory |
| Primitives.PickedLoss | internal/config/store.go:236-243 | for any choice, name by name, of kept and lost changes, what is left is one of the disks a crash may leave |
| Snapshots.Read | internal/config/store.go:160-201 | a successful read is exactly the managed part of the live directory, within the size limits |
| Snapshots.LoadSnapshot | internal/config/store.go:361-409 | success exactly describes a directory whose manifest, digests and sizes check out, and gives the recorded image; a malformed one is never accepted |
| Snapshots.TakeSnapshot | internal/config/store.go:292-336 | nothing but the new directory is touched; success leaves it complete, durable and described by its manifest; failure leaves at most a fragment of this image |
| Snapshots.LaidHolds | internal/config/store.go:311-323 | after all files are written each path finds its own bytes exactly when paths naming one file agree |
| Snapshots.StoredLoads | internal/config/store.go:292-336 | round trip: a stored image loads back, bytes, modes and owners, if and only if paths naming one file agree |
| Snapshots.SnappedSound | internal/config/store.go:292-336 | taking a snapshot, however it ends, leaves every other snapshot loadable and every reference intact |
| Retention.ListSnapshots | internal/config/store.go:417-440 | the listing holds every snapshot once, newest first, and fails if one does not load |
| Retention.BaselineId | internal/config/baseline.go:14-30 | the pointer as it is on disk |
| Retention.Prune | internal/config/apply.go:292-316 | success leaves exactly the smaller of what there was and what was asked for, never drops the baseline, and keeps nothing older than what it dropped; a failure only ever takes directories apart; with a broken directory nothing is changed |
| Retention.CutRetains | internal/config/apply.go:301-314 | cutting the listing from the old end, around the pinned one, is that retention |
| Retention.NewestSurvives | internal/config/apply.go:292-316 | the newest ordinary snapshot survives a prune to two or more, pinned baseline or not |
| Retention.PrunedSound | internal/config/apply.go:292-316 | a prune, finished or not, leaves the disk sound and the baseline's image as it was |
| Retention.DeleteSnapshot | internal/config/store.go:448-467 | refuses the baseline, a pending journal and a broken snapshot without any change; otherwise takes away that one directory, or on failure parts of it, and nothing else |
| Replace.OldOrNew | internal/config/apply.go:94-105 | after any number of moves each path has its whole old or its whole new version |
| Replace.SeenOldOrNew | internal/config/apply.go:64-105 | a version on the way is the whole old or the whole new file |
| Replace.MakeMoves | internal/config/apply.go:94-105 | once all moves are done and before the syncs, a loss of power may leave each managed name old or new, each on its own, and nothing else |
| Replace.PlayedOut | internal/config/apply.go:66-107 | all moves turn `before` into exactly `after` when its keys are canonical |
| Replace.PlayCanonical | internal/config/apply.go:66-107 | the directory only ever holds canonical names on the way |
| Replace.ReplaceReaches | internal/config/apply.go:66-107 | `replace` reaches the image it was given if and only if its keys are canonical |
| Replace.ReplaceAll | internal/config/apply.go:66-107 | however it ends the visible image is that of some number of whole moves, and a loss of power leaves each managed name with what it could hold before or with its version on the way; success means all moves, durably |
| Baselines.SetBaseline | internal/config/baseline.go:32-45 | the pointer moves to a loadable snapshot or stays, nothing else changes, success is durable |
| Baselines.RecordBaseline | internal/config/baseline.go:47-53 | the pointer stays or names the new snapshot, which loads and holds the image |
| Baselines.ClearPending | internal/config/apply.go:227-232 | the commit point: until the removal is durable a crash finds the old view or the new one |
| Transactions.PutBack | internal/config/apply.go:249-271 | success makes the live image durably the one the journal names; an unreadable directory stops it before any change |
| Transactions.Recover | internal/config/apply.go:236-276 | whatever happens inside, every crash still stands for what the journal promised; success restores image and baseline exactly, with the daemon restarted on those files, and removes the journal; says for each failure whether the journal remains |
| Transactions.ValidateImage | internal/config/store.go:203-234 | accepts exactly the images with a daemon file, valid paths, sizes within limits and files that parse |
| Transactions.SameRevision | internal/config/apply.go:140-142 | for images the store handles, the revision the caller names determines the image |
| Transactions.WriteJournal | internal/config/apply.go:179-199 | a journal, durable or not, is only ever there when the live image is still the caller's after somebody else's edit; it then names a durable snapshot of exactly that image and the old baseline; every failure leaves the live directory as it was or as edited |
| Transactions.Commit | internal/config/apply.go:200-209 | success leaves files and baseline new and durable, the daemon having taken the action on those files and been healthy since, and the recorded baseline image is the one asked for; failure leaves the journal's promise untouched |
| Transactions.RollBack | internal/config/apply.go:210-216 | which of the three rollback outcomes the disk is in; where the old files are back, the daemon was restarted on them |
| Transactions.NamedSurvives | internal/config/apply.go:179-223 | with advancing clocks the snapshot named in the result survives the closing prune unchanged |
| Transactions.Transact | internal/config/apply.go:173-225 | every ending stands for the image from before or the one asked for; rolled back means the image from before, an error before the journal changes no live file, and with advancing clocks the named snapshot survives and holds the old image |
| Transactions.NoChange | internal/config/apply.go:151-172 | success leaves the baseline holding the unchanged live image; a baseline that already held it is left alone; with a broken directory there is an error after the baseline has moved |
| Transactions.ApplyImage | internal/config/apply.go:138-225 | the whole outcome contract of `apply`: disk, revision and daemon for success, and for each error what is there now, in terms of the image read, the image asked for and the edit in between; refusals leave the disk as it was |
| Transactions.Apply | internal/config/apply.go:109-136 | the outcome contract for a change set laid over the image on disk; a conflict means the image was not the caller's; the snapshot named in the result holds the old image |
| Transactions.Restore | internal/config/apply.go:278-290 | the outcome contract for the image of a loadable snapshot; a broken or missing one changes nothing |
| Transactions.Snapshot | internal/config/store.go:338-355 | live image, journal and baseline stay and other directories are only ever taken apart; at most twenty snapshots remain and, with advancing clocks, the new one is there and loads as the live image; refused while a journal waits; fails while a directory is broken |
| Transactions.Delete | internal/config/store.go:448-467 | live image, journal, baseline and all other snapshots stay; only a loadable snapshot other than the baseline goes |
| Transactions.Baseline | internal/config/baseline.go:55-76 | the pinned version; only the first call ever moves the pointer, to the image on disk |
| Transactions.AcceptDisk | internal/config/baseline.go:89-109 | success makes the image on disk the baseline; without the right revision, or with a journal, it is refused and nothing changes; with a broken directory it fails although the baseline has moved |
| Runs.StepGood | internal/config/apply.go:138-276 | every kind of step keeps the disk invariant, crashes and interrupted recoveries included |
| Runs.RunGood | internal/config/apply.go:138-276 | the invariant holds at every node of every run |
| Runs.ReferencesLoad | internal/config/apply.go:192-199 | in every reachable state, whatever `pending.json` or `baseline.json` names is a complete, durable, loadable snapshot |
| Runs.FreshGood | internal/config/store.go:57-84 | a machine on which the manager was never run meets the invariant, whatever its configuration |
| Histories.StepGrown | internal/config/store.go:292-336 | every step, however it ends, only adds parts of the images it takes snapshots of and otherwise only takes directories apart |
| Histories.SnapshotStays | internal/config/store.go:361-409 | a snapshot that loads gives, at every later point of a run, its own image or does not load; never another |
| Histories.Provenance | internal/config/store.go:292-336 | whatever loads, anywhere in a run, was there at the start or holds exactly the image that the step which drew its name took a snapshot of; no part-way or half-removed snapshot passes |
| Histories.TakenStays | internal/config/store.go:292-336 | what loads under a name drawn by a step is, at every later point, the image of that step |
| Histories.WedgedStays | internal/config/store.go:417-440 | a directory that does not load is there and broken at every later point of a run |
| Histories.KilledSnapshotWedges | internal/config/store.go:297-303 | a kill right after the directory is made leads, through a clean recovery, to a serving helper with such a directory |
| Crashes.CrashAtomicity | internal/config/apply.go:64-65 | an Apply or Restore killed anywhere, with any number of kills in recovery, comes to the image and baseline from before, or to somebody else's edit with the old baseline, or to the whole change with a baseline snapshot of the image asked for; to those from before whenever the journal was still there |
| Crashes.StaleJournal | internal/config/apply.go:238-243 | after a kill, no later loss of power changes what the disk stands for if and only if every unsynced journal stands for just that |
| Agreement.ApplyAtomic | internal/config/apply.go:109-136 | a killed Apply comes to nothing, or to the change set laid over the image from before, on disk exactly when no written path is a second spelling |
| Agreement.RestoreAtomic | internal/config/apply.go:278-290 | a killed Restore comes to nothing, or to the snapshot's image as baseline and, for canonical keys, as live image |
| Ledgers.CrashEntry | internal/config/apply.go:138-276 | a crash inside one step resolves to an outcome of that very step |
| Ledgers.RunHasLedger | internal/config/apply.go:138-276 | every run, through any crashes, has a ledger of views in which each success made its whole change on the image its revision names, and each refusal and rollback nothing |
| Ledgers.BaselineMoves | internal/config/baseline.go:89-109 | only a change, the first takeover or an explicit "Reload from disk" moves the baseline, and only to the snapshot of its image |
| Ledgers.BaselineStays | internal/config/baseline.go:55-76 | over any stretch without such a step, reads, refused and rolled-back changes, edits, backups, deletions, crashes and recoveries leave the baseline where it was |
| Ledgers.SuccessesChain | internal/config/apply.go:138-142 | no lost update over whole runs: a success acted on the image that its revision names, and that is exactly what one earlier change or edit gave, with nothing in between |
| Ledgers.NextNames | internal/config/apply.go:217-224 | between two successes with nothing in between, the second was called with the revision that the first returned |
| Serving.Request | internal/helper/server.go:162-216 | any request with any arguments is one step of a run: the very change, pin or upkeep that was asked for, with the result that was answered |
| Serving.Serve | internal/helper/server.go:74-103 | recovery first, then requests: every life of the helper is a run that starts and ends on its disk |
| Serving.Lives | internal/helper/server.go:74-103 | any number of lives, each ended by a crash at any step or by a stop, are one run from the first start to the last |
| Agreement.SuccessAgrees | internal/config/apply.go:184-224 | no lost update: success acted on the image the caller named; baseline and revision are the overlay, and the live image is too if and only if the written paths are canonical |
| Agreement.OnlyOneWins | internal/config/apply.go:140-142 | after a change succeeded, the revision it was based on no longer names the live image |
| Agreement.RunningIsSize | internal/config/apply.go:94-105 | adding up differences gives the size of the directory after every move |
| Agreement.AlwaysRecoverable | internal/config/apply.go:257-260 | a process killed anywhere in `replace` leaves an image that recovery can read if and only if the peak size fits |
| Agreement.OnePathRecoverable | internal/helper/protocol.go:126-128 | a kill in a change of one path can always be recovered from |
| Stranding.UnionReached | internal/config/apply.go:94-105 | between renames and removals the directory holds both sets of files |
| Stranding.RestoreCanStrand | internal/config/apply.go:278-290 | for any service text of the largest size and any daemon file that the parsers accept: two images that `apply` accepts and a crash point between them that recovery cannot read |
| Stranding.Stranded | internal/config/apply.go:253-260 | from there on no number of restarts and recovery attempts serves again or changes anything |
| PowerLosses.EveryCutReadable | internal/config/apply.go:94-106 | with room for the larger versions of all paths, whatever a loss of power leaves at any point of `replace` can be read |
| PowerLosses.CutsReadableIff | internal/config/apply.go:94-106 | with all moves done and none synced, every loss of power leaves a readable image if and only if the larger versions of all paths fit together |
| PowerLosses.PeakWithin | internal/config/apply.go:94-106 | that condition implies the one for a killed process |
| PowerLosses.SwapGrows | internal/config/apply.go:94-106 | and is stronger: two files that trade sizes never exceed the old total in a kill, and do in a loss of power |
| PowerLosses.OnePathFits | internal/helper/protocol.go:126-128 | for a change of one path the larger versions are the old or the new image |
| Discoveries.KeyInjective | internal/avahi/client.go:60-62 | keys name identities |
| Discoveries.ListingShows | internal/avahi/browser.go:35-42 | a state lists every cached service once, in key order, and nothing else |
| Discoveries.Discovery.Receive | internal/avahi/browser.go:46-69 | a receive yields the state last sent; a free lock means it is the current one, or the current one was received; states never go back in time |
| Discoveries.Discovery.Send | internal/avahi/browser.go:59-66 | a send is only made to an open channel with room |
| Discoveries.Discovery.Offer | internal/avahi/browser.go:58-68 | one subscriber's turn ends with the current state sent, however receivers interleave; the second send finds room |
| Discoveries.Discovery.Notify | internal/avahi/browser.go:56-69 | afterwards every subscriber's channel holds the current state or its owner has received it |
| Discoveries.Discovery.Subscribe | internal/avahi/browser.go:46-54 | a fresh channel that holds the current state |
| Discoveries.Discovery.Unsubscribe | internal/avahi/browser.go:52-53 | closes once, and no later send can reach it |
| Discoveries.Discovery.Upsert | internal/avahi/browser.go:83-94 | one entry changes, first seen is kept, and the new state is published |
| Logs.PresentIff | internal/avahi/browser.go:242-264 | an item is present exactly when the last signal about it announced it; results make no difference |
| Logs.GenOfAsked | internal/avahi/browser.go:256-258 | a present generation belongs to an announcement of that very item |
| Browsing.AddedMirrors | internal/avahi/browser.go:256-258 | announcing an item keeps the cache equal to what the history says |
| Browsing.HeardMirrors | internal/avahi/browser.go:196-204 | so does a reply, which changes the cache only for a present generation |
| Browsing.HeardMirrorsIff | internal/avahi/client.go:77-82 | and only if the reply is about the item that was asked for |
| Browsing.AnsweredOrOutstanding | internal/avahi/browser.go:163-204 | each generation was answered, or is outstanding in exactly one place |
| Browsing.ShownOrOutstanding | internal/avahi/browser.go:163-204 | every cached service shows the reply for its present generation or has that one request outstanding |
| Browsing.QuietMeansResolved | internal/avahi/browser.go:163-204 | with nothing outstanding every cached service shows a reply |
| Browsing.Session.Take | internal/avahi/browser.go:174-176 | a worker takes the oldest request and the session invariant holds |
| Browsing.Session.Deliver | internal/avahi/browser.go:178-182 | a result is queued only where there is room, and nothing is lost or doubled |
| Browsing.Session.Hear | internal/avahi/browser.go:196-204 | a result of an older generation changes neither cache nor history |
| Browsing.Session.NewType | internal/avahi/browser.go:222-241 | one browser per type, at most 256 types |
| Browsing.Session.ItemGone | internal/avahi/browser.go:248-252 | the item leaves table and cache, and the invariant holds |
| Browsing.Session.ItemCame | internal/avahi/browser.go:253-263 | a new generation with one queued request, or an end exactly at a limit |
| Browsing.Session.OnSignal | internal/avahi/browser.go:205-265 | which signals end the session and why, which enter the history, and that foreign ones change nothing; the invariant holds after each |
| Browsing.Browse | internal/avahi/browser.go:134-267 | the invariant holds under every interleaving for any number of steps; workers are joined at the end and nothing is shared between sessions |
| Browsing.Run | internal/avahi/browser.go:105-122 | over all sessions, no published state shows a service without a connection |
| Texts.ContainsIsMember | internal/config/service.go:154 | searching a bar-separated list is membership for names without a bar |
| ServiceXml.CheckAttrs | internal/config/service.go:170-177 | accepts exactly the one attribute an element may have, unprefixed and once |
| ServiceXml.CheckShape | internal/config/service.go:137-192 | the stack-and-count loop, with all indexing safe, computes the fold over tokens |
| ServiceXml.FlattenBalanced | internal/config/service.go:180-186 | the tokens of a tree never pop an empty stack |
| ServiceXml.FoldSiblings | internal/config/service.go:140-192 | the stack machine and the recursion over the tree agree on acceptance and on the counts left behind |
| ServiceXml.LoopIsRecursion | internal/config/service.go:140-192 | the same for whole documents |
| ServiceGrammar.InsideIff | internal/config/service.go:154-169 | the recursion with counts is element-by-element acceptance plus no forbidden repetition |
| ServiceGrammar.AcceptsGrammar | internal/config/service.go:132-192 | the loop accepts a document with XML names if and only if it obeys the declarative grammar |
| ServiceGroups.PrintedAccepted | internal/config/service.go:199-208 | the shape check passes everything that Marshal prints |
| ServiceGroups.PrintedReadsBack | internal/config/service.go:199-208 | decoding what was printed gives the group back |
| ServiceGroups.PaddedAccepted | internal/config/service.go:187-191 | blank lines after the header of a printed group change neither verdict nor value, so acceptable service files of every size up to the limit exist |
| ServiceGroups.NothingLost | internal/config/service.go:132-133 | of an accepted service every element and attribute is in the decoded value, lists in order |
| ServiceGroups.RepeatedScalarDropped | internal/config/service.go:132-133 | without the check a repeated scalar would vanish; the grammar refuses it |
| Scanning.RawLinesBack | internal/config/daemon.go:36-38 | scanning a text printed line by line gives the lines back |
| Daemons.ParseDaemon | internal/config/daemon.go:33-67 | the line loop computes the reading of the text, with every error case |
| Daemons.ValidDomain | internal/config/daemon.go:20-31 | accepts exactly dotted labels within the length limit |
| Daemons.Validate | internal/config/daemon.go:89-141 | accepts exactly the configurations whose every section, key and value fits the schema with one protocol enabled, in any order of visiting |
| Daemons.Marshal | internal/config/daemon.go:143-165 | the loops print every section present in fixed order with sorted keys, and refuse exactly what is invalid |
| Schemas.SchemaPlain | internal/config/daemon.go:70-87 | every schema name is plain, and Marshal visits every section of the schema |
| DaemonRoundTrip.MarshalParses | internal/config/daemon.go:143-165 | for every valid configuration, reading what was printed gives all sections and settings back, values trimmed, unless a line is too long, and then it is refused |
| DaemonRoundTrip.AcceptedRoundTrip | internal/config/daemon.go:33-67 | for every accepted and valid text the settings come back exactly and printing again changes nothing |
| Hosts.ValidateHosts | internal/config/hosts.go:15-32 | accepts exactly lists of proper addresses and full names without duplicates up to address form and letter case |
| Hosts.ParseHosts | internal/config/hosts.go:34-52 | the line loop computes the reading of the file, with every error case |
| Hosts.HostsRoundTrip | internal/config/hosts.go:54-63 | every valid list comes back unchanged, unless a line is too long for the scanner |
| Hosts.AcceptedHosts | internal/config/hosts.go:34-63 | every accepted file keeps its entries when printed and read again |
| Limits.Limiter.Allow | internal/auth/auth.go:78-100 | the sweep and the window rule, as one transition of the table |
| Limits.Drive | internal/auth/auth.go:78-100 | any calls of a limiter make a run |
| Limits.TableBounded | internal/auth/auth.go:87-98 | in every run the table holds at most 4096 keys, each with a count from one to five |
| Limits.KeyWindows | internal/auth/auth.go:78-100 | the admissions of a key fall into disjoint windows of fifteen minutes with at most five each |
| Limits.FivePerWindow | internal/auth/auth.go:87-99 | at most five admissions while a window is open |
| Limits.NinePerInterval | internal/auth/auth.go:82-99 | at most nine admissions in any fifteen minutes |
| Limits.NineHappen | internal/auth/auth.go:82-86 | nine are possible |
| Drifts.Database.SaveBaseline | internal/database/baseline.go:10-39 | all or nothing |
| Drifts.Database.ObserveFiles | internal/database/sqlite.go:167-207 | the report is the exact difference, each path once; flags follow it and stored hashes never change |
| Drifts.FlagKnown | internal/database/sqlite.go:192-200 | the first loop reports and flags exactly the changed and missing files |
| Drifts.AddNew | internal/database/sqlite.go:201-205 | the second loop adds exactly the files that are not managed |
| Drifts.DiffersIff | internal/database/sqlite.go:193 | when a lookup of a missing path could hide a difference |
| Reconciling.Server.SyncBaseline | internal/api/server.go:88-94 | success leaves the database equal to the helper's baseline; failure leaves it as it was |
| Reconciling.Server.Mutate | internal/api/routes.go:49-69 | any request, failed ones included, followed by a successful synchronisation leaves the two equal |
| Reconciling.Server.Configuration | internal/api/routes.go:28-47 | the drift is exact for the image that was read and never accepts it |
| Reconciling.DiffersInBytes | internal/helper/protocol.go:76-78 | hashes differ exactly where the bytes do |
| Reconciling.ReportMeans | internal/api/routes.go:28-47 | while the two agree, a path is reported exactly when the live bytes differ from the managed ones |
| Reconciling.AgreesUntilMoved | internal/api/server.go:88-94 | until a step may move the baseline the two go on agreeing, through edits, backups, deletions, refusals, rollbacks, crashes and recoveries |
| Reconciling.DriftIgnoresOwner | internal/helper/protocol.go:76-78 | a change of mode or owner alters the revision but is no drift |

## Left out

- After a restart the model takes what is on disk as durable, so runs do not mix a process kill with a later power loss before any sync; for the journal, where it matters, `Crashes.StaleJournal` says exactly when it does harm.
- In the power-loss layer a directory sync does not report failure and carry on.
- The creation of the directory `services` and the loss of that entry in a crash; inode types, symbolic links, `O_NOFOLLOW` and the writer lock.
- Names of temporaries inside the backup directory: a failure there leaves only files that nothing reads.
- JSON: manifests, `pending.json` and `baseline.json` are values; snapshot paths are taken to be valid UTF-8 and manifests to stay below the size that `readFile` accepts.
- Snapshot names are numbers, drawn fresh, with 0 for every malformed text; timestamps are arbitrary integers.
- The helper runs as root, so that staged files get their recorded owner.
- SHA-256 is a parameter; where an operation compares digests of different contents it is assumed to be free of collisions. Whether the text of a file parses is a parameter of the store.
- Edits by others happen at any time between requests and, inside an Apply or Restore, once between the snapshot and the second read; each is atomic and durable.
- systemd and D-Bus calls succeed or fail in any way, and of the daemon only what the controller reported is known; the D-Bus match rules, the cleanup of browser objects, the bound of the signal channel and the wrap-around of the 64-bit generation counter are not part of the model.
- configEvents and the HTTP layer (routing, cookies, origin checks, event streams, `hostsChange`), which only carry calls to what is modelled.
- ServiceGroup.Validate, which checks single fields of a group; the theorems about printing and reading hold for every group, valid or not, and so do not need it.
- encoding/xml: the tokenizer delivers properly nested tokens, printing and decoding work on trees, and character escaping is not modelled.
- Texts are sequences of characters, and the scanner's limits count characters rather than bytes; `netip.ParseAddr` is a parameter, of which only the characters of zone-free addresses are assumed.
- Password hashing, sessions and the verification slot of Login: only the attempt table is modelled.
- The SQL engine, migrations, the snapshot index and the jobs table; `AcceptFiles` is the file part of `SaveBaseline`.
- Journal viewing, network and runtime detection, packaging and the frontend.
