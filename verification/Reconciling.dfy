/** The manager's server over the helper: reconciliation after every mutation, and drift. */
module Reconciling {
  import opened Basics
  import opened Images
  import opened Revision
  import opened Disks
  import opened Primitives
  import opened Ages
  import opened Snapshots
  import opened Transactions
  import opened Runs
  import opened Histories
  import opened Ledgers
  import opened Serving
  import opened Drifts

  function HashesOf(sha: string -> string, im: Image): Hashes {
    map p | p in im :: sha(im[p].data)
  }

  function Bytes(im: Image, p: string): Option<string> {
    if p in im then Some(im[p].data) else None
  }

  /** Hashes disagree about a path exactly when the two images hold different bytes there, or only one has it. */
  lemma DiffersInBytes(sha: string -> string, base: Image, live: Image, p: string)
    requires CollisionFree(sha)
    ensures Differs(HashesOf(sha, base), HashesOf(sha, live), p) <==> Bytes(base, p) != Bytes(live, p)
  {
    DiffersIff(HashesOf(sha, base), HashesOf(sha, live), p);
    if p in base && p in live && sha(base[p].data) == sha(live[p].data) {
      assert base[p].data == live[p].data;
    }
  }

  /** The database holds what the helper's managed baseline is. */
  ghost predicate Agrees(sha: string -> string, d: Disk, files: map<string, Row>, settings: Settings) {
    && d.pointer.now.Some?
    && Known(files) == HashesOf(sha, SnapImage(d, d.pointer.now.value))
    && settings == Settings(d.pointer.now, Some(RevisionOf(sha, SnapImage(d, d.pointer.now.value))))
  }

  /** Edits by others, backups and deletions leave the agreement alone. */
  lemma AgreesStill(sha: string -> string, d: Disk, d': Disk, files: map<string, Row>, settings: Settings)
    requires Agrees(sha, d, files, settings) && d'.pointer == d.pointer
    requires d'.snaps == d.snaps || SnapImage(d', d.pointer.now.value) == SnapImage(d, d.pointer.now.value)
    ensures Agrees(sha, d', files, settings)
  {
  }

  /** Drift is about contents only: images that differ in a mode or an owner have no drift but other revisions. */
  lemma DriftIgnoresOwner(sha: string -> string, im: Image, p: string, f: File)
    requires CollisionFree(sha) && p in im && f.data == im[p].data && f != im[p]
    requires forall q | q in im :: '\0' !in q
    ensures HashesOf(sha, im[p := f]) == HashesOf(sha, im)
    ensures RevisionOf(sha, im[p := f]) != RevisionOf(sha, im)
  {
    var other := im[p := f];
    assert other[p] != im[p];
    assert HashesOf(sha, other) == HashesOf(sha, im);
    hide RevisionOf, CollisionFree, HashesOf;
    RevisionNamesImage(sha, im, other);
  }

  class Server {
    const db: Database
    const helper: Store

    constructor (db: Database, helper: Store)
      ensures this.db == db && this.helper == helper
    {
      this.db, this.helper := db, helper;
    }

    /** The helper is up and recovered. */
    ghost predicate Ready()
      reads helper
    {
      helper.alive && Sound(helper.sha, helper.disk) && AtRest(helper.disk) && CollisionFree(helper.sha)
    }

    ghost predicate InSync()
      reads db, helper
    {
      Agrees(helper.sha, helper.disk, db.files, db.settings)
    }

    /** `syncBaseline`. The call may fail, or its answer may be lost. */
    method SyncBaseline(at: int) returns (ok: bool, ghost act: Act)
      requires Ready()
      modifies db, helper
      ensures Step(helper.sha, Up(old(helper.disk)), act, NodeOf(helper.disk, helper.alive))
      ensures act.Upkeep? || (act.Pin? && act.takeover)
      ensures ok ==> InSync() && helper.alive
      ensures !ok ==> db.files == old(db.files) && db.settings == old(db.settings)
      ensures helper.disk.live == old(helper.disk.live)
    {
      hide Loads, Canonical, ImageOf, Firm, Torn, Sound, AtRest, Committed, CollisionFree, Step, RevisionOf,
        SnapImage, Readable, Grown;
      ghost var d := helper.disk;
      var r := Baseline(helper, at);
      act := PinIsStep(helper.sha, d, helper.disk, helper.alive, true);
      var lost: bool := *;
      if r.Err? || lost {
        return false, act;
      }
      var revision := Revise(helper.sha, r.value.1);
      ok := db.SaveBaseline(r.value.0.id, revision, HashesOf(helper.sha, r.value.1));
      KnownFresh(HashesOf(helper.sha, r.value.1));
    }

    /** `mutate`: any operation of the helper, and then a synchronisation, whether it succeeded or not. */
    method Mutate(req: Req, at: int) returns (ok: bool, reply: Reply, ghost acts: seq<Act>, ghost nodes: seq<Node>)
      requires Ready()
      modifies db, helper
      ensures Run(helper.sha, nodes, acts) && nodes[0] == Up(old(helper.disk))
      ensures nodes[|acts|] == NodeOf(helper.disk, helper.alive) && acts != [] && Answers(req, acts[0], reply)
      ensures ok ==> InSync() && helper.alive
      ensures !ok ==> db.files == old(db.files) && db.settings == old(db.settings)
    {
      hide Loads, Canonical, ImageOf, Firm, Torn, Committed, CollisionFree, Step, RevisionOf, SnapImage, Agrees, Run,
        Answers;
      nodes, acts := [Up(helper.disk)], [];
      Unmoved(helper.sha, helper.disk);
      ghost var act;
      reply, act := Request(helper, req);
      Appended(helper.sha, nodes, acts, act, NodeOf(helper.disk, helper.alive));
      StepGood(helper.sha, nodes[0], act, NodeOf(helper.disk, helper.alive));
      nodes, acts := nodes + [NodeOf(helper.disk, helper.alive)], acts + [act];
      if !helper.alive {
        return false, reply, acts, nodes;
      }
      LastGood(helper.sha, nodes, acts);
      ok, act := SyncBaseline(at);
      Appended(helper.sha, nodes, acts, act, NodeOf(helper.disk, helper.alive));
      nodes, acts := nodes + [NodeOf(helper.disk, helper.alive)], acts + [act];
    }

    /** `configuration`: the live files and how they differ from what the database remembers. */
    method Configuration(at: int) returns (r: Option<seq<Drift>>)
      requires Ready()
      modifies db, helper
      ensures r.Some? ==> Exact(Known(db.files), HashesOf(helper.sha, ImageOf(helper.disk.live.now)), r.value)
      ensures r.Some? && (old(InSync()) || old(db.settings.snapshot).None?) ==> InSync()
      ensures helper.disk.live == old(helper.disk.live)
    {
      hide Loads, Canonical, ImageOf, Firm, Torn, Sound, AtRest, Committed, CollisionFree, Step, RevisionOf,
        SnapImage, Readable, Exact;
      if db.settings.snapshot.None? {
        ghost var act;
        var ok: bool;
        ok, act := SyncBaseline(at);
        if !ok {
          return None;
        }
      }
      var read := Read(helper);
      var lost: bool := *;
      if read.Err? || lost {
        return None;
      }
      r := db.ObserveFiles(HashesOf(helper.sha, read.value));
    }
  }

  lemma KnownFresh(hashes: Hashes)
    ensures Known(Fresh(hashes)) == hashes
  {
  }

  lemma Unmoved(sha: string -> string, d: Disk)
    requires Sound(sha, d) && AtRest(d)
    ensures Run(sha, [Up(d)], []) && Good(sha, Up(d))
  {
  }

  lemma GoodRests(sha: string -> string, n: Node)
    requires Good(sha, n) && n.Up? && n.disk.journal.now.None?
    ensures n.disk.pointer == Slot(n.disk.pointer.now, {}) && Committed(n.disk).baseline == n.disk.pointer.now
  {
    hide Sound, LiveSynced, ImageOf;
  }

  lemma PointerFirm(sha: string -> string, d: Disk)
    requires Sound(sha, d) && d.pointer.now.Some?
    ensures Firm(sha, d, d.pointer.now.value)
  {
  }

  /** Until the next synchronisation the database goes on agreeing with the helper:
      over any stretch of a run in which no step may move the baseline, with edits,
      backups, deletions, refusals, rollbacks, crashes and recoveries in any order. */
  lemma AgreesUntilMoved(sha: string -> string, nodes: seq<Node>, acts: seq<Act>, views: seq<View>, i: nat, j: nat,
                         files: map<string, Row>, settings: Settings)
    requires Run(sha, nodes, acts) && Good(sha, nodes[0]) && Ledger(sha, nodes, acts, views) && i <= j < |nodes|
    requires nodes[i].Up? && nodes[i].disk.journal.now.None? && nodes[j].Up? && nodes[j].disk.journal.now.None?
    requires Agrees(sha, nodes[i].disk, files, settings) && forall k | i <= k < j :: !MayCommit(acts[k])
    ensures Agrees(sha, nodes[j].disk, files, settings)
  {
    hide Run, Good, Step, Entry, Committed, MayCommit, Firm, SnapImage, Loads, RevisionOf, HashesOf, Sound;
    var d, d' := nodes[i].disk, nodes[j].disk;
    RunGood(sha, nodes, acts);
    GoodRests(sha, nodes[i]);
    GoodRests(sha, nodes[j]);
    BaselineStays(sha, nodes, acts, views, i, j);
    GoodSound(sha, nodes[i]);
    GoodSound(sha, nodes[j]);
    PointerFirm(sha, d);
    PointerFirm(sha, d');
    SnapshotStays(sha, nodes, acts, i, j, d.pointer.now.value);
    LoadsFirm(sha, d', d.pointer.now.value);
    AgreesStill(sha, d, d', files, settings);
  }

  lemma LoadsFirm(sha: string -> string, d: Disk, id: nat)
    requires Firm(sha, d, id)
    ensures id in d.snaps.now && Loads(sha, d.snaps.now[id], id)
  {
  }

  /** While the database agrees with the helper, the report lists exactly the paths
      at which the live configuration holds other bytes than the managed version. */
  lemma ReportMeans(sha: string -> string, d: Disk, files: map<string, Row>, settings: Settings, drift: seq<Drift>,
                    p: string)
    requires CollisionFree(sha) && Agrees(sha, d, files, settings)
    requires Exact(Known(files), HashesOf(sha, ImageOf(d.live.now)), drift)
    ensures (exists e :: e in drift && e.path == p)
       <==> Bytes(SnapImage(d, d.pointer.now.value), p) != Bytes(ImageOf(d.live.now), p)
  {
    hide CollisionFree, HashesOf, SnapImage, ImageOf, Bytes, RevisionOf, Differs;
    DiffersInBytes(sha, SnapImage(d, d.pointer.now.value), ImageOf(d.live.now), p);
  }
}
