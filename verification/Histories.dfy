/** Snapshots over whole runs: what loads under a name is the image it was taken
    of, through every operation, failure, crash and recovery. */
module Histories {
  import opened Basics
  import opened Images
  import opened Revision
  import opened Disks
  import opened Ages
  import opened Primitives
  import opened Snapshots
  import opened Retention
  import opened Baselines
  import opened Transactions
  import opened Runs

  /** The images of the snapshots that a step may take, under the names it draws. */
  function BornBy(d: Disk, act: Act): map<nat, Image> {
    match act
    case Change(c) => Born(d, c.before, c.after)
    case Pin(_, _) => map[d.nextId := ImageOf(d.live.now)]
    case Upkeep => map[d.nextId := ImageOf(d.live.now)]
    case _ => map[]
  }

  lemma ChangeGrown(sha: string -> string, d: Disk, c: Call, d': Disk, alive: bool)
    requires ChangeStep(sha, d, c, d', alive)
    ensures Grown(sha, d, d', Born(d, c.before, c.after))
  {
    hide Ended, Grown, ImageOf, Reached, Explained, Applied, Wanted, NoJournal;
    if d.journal.now.Some? {
      GrownStill(sha, d, d);
      GrownMore(sha, d, d, map[], Born(d, c.before, c.after));
    }
  }

  /** Every step, whatever its kind and however it ends, only adds parts of the
      images it takes snapshots of, and otherwise only takes directories apart. */
  lemma StepGrown(sha: string -> string, n: Node, act: Act, n': Node)
    requires Step(sha, n, act, n')
    ensures Grown(sha, n.disk, n'.disk, BornBy(n.disk, act))
  {
    hide Ended, Grown, ImageOf, ChangeStep, PowerLoss, Committed, Keeps;
    match act {
      case Change(c) => ChangeGrown(sha, n.disk, c, n'.disk, n'.Up?);
      case Edit(_) => GrownStill(sha, n.disk, n'.disk);
      case Boot => GrownCrash(sha, n.disk, n'.disk);
      case _ =>
    }
  }

  lemma NextGrows(sha: string -> string, d: Disk, d': Disk, born: map<nat, Image>)
    requires Grown(sha, d, d', born)
    ensures d.nextId <= d'.nextId && forall id | id in born :: d.nextId <= id
  {
    hide Remains, Fragment, Wedged;
  }

  /** A name that has been drawn is not drawn again. */
  lemma {:induction false} NamesGrow(sha: string -> string, nodes: seq<Node>, acts: seq<Act>, i: nat)
    requires Run(sha, nodes, acts) && i < |nodes|
    ensures nodes[0].disk.nextId <= nodes[i].disk.nextId
  {
    hide Step, Grown;
    if i > 0 {
      NamesGrow(sha, nodes, acts, i - 1);
      StepGrown(sha, nodes[i - 1], acts[i - 1], nodes[i]);
      NextGrows(sha, nodes[i - 1].disk, nodes[i].disk, BornBy(nodes[i - 1].disk, acts[i - 1]));
    }
  }

  lemma {:induction false} OnlyStays(sha: string -> string, nodes: seq<Node>, acts: seq<Act>, i: nat, id: nat,
                                     im: Image)
    requires Run(sha, nodes, acts) && i < |nodes|
    requires Only(sha, nodes[0].disk, id, im) && id < nodes[0].disk.nextId
    ensures Only(sha, nodes[i].disk, id, im)
  {
    hide Step, Grown, Only;
    if i > 0 {
      OnlyStays(sha, nodes, acts, i - 1, id, im);
      NamesGrow(sha, nodes, acts, i - 1);
      var born := BornBy(nodes[i - 1].disk, acts[i - 1]);
      StepGrown(sha, nodes[i - 1], acts[i - 1], nodes[i]);
      NextGrows(sha, nodes[i - 1].disk, nodes[i].disk, born);
      OnlyGrown(sha, nodes[i - 1].disk, nodes[i].disk, born, id, im);
    }
  }

  lemma FirmIsOld(sha: string -> string, d: Disk, id: nat)
    requires Sound(sha, d) && Firm(sha, d, id)
    ensures id < d.nextId
  {
  }

  lemma LoadedIs(sha: string -> string, d: Disk, id: nat, im: Image)
    requires Only(sha, d, id, im) && id in d.snaps.now && Loads(sha, d.snaps.now[id], id)
    ensures SnapImage(d, id) == im
  {
    hide Loads, Contents;
    assert MayBe(d.snaps, id, Some(d.snaps.now[id]));
  }

  /** A snapshot that loads goes on loading with its image, or is gone, or no longer
      loads: at no later node does its name give any other image. */
  lemma SnapshotStays(sha: string -> string, nodes: seq<Node>, acts: seq<Act>, i: nat, j: nat, id: nat)
    requires Run(sha, nodes, acts) && Good(sha, nodes[0]) && i <= j < |nodes|
    requires Firm(sha, nodes[i].disk, id)
    ensures var d := nodes[j].disk;
            id in d.snaps.now && Loads(sha, d.snaps.now[id], id) ==> SnapImage(d, id) == SnapImage(nodes[i].disk, id)
  {
    hide Step, Run, Only, Loads, SnapImage;
    var im := SnapImage(nodes[i].disk, id);
    RunGood(sha, nodes, acts);
    GoodSound(sha, nodes[i]);
    FirmIsOld(sha, nodes[i].disk, id);
    FirmOnly(sha, nodes[i].disk, id);
    RunTail(sha, nodes, acts, i);
    RunSizes(sha, nodes, acts);
    OnlyStays(sha, nodes[i..], acts[i..], j - i, id, im);
    var d := nodes[j].disk;
    if id in d.snaps.now && Loads(sha, d.snaps.now[id], id) {
      LoadedIs(sha, d, id, im);
    }
  }

  lemma RunSizes(sha: string -> string, nodes: seq<Node>, acts: seq<Act>)
    requires Run(sha, nodes, acts)
    ensures |nodes| == |acts| + 1
  {
  }

  lemma GoodSound(sha: string -> string, n: Node)
    requires Good(sha, n)
    ensures Sound(sha, n.disk)
  {
  }

  /** The name was drawn by step i, for this image. */
  predicate TakenBy(nodes: seq<Node>, acts: seq<Act>, i: int, id: nat, im: Image) {
    0 <= i < |acts| < |nodes| && id in BornBy(nodes[i].disk, acts[i]) && BornBy(nodes[i].disk, acts[i])[id] == im
  }

  /** Held from the start, and loading as this image. */
  ghost predicate HeldAs(sha: string -> string, d: Disk, id: nat, im: Image) {
    exists v :: MayBe(d.snaps, id, Some(v)) && Loads(sha, v, id) && ImageIn(v) == im
  }

  lemma HeldBefore(sha: string -> string, d: Disk, d': Disk, born: map<nat, Image>, id: nat, im: Image)
    requires Sound(sha, d) && Grown(sha, d, d', born) && CollisionFree(sha) && HeldAs(sha, d', id, im)
    ensures HeldAs(sha, d, id, im) || (id in born && born[id] == im)
  {
    hide Loads, Shrinks, Fragment, CollisionFree, ImageIn, Wedged;
    var v' :| MayBe(d'.snaps, id, Some(v')) && Loads(sha, v', id) && ImageIn(v') == im;
    if Remains(d, id, v') {
      var v :| MayBe(d.snaps, id, Some(v)) && Shrinks(v, v');
      ShrunkLoads(sha, v, v', id);
    } else {
      FragmentIs(sha, v', id, born[id]);
    }
  }

  /** Provenance: whatever loads, anywhere in a run, crash or not, is whole. It loaded
      from the start, or some step drew its name and it holds the image that the step
      took a snapshot of; no part-way or half-removed snapshot ever passes. */
  lemma {:induction false} Provenance(sha: string -> string, nodes: seq<Node>, acts: seq<Act>, j: nat, id: nat,
                                      im: Image)
    requires Run(sha, nodes, acts) && Good(sha, nodes[0]) && CollisionFree(sha) && j < |nodes|
    requires HeldAs(sha, nodes[j].disk, id, im)
    ensures HeldAs(sha, nodes[0].disk, id, im) || exists i :: i < j && TakenBy(nodes, acts, i, id, im)
  {
    hide Step, Grown, HeldAs, CollisionFree, Good, BornBy;
    if j > 0 {
      RunGood(sha, nodes, acts);
      GoodSound(sha, nodes[j - 1]);
      StepGrown(sha, nodes[j - 1], acts[j - 1], nodes[j]);
      HeldBefore(sha, nodes[j - 1].disk, nodes[j].disk, BornBy(nodes[j - 1].disk, acts[j - 1]), id, im);
      if HeldAs(sha, nodes[j - 1].disk, id, im) {
        Provenance(sha, nodes, acts, j - 1, id, im);
      } else {
        assert TakenBy(nodes, acts, j - 1, id, im);
      }
    }
  }

  /** The snapshots of one step: what loads under their names later is their image. */
  lemma TakenStays(sha: string -> string, nodes: seq<Node>, acts: seq<Act>, i: nat, j: nat, id: nat, im: Image)
    requires Run(sha, nodes, acts) && Good(sha, nodes[0]) && CollisionFree(sha) && i < j < |nodes|
    requires TakenBy(nodes, acts, i, id, im) && id < nodes[i + 1].disk.nextId
    ensures var d := nodes[j].disk;
            id in d.snaps.now && Loads(sha, d.snaps.now[id], id) ==> SnapImage(d, id) == im
  {
    hide Step, Only, Loads, SnapImage, CollisionFree, Good, Grown, BornBy;
    RunGood(sha, nodes, acts);
    GoodSound(sha, nodes[i]);
    StepGrown(sha, nodes[i], acts[i], nodes[i + 1]);
    BornOnly(sha, nodes[i].disk, nodes[i + 1].disk, BornBy(nodes[i].disk, acts[i]), id);
    RunTail(sha, nodes, acts, i + 1);
    OnlyStays(sha, nodes[i + 1..], acts[i + 1..], j - (i + 1), id, im);
    var d := nodes[j].disk;
    if id in d.snaps.now && Loads(sha, d.snaps.now[id], id) {
      LoadedIs(sha, d, id, im);
    }
  }

  // ----- broken directories -----

  lemma WedgedNext(sha: string -> string, d: Disk, d': Disk, born: map<nat, Image>, id: nat)
    requires Grown(sha, d, d', born) && Wedged(sha, d, id)
    ensures Wedged(sha, d', id)
  {
    hide Remains, Fragment, Loads;
  }

  /** Nothing the helper does ever repairs or removes a broken directory. */
  lemma {:induction false} WedgedStays(sha: string -> string, nodes: seq<Node>, acts: seq<Act>, i: nat, j: nat, id: nat)
    requires Run(sha, nodes, acts) && i <= j < |nodes| && Wedged(sha, nodes[i].disk, id)
    ensures Wedged(sha, nodes[j].disk, id) && !AllLoads(sha, nodes[j].disk)
  {
    hide Step, Grown, Loads;
    if i < j {
      WedgedStays(sha, nodes, acts, i, j - 1, id);
      StepGrown(sha, nodes[j - 1], acts[j - 1], nodes[j]);
      WedgedNext(sha, nodes[j - 1].disk, nodes[j].disk, BornBy(nodes[j - 1].disk, acts[j - 1]), id);
    }
  }

  /** After a start, a directory that does not load is broken for good. */
  lemma BrokenAtBoot(sha: string -> string, d: Disk, d': Disk, id: nat)
    requires PowerLoss(d, d') && id in d'.snaps.now && !Loads(sha, d'.snaps.now[id], id)
    ensures Wedged(sha, d', id)
  {
    hide Loads, Shrinks;
    assert SnapSurvives(d, d', id);
    var c :| MayBe(d.snaps, id, c) && Survives(c, Get(d'.snaps.now, id));
  }

  /** The disk just after MakeSnap has made the directory of a new snapshot. */
  function Bare(d: Disk): Disk {
    d.(snaps := Put(d.snaps, d.nextId, Some(SnapDir(map[], None, {})), false), nextId := d.nextId + 1)
  }

  lemma BareSnapped(sha: string -> string, d: Disk)
    requires Sound(sha, d) && d.nextId !in d.snaps.may
    ensures Snapped(d, Bare(d)) && Fragments(sha, Bare(d), d.nextId, ImageOf(d.live.now))
    ensures Wedged(sha, Bare(d), d.nextId)
  {
    hide ImageOf, JournalSound, Firm, Fragment;
    NoManifest(sha, SnapDir(map[], None, {}), d.nextId, ImageOf(d.live.now));
    var v := SnapDir(map[], None, {});
    assert v == v.(loose := {});
  }

  /** How one comes about: the process is killed right after `Snapshot` has made its
      directory. The next start recovers without any complaint, and serves with a
      directory in place that no operation can read. */
  lemma KilledSnapshotWedges(sha: string -> string, d: Disk) returns (nodes: seq<Node>, acts: seq<Act>)
    requires Sound(sha, d) && Durable(d) && d.journal.now.None?
    ensures Run(sha, nodes, acts) && acts == [Upkeep, Boot, Recovery]
    ensures nodes[0] == Up(d) && nodes[3].Up? && Wedged(sha, nodes[3].disk, d.nextId)
  {
    hide ImageOf, Grown, Wedged, Sound, PowerLoss, Loads, Snapped, Torn, LiveSynced;
    var d' := Bare(d);
    DurableAtRest(d);
    NewId(sha, d);
    BareSnapped(sha, d);
    SnappedSound(sha, d, d');
    SnappedGrown(sha, d, d', ImageOf(d.live.now));
    BareAside(sha, d);
    BareDurable(d);
    DurableSurvives(d', d');
    GrownStill(sha, d', d');
    nodes, acts := [Up(d), Down(d'), Booting(d'), Up(d')], [Upkeep, Boot, Recovery];
    assert Keeps(sha, d', d');
    assert RecoveryStep(sha, d', Up(d'));
    assert Step(sha, nodes[0], acts[0], nodes[1]);
    assert Step(sha, nodes[1], acts[1], nodes[2]);
    assert Step(sha, nodes[2], acts[2], nodes[3]);
  }

  lemma DurableAtRest(d: Disk)
    requires Durable(d)
    ensures AtRest(d) && d.nextId !in d.snaps.may
  {
  }

  lemma BareDurable(d: Disk)
    requires Durable(d)
    ensures Durable(Bare(d))
  {
  }

  lemma BareAside(sha: string -> string, d: Disk)
    requires Sound(sha, d) && AtRest(d) && d.journal.now.None? && Snapped(d, Bare(d)) && Sound(sha, Bare(d))
    requires Grown(sha, d, Bare(d), map[d.nextId := ImageOf(d.live.now)])
    ensures Aside(sha, d, Bare(d), false) && AtRest(Bare(d)) && Torn(Bare(d), Committed(Bare(d)), Committed(Bare(d)))
    ensures Committed(Bare(d)) == Committed(d)
  {
    hide ImageOf, Grown, Sound, Loads;
    AtRestTorn(Bare(d));
    if d.pointer.now.Some? {
      assert d.pointer.now.value != d.nextId by {
        OldPointer(sha, d);
      }
    }
  }
}
