/** Crash atomicity: what a change that is killed at any step comes to, once the
    helper is back, however many times the recovery is interrupted. */
module Crashes {
  import opened Basics
  import opened Paths
  import opened Images
  import opened Revision
  import opened Disks
  import opened Ages
  import opened Primitives
  import opened Snapshots
  import opened Replace
  import opened Transactions
  import opened Runs
  import opened Histories

  /** Restarts and recovery attempts only, however they end. */
  ghost predicate OnlyRestarts(acts: seq<Act>) {
    forall i | 0 <= i < |acts| :: acts[i] in {Boot, Recovery}
  }

  /** A node that stands for v whatever a crash makes of it. */
  ghost predicate StandsFor(n: Node, v: View) {
    if n.Down? then Torn(n.disk, v, v) else Committed(n.disk) == v
  }

  lemma RestartStands(sha: string -> string, n: Node, act: Act, n': Node, v: View)
    requires Good(sha, n) && Step(sha, n, act, n') && act in {Boot, Recovery} && StandsFor(n, v)
    ensures StandsFor(n', v)
  {
    hide Loads, Canonical, ImageOf, Managed, PowerLoss, Sound, AtRest, Grown, Keeps, ChangeStep, Readable;
    if act == Boot {
      CrashSettles(sha, n.disk, n'.disk, v, v);
    }
  }

  lemma {:induction false} RestartsStand(sha: string -> string, nodes: seq<Node>, acts: seq<Act>, v: View)
    requires Run(sha, nodes, acts) && OnlyRestarts(acts) && Good(sha, nodes[0]) && StandsFor(nodes[0], v)
    ensures StandsFor(nodes[|acts|], v)
  {
    hide Good, Step, StandsFor;
    if acts != [] {
      RestartStands(sha, nodes[0], acts[0], nodes[1], v);
      StepGood(sha, nodes[0], acts[0], nodes[1]);
      RunTail(sha, nodes, acts, 1);
      assert forall i | 0 <= i < |acts[1..]| :: acts[1..][i] == acts[i + 1];
      RestartsStand(sha, nodes[1..], acts[1..], v);
    }
  }

  /** After restarts only, a helper that serves has no journal and stands for what the first start stood for. */
  lemma ServesAgain(sha: string -> string, nodes: seq<Node>, acts: seq<Act>)
    requires Run(sha, nodes, acts) && OnlyRestarts(acts) && Good(sha, nodes[0]) && nodes[0].Booting? &&
               nodes[|acts|].Up?
    ensures var d := nodes[|acts|].disk;
            d.journal.now.None? && View(ImageOf(d.live.now), d.pointer.now) == Committed(nodes[0].disk)
  {
    hide ImageOf, Good, Ended, Keeps, Grown, Readable;
    RestartsStand(sha, nodes, acts, Committed(nodes[0].disk));
    var k := |acts| - 1;
    assert Step(sha, nodes[k], acts[k], nodes[k + 1]) && acts[k] == Recovery;
  }

  /** What a killed change can have come to, with the live image and baseline of d0
      before it: nothing; or only the edit that somebody else made meanwhile; or
      all of it, for exactly this request on exactly this image. */
  ghost predicate Resolved(sha: string -> string, d0: Disk, c: Call, v: View) {
    || v == View(c.before, d0.pointer.now)
    || (c.edit.Some? && v == View(ImageOf(c.edit.value), d0.pointer.now))
    || (v == View(Reached(c.before, c.after), Some(c.pin)) && Wanted(sha, d0, c))
  }

  lemma KilledSettles(sha: string -> string, d0: Disk, c: Call, d: Disk, d': Disk)
    requires Sound(sha, d0) && AtRest(d0) && d0.journal.now.None?
    requires ChangeStep(sha, d0, c, d, false) && Sound(sha, d) && PowerLoss(d, d')
    ensures Resolved(sha, d0, c, Committed(d'))
    ensures d'.journal.now.Some? ==> Committed(d') == View(c.before, d0.pointer.now)
  {
    hide Loads, Canonical, Managed, Sound, AtRest, Grown, Reached, Applied, IsOverlay, ImageOf, Explained, RevisionOf,
      SnapImage;
    var was, next := View(c.mid, d0.pointer.now), View(Reached(c.before, c.after), Some(c.pin));
    if c.before == c.after {
      LiveCanonical(d0.live.now);
      UnchangedReached(c.before);
      CrashSettles(sha, d, d', was, next);
    } else {
      CrashSettles(sha, d, d', was, if c.mid == c.before then next else was);
    }
    if d'.journal.now.Some? {
      assert SlotMayBe(d.journal, d'.journal.now);
    }
    if d == d0 {
      AtRestTorn(d0);
      CrashSettles(sha, d0, d', Committed(d0), Committed(d0));
    }
  }

  /** Crash atomicity. An Apply or a Restore is killed at any step; the machine comes
      up with `first`; recoveries are killed or fail any number of times; then one
      succeeds. With the journal still there at the first start, image and baseline
      are those from before. Otherwise they are those from before, or the whole
      change with its own baseline snapshot, or, when somebody else edited the files
      while the snapshot was taken, that edit with the old baseline; no mixture. */
  lemma CrashAtomicity(sha: string -> string, up: Node, c: Call, down: Node, first: Node, nodes: seq<Node>,
                       acts: seq<Act>)
    requires Good(sha, up) && up.disk.journal.now.None? && Step(sha, up, Change(c), down) && down.Down?
    requires Step(sha, down, Boot, first) && CollisionFree(sha)
    requires Run(sha, nodes, acts) && OnlyRestarts(acts) && nodes[0] == first && nodes[|acts|].Up?
    ensures var d := nodes[|acts|].disk;
            && d.journal.now.None? && c.before == ImageOf(up.disk.live.now)
            && Resolved(sha, up.disk, c, View(ImageOf(d.live.now), d.pointer.now))
            && (first.disk.journal.now.Some? ==>
                  View(ImageOf(d.live.now), d.pointer.now) == View(c.before, up.disk.pointer.now))
            && (d.pointer.now == Some(c.pin) ==> SnapImage(d, c.pin) == c.after)
  {
    hide Loads, Canonical, ImageOf, PowerLoss, Torn, Good, ApplyEnded, Resolved, Run, Wanted, CollisionFree,
      SnapImage;
    StepGood(sha, up, Change(c), down);
    StepGood(sha, down, Boot, first);
    GoodSound(sha, down);
    UpRests(sha, up);
    KilledSettles(sha, up.disk, c, down.disk, first.disk);
    ServesAgain(sha, nodes, acts);
    NewBaselineHolds(sha, up, c, down, first, nodes, acts);
  }

  lemma UpRests(sha: string -> string, n: Node)
    requires Good(sha, n) && !n.Down?
    ensures Sound(sha, n.disk) && AtRest(n.disk)
  {
  }

  lemma {:induction false} RestartsOnly(sha: string -> string, nodes: seq<Node>, acts: seq<Act>, id: nat, im: Image)
    requires Run(sha, nodes, acts) && OnlyRestarts(acts) && Only(sha, nodes[0].disk, id, im)
    ensures Only(sha, nodes[|acts|].disk, id, im)
  {
    hide Step, Only, Grown;
    if acts != [] {
      StepGrown(sha, nodes[0], acts[0], nodes[1]);
      OnlyGrown(sha, nodes[0].disk, nodes[1].disk, map[], id, im);
      RunTail(sha, nodes, acts, 1);
      assert forall i | 0 <= i < |acts[1..]| :: acts[1..][i] == acts[i + 1];
      RestartsOnly(sha, nodes[1..], acts[1..], id, im);
    }
  }

  /** When the baseline has moved to the snapshot of the change, that snapshot is the image asked for. */
  lemma NewBaselineHolds(sha: string -> string, up: Node, c: Call, down: Node, first: Node, nodes: seq<Node>,
                         acts: seq<Act>)
    requires Good(sha, up) && Step(sha, up, Change(c), down) && Step(sha, down, Boot, first) && CollisionFree(sha)
    requires Run(sha, nodes, acts) && OnlyRestarts(acts) && nodes[0] == first
    ensures nodes[|acts|].disk.pointer.now == Some(c.pin) ==> SnapImage(nodes[|acts|].disk, c.pin) == c.after
  {
    hide Loads, ImageOf, PowerLoss, Torn, Good, Wanted, CollisionFree, SnapImage, Run, Grown, ApplyEnded, Only, Firm;
    StepGood(sha, up, Change(c), down);
    StepGood(sha, down, Boot, first);
    GoodSound(sha, up);
    StepGrown(sha, up, Change(c), down);
    BornOnly(sha, up.disk, down.disk, BornBy(up.disk, Change(c)), c.pin);
    StepGrown(sha, down, Boot, first);
    OnlyGrown(sha, down.disk, first.disk, map[], c.pin, c.after);
    RestartsOnly(sha, nodes, acts, c.pin, c.after);
    RunSizes(sha, nodes, acts);
    ReferencesLoad(sha, nodes, acts, |acts|);
    if nodes[|acts|].disk.pointer.now == Some(c.pin) {
      OnlyFirm(sha, nodes[|acts|].disk, c.pin, c.after);
    }
  }

  // ----- a kill first, and a loss of power later -----

  lemma JournalViewSurvives(sha: string -> string, d: Disk, d': Disk, j: Pending)
    requires Firm(sha, d, j.snapshot) && PowerLoss(d, d')
    ensures JournalView(d', j) == JournalView(d, j)
  {
    hide PowerLoss, Loads;
    FirmSurvives(sha, d, d', j.snapshot);
  }

  /** A process killed between removing the journal and syncing the directory leaves
      one that a later loss of power can bring back, for the next start finds no
      journal and returns without a sync. With everything else durable, no loss of
      power then changes what the disk stands for if, and only if, each journal that
      may come back says just that; after a change it does not. */
  lemma StaleJournal(sha: string -> string, d: Disk)
    requires Sound(sha, d) && d.journal.now.None? && LiveSynced(d) && d.pointer.may == {}
    ensures (forall d' | PowerLoss(d, d') :: Committed(d') == Committed(d))
       <==> (forall j | Some(j) in d.journal.may :: JournalView(d, j) == Committed(d))
  {
    hide PowerLoss, Loads, ImageOf, SnapImage, Canonical, Managed;
    forall j | Some(j) in d.journal.may
      ensures Firm(sha, d, j.snapshot)
    {
      assert SlotMayBe(d.journal, Some(j)) && JournalSound(sha, d, j);
    }
    if forall j | Some(j) in d.journal.may :: JournalView(d, j) == Committed(d) {
      forall d' | PowerLoss(d, d')
        ensures Committed(d') == Committed(d)
      {
        SlotsSurvive(d, d');
        SyncedSurvives(d, d');
        if d'.journal.now.Some? {
          JournalViewSurvives(sha, d, d', d'.journal.now.value);
        }
      }
    } else {
      var j :| Some(j) in d.journal.may && JournalView(d, j) != Committed(d);
      var d' := Picked(d, map[], map[], {}, {}, Some(j), None);
      PickedLoss(d, map[], map[], {}, {}, Some(j), None);
      JournalViewSurvives(sha, d, d', j);
    }
  }

  lemma SlotsSurvive(d: Disk, d': Disk)
    requires PowerLoss(d, d')
    ensures SlotMayBe(d.journal, d'.journal.now) && SlotMayBe(d.pointer, d'.pointer.now)
  {
  }
}
