/** The ledger of a run: which live image and baseline the helper has promised at
    every point, and which step may change them. */
module Ledgers {
  import opened Basics
  import opened Paths
  import opened Images
  import opened Revision
  import opened Disks
  import opened Ages
  import opened Primitives
  import opened Snapshots
  import opened Replace
  import opened Transactions
  import opened Runs
  import opened Histories
  import opened Crashes

  // ----- entries -----

  /** The whole change: made on the image that was there, and asked for like this. */
  ghost predicate Made(c: Call, v: View, v': View) {
    && c.before == v.image && v' == View(Reached(c.before, c.after), Some(c.pin))
    && (c.op.ApplyOp? ==> IsOverlay(c.before, c.op.changes, c.after))
  }

  /** Only what somebody else made of the live directory meanwhile. */
  ghost predicate OnlyEdited(c: Call, v: View, v': View) {
    c.edit.Some? && v' == View(ImageOf(c.edit.value), v.baseline)
  }

  /** An error after which the change may still have been made: the process died, the
      removal of the journal did not become durable, or only the baseline was to move. */
  predicate Unsettled(c: Call) {
    && c.result.Err?
    && (c.result.error in {Dead, CommitUnsynced} ||
          (c.before == c.after && c.result.error in {IO, Broken, TooLarge, Invalid}))
  }

  /** What one step may make of the view v: a success made the whole change on the
      very image that the caller's revision names; a rollback and a refusal nothing;
      and only `Pin` or a change moves the baseline. */
  ghost predicate Entry(sha: string -> string, act: Act, v: View, v': View) {
    match act
    case Change(c) =>
      if c.result.Ok? then
        && c.before == v.image && c.expected == RevisionOf(sha, c.before)
        && c.result.value.revision == RevisionOf(sha, c.after) && v'.image == Reached(c.before, c.after)
        && (Made(c, v, v') || (c.before == c.after && v' == v))
      else
        || v' == v
        || (Unsettled(c) && Made(c, v, v'))
        || (!LateError(c.result.error) && !TurnedAway(c) && OnlyEdited(c, v, v'))
    case Pin(takeover, pin) =>
      && v'.image == v.image && v'.baseline in {v.baseline, Some(pin)} && (takeover ==> v.baseline.None?)
    case Edit(live) => v' == v || v' == View(ImageOf(live), v.baseline)
    case _ => v' == v
  }

  /** While the process lives, a disk that stands for one of two views shows which. */
  lemma AliveEither(d: Disk, was: View, next: View)
    requires Torn(d, was, next)
    ensures Committed(d) == was || (Committed(d) == next && d.journal.now.None?)
  {
    hide ImageOf, LiveSynced, SnapImage;
    assert SlotMayBe(d.journal, d.journal.now) && SlotMayBe(d.pointer, d.pointer.now);
  }

  lemma ChangeEntry(sha: string -> string, d: Disk, c: Call, d': Disk)
    requires Sound(sha, d) && AtRest(d) && ChangeStep(sha, d, c, d', true)
    ensures Entry(sha, Change(c), Committed(d), Committed(d'))
  {
    hide Loads, Canonical, Managed, Sound, Grown, Reached, IsOverlay, ImageOf, RevisionOf, SnapImage, Torn,
      LiveSynced;
    if d.journal.now.None? && c.before == c.after {
      LiveCanonical(d.live.now);
      UnchangedReached(c.before);
      AliveEither(d', View(c.before, d.pointer.now), View(c.before, Some(d.nextId)));
    }
  }

  lemma StepEntry(sha: string -> string, n: Node, act: Act, n': Node)
    requires Good(sha, n) && Step(sha, n, act, n') && !n.Down? && !n'.Down?
    ensures Entry(sha, act, Committed(n.disk), Committed(n'.disk))
  {
    hide Loads, Canonical, ImageOf, Managed, PowerLoss, Sound, Grown, Reached, ChangeStep, RevisionOf, IsOverlay,
      Torn, SnapImage;
    match act {
      case Change(c) => ChangeEntry(sha, n.disk, c, n'.disk);
      case Pin(_, pin) => AliveEither(n'.disk, Committed(n.disk), Committed(n.disk).(baseline := Some(pin)));
      case Upkeep => AliveEither(n'.disk, Committed(n.disk), Committed(n.disk));
      case Edit(live) => EditKeeps(sha, n.disk, live);
      case _ =>
    }
  }

  lemma KilledEntry(sha: string -> string, d: Disk, c: Call, down: Disk, first: Disk)
    requires Sound(sha, d) && AtRest(d) && ChangeStep(sha, d, c, down, false) && Sound(sha, down) &&
               PowerLoss(down, first)
    ensures Entry(sha, Change(c), Committed(d), Committed(first))
  {
    hide Loads, Canonical, Managed, Sound, Grown, Reached, IsOverlay, ImageOf, RevisionOf, SnapImage, Torn,
      LiveSynced, PowerLoss, Ended, Explained, Applied, MidFrom, NoJournal;
    if d.journal.now.Some? {
      AtRestTorn(d);
      CrashSettles(sha, down, first, Committed(d), Committed(d));
    } else {
      KilledSettles(sha, d, c, down, first);
    }
  }

  /** A crash inside a step resolves, at the next start, to an entry of that step. */
  lemma CrashEntry(sha: string -> string, n: Node, act: Act, down: Node, first: Node)
    requires Good(sha, n) && Step(sha, n, act, down) && !n.Down? && down.Down?
    requires Step(sha, down, Boot, first)
    ensures Entry(sha, act, Committed(n.disk), Committed(first.disk))
  {
    hide Loads, Canonical, ImageOf, Managed, PowerLoss, Sound, AtRest, Torn, Grown, Reached, ChangeStep, RevisionOf,
      IsOverlay, Good;
    StepGood(sha, n, act, down);
    GoodSound(sha, down);
    UpRests(sha, n);
    match act {
      case Change(c) => KilledEntry(sha, n.disk, c, down.disk, first.disk);
      case Pin(_, pin) => CrashSettles(sha, down.disk, first.disk, Committed(n.disk),
        Committed(n.disk).(baseline := Some(pin)));
      case Upkeep => CrashSettles(sha, down.disk, first.disk, Committed(n.disk), Committed(n.disk));
      case Recovery => CrashSettles(sha, down.disk, first.disk, Committed(n.disk), Committed(n.disk));
      case _ =>
    }
  }

  // ----- every run has a ledger -----

  /** One view for each node, and an entry for each step. While the helper is down
      the view is the one that the next start settles on. */
  ghost predicate Ledger(sha: string -> string, nodes: seq<Node>, acts: seq<Act>, views: seq<View>) {
    && |views| == |nodes| == |acts| + 1
    && (forall i | 0 <= i < |nodes| && !nodes[i].Down? :: Committed(nodes[i].disk) == views[i])
    && (forall i | 0 <= i < |acts| :: Entry(sha, acts[i], views[i], views[i + 1]))
  }

  /** Every run has a ledger: views change only by whole entries, through any crashes. */
  lemma {:induction false} RunHasLedger(sha: string -> string, nodes: seq<Node>, acts: seq<Act>)
    returns (views: seq<View>)
    requires Run(sha, nodes, acts) && Good(sha, nodes[0]) && !nodes[0].Down?
    ensures Ledger(sha, nodes, acts, views)
  {
    hide Good, Step, Entry, Committed;
    if acts == [] {
      views := [Committed(nodes[0].disk)];
    } else {
      var k := |acts| - 1;
      RunGood(sha, nodes, acts);
      RunHead(sha, nodes, acts, k);
      var shorter := RunHasLedger(sha, nodes[..k + 1], acts[..k]);
      var last, v := Settled(sha, nodes, acts, shorter);
      Entered(sha, nodes, acts, shorter, last, v);
      views := shorter[k := last] + [v];
    }
  }

  /** One more entry at the end of a ledger, the last one so far being revised or not. */
  lemma Entered(sha: string -> string, nodes: seq<Node>, acts: seq<Act>, shorter: seq<View>, last: View, v: View)
    requires acts != [] && |nodes| == |acts| + 1
    requires Ledger(sha, nodes[..|acts|], acts[..|acts| - 1], shorter)
    requires nodes[|acts| - 1].Down? || last == shorter[|acts| - 1]
    requires |acts| > 1 ==> Entry(sha, acts[|acts| - 2], shorter[|acts| - 2], last)
    requires Entry(sha, acts[|acts| - 1], last, v)
    requires !nodes[|acts|].Down? ==> Committed(nodes[|acts|].disk) == v
    ensures Ledger(sha, nodes, acts, shorter[|acts| - 1 := last] + [v])
  {
    hide Entry, Committed;
    var k := |acts| - 1;
    var ns, as', views := nodes[..k + 1], acts[..k], shorter[k := last] + [v];
    assert forall i | 0 <= i <= k :: ns[i] == nodes[i];
    forall i | 0 <= i < |nodes| && !nodes[i].Down?
      ensures Committed(nodes[i].disk) == views[i]
    {
      if i <= k {
        assert Committed(ns[i].disk) == shorter[i];
      }
    }
    forall i | 0 <= i < |acts|
      ensures Entry(sha, acts[i], views[i], views[i + 1])
    {
      if i < k {
        assert Entry(sha, as'[i], shorter[i], shorter[i + 1]);
      }
    }
  }

  /** One more step. When it is a start, the entry of the step that crashed is settled by it. */
  lemma Settled(sha: string -> string, nodes: seq<Node>, acts: seq<Act>, shorter: seq<View>)
    returns (last: View, v: View)
    requires Run(sha, nodes, acts) && acts != [] && !nodes[0].Down?
    requires forall i | 0 <= i < |nodes| :: Good(sha, nodes[i])
    requires Ledger(sha, nodes[..|acts|], acts[..|acts| - 1], shorter)
    ensures nodes[|acts| - 1].Down? || last == shorter[|acts| - 1]
    ensures |acts| > 1 ==> Entry(sha, acts[|acts| - 2], shorter[|acts| - 2], last)
    ensures Entry(sha, acts[|acts| - 1], last, v)
    ensures !nodes[|acts|].Down? ==> Committed(nodes[|acts|].disk) == v
  {
    hide Good, Entry, Committed, Step;
    var k := |acts| - 1;
    var n, act, n' := nodes[k], acts[k], nodes[k + 1];
    var ns, as' := nodes[..k + 1], acts[..k];
    assert Step(sha, n, act, n');
    assert ns[k] == n;
    assert k > 0 ==> ns[k - 1] == nodes[k - 1] && as'[k - 1] == acts[k - 1];
    if n.Down? {
      BootOnly(sha, n, act, n');
      assert Step(sha, nodes[k - 1], acts[k - 1], n);
      NotBoot(sha, nodes[k - 1], acts[k - 1], n);
      CrashEntry(sha, nodes[k - 1], acts[k - 1], n, n');
      last, v := Committed(n'.disk), Committed(n'.disk);
      BootEntry(sha, act, v);
    } else {
      last := shorter[k];
      if n'.Down? {
        v := last;
        StillEntry(sha, n, act, n');
      } else {
        v := Committed(n'.disk);
        StepEntry(sha, n, act, n');
      }
    }
  }

  lemma BootOnly(sha: string -> string, n: Node, act: Act, n': Node)
    requires Step(sha, n, act, n') && n.Down?
    ensures act == Boot && !n'.Down?
  {
    hide ChangeStep, PinStep, RecoveryStep, Aside, PowerLoss;
  }

  lemma NotBoot(sha: string -> string, n: Node, act: Act, n': Node)
    requires Step(sha, n, act, n') && n'.Down?
    ensures !n.Down?
  {
    hide ChangeStep, PinStep, RecoveryStep, Aside, PowerLoss;
  }

  /** Until the next start the view of a killed step is still the old one. */
  lemma StillEntry(sha: string -> string, n: Node, act: Act, n': Node)
    requires Step(sha, n, act, n') && n'.Down?
    ensures Entry(sha, act, Committed(n.disk), Committed(n.disk))
  {
    hide ApplyEnded, Ended, RecoveryStep, Aside, PowerLoss, Grown, ImageOf;
  }

  lemma BootEntry(sha: string -> string, act: Act, v: View)
    requires act == Boot
    ensures Entry(sha, act, v, v)
  {
  }

  // ----- who may move the baseline -----

  /** A change that succeeded, or whose error leaves that open, or an explicit pin. */
  predicate MayCommit(act: Act) {
    match act
    case Change(c) => c.result.Ok? || Unsettled(c)
    case Pin(_, _) => true
    case _ => false
  }

  /** Baseline provenance, one step: nothing else moves it, and it moves only to the
      snapshot of the image that the step asked for or found. */
  lemma BaselineMoves(sha: string -> string, act: Act, v: View, v': View)
    requires Entry(sha, act, v, v') && v'.baseline != v.baseline
    ensures MayCommit(act)
    ensures act.Change? ==> Made(act.call, v, v')
    ensures act.Pin? ==> v' == v.(baseline := Some(act.pin))
  {
    hide IsOverlay, Reached, RevisionOf, ImageOf;
  }

  /** Over any stretch of a run without such a step the committed baseline stays:
      refused and rolled-back changes, reads of the baseline once it is set, edits,
      backups, deletions, crashes and recoveries all leave it alone. */
  lemma {:induction false} BaselineStays(sha: string -> string, nodes: seq<Node>, acts: seq<Act>, views: seq<View>,
                                         i: nat, j: nat)
    requires Ledger(sha, nodes, acts, views) && i <= j < |views|
    requires forall k | i <= k < j :: !MayCommit(acts[k])
    ensures views[j].baseline == views[i].baseline
  {
    hide Entry, Committed, MayCommit;
    if i < j {
      BaselineStays(sha, nodes, acts, views, i, j - 1);
      assert Entry(sha, acts[j - 1], views[j - 1], views[j]);
      if views[j].baseline != views[j - 1].baseline {
        BaselineMoves(sha, acts[j - 1], views[j - 1], views[j]);
      }
    }
  }

  // ----- successes form a chain -----

  /** The step gave the live image im: a change made whole, or an edit by somebody else. */
  ghost predicate Wrote(act: Act, v: View, im: Image) {
    match act
    case Change(c) =>
      || (MayCommit(act) && c.before == v.image && im == Reached(c.before, c.after))
      || (c.result.Err? && c.edit.Some? && im == ImageOf(c.edit.value))
    case Edit(live) => im == ImageOf(live)
    case _ => false
  }

  lemma ImageMoves(sha: string -> string, act: Act, v: View, v': View)
    requires Entry(sha, act, v, v') && v'.image != v.image
    ensures Wrote(act, v, v'.image)
  {
    hide IsOverlay, Reached, RevisionOf, ImageOf;
  }

  ghost predicate SameImage(views: seq<View>, i: int, j: int) {
    forall k | 0 <= i <= k <= j && k < |views| :: views[k].image == views[i].image
  }

  /** The image at k is the one that step i gave, and has stayed since. */
  ghost predicate LastWriter(acts: seq<Act>, views: seq<View>, i: int, k: int) {
    0 <= i < k < |views| == |acts| + 1 && Wrote(acts[i], views[i], views[i + 1].image) && SameImage(views, i + 1, k)
  }

  lemma {:induction false} ImageComesFrom(sha: string -> string, nodes: seq<Node>, acts: seq<Act>, views: seq<View>,
                                          k: nat)
    requires Ledger(sha, nodes, acts, views) && k < |views|
    ensures SameImage(views, 0, k) || exists i :: LastWriter(acts, views, i, k)
  {
    hide Entry, Committed, Wrote;
    if k > 0 {
      ImageComesFrom(sha, nodes, acts, views, k - 1);
      assert Entry(sha, acts[k - 1], views[k - 1], views[k]);
      if views[k].image != views[k - 1].image {
        ImageMoves(sha, acts[k - 1], views[k - 1], views[k]);
        assert LastWriter(acts, views, k - 1, k);
      } else if !SameImage(views, 0, k - 1) {
        var i :| LastWriter(acts, views, i, k - 1);
        assert LastWriter(acts, views, i, k);
      }
    }
  }

  /** No lost update, over whole runs. The revision that a successful change was
      called with names the image that was there, and that image was there from the
      start, or is exactly what one earlier step gave: a change made whole, or an edit
      by somebody else; nothing came in between. */
  lemma SuccessesChain(sha: string -> string, nodes: seq<Node>, acts: seq<Act>, views: seq<View>, k: nat)
    requires Ledger(sha, nodes, acts, views) && k < |acts|
    requires acts[k].Change? && acts[k].call.result.Ok?
    ensures acts[k].call.before == views[k].image && acts[k].call.expected == RevisionOf(sha, views[k].image)
    ensures Wrote(acts[k], views[k], views[k + 1].image)
    ensures SameImage(views, 0, k) || exists i :: LastWriter(acts, views, i, k)
  {
    hide Committed, RevisionOf, ImageOf, Reached, IsOverlay;
    ImageComesFrom(sha, nodes, acts, views, k);
    assert Entry(sha, acts[k], views[k], views[k + 1]);
  }

  /** Between two successes with nothing in between, the second was called with the
      very revision that the first returned, unless it wrote a second spelling. */
  lemma NextNames(sha: string -> string, nodes: seq<Node>, acts: seq<Act>, views: seq<View>, i: nat, k: nat)
    requires Ledger(sha, nodes, acts, views) && k < |acts| && LastWriter(acts, views, i, k)
    requires acts[i].Change? && acts[i].call.result.Ok? && Canonical(acts[i].call.after)
    requires acts[k].Change? && acts[k].call.result.Ok?
    ensures acts[k].call.before == acts[i].call.after && acts[k].call.expected == acts[i].call.result.value.revision
  {
    hide Committed, RevisionOf, ImageOf, IsOverlay, Canonical, Moves, Play;
    assert Entry(sha, acts[i], views[i], views[i + 1]);
    assert Entry(sha, acts[k], views[k], views[k + 1]);
    PlayedOut(acts[i].call.before, acts[i].call.after);
  }
}
