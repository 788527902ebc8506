/** Whole runs of the helper: operations, edits by others, crashes at any step,
    restarts, and recoveries that are themselves interrupted any number of times. */
module Runs {
  import opened Basics
  import opened Paths
  import opened Images
  import opened Revision
  import opened Disks
  import opened Ages
  import opened Primitives
  import opened Snapshots
  import opened Replace
  import opened Transactions

  /** Serving requests; started but not yet recovered; or not running. */
  datatype Node = Up(disk: Disk) | Booting(disk: Disk) | Down(disk: Disk)

  // ----- the steps -----

  datatype Op = ApplyOp(changes: map<string, Option<string>>) | RestoreOp(id: nat)

  /** One call of Apply or Restore: what was asked for, on which image, what
      somebody else did meanwhile, and how it ended. `pin` is the number that the
      new baseline would get. */
  datatype Call = Call(op: Op, expected: string, edit: Option<map<string, File>>,
                       before: Image, after: Image, mid: Image, pin: nat, result: Result<ApplyResult>)

  /** What one step of a run was. `Pin` records the live image as the baseline: the
      first takeover, or an explicit "Reload from disk". */
  datatype Act =
    | Change(call: Call)
    | Pin(takeover: bool, pin: nat)
    | Upkeep
    | Edit(live: map<string, File>)
    | Boot
    | Recovery

  /** The image asked for is the change set laid over the live image, or that of the snapshot. */
  ghost predicate Wanted(sha: string -> string, d: Disk, c: Call) {
    && ValidKeys(c.after)
    && match c.op
       case ApplyOp(changes) => IsOverlay(c.before, changes, c.after)
       case RestoreOp(id) => id in d.snaps.now && Loads(sha, d.snaps.now[id], id) && c.after == SnapImage(d, id)
  }

  /** An error that says the call was turned away before it wrote anything. */
  predicate TurnedAway(c: Call) {
    && c.result.Err?
    && (c.result.error in {RecoveryRequired, NoController, Cancelled} ||
          (c.result.error == Conflict && c.mid == c.before))
  }

  /** A change may leave anything its contract allows, for exactly this image and this request. */
  ghost predicate ChangeStep(sha: string -> string, d: Disk, c: Call, d': Disk, alive: bool) {
    && c.before == ImageOf(d.live.now) && c.pin == NextBaseline(d, c.before, c.after)
    && ApplyEnded(sha, d, d', alive, c.result, c.expected, c.before, c.after, c.edit, c.mid)
    && (alive <==> c.result != Err(Dead))
    && (Wanted(sha, d, c) || (c.result.Err? && d' == d))
    && (TurnedAway(c) ==> d' == d)
  }

  ghost predicate PinStep(sha: string -> string, d: Disk, takeover: bool, pin: nat, d': Disk, alive: bool) {
    && d.journal.now.None? && pin == d.nextId && (takeover ==> d.pointer.now.None?)
    && d'.live == d.live && d'.journal == d.journal
    && Ended(sha, d', alive, Committed(d), Committed(d).(baseline := Some(pin)))
    && Grown(sha, d, d', map[d.nextId := ImageOf(d.live.now)])
  }

  ghost predicate RecoveryStep(sha: string -> string, d: Disk, n': Node) {
    && Ended(sha, n'.disk, !n'.Down?, Committed(d), Committed(d))
    && Keeps(sha, d, n'.disk) && Grown(sha, d, n'.disk, map[])
    && (!n'.Down? ==> Committed(n'.disk) == Committed(d))
    && (n'.Up? ==> n'.disk.journal.now.None?)
    && (d.journal.now.Some? && !Readable(ImageOf(d.live.now)) ==> !n'.Up? && n'.disk == d)
  }

  ghost predicate Step(sha: string -> string, n: Node, act: Act, n': Node) {
    match act
    case Change(c) => n.Up? && !n'.Booting? && ChangeStep(sha, n.disk, c, n'.disk, n'.Up?)
    case Pin(takeover, pin) => n.Up? && !n'.Booting? && PinStep(sha, n.disk, takeover, pin, n'.disk, n'.Up?)
    case Upkeep => n.Up? && !n'.Booting? && Aside(sha, n.disk, n'.disk, n'.Up?)
    case Edit(live) =>
      && !n.Down? && n'.disk == n.disk.(live := Dir(live, map[]))
      && n' == (if n.Up? then Up(n'.disk) else Booting(n'.disk))
    case Boot => n.Down? && n'.Booting? && PowerLoss(n.disk, n'.disk)
    case Recovery => n.Booting? && RecoveryStep(sha, n.disk, n')
  }

  ghost predicate Run(sha: string -> string, nodes: seq<Node>, acts: seq<Act>) {
    && |nodes| == |acts| + 1
    && forall i | 0 <= i < |acts| :: Step(sha, nodes[i], acts[i], nodes[i + 1])
  }

  lemma RunTail(sha: string -> string, nodes: seq<Node>, acts: seq<Act>, i: nat)
    requires Run(sha, nodes, acts) && i < |nodes|
    ensures Run(sha, nodes[i..], acts[i..])
  {
    hide Step;
    forall j | 0 <= j < |acts[i..]|
      ensures Step(sha, nodes[i..][j], acts[i..][j], nodes[i..][j + 1])
    {
      assert Step(sha, nodes[i + j], acts[i + j], nodes[i + j + 1]);
    }
  }

  lemma RunHead(sha: string -> string, nodes: seq<Node>, acts: seq<Act>, i: nat)
    requires Run(sha, nodes, acts) && i < |nodes|
    ensures Run(sha, nodes[..i + 1], acts[..i])
  {
    hide Step;
  }

  /** Two runs, the second from where the first ended. */
  lemma RunsJoin(sha: string -> string, nodes: seq<Node>, acts: seq<Act>, more: seq<Node>, acts': seq<Act>)
    requires Run(sha, nodes, acts) && Run(sha, more, acts') && more[0] == nodes[|acts|]
    ensures Run(sha, nodes + more[1..], acts + acts')
  {
    hide Step;
    var all, both := nodes + more[1..], acts + acts';
    forall i | 0 <= i < |both|
      ensures Step(sha, all[i], both[i], all[i + 1])
    {
      if i < |acts| {
        assert Step(sha, nodes[i], acts[i], nodes[i + 1]);
      } else {
        assert Step(sha, more[i - |acts|], acts'[i - |acts|], more[i - |acts| + 1]);
        assert all[i] == more[i - |acts|];
      }
    }
  }

  // ----- the invariant -----

  /** The invariant of every node of a run. */
  ghost predicate Good(sha: string -> string, n: Node) {
    && Sound(sha, n.disk)
    && (!n.Down? ==> AtRest(n.disk))
    && (n.Down? ==> exists was, next :: Torn(n.disk, was, next))
  }

  const NOTHING := Disk(Dir(map[], map[]), Dir(map[], map[]), Slot(None, {}), Slot(None, {}), 1)

  /** Where runs begin: a machine with whatever configuration, on which the manager was never run. */
  lemma FreshGood(sha: string -> string, live: map<string, File>)
    ensures Good(sha, Booting(NOTHING.(live := Dir(live, map[]))))
    ensures Committed(NOTHING.(live := Dir(live, map[]))) == View(ImageOf(live), None)
  {
    hide ImageOf;
  }

  lemma EditKeeps(sha: string -> string, d: Disk, live: map<string, File>)
    requires Sound(sha, d) && AtRest(d)
    ensures var d' := d.(live := Dir(live, map[]));
            && Sound(sha, d') && AtRest(d') && Committed(d').baseline == Committed(d).baseline
            && (d.journal.now.Some? ==> Committed(d') == Committed(d))
            && (d.journal.now.None? ==> Committed(d').image == ImageOf(live))
  {
    hide Loads, Canonical, ImageOf, Managed;
    LiveKeepsRest(sha, d, d.(live := Dir(live, map[])));
  }

  /** However a change ends, the disk is sound, and torn between two views at most. */
  lemma ChangeGood(sha: string -> string, d: Disk, c: Call, d': Disk, alive: bool)
    requires Sound(sha, d) && AtRest(d) && ChangeStep(sha, d, c, d', alive)
    ensures Sound(sha, d') && (alive ==> AtRest(d')) && exists was, next :: Torn(d', was, next)
  {
    hide Loads, Canonical, ImageOf, Managed, Torn, Sound, AtRest, Grown, Reached, Explained, Applied, Wanted,
      NoJournal;
    if d.journal.now.Some? {
      AtRestTorn(d);
    }
  }

  lemma StepGood(sha: string -> string, n: Node, act: Act, n': Node)
    requires Good(sha, n) && Step(sha, n, act, n')
    ensures Good(sha, n')
  {
    hide Loads, Canonical, ImageOf, Managed, Torn, Sound, AtRest, PowerLoss, Grown, Keeps, ChangeStep;
    match act {
      case Change(c) => ChangeGood(sha, n.disk, c, n'.disk, n'.Up?);
      case Pin(_, _) =>
      case Upkeep =>
      case Edit(live) => EditKeeps(sha, n.disk, live);
      case Boot =>
        var was, next :| Torn(n.disk, was, next);
        CrashSettles(sha, n.disk, n'.disk, was, next);
      case Recovery =>
    }
  }

  /** Journal self-sufficiency and baseline provenance, in every reachable state. */
  lemma {:induction false} RunGood(sha: string -> string, nodes: seq<Node>, acts: seq<Act>)
    requires Run(sha, nodes, acts) && Good(sha, nodes[0])
    ensures forall i | 0 <= i < |nodes| :: Good(sha, nodes[i])
  {
    hide Good, Step;
    if acts != [] {
      var k := |acts| - 1;
      RunGood(sha, nodes[..k + 1], acts[..k]);
      forall i | 0 <= i <= k
        ensures Good(sha, nodes[i])
      {
        assert nodes[..k + 1][i] == nodes[i];
      }
      StepGood(sha, nodes[k], acts[k], nodes[k + 1]);
    }
  }

  /** Whatever the journal or the baseline file names, in any reachable state, loads
      and is durable; the journal's snapshot is the image to go back to. */
  lemma ReferencesLoad(sha: string -> string, nodes: seq<Node>, acts: seq<Act>, i: nat)
    requires Run(sha, nodes, acts) && Good(sha, nodes[0]) && i < |nodes|
    ensures var d := nodes[i].disk;
            && (d.journal.now.Some? ==>
                  && Firm(sha, d, d.journal.now.value.snapshot)
                  && (d.journal.now.value.baseline.Some? ==> Firm(sha, d, d.journal.now.value.baseline.value)))
            && (d.pointer.now.Some? ==> Firm(sha, d, d.pointer.now.value))
  {
    hide Loads, Canonical, ImageOf, Managed, Run;
    RunGood(sha, nodes, acts);
    assert Good(sha, nodes[i]);
    var d := nodes[i].disk;
    if d.journal.now.Some? {
      assert JournalSound(sha, d, d.journal.now.value);
    }
  }
}
