/** The helper process: it recovers first and then serves one request at a time
    until it is killed or stopped, over any number of lives. Together they are a run. */
module Serving {
  import opened Basics
  import opened Images
  import opened Revision
  import opened Disks
  import opened Ages
  import opened Primitives
  import opened Snapshots
  import opened Replace
  import opened Transactions
  import opened Runs
  import opened Histories

  /** A request of the RPC handler with its arguments, or an edit by somebody else
      between two of them. `edit` is what somebody else does inside one. */
  datatype Req =
    | ApplyReq(expected: string, changes: map<string, Option<string>>, controller: bool, cancelled: bool,
               at: int, at': int, edit: Option<map<string, File>>)
    | RestoreReq(id: nat, expected: string, controller: bool, cancelled: bool,
                 at: int, at': int, edit: Option<map<string, File>>)
    | BaselineReq(at: int)
    | AcceptReq(expected: string, at: int)
    | SnapshotReq(reason: string, at: int)
    | DeleteReq(id: nat)
    | ReadReq
    | Outsider(live: map<string, File>)

  datatype Reply = Outcome(result: Result<ApplyResult>) | Answer(error: Option<Error>)

  /** The step that a request was, and the answer that its caller got. */
  ghost predicate Answers(req: Req, act: Act, reply: Reply) {
    match req
    case ApplyReq(expected, changes, _, _, _, _, edit) =>
      && act.Change? && act.call.op == ApplyOp(changes) && act.call.expected == expected && act.call.edit == edit
      && reply == Outcome(act.call.result)
    case RestoreReq(id, expected, _, _, _, _, edit) =>
      && act.Change? && act.call.op == RestoreOp(id) && act.call.expected == expected && act.call.edit == edit
      && reply == Outcome(act.call.result)
    case BaselineReq(_) => act.Upkeep? || (act.Pin? && act.takeover)
    case AcceptReq(_, _) => (act.Pin? && !act.takeover) || (act.Upkeep? && reply != Answer(None))
    case Outsider(live) => act == Edit(live)
    case _ => act == Upkeep
  }

  function NodeOf(d: Disk, alive: bool): Node {
    if alive then Up(d) else Down(d)
  }

  lemma ChangeIsStep(sha: string -> string, d: Disk, c: Call, d': Disk, alive: bool)
    requires c.before == ImageOf(d.live.now) && c.pin == NextBaseline(d, c.before, c.after)
    requires ApplyEnded(sha, d, d', alive, c.result, c.expected, c.before, c.after, c.edit, c.mid)
    requires alive <==> c.result != Err(Dead)
    requires d' != d || c.result.Ok? ==> Wanted(sha, d, c)
    requires TurnedAway(c) ==> d' == d
    ensures Step(sha, Up(d), Change(c), NodeOf(d', alive))
  {
    hide ApplyEnded, ImageOf, Wanted, NextBaseline, TurnedAway;
  }

  lemma StillAside(sha: string -> string, d: Disk, alive: bool)
    requires Sound(sha, d) && AtRest(d)
    ensures Aside(sha, d, d, alive)
  {
    hide Grown, ImageOf;
    AtRestTorn(d);
    StillGrown(sha, d);
  }

  /** Recording the live image is a pin; without a chance to, nothing changed. */
  lemma PinIsStep(sha: string -> string, d: Disk, d': Disk, alive: bool, takeover: bool) returns (act: Act)
    requires Sound(sha, d) && AtRest(d)
    requires Ended(sha, d', alive, Committed(d), Committed(d).(baseline := Some(d.nextId)))
    requires d'.live == d.live && d'.journal == d.journal && Grown(sha, d, d', map[d.nextId := ImageOf(d.live.now)])
    requires d.journal.now.Some? || (takeover && d.pointer.now.Some?) ==> d' == d
    ensures Step(sha, Up(d), act, NodeOf(d', alive))
    ensures act == if d.journal.now.Some? || (takeover && d.pointer.now.Some?) then Upkeep else Pin(takeover, d.nextId)
  {
    hide Loads, Canonical, ImageOf, Torn, Firm, Grown, Aside;
    if d.journal.now.Some? || (takeover && d.pointer.now.Some?) {
      act := Upkeep;
      StillAside(sha, d, alive);
    } else {
      act := Pin(takeover, d.nextId);
    }
  }

  method ServeApply(s: Store, req: Req) returns (reply: Reply, ghost act: Act)
    requires s.alive && Sound(s.sha, s.disk) && AtRest(s.disk) && CollisionFree(s.sha) && req.ApplyReq?
    modifies s
    ensures Step(s.sha, Up(old(s.disk)), act, NodeOf(s.disk, s.alive)) && Answers(req, act, reply)
  {
    hide Loads, Canonical, ImageOf, Firm, Torn, Sound, AtRest, Readable, CollisionFree, RevisionOf, Committed,
      ApplyEnded, IsOverlay, Step, Running;
    ghost var d := s.disk;
    var r; ghost var before, after, mid;
    r, before, after, mid :=
      Apply(s, req.expected, req.changes, req.controller, req.cancelled, req.at, req.at', req.edit);
    reply := Outcome(r);
    ghost var c := Call(ApplyOp(req.changes), req.expected, req.edit, before, after, mid,
                        NextBaseline(d, before, after), r);
    ChangeIsStep(s.sha, d, c, s.disk, s.alive);
    act := Change(c);
  }

  method ServeRestore(s: Store, req: Req) returns (reply: Reply, ghost act: Act)
    requires s.alive && Sound(s.sha, s.disk) && AtRest(s.disk) && CollisionFree(s.sha) && req.RestoreReq?
    modifies s
    ensures Step(s.sha, Up(old(s.disk)), act, NodeOf(s.disk, s.alive)) && Answers(req, act, reply)
  {
    hide Loads, Canonical, ImageOf, Firm, Torn, Sound, AtRest, Readable, CollisionFree, RevisionOf, Committed,
      ApplyEnded, SnapImage, Step, Running;
    ghost var d := s.disk;
    var r; ghost var before, after, mid;
    r, before, after, mid := Restore(s, req.id, req.expected, req.controller, req.cancelled, req.at, req.at', req.edit);
    reply := Outcome(r);
    ghost var c := Call(RestoreOp(req.id), req.expected, req.edit, before, after, mid,
                        NextBaseline(d, before, after), r);
    ChangeIsStep(s.sha, d, c, s.disk, s.alive);
    act := Change(c);
  }

  /** One turn of the helper: any request, with any arguments, is one step of a run, and
      the step is the one that was asked for. */
  method Request(s: Store, req: Req) returns (reply: Reply, ghost act: Act)
    requires s.alive && Sound(s.sha, s.disk) && AtRest(s.disk) && CollisionFree(s.sha)
    modifies s
    ensures Step(s.sha, Up(old(s.disk)), act, NodeOf(s.disk, s.alive)) && Answers(req, act, reply)
    ensures req.AcceptReq? && reply == Answer(None) ==> act.Pin? && s.disk.pointer.now == Some(act.pin)
  {
    hide Loads, Canonical, ImageOf, Firm, Torn, Sound, AtRest, Readable, CollisionFree, RevisionOf, Committed,
      ApplyEnded, Aside, Grown, SnapImage;
    ghost var d := s.disk;
    match req {
      case ApplyReq(_, _, _, _, _, _, _) =>
        reply, act := ServeApply(s, req);
      case RestoreReq(_, _, _, _, _, _, _) =>
        reply, act := ServeRestore(s, req);
      case BaselineReq(at) =>
        var r := Baseline(s, at);
        act := PinIsStep(s.sha, d, s.disk, s.alive, true);
        reply := Answer(ErrorOf(r));
      case AcceptReq(expected, at) =>
        var r := AcceptDisk(s, expected, at);
        act := PinIsStep(s.sha, d, s.disk, s.alive, false);
        reply := Answer(ErrorOf(r));
      case SnapshotReq(reason, at) =>
        var r := Snapshot(s, reason, at);
        act, reply := Upkeep, Answer(ErrorOf(r));
      case DeleteReq(id) =>
        var r := Delete(s, id);
        act, reply := Upkeep, Answer(ErrorOf(r));
      case ReadReq =>
        var r := Read(s);
        StillAside(s.sha, d, s.alive);
        act, reply := Upkeep, Answer(ErrorOf(r));
      case Outsider(live) =>
        s.Outside(live);
        act, reply := Edit(live), Answer(None);
    }
  }

  // ----- one life -----

  lemma Appended(sha: string -> string, nodes: seq<Node>, acts: seq<Act>, act: Act, n: Node)
    requires Run(sha, nodes, acts) && Step(sha, nodes[|acts|], act, n)
    ensures Run(sha, nodes + [n], acts + [act])
  {
    hide Step;
    forall i | 0 <= i < |acts + [act]|
      ensures Step(sha, (nodes + [n])[i], (acts + [act])[i], (nodes + [n])[i + 1])
    {
      if i < |acts| {
        assert Step(sha, nodes[i], acts[i], nodes[i + 1]);
      }
    }
  }

  lemma RecoveryIsStep(sha: string -> string, d: Disk, d': Disk, alive: bool, r: Result<()>)
    requires Sound(sha, d') && (alive ==> AtRest(d')) && Torn(d', Committed(d), Committed(d))
    requires alive <==> r != Err(Dead)
    requires AtRest(d) && (d.journal.now.None? ==> d' == d)
    requires r.Ok? ==> d'.journal.now.None? && Committed(d') == Committed(d)
    requires r.Err? && alive && d.journal.now.Some? ==> Committed(d') == Committed(d)
    requires d.journal.now.Some? && !Readable(ImageOf(d.live.now)) ==> r.Err? && d' == d
    requires Keeps(sha, d, d') && SnapsStill(d, d') && d'.nextId == d.nextId
    ensures Step(sha, Booting(d), Recovery, if r.Ok? then Up(d') else if alive then Booting(d') else Down(d'))
  {
    hide Loads, Canonical, ImageOf, Firm, Torn, Sound, Readable, Keeps, Grown;
    GrownStill(sha, d, d');
  }

  /** Startup recovery. */
  method Start(s: Store) returns (ok: bool, ghost n: Node)
    requires s.alive && Sound(s.sha, s.disk) && AtRest(s.disk) && CollisionFree(s.sha)
    modifies s
    ensures Step(s.sha, Booting(old(s.disk)), Recovery, n) && n.disk == s.disk
    ensures (n.Down? <==> !s.alive) && (n.Up? <==> ok)
  {
    hide Loads, Canonical, ImageOf, Firm, Torn, Sound, AtRest, Readable, CollisionFree, Committed, Step, Keeps;
    ghost var d := s.disk;
    var r := Recover(s, true);
    RecoveryIsStep(s.sha, d, s.disk, s.alive, r);
    ok, n := r.Ok?, if r.Ok? then Up(s.disk) else if s.alive then Booting(s.disk) else Down(s.disk);
  }

  /** A run and the state of the process at its end. */
  ghost predicate Lived(s: Store, d0: Disk, nodes: seq<Node>, acts: seq<Act>)
    reads s
  {
    && Run(s.sha, nodes, acts) && nodes[0] == Booting(d0) && Good(s.sha, nodes[0])
    && nodes[|acts|].disk == s.disk && (nodes[|acts|].Down? <==> !s.alive)
  }

  lemma FirstNode(sha: string -> string, d: Disk)
    requires Sound(sha, d) && AtRest(d)
    ensures Run(sha, [Booting(d)], []) && Good(sha, Booting(d))
  {
  }

  lemma LastGood(sha: string -> string, nodes: seq<Node>, acts: seq<Act>)
    requires Run(sha, nodes, acts) && Good(sha, nodes[0])
    ensures Good(sha, nodes[|acts|])
    ensures !nodes[|acts|].Down? ==> Sound(sha, nodes[|acts|].disk) && AtRest(nodes[|acts|].disk)
  {
    RunGood(sha, nodes, acts);
    assert Good(sha, nodes[|acts|]);
  }

  /** `Serve`: startup recovery, then serialised requests. */
  method Serve(s: Store, reqs: seq<Req>) returns (ghost nodes: seq<Node>, ghost acts: seq<Act>)
    requires s.alive && Sound(s.sha, s.disk) && AtRest(s.disk) && CollisionFree(s.sha)
    modifies s
    ensures Lived(s, old(s.disk), nodes, acts)
  {
    hide Loads, Canonical, ImageOf, Firm, Torn, Sound, AtRest, Readable, CollisionFree, Committed, Step, Good, Run,
      Answers;
    ghost var d0 := s.disk;
    nodes, acts := [Booting(d0)], [];
    FirstNode(s.sha, d0);
    ghost var n;
    var ok;
    ok, n := Start(s);
    Appended(s.sha, nodes, acts, Recovery, n);
    nodes, acts := nodes + [n], acts + [Recovery];
    if !ok {
      return;
    }
    var i := 0;
    while i < |reqs| && s.alive
      invariant |nodes| == |acts| + 1 && i <= |reqs|
      invariant Lived(s, d0, nodes, acts) && nodes[|acts|] == NodeOf(s.disk, s.alive)
    {
      LastGood(s.sha, nodes, acts);
      var reply; ghost var act;
      reply, act := Request(s, reqs[i]);
      Appended(s.sha, nodes, acts, act, NodeOf(s.disk, s.alive));
      nodes, acts := nodes + [NodeOf(s.disk, s.alive)], acts + [act];
      i := i + 1;
    }
  }

  // ----- many lives -----

  lemma StopIsStep(sha: string -> string, n: Node)
    requires Good(sha, n) && !n.Down?
    ensures Step(sha, n, if n.Up? then Upkeep else Recovery, Down(n.disk))
  {
    hide Loads, Canonical, ImageOf, Firm, Torn, Readable, Grown;
    AtRestTorn(n.disk);
    StillAside(sha, n.disk, false);
    GrownStill(sha, n.disk, n.disk);
  }

  /** Between two lives: a process that still runs is stopped, and the machine starts again. */
  method Restart(s: Store, ghost d0: Disk, ghost nodes: seq<Node>, ghost acts: seq<Act>)
    returns (ghost more: seq<Node>, ghost acts': seq<Act>)
    requires Lived(s, d0, nodes, acts)
    modifies s
    ensures Lived(s, d0, more, acts') && s.alive && more[|acts'|] == Booting(s.disk)
  {
    hide Good, Step, PowerLoss, Run;
    more, acts' := nodes, acts;
    RunSizes(s.sha, more, acts');
    if s.alive {
      LastGood(s.sha, more, acts');
      ghost var n := more[|acts'|];
      StopIsStep(s.sha, n);
      s.Stop();
      Appended(s.sha, more, acts', if n.Up? then Upkeep else Recovery, Down(n.disk));
      more, acts' := more + [Down(n.disk)], acts' + [if n.Up? then Upkeep else Recovery];
    }
    ghost var d := s.disk;
    s.Reboot();
    BootIsStep(s.sha, d, s.disk);
    Appended(s.sha, more, acts', Boot, Booting(s.disk));
    more, acts' := more + [Booting(s.disk)], acts' + [Boot];
  }

  lemma BootIsStep(sha: string -> string, d: Disk, d': Disk)
    requires PowerLoss(d, d')
    ensures Step(sha, Down(d), Boot, Booting(d'))
  {
    hide PowerLoss;
  }

  /** Any number of lives, each with any requests, and each ended at any step by a crash
      or a stop: one run from the first start to the last. */
  method Lives(s: Store, lives: seq<seq<Req>>) returns (ghost nodes: seq<Node>, ghost acts: seq<Act>)
    requires s.alive && Sound(s.sha, s.disk) && AtRest(s.disk) && CollisionFree(s.sha)
    modifies s
    ensures Lived(s, old(s.disk), nodes, acts)
  {
    hide Loads, Canonical, ImageOf, Firm, Torn, Sound, AtRest, CollisionFree, Step, Good, Run;
    ghost var d0 := s.disk;
    nodes, acts := [Booting(d0)], [];
    FirstNode(s.sha, d0);
    var i := 0;
    while i < |lives|
      invariant |nodes| == |acts| + 1 && i <= |lives|
      invariant Lived(s, d0, nodes, acts) && (i == 0 ==> nodes[|acts|] == Booting(s.disk))
    {
      if i > 0 {
        nodes, acts := Restart(s, d0, nodes, acts);
        RunSizes(s.sha, nodes, acts);
      }
      LastGood(s.sha, nodes, acts);
      ghost var ns, as';
      ns, as' := Serve(s, lives[i]);
      RunSizes(s.sha, ns, as');
      RunsJoin(s.sha, nodes, acts, ns, as');
      nodes, acts := nodes + ns[1..], acts + as';
      i := i + 1;
    }
  }
}
