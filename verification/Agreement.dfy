/** What a successful Apply promises its caller, and when a crash in the middle
    of one can be recovered from at all. */
module Agreement {
  import opened Basics
  import opened Paths
  import opened Images
  import opened Revision
  import opened Disks
  import opened Primitives
  import opened Snapshots
  import opened Replace
  import opened Transactions
  import opened Runs
  import opened Crashes

  /** The keys of the result are canonical exactly when those written are. */
  lemma OverlayCanonical(before: Image, changes: map<string, Option<string>>, after: Image)
    requires Canonical(before) && IsOverlay(before, changes, after)
    ensures Canonical(after) <==> forall p | p in changes && changes[p].Some? :: Managed(p)
  {
    hide Managed;
    forall p | p in changes && changes[p].Some?
      ensures p in after
    {
      assert Get(after, p) == Get(Overlaid(before, p, changes[p], map[]), p);
    }
    forall p | p in after
      ensures Managed(p) || (p in changes && changes[p].Some?)
    {
      if p in changes {
        assert Get(after, p) == Get(Overlaid(before, p, changes[p], map[]), p);
      } else {
        assert Get(after, p) == Get(before, p);
      }
    }
  }

  /** No lost update: a successful Apply acted on the very image that the caller's
      revision names. The managed baseline and the returned revision are then the
      overlay that was asked for; the live image is that overlay if, and only if,
      no written path is a second spelling of its file. */
  lemma SuccessAgrees(sha: string -> string, d: Disk, d': Disk, seen: Image, expected: string,
                      changes: map<string, Option<string>>, before: Image, after: Image,
                      edit: Option<map<string, File>>, mid: Image, result: ApplyResult)
    requires CollisionFree(sha) && Canonical(before) && Canonical(seen) && IsOverlay(before, changes, after) &&
               ValidKeys(after)
    requires expected == RevisionOf(sha, seen)
    requires ApplyEnded(sha, d, d', true, Ok(result), expected, before, after, edit, mid)
    ensures seen == before == mid && d'.journal.now.None?
    ensures SnapImage(d', d'.pointer.now.value) == after && result.revision == RevisionOf(sha, after)
    ensures ImageOf(d'.live.now) == after <==> forall p | p in changes && changes[p].Some? :: Managed(p)
    ensures result.revision == RevisionOf(sha, ImageOf(d'.live.now)) <==>
              forall p | p in changes && changes[p].Some? :: Managed(p)
  {
    hide CollisionFree, RevisionOf, Managed, ImageOf, IsOverlay, ValidKeys, Moves, Play, Loads;
    SameRevision(sha, seen, before);
    OverlayCanonical(before, changes, after);
    ReplaceReaches(before, after);
    LiveCanonical(d'.live.now);
    if result.revision == RevisionOf(sha, ImageOf(d'.live.now)) {
      SameRevision(sha, ImageOf(d'.live.now), after);
    }
  }

  /** Of two callers with the same revision only one wins: once a change has
      succeeded, that revision no longer names the live image. */
  lemma OnlyOneWins(sha: string -> string, d': Disk, before: Image, after: Image, expected: string, result: ApplyResult)
    requires CollisionFree(sha) && Canonical(before) && ValidKeys(after) && before != after
    requires Applied(sha, d', before, after, expected, result) && Canonical(after)
    ensures expected != RevisionOf(sha, ImageOf(d'.live.now))
  {
    hide CollisionFree, RevisionOf, Managed, ImageOf, ValidKeys, Moves, Play;
    ReplaceReaches(before, after);
    if expected == RevisionOf(sha, ImageOf(d'.live.now)) {
      SameRevision(sha, before, after);
    }
  }

  // ----- what a killed call comes to -----

  /** Image and baseline are those from before the call, or those with only the
      edit that somebody else made during it. */
  ghost predicate NotMade(d0: Disk, c: Call, d: Disk) {
    && d.pointer.now == d0.pointer.now
    && (ImageOf(d.live.now) == c.before || (c.edit.Some? && ImageOf(d.live.now) == ImageOf(c.edit.value)))
  }

  /** An Apply killed at any step has, once the helper is back, changed nothing, or
      everything: the new baseline is a snapshot of the change set laid over the image
      from before, and the live image is that overlay, unless a written path is a
      second spelling of its file. */
  lemma ApplyAtomic(sha: string -> string, up: Node, c: Call, down: Node, first: Node, nodes: seq<Node>, acts: seq<Act>)
    requires Good(sha, up) && up.disk.journal.now.None? && Step(sha, up, Change(c), down) && down.Down?
    requires Step(sha, down, Boot, first) && CollisionFree(sha) && c.op.ApplyOp?
    requires Run(sha, nodes, acts) && OnlyRestarts(acts) && nodes[0] == first && nodes[|acts|].Up?
    ensures var d := nodes[|acts|].disk;
            || NotMade(up.disk, c, d)
            || (&& d.pointer.now == Some(c.pin)
                && IsOverlay(ImageOf(up.disk.live.now), c.op.changes, SnapImage(d, c.pin))
                && (ImageOf(d.live.now) == SnapImage(d, c.pin)
                    <==> forall p | p in c.op.changes && c.op.changes[p].Some? :: Managed(p)))
  {
    hide Loads, Canonical, ImageOf, Managed, PowerLoss, Good, Step, Run, CollisionFree, SnapImage, IsOverlay,
      ValidKeys, Moves, Play;
    CrashAtomicity(sha, up, c, down, first, nodes, acts);
    LiveCanonical(up.disk.live.now);
    if Wanted(sha, up.disk, c) {
      ReplaceReaches(c.before, c.after);
      OverlayCanonical(c.before, c.op.changes, c.after);
    }
  }

  /** A Restore killed at any step: nothing, or the snapshot's image as live image and as baseline. */
  lemma RestoreAtomic(sha: string -> string, up: Node, c: Call, down: Node, first: Node, nodes: seq<Node>,
                      acts: seq<Act>)
    requires Good(sha, up) && up.disk.journal.now.None? && Step(sha, up, Change(c), down) && down.Down?
    requires Step(sha, down, Boot, first) && CollisionFree(sha) && c.op.RestoreOp?
    requires Run(sha, nodes, acts) && OnlyRestarts(acts) && nodes[0] == first && nodes[|acts|].Up?
    ensures var d, im := nodes[|acts|].disk, SnapImage(up.disk, c.op.id);
            || NotMade(up.disk, c, d)
            || (&& d.pointer.now == Some(c.pin) && SnapImage(d, c.pin) == im
                && (ImageOf(d.live.now) == im <==> Canonical(im)))
  {
    hide Loads, Canonical, ImageOf, Managed, PowerLoss, Good, Step, Run, CollisionFree, SnapImage, ValidKeys, Moves,
      Play;
    CrashAtomicity(sha, up, c, down, first, nodes, acts);
    LiveCanonical(up.disk.live.now);
    if Wanted(sha, up.disk, c) {
      ReplaceReaches(c.before, c.after);
    }
  }

  // ----- can every kill be recovered from? -----

  /** What a move adds to the size of the directory. */
  function Growth(before: Image, m: Move): int {
    (if m.Write? then |m.file.data| else 0) - (if m.path in before then |before[m.path].data| else 0)
  }

  /** The size after i moves, by adding up differences. */
  function RunningSize(base: int, before: Image, moves: seq<Move>, i: nat): int
    requires i <= |moves|
  {
    if i == 0 then base else RunningSize(base, before, moves, i - 1) + Growth(before, moves[i - 1])
  }

  /** The largest size on the way, which a caller can compute beforehand. */
  function Peak(base: int, before: Image, moves: seq<Move>, i: nat): int
    requires i <= |moves|
  {
    var here := RunningSize(base, before, moves, i);
    if i == 0 then here
    else
      var earlier := Peak(base, before, moves, i - 1);
      if earlier > here then earlier else here
  }

  predicate Fits(base: int, before: Image, moves: seq<Move>, i: int, limit: int) {
    0 <= i <= |moves| && RunningSize(base, before, moves, i) <= limit
  }

  lemma {:induction false} PeakIsLargest(base: int, before: Image, moves: seq<Move>, i: nat, limit: int)
    requires i <= |moves|
    ensures Peak(base, before, moves, i) <= limit <==> forall j | 0 <= j <= i :: Fits(base, before, moves, j, limit)
  {
    if i > 0 {
      PeakIsLargest(base, before, moves, i - 1, limit);
      assert Fits(base, before, moves, i, limit) <==> RunningSize(base, before, moves, i) <= limit;
    } else {
      assert Fits(base, before, moves, 0, limit) <==> base <= limit;
    }
  }

  lemma MovesDistinct(before: Image, after: Image, i: nat, j: nat)
    requires i < j < |Moves(before, after)|
    ensures Moves(before, after)[i].path != Moves(before, after)[j].path
  {
    var ws, es := SortedKeys(ChangedPaths(before, after)), SortedKeys(GonePaths(before, after));
    if j < |ws| {
      LessTotal(ws[i], ws[j]);
    } else if i >= |ws| {
      LessTotal(es[i - |ws|], es[j - |ws|]);
    } else {
      assert ws[i] in Elements(ws) && es[j - |ws|] in Elements(es);
    }
  }

  /** A path keeps its old version until its own move. */
  lemma {:induction false} Untouched(before: Image, after: Image, i: nat, q: string)
    requires i <= |Moves(before, after)| && Canonical(after)
    requires forall j | 0 <= j < i :: Moves(before, after)[j].path != q
    ensures Get(Play(before, Moves(before, after)[..i]), q) == Get(before, q)
  {
    hide Managed, Canon, SortedKeys;
    if i > 0 {
      Untouched(before, after, i - 1, q);
      PlayNext(before, Moves(before, after), i - 1);
      MoveMeans(before, after, i - 1);
    }
  }

  lemma SizeOfMake(im: Image, before: Image, m: Move)
    requires Get(im, m.path) == Get(before, m.path) && (m.Write? ==> Canon(m.path) == m.path)
    ensures TotalSize(Make(im, m)) == TotalSize(im) + Growth(before, m)
  {
    hide Canon;
    var p := m.path;
    if p in im {
      TotalWithout(im, p);
    } else {
      assert im - {p} == im;
    }
    if m.Write? {
      TotalPut(im - {p}, p, m.file);
      assert (im - {p})[p := m.file] == im[p := m.file];
    }
  }

  /** Adding up differences gives the size of every image on the way. */
  lemma {:induction false} RunningIsSize(before: Image, after: Image, i: nat)
    requires i <= |Moves(before, after)| && Canonical(after)
    ensures TotalSize(Play(before, Moves(before, after)[..i]))
              == RunningSize(TotalSize(before), before, Moves(before, after), i)
  {
    hide Managed, Canon, SortedKeys, TotalSize, Moves;
    if i > 0 {
      var moves := Moves(before, after);
      RunningIsSize(before, after, i - 1);
      PlayNext(before, moves, i - 1);
      MoveMeans(before, after, i - 1);
      forall j | 0 <= j < i - 1
        ensures moves[j].path != moves[i - 1].path
      {
        MovesDistinct(before, after, j, i - 1);
      }
      Untouched(before, after, i - 1, moves[i - 1].path);
      SizeOfMake(Play(before, moves[..i - 1]), before, moves[i - 1]);
    }
  }

  lemma MidFiles(before: Image, after: Image, i: nat)
    requires i <= |Moves(before, after)| && Canonical(after) && Readable(before) && Readable(after)
    ensures forall p | p in Play(before, Moves(before, after)[..i]) ::
              |Play(before, Moves(before, after)[..i])[p].data| <= MAX_FILE_SIZE
  {
    hide Managed, Moves, Play;
    var mid := Play(before, Moves(before, after)[..i]);
    forall p | p in mid
      ensures |mid[p].data| <= MAX_FILE_SIZE
    {
      OldOrNew(before, after, i, p);
    }
  }

  /** recover begins by reading the live image, and refuses one that is too
      large. A process killed inside `replace` leaves an image it can read wherever
      it was, if, and only if, the peak on the way stays within the limit. A loss of
      power keeps any of the renames, not only the first ones: see PowerLosses. */
  lemma AlwaysRecoverable(before: Image, after: Image)
    requires Canonical(after) && Readable(before) && Readable(after)
    ensures var moves := Moves(before, after);
            (forall i | 0 <= i <= |moves| :: Readable(Play(before, moves[..i])))
            <==> Peak(TotalSize(before), before, moves, |moves|) <= MAX_TOTAL_SIZE
  {
    hide Managed, Moves, Play, TotalSize, Peak, RunningSize, Fits;
    var moves := Moves(before, after);
    PeakIsLargest(TotalSize(before), before, moves, |moves|, MAX_TOTAL_SIZE);
    forall i | 0 <= i <= |moves|
      ensures Readable(Play(before, moves[..i])) <==> Fits(TotalSize(before), before, moves, i, MAX_TOTAL_SIZE)
    {
      FitsIsReadable(before, after, i);
    }
  }

  lemma FitsIsReadable(before: Image, after: Image, i: nat)
    requires i <= |Moves(before, after)| && Canonical(after) && Readable(before) && Readable(after)
    ensures Readable(Play(before, Moves(before, after)[..i]))
            <==> Fits(TotalSize(before), before, Moves(before, after), i, MAX_TOTAL_SIZE)
  {
    hide Managed, Moves, Play, TotalSize, RunningSize;
    RunningIsSize(before, after, i);
    MidFiles(before, after, i);
  }

  /** A change of one path, which is all that the helper's write calls ask for, is always recoverable. */
  lemma OnePathRecoverable(before: Image, after: Image, p: string)
    requires Canonical(after) && Readable(before) && Readable(after)
    requires forall q | q != p :: Get(before, q) == Get(after, q)
    ensures forall i | 0 <= i <= |Moves(before, after)| :: Readable(Play(before, Moves(before, after)[..i]))
  {
    hide Managed, Play, TotalSize, Moves;
    var moves := Moves(before, after);
    if |moves| > 1 {
      MovesDistinct(before, after, 0, 1);
      MovesChange(before, after, 0);
      MovesChange(before, after, 1);
    }
    forall i | 0 <= i <= |moves|
      ensures Readable(Play(before, moves[..i]))
    {
      if i == 0 {
        NoMoves(before, after);
      } else {
        PlayedOut(before, after);
        assert moves[..i] == moves;
      }
    }
  }

  lemma MovesChange(before: Image, after: Image, i: nat)
    requires i < |Moves(before, after)|
    ensures Get(before, Moves(before, after)[i].path) != Get(after, Moves(before, after)[i].path)
  {
    var ws, es := SortedKeys(ChangedPaths(before, after)), SortedKeys(GonePaths(before, after));
    if i < |ws| {
      assert ws[i] in Elements(ws);
    } else {
      assert es[i - |ws|] in Elements(es);
    }
  }
}
