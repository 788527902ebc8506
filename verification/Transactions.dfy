/** Safe Apply: the journalled change of several files, its rollback and its recovery. */
module Transactions {
  import opened Basics
  import opened Paths
  import opened Images
  import opened Revision
  import opened Disks
  import opened Ages
  import opened Primitives
  import opened Snapshots
  import opened Retention
  import opened Replace
  import opened Baselines

  // ----- recover -----

  /** The image of a snapshot that loads has only valid keys. */
  lemma LoadedKeys(sha: string -> string, d: Disk, id: nat)
    requires Firm(sha, d, id)
    ensures ValidKeys(SnapImage(d, id))
  {
    hide ValidPath;
  }

  lemma LiveKeepsRest(sha: string -> string, d: Disk, d': Disk)
    requires Sound(sha, d) && d' == d.(live := d'.live)
    ensures Sound(sha, d') && Keeps(sha, d, d')
    ensures d.journal.now.Some? ==> Committed(d') == Committed(d)
  {
    hide Loads, Canonical;
  }

  /** With a durable journal, any crash stands for what the journal says. */
  lemma JournalHolds(d: Disk, next: View)
    requires d.journal.now.Some? && d.journal.may == {}
    ensures Torn(d, Committed(d), next)
  {
  }

  /** The daemon completed this action with the files that are there now, and was healthy afterwards. */
  ghost predicate Running(s: Store, a: Action)
    reads s
  {
    s.ran == Some(Ran(a, ImageOf(s.disk.live.now), true))
  }

  /** The first half of recover: put the snapshot's image back and restart the daemon. */
  method PutBack(s: Store, j: Pending) returns (r: Result<()>)
    requires s.alive && Sound(s.sha, s.disk) && s.disk.journal == Slot(Some(j), {})
    modifies s
    ensures s.alive <==> r != Err(Dead)
    ensures s.disk == old(s.disk).(live := s.disk.live)
    ensures r.Ok? ==> LiveSynced(s.disk) && ImageOf(s.disk.live.now) == Committed(s.disk).image && Running(s, Restart)
    ensures r.Err? ==> r.error in {Dead, IO, Broken, TooLarge, Invalid, Runtime}
    ensures !old(Readable(ImageOf(s.disk.live.now))) ==> r.Err? && s.disk == old(s.disk)
  {
    hide Loads, Canonical, ImageOf, LiveSynced, ValidKeys, Moves, Play, Readable;
    assert JournalSound(s.sha, s.disk, j);
    var load := LoadSnapshot(s, j.snapshot);
    if load.Err? {
      return Err(load.error);
    }
    var before := load.value.1;
    LoadedKeys(s.sha, s.disk, j.snapshot);
    var current := Read(s);
    if current.Err? {
      return Err(current.error);
    }
    ghost var done: nat;
    r, done := ReplaceAll(s, current.value, before);
    if r.Err? {
      return;
    }
    PlayedOut(current.value, before);
    assert Moves(current.value, before)[..done] == Moves(current.value, before);
    r := RunController(s, Restart);
  }

  /** Controller.Apply and Controller.Healthy, with any outcome. */
  method RunController(s: Store, a: Action) returns (r: Result<()>)
    requires s.alive
    modifies s`alive, s`ran
    ensures s.alive <==> r != Err(Dead)
    ensures r.Ok? ==> Running(s, a)
    ensures r.Err? ==> r.error in {Dead, Runtime}
  {
    hide ImageOf;
    var e := s.Control(a);
    if e == Done {
      e := s.CheckHealth();
    }
    r := if e == Done then Ok(()) else if e == Killed then Err(Dead) else Err(Runtime);
  }

  /** `recover`. Whatever happens in it, every crash still stands for what the
      journal promised; success makes the live image and the baseline exactly that. */
  method Recover(s: Store, controller: bool) returns (r: Result<()>)
    requires s.alive && Sound(s.sha, s.disk) && AtRest(s.disk)
    modifies s
    ensures s.alive <==> r != Err(Dead)
    ensures Sound(s.sha, s.disk) && Keeps(s.sha, old(s.disk), s.disk)
    ensures s.alive ==> AtRest(s.disk)
    ensures Torn(s.disk, Committed(old(s.disk)), Committed(old(s.disk)))
    ensures r.Ok? ==> s.disk.journal.now.None? && Committed(s.disk) == Committed(old(s.disk))
    ensures old(s.disk.journal.now).None? ==> s.disk == old(s.disk)
    ensures old(s.disk.journal.now).Some? && (r.Ok? || r == Err(JournalSync)) ==> Running(s, Restart)
    ensures old(s.disk.journal.now).Some? && !old(Readable(ImageOf(s.disk.live.now))) ==>
              r.Err? && s.disk == old(s.disk)
    ensures r.Err? && s.alive && old(s.disk.journal.now).Some? ==>
              (s.disk.journal.now.None? <==> r == Err(JournalSync)) && Committed(s.disk) == Committed(old(s.disk))
    ensures s.disk.nextId == old(s.disk.nextId) && SnapsStill(old(s.disk), s.disk)
  {
    hide Loads, Canonical, ImageOf, Firm, Readable;
    ghost var d0 := s.disk;
    KeepsRefl(s.sha, d0);
    AtRestTorn(d0);
    var st := s.Try();
    if st != Done {
      return Err(Why(st));
    }
    if s.disk.journal.now.None? {
      return Ok(());
    }
    if !controller {
      return Err(NoController);
    }
    r := Compensate(s, s.disk.journal.now.value);
  }

  lemma AtRestTorn(d: Disk)
    requires AtRest(d)
    ensures Torn(d, Committed(d), Committed(d))
  {
  }

  method Compensate(s: Store, j: Pending) returns (r: Result<()>)
    requires s.alive && Sound(s.sha, s.disk) && Calm(s.disk) && s.disk.journal.now == Some(j)
    modifies s
    ensures s.alive <==> r != Err(Dead)
    ensures Sound(s.sha, s.disk) && Keeps(s.sha, old(s.disk), s.disk)
    ensures s.alive ==> AtRest(s.disk)
    ensures Torn(s.disk, Committed(old(s.disk)), Committed(old(s.disk)))
    ensures r.Ok? ==> s.disk.journal.now.None? && Committed(s.disk) == Committed(old(s.disk))
    ensures r.Ok? || r == Err(JournalSync) ==> Running(s, Restart)
    ensures !old(Readable(ImageOf(s.disk.live.now))) ==> r.Err? && s.disk == old(s.disk)
    ensures r.Err? && s.alive ==>
              (s.disk.journal.now.None? <==> r == Err(JournalSync)) && Committed(s.disk) == Committed(old(s.disk))
    ensures s.disk.nextId == old(s.disk.nextId) && SnapsStill(old(s.disk), s.disk)
  {
    hide Loads, Canonical, ImageOf, Firm, Keeps, Sound, Managed, Readable;
    ghost var d0 := s.disk;
    r := PutBack(s, j);
    LiveKeepsRest(s.sha, d0, s.disk);
    JournalHolds(s.disk, Committed(d0));
    if r.Err? {
      return;
    }
    ghost var d1 := s.disk;
    JournalBaseline(s, j);
    r := SetBaseline(s, j.baseline);
    KeepsTrans(s.sha, d0, d1, s.disk);
    SameSnapImage(d1, s.disk, j.snapshot);
    JournalHolds(s.disk, Committed(d0));
    if r.Err? {
      return;
    }
    ghost var d2 := s.disk;
    r := ClearPending(s, Committed(d0), Committed(d0));
    KeepsTrans(s.sha, d0, d2, s.disk);
  }

  lemma JournalBaseline(s: Store, j: Pending)
    requires Sound(s.sha, s.disk) && s.disk.journal.now == Some(j)
    ensures j.baseline.Some? ==> Firm(s.sha, s.disk, j.baseline.value)
  {
    assert JournalSound(s.sha, s.disk, j);
  }

  // ----- apply -----

  ghost predicate ValidImage(accepts: (string, string) -> bool, im: Image) {
    CONF in im && ValidKeys(im) && Readable(im) && forall p | p in im :: accepts(p, im[p].data)
  }

  method ValidateImage(accepts: (string, string) -> bool, im: Image) returns (ok: bool)
    ensures ok <==> ValidImage(accepts, im)
  {
    hide ValidPath;
    if CONF !in im {
      return false;
    }
    var seen: Image, total := map[], 0;
    var todo := im.Keys;
    while todo != {}
      invariant todo <= im.Keys && seen.Keys == im.Keys - todo
      invariant forall p | p in seen :: seen[p] == im[p]
      invariant forall p | p in seen :: ValidPath(p) && accepts(p, im[p].data) && |im[p].data| <= MAX_FILE_SIZE
      invariant total == TotalSize(seen) <= MAX_TOTAL_SIZE
      decreases todo
    {
      var p :| p in todo;
      todo := todo - {p};
      TotalPut(seen, p, im[p]);
      TotalMonotone(seen[p := im[p]], im);
      total := total + |im[p].data|;
      if !ValidPath(p) || |im[p].data| > MAX_FILE_SIZE || total > MAX_TOTAL_SIZE || !accepts(p, im[p].data) {
        return false;
      }
      seen := seen[p := im[p]];
    }
    assert seen == im;
    return true;
  }

  datatype ApplyResult = ApplyResult(action: Action, snapshot: Option<nat>, revision: string, warning: bool)

  /** What every ending of a mutation leaves: a sound disk that stands for `was` or `next`. */
  ghost predicate Ended(sha: string -> string, d: Disk, alive: bool, was: View, next: View) {
    Sound(sha, d) && Torn(d, was, next) && (alive ==> AtRest(d))
  }

  lemma NulFreeKeys(im: Image)
    requires Canonical(im) || ValidKeys(im)
    ensures forall p | p in im :: '\0' !in p
  {
    forall p | p in im
      ensures '\0' !in p
    {
      if ValidPath(p) && p != CONF && p != HOSTS {
      } else {
        assert '\0' !in CONF && '\0' !in HOSTS;
      }
    }
  }

  lemma LiveCanonical(live: map<string, File>)
    ensures Canonical(ImageOf(live))
  {
  }

  lemma SameRevision(sha: string -> string, a: Image, b: Image)
    requires CollisionFree(sha) && RevisionOf(sha, a) == RevisionOf(sha, b)
    requires (Canonical(a) || ValidKeys(a)) && (Canonical(b) || ValidKeys(b))
    ensures a == b
  {
    hide CollisionFree, RevisionOf, Canonical, ValidKeys;
    NulFreeKeys(a);
    NulFreeKeys(b);
    RevisionNamesImage(sha, a, b);
  }

  /** atomicFile for pending.json. */
  method PutJournalDurably(s: Store, j: Pending) returns (r: Result<()>)
    requires s.alive && Sound(s.sha, s.disk) && AtRest(s.disk) && s.disk.journal.now.None?
    requires JournalSound(s.sha, s.disk, j)
    requires JournalView(s.disk, j) == View(ImageOf(s.disk.live.now), s.disk.pointer.now)
    modifies s`alive, s`disk
    ensures s.alive <==> r != Err(Dead)
    ensures s.disk == old(s.disk).(journal := s.disk.journal, snaps := Dir(old(s.disk.snaps.now), s.disk.snaps.may))
    ensures Sound(s.sha, s.disk) && Torn(s.disk, JournalView(s.disk, j), JournalView(s.disk, j)) &&
              (s.alive ==> AtRest(s.disk))
    ensures Keeps(s.sha, old(s.disk), s.disk) && JournalView(s.disk, j) == old(JournalView(s.disk, j))
    ensures SnapsStill(old(s.disk), s.disk)
    ensures r.Ok? ==> s.disk.journal == Slot(Some(j), {})
    ensures r.Err? ==> r.error in {Dead, IO}
  {
    hide Loads, Canonical, ImageOf, Managed;
    var e := s.Try();
    if e == Done {
      e := s.PutJournal(j);
      if e == Done {
        e := s.SyncBackups();
      }
    }
    r := if e == Done then Ok(()) else Err(Why(e));
  }

  /** No journal, now or after any crash. */
  ghost predicate NoJournal(d: Disk) {
    forall j :: !SlotMayBe(d.journal, Some(j))
  }

  /** The live directory is as it was, or as somebody else left it in between. */
  predicate LiveAfter(was: Dir<string, File>, live: Dir<string, File>, edit: Option<map<string, File>>) {
    live == was || (edit.Some? && live == Dir(edit.value, map[]))
  }

  predicate MidFrom(before: Image, mid: Image, edit: Option<map<string, File>>) {
    mid == before || (edit.Some? && mid == ImageOf(edit.value))
  }

  /** From the snapshot to the durable journal. `edit` is what somebody else makes
      of the live directory while the snapshot is taken, and `mid` the image after
      it; a journal is only ever written when that is still `before`. */
  method WriteJournal(s: Store, expected: string, before: Image, reason: string, at: int,
                      edit: Option<map<string, File>>)
    returns (r: Result<Manifest>, ghost mid: Image)
    requires s.alive && Sound(s.sha, s.disk) && AtRest(s.disk) && s.disk.journal.now.None?
    requires CollisionFree(s.sha) && expected == RevisionOf(s.sha, before)
    requires before == ImageOf(s.disk.live.now) && Readable(before)
    modifies s`alive, s`disk
    ensures s.alive <==> r != Err(Dead)
    ensures ImageOf(s.disk.live.now) == mid && MidFrom(before, mid, edit)
    ensures LiveAfter(old(s.disk.live), s.disk.live, edit)
    ensures NoJournal(s.disk) || mid == before
    ensures Ended(s.sha, s.disk, s.alive, View(mid, old(s.disk.pointer.now)), View(mid, old(s.disk.pointer.now)))
    ensures Keeps(s.sha, old(s.disk), s.disk) && Grown(s.sha, old(s.disk), s.disk, map[old(s.disk.nextId) := before])
    ensures s.disk.pointer == old(s.disk.pointer) && s.disk.nextId == old(s.disk.nextId) + 1
    ensures OthersKept(old(s.disk), s.disk, old(s.disk.nextId))
    ensures r.Ok? ==> mid == before && Committed(s.disk) == View(before, old(s.disk.pointer.now))
    ensures r.Ok? ==> s.disk.journal == Slot(Some(Pending(r.value.id, old(s.disk.pointer.now))), {})
    ensures r.Ok? ==> r.value.id == old(s.disk.nextId) && r.value.createdAt == at
    ensures r.Ok? ==> r.value.id in s.disk.snaps.now && s.disk.snaps.now[r.value.id].manifest == Some(r.value)
    ensures r == Err(Conflict) ==> mid != before
    ensures r == Err(Invalid) ==> s.disk.live == old(s.disk.live)
    ensures r.Ok? ==> TimeOf(s.disk, r.value.id) == at
    ensures s.alive ==> Committed(s.disk) == View(mid, old(s.disk.pointer.now))
    ensures r.Err? ==> r.error in {Dead, IO, Invalid, TooLarge, Conflict}
  {
    hide Loads, Canonical, ImageOf, Firm, Readable, CollisionFree, RevisionOf, Managed, Metas, AllLaid, Agree,
      Fragments, Grown, SlotKept;
    ghost var d0 := s.disk;
    mid := before;
    LiveCanonical(s.disk.live.now);
    CanonicalAgree(before);
    r := TakeSnapshot(s, before, reason, at);
    SnappedSound(s.sha, d0, s.disk);
    SnappedOthers(d0, s.disk);
    if r.Err? {
      return;
    }
    StoredFirm(s, r.value, before);
    ghost var d1 := s.disk;
    if edit.Some? {
      s.Outside(edit.value);
    }
    LiveKeepsRest(s.sha, d1, s.disk);
    GrownStill(s.sha, d1, s.disk);
    GrownOn(s.sha, d0, d1, s.disk, map[d0.nextId := before]);
    KeepsTrans(s.sha, d0, d1, s.disk);
    mid := ImageOf(s.disk.live.now);
    LiveCanonical(s.disk.live.now);
    ghost var d2 := s.disk;
    assert Firm(s.sha, d2, r.value.id) by {
      FirmAgain(s.sha, d1, d2, r.value.id);
    }
    SameSnapImage(d1, d2, r.value.id);
    r := JournalIfSame(s, expected, before, r.value);
    GrownStill(s.sha, d2, s.disk);
    GrownOn(s.sha, d0, d2, s.disk, map[d0.nextId := before]);
    KeepsTrans(s.sha, d0, d2, s.disk);
  }

  /** The second read, its revision, and the journal. */
  method JournalIfSame(s: Store, expected: string, before: Image, m: Manifest) returns (r: Result<Manifest>)
    requires s.alive && Sound(s.sha, s.disk) && AtRest(s.disk) && s.disk.journal == Slot(None, {})
    requires CollisionFree(s.sha) && expected == RevisionOf(s.sha, before) && Canonical(before)
    requires Firm(s.sha, s.disk, m.id) && SnapImage(s.disk, m.id) == before
    requires s.disk.snaps.now[m.id].manifest == Some(m)
    modifies s`alive, s`disk
    ensures s.alive <==> r != Err(Dead)
    ensures s.disk.live == old(s.disk.live) && s.disk.pointer == old(s.disk.pointer) &&
              s.disk.nextId == old(s.disk.nextId)
    ensures SnapsStill(old(s.disk), s.disk) && Keeps(s.sha, old(s.disk), s.disk)
    ensures var v := old(View(ImageOf(s.disk.live.now), s.disk.pointer.now));
            Ended(s.sha, s.disk, s.alive, v, v) && (s.alive ==> Committed(s.disk) == v)
    ensures NoJournal(s.disk) || ImageOf(s.disk.live.now) == before
    ensures r.Ok? ==> r.value == m && ImageOf(s.disk.live.now) == before
    ensures r.Ok? ==> s.disk.journal == Slot(Some(Pending(m.id, old(s.disk.pointer.now))), {})
    ensures r == Err(Conflict) ==> ImageOf(s.disk.live.now) != before
    ensures r.Err? ==> r.error in {Dead, IO, TooLarge, Conflict}
  {
    hide Loads, Canonical, ImageOf, Firm, Readable, CollisionFree, RevisionOf, Managed, Metas;
    AtRestTorn(s.disk);
    KeepsRefl(s.sha, s.disk);
    LiveCanonical(s.disk.live.now);
    var current := Read(s);
    if current.Err? {
      return Err(current.error);
    }
    var rev := Revise(s.sha, current.value);
    if rev != expected {
      return Err(Conflict);
    }
    SameRevision(s.sha, current.value, before);
    var pin := BaselineId(s);
    if pin.Err? {
      return Err(pin.error);
    }
    var put := PutJournalDurably(s, Pending(m.id, pin.value));
    r := if put.Ok? then Ok(m) else Err(put.error);
  }

  lemma FirmAgain(sha: string -> string, d: Disk, d': Disk, id: nat)
    requires Firm(sha, d, id) && d'.snaps == d.snaps
    ensures Firm(sha, d', id)
  {
  }

  /** What `replace` makes of `before`; it is `after` exactly when its keys are canonical. */
  ghost function Reached(before: Image, after: Image): Image {
    Play(before, Moves(before, after))
  }

  /** Replace the files, run the controller, record the new baseline. */
  method Commit(s: Store, before: Image, after: Image, action: Action, at: int) returns (r: Result<()>)
    requires s.alive && Sound(s.sha, s.disk) && AtRest(s.disk) && s.disk.journal.now.Some?
    requires before == ImageOf(s.disk.live.now) && ValidKeys(after) && Readable(after) && CollisionFree(s.sha)
    modifies s
    ensures s.alive <==> r != Err(Dead)
    ensures Sound(s.sha, s.disk) && Keeps(s.sha, old(s.disk), s.disk) && (s.alive ==> AtRest(s.disk))
    ensures s.disk.journal == old(s.disk.journal) && Committed(s.disk) == old(Committed(s.disk))
    ensures OthersKept(old(s.disk), s.disk, old(s.disk.nextId))
    ensures Grown(s.sha, old(s.disk), s.disk, map[old(s.disk.nextId) := after])
    ensures r.Ok? ==> LiveSynced(s.disk) && Running(s, action)
    ensures r.Ok? ==>
              View(ImageOf(s.disk.live.now), s.disk.pointer.now) ==
              View(Reached(before, after), Some(old(s.disk.nextId)))
    ensures r.Ok? ==> SnapImage(s.disk, old(s.disk.nextId)) == after
    ensures r.Ok? ==> s.disk.nextId == old(s.disk.nextId) + 1 && TimeOf(s.disk, old(s.disk.nextId)) == at
    ensures r.Ok? ==> old(s.disk.nextId) in s.disk.snaps.now
  {
    hide Loads, Canonical, ImageOf, Firm, Readable, ValidKeys, Managed, Metas, AllLaid, Agree, Moves, Play, Sound,
      Keeps, Grown;
    ghost var d0 := s.disk;
    ghost var done: nat;
    r, done := ReplaceAll(s, before, after);
    LiveKeepsRest(s.sha, d0, s.disk);
    GrownStill(s.sha, d0, s.disk);
    GrownMore(s.sha, d0, s.disk, map[], map[d0.nextId := after]);
    if r.Err? {
      return;
    }
    assert Moves(before, after)[..done] == Moves(before, after);
    r := RunController(s, action);
    if r.Err? {
      return;
    }
    ghost var d1 := s.disk;
    var m := RecordBaseline(s, after, "Managed configuration", at);
    KeepsTrans(s.sha, d0, d1, s.disk);
    GrownStill(s.sha, d0, d1);
    GrownTrans(s.sha, d0, d1, s.disk, map[], map[d0.nextId := after]);
    assert map[] + map[d0.nextId := after] == map[d0.nextId := after];
    JournalKept(s.sha, d1, s.disk);
    r := if m.Ok? then Ok(()) else Err(m.error);
  }

  lemma JournalKept(sha: string -> string, d: Disk, d': Disk)
    requires Sound(sha, d) && Keeps(sha, d, d') && d'.journal == d.journal && d.journal.now.Some?
    ensures Committed(d') == Committed(d)
  {
    assert JournalSound(sha, d, d.journal.now.value);
  }

  /** After a failure the snapshot is put back at once. */
  method RollBack(s: Store) returns (e: Error)
    requires s.alive && Sound(s.sha, s.disk) && AtRest(s.disk) && s.disk.journal.now.Some?
    modifies s
    ensures s.alive <==> e != Dead
    ensures Ended(s.sha, s.disk, s.alive, old(Committed(s.disk)), old(Committed(s.disk)))
    ensures Keeps(s.sha, old(s.disk), s.disk)
    ensures s.alive ==> Committed(s.disk) == old(Committed(s.disk))
    ensures e in {Dead, RolledBack, RollbackFailed, RollbackUnsynced} && SnapsStill(old(s.disk), s.disk)
    ensures e == RollbackFailed ==> s.disk.journal.now.Some?
    ensures e == RolledBack || e == RollbackUnsynced ==> s.disk.journal.now.None? && Running(s, Restart)
    ensures s.disk.nextId == old(s.disk.nextId)
  {
    hide Loads, Canonical, ImageOf, Firm, Managed, LiveSynced;
    var r := Recover(s, true);
    e := if r.Ok? then RolledBack
         else if r == Err(Dead) then Dead
         else if r == Err(JournalSync) then RollbackUnsynced else RollbackFailed;
  }

  /** Remove the journal, then prune; only the removal decides. */
  method Finish(s: Store, ghost was: View, ghost next: View) returns (r: Result<bool>)
    requires s.alive && Sound(s.sha, s.disk) && AtRest(s.disk) && LiveSynced(s.disk)
    requires s.disk.journal.now.Some? && Committed(s.disk) == was
    requires View(ImageOf(s.disk.live.now), s.disk.pointer.now) == next && next.baseline.Some?
    modifies s`alive, s`disk
    ensures s.alive <==> r != Err(Dead)
    ensures Ended(s.sha, s.disk, s.alive, was, next)
    ensures r.Ok? || r == Err(CommitUnsynced) ==> s.disk.journal.now.None? && Committed(s.disk) == next
    ensures r.Ok? ==> SnapImage(s.disk, next.baseline.value) == old(SnapImage(s.disk, next.baseline.value))
    ensures r == Err(CommitFailed) ==> s.disk.journal.now.Some? && Committed(s.disk) == was && s.disk == old(s.disk)
    ensures r == Ok(false) ==> Retained(old(s.disk), s.disk, 20)
    ensures r.Err? ==> r.error in {Dead, CommitFailed, CommitUnsynced}
    ensures s.disk.nextId == old(s.disk.nextId) && s.disk.live == old(s.disk.live)
    ensures Grown(s.sha, old(s.disk), s.disk, map[])
  {
    hide Loads, Canonical, ImageOf, Firm, Managed, LiveSynced, Sound, Keeps, Retained, Grown;
    ghost var d0 := s.disk;
    var clear := ClearPending(s, was, next);
    GrownStill(s.sha, d0, s.disk);
    if clear.Err? {
      return Err(if clear.error == Dead then Dead else if clear.error == JournalSync then CommitUnsynced
        else CommitFailed);
    }
    ghost var d1 := s.disk;
    var pruned := Prune(s, 20);
    GrownOn(s.sha, d0, d1, s.disk, map[]);
    PrunedSound(s.sha, d1, s.disk);
    SameSnapImage(d0, d1, next.baseline.value);
    SameLive(d1, s.disk);
    if pruned.Ok? {
      RetainedFrom(d0, d1, s.disk, 20);
    }
    r := if pruned == Err(Dead) then Err(Dead) else Ok(pruned.Err?);
  }

  lemma SameLive(d: Disk, d': Disk)
    requires d'.live == d.live && LiveSynced(d)
    ensures LiveSynced(d')
  {
  }

  lemma RetainedFrom(d0: Disk, d1: Disk, d2: Disk, keep: nat)
    requires d1.snaps.now == d0.snaps.now && d1.pointer == d0.pointer && Retained(d1, d2, keep)
    ensures Retained(d0, d2, keep)
  {
    forall stays, gone | stays in d2.snaps.now && gone in d0.snaps.now && gone !in d2.snaps.now
      ensures d0.pointer.now == Some(stays) || TimeOf(d0, stays) >= TimeOf(d0, gone)
    {
      assert TimeOf(d1, stays) == TimeOf(d0, stays) && TimeOf(d1, gone) == TimeOf(d0, gone);
    }
  }

  /** What a successful Apply or Restore tells its caller. */
  ghost predicate Applied(sha: string -> string, d: Disk, before: Image, after: Image, expected: string,
                          result: ApplyResult) {
    && expected == RevisionOf(sha, before)
    && result.revision == RevisionOf(sha, after) && result.action == NeededAction(before, after)
    && d.journal.now.None? && d.pointer.now.Some?
    && ImageOf(d.live.now) == Reached(before, after)
    && SnapImage(d, d.pointer.now.value) == after
  }

  /** What an error after the journal tells the caller about a disk that stood for
      `was` and was asked to stand for `next`. */
  ghost predicate LateExplained(d: Disk, e: Error, was: View, next: View) {
    match e
    case Dead => true
    case RolledBack => d.journal.now.None? && Committed(d) == was
    case RollbackUnsynced => d.journal.now.None? && Committed(d) == was
    case RollbackFailed => d.journal.now.Some? && Committed(d) == was
    case CommitFailed => d.journal.now.Some? && Committed(d) == was && View(ImageOf(d.live.now), d.pointer.now) == next
    case CommitUnsynced => d.journal.now.None? && Committed(d) == next
    case _ => false
  }

  predicate LateError(e: Error) {
    e in {RolledBack, RollbackUnsynced, RollbackFailed, CommitFailed, CommitUnsynced}
  }

  /** The same for every error: what comes after the journal concerns the caller's own
      image, and what comes before it leaves the live directory and the baseline alone. */
  ghost predicate Explained(d: Disk, d': Disk, e: Error, before: Image, edit: Option<map<string, File>>, mid: Image,
                            was: View, next: View) {
    if e == Dead then true
    else if LateError(e) then mid == before && LateExplained(d', e, was, next)
    else
      && LiveAfter(d.live, d'.live, edit) && ImageOf(d'.live.now) == mid && (e == Invalid ==> d'.live == d.live)
      && d'.pointer == d.pointer && Committed(d') == was
  }

  /** What a caller who gets an answer knows about the daemon: after success, or
      when only the journal failed, it took the action asked for; after a rollback
      it was restarted; each with the files that are there now. */
  ghost predicate RuntimeTold(s: Store, action: Action, e: Option<Error>)
    reads s
  {
    && (e in {None, Some(CommitFailed), Some(CommitUnsynced)} ==> Running(s, action))
    && (e in {Some(RolledBack), Some(RollbackUnsynced)} ==> Running(s, Restart))
  }

  function ErrorOf<T>(r: Result<T>): Option<Error> {
    if r.Ok? then None else Some(r.error)
  }

  /** Roll back or finish, according to how the commit went. */
  method Conclude(s: Store, commit: Result<()>, action: Action, ghost was: View, ghost next: View)
    returns (r: Result<bool>)
    requires commit != Err(Dead) && s.alive
    requires Sound(s.sha, s.disk) && AtRest(s.disk) && s.disk.journal.now.Some? && Committed(s.disk) == was
    requires commit.Ok? ==>
               LiveSynced(s.disk) && View(ImageOf(s.disk.live.now), s.disk.pointer.now) == next && next.baseline.Some?
    requires commit.Ok? ==> Running(s, action)
    modifies s
    ensures RuntimeTold(s, action, ErrorOf(r))
    ensures s.alive <==> r != Err(Dead)
    ensures Ended(s.sha, s.disk, s.alive, was, next)
    ensures r.Err? ==> LateExplained(s.disk, r.error, was, next)
    ensures Grown(s.sha, old(s.disk), s.disk, map[])
    ensures r.Err? ==> r.error in {Dead, RolledBack, RollbackFailed, RollbackUnsynced, CommitFailed, CommitUnsynced}
    ensures r.Ok? ==> s.disk.journal.now.None? && Committed(s.disk) == next && commit.Ok?
    ensures r.Ok? ==> SnapImage(s.disk, next.baseline.value) == old(SnapImage(s.disk, next.baseline.value))
    ensures r == Ok(false) ==> Retained(old(s.disk), s.disk, 20)
  {
    hide Loads, Canonical, ImageOf, Firm, Managed, LiveSynced, Sound, Keeps, Retained, Grown;
    if commit.Err? {
      ghost var d0 := s.disk;
      var e := RollBack(s);
      GrownStill(s.sha, d0, s.disk);
      r := Err(e);
    } else {
      r := Finish(s, was, next);
    }
  }

  /** The snapshot that a result names survives the pruning, when clocks advance. */
  lemma NamedSurvives(d0: Disk, d1: Disk, d2: Disk, d3: Disk, a: nat, b: nat)
    requires OthersKept(d0, d1, a) && OthersKept(d1, d2, b) && Retained(d2, d3, 20)
    requires a != b && a !in d0.snaps.now && a in d1.snaps.now && b in d2.snaps.now && d2.pointer.now == Some(b)
    requires forall id | id in d0.snaps.now :: TimeOf(d0, id) < TimeOf(d1, a)
    ensures a in d3.snaps.now && d3.snaps.now[a] == d1.snaps.now[a]
  {
    assert Get(d2.snaps.now, a) == Get(d1.snaps.now, a);
    forall id | id in d2.snaps.now && id != a && id != b
      ensures TimeOf(d2, id) < TimeOf(d2, a)
    {
      assert Get(d2.snaps.now, id) == Get(d1.snaps.now, id) == Get(d0.snaps.now, id);
    }
    RecentSurvives(d2, d3, 20, a, b);
  }

  /** Commit, and conclude; from here on the journal is durable. */
  method Execute(s: Store, before: Image, after: Image, action: Action, at: int, ghost was: View, ghost next: View,
                 ghost d0: Disk, ghost a: nat)
    returns (r: Result<bool>)
    requires s.alive && Sound(s.sha, s.disk) && AtRest(s.disk) && s.disk.journal.now.Some? && Committed(s.disk) == was
    requires before == ImageOf(s.disk.live.now) && ValidKeys(after) && Readable(after) && CollisionFree(s.sha)
    requires next == View(Reached(before, after), Some(s.disk.nextId))
    requires OthersKept(d0, s.disk, a) && a != s.disk.nextId && a !in d0.snaps.now && a in s.disk.snaps.now
    modifies s
    ensures RuntimeTold(s, action, ErrorOf(r))
    ensures s.alive <==> r != Err(Dead)
    ensures Ended(s.sha, s.disk, s.alive, was, next)
    ensures r.Err? ==> LateExplained(s.disk, r.error, was, next)
    ensures Grown(s.sha, old(s.disk), s.disk, map[old(s.disk.nextId) := after])
    ensures r.Err? ==> r.error in {Dead, RolledBack, RollbackFailed, RollbackUnsynced, CommitFailed, CommitUnsynced}
    ensures r.Ok? ==> s.disk.journal.now.None? && Committed(s.disk) == next
    ensures r.Ok? ==> SnapImage(s.disk, next.baseline.value) == after
    ensures r == Ok(false) && (forall id | id in d0.snaps.now :: TimeOf(d0, id) < old(TimeOf(s.disk, a))) ==>
              a in s.disk.snaps.now && s.disk.snaps.now[a] == old(s.disk.snaps.now[a])
  {
    hide Loads, Canonical, ImageOf, Firm, Managed, LiveSynced, Sound, Keeps, Retained, Readable, ValidKeys, Moves,
      Play, OthersKept, Reached, TimeOf, Grown;
    ghost var d1 := s.disk;
    var commit := Commit(s, before, after, action, at);
    JournalHolds(s.disk, next);
    if commit == Err(Dead) {
      return Err(Dead);
    }
    ghost var d2 := s.disk;
    r := Conclude(s, commit, action, was, next);
    GrownOn(s.sha, d1, d2, s.disk, map[d1.nextId := after]);
    if r == Ok(false) && forall id | id in d0.snaps.now :: TimeOf(d0, id) < TimeOf(d1, a) {
      NamedSurvives(d0, d1, d2, s.disk, a, d1.nextId);
    }
  }

  /** The images of the snapshots that one call may take, under the names it draws. */
  function Born(d: Disk, before: Image, after: Image): map<nat, Image> {
    if before == after then map[d.nextId := after] else map[d.nextId := before, d.nextId + 1 := after]
  }

  /** Everything that holds when a transaction is over: `was` is the image after
      an edit by somebody else in between; only without one can the end be `next`. */
  ghost predicate TransactEnded(sha: string -> string, d: Disk, d': Disk, alive: bool, e: Option<Error>,
                                before: Image, after: Image, edit: Option<map<string, File>>, mid: Image) {
    var was, next := View(mid, d.pointer.now), View(Reached(before, after), Some(d.nextId + 1));
    && MidFrom(before, mid, edit) && (NoJournal(d') || mid == before)
    && Ended(sha, d', alive, was, if mid == before then next else was)
    && Grown(sha, d, d', map[d.nextId := before, d.nextId + 1 := after])
    && (e.Some? ==> Explained(d, d', e.value, before, edit, mid, was, next))
    && (e.None? ==> mid == before && Committed(d') == next)
  }

  /** The snapshot that a result names is there and holds the image from before. */
  ghost predicate BackedUp(d: Disk, before: Image, result: ApplyResult) {
    && result.snapshot.Some? && result.snapshot.value in d.snaps.now
    && SnapImage(d, result.snapshot.value) == before
  }

  ghost predicate Newer(d: Disk, at: int) {
    forall id | id in d.snaps.now :: TimeOf(d, id) < at
  }

  /** The transaction itself: journal, commit, and either roll back or finish. */
  method Transact(s: Store, expected: string, before: Image, after: Image, act: Action, reason: string,
                  at: int, at': int, edit: Option<map<string, File>>)
    returns (r: Result<ApplyResult>, ghost mid: Image)
    requires s.alive && Sound(s.sha, s.disk) && AtRest(s.disk) && s.disk.journal.now.None?
    requires CollisionFree(s.sha) && expected == RevisionOf(s.sha, before)
    requires before == ImageOf(s.disk.live.now) && Readable(before) && ValidKeys(after) && Readable(after)
    requires act == NeededAction(before, after)
    modifies s
    ensures s.alive <==> r != Err(Dead)
    ensures RuntimeTold(s, act, ErrorOf(r))
    ensures TransactEnded(s.sha, old(s.disk), s.disk, s.alive, ErrorOf(r), before, after, edit, mid)
    ensures r.Ok? ==> Applied(s.sha, s.disk, before, after, expected, r.value)
    ensures r.Ok? && !r.value.warning && Newer(old(s.disk), at) ==> BackedUp(s.disk, before, r.value)
    ensures r == Err(Conflict) ==> mid != before
    ensures r.Err? ==> r.error in {Dead, IO, Invalid, TooLarge, Conflict} || LateError(r.error)
  {
    hide Loads, Canonical, ImageOf, Firm, Managed, LiveSynced, Sound, Keeps, Retained, Readable, ValidKeys, Moves,
      Play, RevisionOf, CollisionFree, OthersKept, Reached, Torn, AtRest, TimeOf, Running, RuntimeTold, Explained,
      NeededAction, SnapImage, Grown, LateExplained, LiveAfter, NoJournal, TransactEnded;
    ghost var d0 := s.disk;
    NewId(s.sha, d0);
    var m: Result<Manifest>;
    m, mid := WriteJournal(s, expected, before, reason, at, edit);
    ghost var d1 := s.disk;
    if m.Err? {
      EarlyEnds(s, d0, m.error, act, before, after, edit, mid);
      return Err(m.error), mid;
    }
    ghost var was, next := View(before, d0.pointer.now), View(Reached(before, after), Some(d1.nextId));
    JournalImage(d1, m.value.id);
    var fin := Execute(s, before, after, act, at', was, next, d0, d0.nextId);
    LateEnds(s, d0, d1, ErrorOf(fin), before, after, edit);
    if fin.Err? {
      return Err(fin.error), mid;
    }
    var rev := Revise(s.sha, after);
    SameSlotImage(d1, s.disk, m.value.id);
    r := Ok(ApplyResult(act, Some(m.value.id), rev, fin.value));
  }

  lemma JournalImage(d: Disk, id: nat)
    requires d.journal.now.Some? && d.journal.now.value.snapshot == id
    ensures SnapImage(d, id) == Committed(d).image
  {
  }

  /** An end before the journal is durable. */
  lemma EarlyEnds(s: Store, d: Disk, e: Error, action: Action, before: Image, after: Image,
                  edit: Option<map<string, File>>, mid: Image)
    requires e in {Dead, IO, Invalid, TooLarge, Conflict} && (s.alive <==> e != Dead)
    requires MidFrom(before, mid, edit) && LiveAfter(d.live, s.disk.live, edit) && ImageOf(s.disk.live.now) == mid
    requires e == Invalid ==> s.disk.live == d.live
    requires NoJournal(s.disk) || mid == before
    requires Ended(s.sha, s.disk, s.alive, View(mid, d.pointer.now), View(mid, d.pointer.now))
    requires s.alive ==> Committed(s.disk) == View(mid, d.pointer.now)
    requires s.disk.pointer == d.pointer && Grown(s.sha, d, s.disk, map[d.nextId := before])
    ensures TransactEnded(s.sha, d, s.disk, s.alive, Some(e), before, after, edit, mid) &&
              RuntimeTold(s, action, Some(e))
  {
    hide ImageOf, Committed, Sound, AtRest, Grown, NoJournal, Torn, LiveAfter, Reached, Running;
    TornEither(s.disk, View(mid, d.pointer.now), View(Reached(before, after), Some(d.nextId + 1)));
    GrownMore(s.sha, d, s.disk, map[d.nextId := before], map[d.nextId := before, d.nextId + 1 := after]);
  }

  /** An end after it: d1 is the disk on which the journal had just become durable. */
  lemma LateEnds(s: Store, d: Disk, d1: Disk, e: Option<Error>, before: Image, after: Image,
                 edit: Option<map<string, File>>)
    requires Grown(s.sha, d, d1, map[d.nextId := before]) && d1.nextId == d.nextId + 1
    requires Grown(s.sha, d1, s.disk, map[d1.nextId := after])
    requires var was, next := View(before, d.pointer.now), View(Reached(before, after), Some(d1.nextId));
             && Ended(s.sha, s.disk, s.alive, was, next)
             && (e.Some? ==> (e.value == Dead || LateError(e.value)) && LateExplained(s.disk, e.value, was, next))
             && (e.None? ==> Committed(s.disk) == next)
    ensures TransactEnded(s.sha, d, s.disk, s.alive, e, before, after, edit, before)
  {
    hide ImageOf, Committed, Sound, AtRest, Grown, NoJournal, Torn, LiveAfter, Reached, LateExplained;
    GrownTrans(s.sha, d, d1, s.disk, map[d.nextId := before], map[d1.nextId := after]);
    assert map[d.nextId := before] + map[d1.nextId := after] == map[d.nextId := before, d.nextId + 1 := after];
  }

  lemma SameSlotImage(d: Disk, d': Disk, id: nat)
    ensures id in d.snaps.now && id in d'.snaps.now && d'.snaps.now[id] == d.snaps.now[id] ==>
              SnapImage(d', id) == SnapImage(d, id)
  {
  }

  lemma NewId(sha: string -> string, d: Disk)
    requires Sound(sha, d)
    ensures d.nextId !in d.snaps.now
  {
  }

  lemma TornEither(d: Disk, was: View, next: View)
    requires Torn(d, was, was)
    ensures Torn(d, was, next)
  {
  }

  /** A durable image without a journal, and a pointer that may have moved. */
  lemma RecordedEnds(s: Store, d: Disk, im: Image)
    requires Recorded(s.sha, d, s.disk, im) && AtRest(d) && d.journal.now.None?
    requires s.alive ==> s.disk.pointer.may == {}
    ensures var v := View(ImageOf(d.live.now), d.pointer.now);
            Ended(s.sha, s.disk, s.alive, v, v.(baseline := Some(d.nextId)))
  {
    hide Loads, Canonical, ImageOf, Managed, Firm, Keeps, Readable;
  }

  lemma PrunedEnds(s: Store, d: Disk, was: View, next: View)
    requires Sound(s.sha, d) && AtRest(d) && d.journal.now.None? && Pruned(d, s.disk) && Torn(d, was, next)
    ensures Ended(s.sha, s.disk, s.alive, was, next)
    ensures Committed(s.disk) == Committed(d)
    ensures d.pointer.now.Some? ==> SnapImage(s.disk, d.pointer.now.value) == SnapImage(d, d.pointer.now.value)
  {
    hide Loads, Canonical, ImageOf, Managed;
    PrunedSound(s.sha, d, s.disk);
  }

  /** Record im as the baseline, then prune: "Reload from disk", and an Apply that changes nothing. */
  method RecordAndPrune(s: Store, im: Image, reason: string, at: int) returns (r: Result<Manifest>)
    requires s.alive && Sound(s.sha, s.disk) && AtRest(s.disk) && s.disk.journal.now.None?
    requires im == ImageOf(s.disk.live.now) && Readable(im)
    modifies s`alive, s`disk
    ensures s.alive <==> r != Err(Dead)
    ensures Ended(s.sha, s.disk, s.alive, View(im, old(s.disk.pointer.now)), View(im, Some(old(s.disk.nextId))))
    ensures s.disk.live == old(s.disk.live) && s.disk.journal == old(s.disk.journal)
    ensures r.Ok? ==> s.disk.pointer.now == Some(old(s.disk.nextId)) && SnapImage(s.disk, old(s.disk.nextId)) == im
    ensures r.Ok? ==> r.value.id == old(s.disk.nextId)
    ensures r.Err? ==> r.error in {Dead, IO, Broken, TooLarge, Invalid}
    ensures Grown(s.sha, old(s.disk), s.disk, map[old(s.disk.nextId) := im])
    ensures !old(AllLoad(s)) ==> r.Err?
    ensures r == Err(Broken) || r == Err(TooLarge) ==> s.disk.pointer.now == Some(old(s.disk.nextId))
  {
    hide Loads, Canonical, ImageOf, Firm, Managed, Sound, Keeps, Retained, Readable, Torn, AtRest, Metas, AllLaid,
      Agree, Grown, AllLoads;
    LiveCanonical(s.disk.live.now);
    ghost var d0 := s.disk;
    AtRestCalm(d0);
    CanonicalAgree(im);
    r := RecordBaseline(s, im, reason, at);
    RecordedEnds(s, d0, im);
    if r.Err? {
      return;
    }
    ghost var d1 := s.disk;
    BrokenKept(s.sha, d0, d1);
    var p := Prune(s, 20);
    GrownOn(s.sha, d0, d1, s.disk, map[d0.nextId := im]);
    PrunedEnds(s, d1, View(im, d0.pointer.now), View(im, Some(d0.nextId)));
    if p.Err? {
      r := Err(p.error);
    }
  }

  /** A broken directory is still there after a snapshot was taken. */
  lemma BrokenKept(sha: string -> string, d: Disk, d': Disk)
    requires Sound(sha, d) && OthersKept(d, d', d.nextId)
    ensures !AllLoads(sha, d) ==> !AllLoads(sha, d')
  {
    hide Loads;
    if id :| id in d.snaps.now && !Loads(sha, d.snaps.now[id], id) {
      assert Get(d'.snaps.now, id) == Get(d.snaps.now, id);
    }
  }

  lemma AtRestCalm(d: Disk)
    requires AtRest(d)
    ensures Calm(d) && (d.journal.now.None? ==>
              Torn(d, View(ImageOf(d.live.now), d.pointer.now), View(ImageOf(d.live.now), d.pointer.now)))
  {
  }

  /** Whether the managed baseline has another revision than the image, or there is none. */
  method BaselineDiffers(s: Store, im: Image) returns (r: Result<bool>)
    requires s.alive && CollisionFree(s.sha) && Canonical(im) && Sound(s.sha, s.disk)
    modifies s`alive
    ensures s.alive <==> r != Err(Dead)
    ensures r == Ok(false) ==> s.disk.pointer.now.Some? && SnapImage(s.disk, s.disk.pointer.now.value) == im
    ensures r.Err? ==> r.error in {Dead, IO}
    ensures r == Ok(true) ==> s.disk.pointer.now.Some? ==> SnapImage(s.disk, s.disk.pointer.now.value) != im
  {
    hide Loads, Canonical, CollisionFree, RevisionOf, ValidKeys;
    var pin := BaselineId(s);
    if pin.Err? {
      return Err(pin.error);
    }
    if pin.value.None? {
      return Ok(true);
    }
    FirmLoads(s, pin.value.value);
    var load := LoadSnapshot(s, pin.value.value);
    if load.Err? {
      return Err(load.error);
    }
    LoadedKeys(s.sha, s.disk, pin.value.value);
    var a := Revise(s.sha, load.value.1);
    var b := Revise(s.sha, im);
    if a == b {
      SameRevision(s.sha, load.value.1, im);
    }
    return Ok(a != b);
  }

  /** An Apply that changes no file only makes sure that the baseline is this image. */
  method NoChange(s: Store, im: Image, at: int) returns (r: Result<()>)
    requires s.alive && Sound(s.sha, s.disk) && AtRest(s.disk) && s.disk.journal.now.None?
    requires CollisionFree(s.sha) && im == ImageOf(s.disk.live.now) && Readable(im)
    modifies s`alive, s`disk
    ensures s.alive <==> r != Err(Dead)
    ensures Ended(s.sha, s.disk, s.alive, View(im, old(s.disk.pointer.now)), View(im, Some(old(s.disk.nextId))))
    ensures s.disk.live == old(s.disk.live) && s.disk.journal == old(s.disk.journal)
    ensures r.Ok? ==> s.disk.pointer.now.Some? && SnapImage(s.disk, s.disk.pointer.now.value) == im
    ensures old(s.disk.pointer.now.Some? && SnapImage(s.disk, s.disk.pointer.now.value) == im) ==> s.disk == old(s.disk)
    ensures r.Err? ==> r.error in {Dead, IO, Broken, TooLarge, Invalid}
    ensures Grown(s.sha, old(s.disk), s.disk, map[old(s.disk.nextId) := im])
    ensures !old(AllLoad(s)) && s.disk.pointer.now != old(s.disk.pointer.now) ==> r.Err?
    ensures r == Err(Broken) ==> s.disk.pointer.now == Some(old(s.disk.nextId))
  {
    hide Loads, Canonical, ImageOf, Firm, Managed, Sound, Keeps, Readable, CollisionFree, Torn, AtRest, Grown,
      AllLoads;
    GrownStill(s.sha, s.disk, s.disk);
    GrownMore(s.sha, s.disk, s.disk, map[], map[s.disk.nextId := im]);
    AtRestCalm(s.disk);
    TornEither(s.disk, View(im, s.disk.pointer.now), View(im, Some(s.disk.nextId)));
    LiveCanonical(s.disk.live.now);
    var differs := BaselineDiffers(s, im);
    if differs.Err? {
      return Err(differs.error);
    }
    if differs.value {
      var m := RecordAndPrune(s, im, "Managed configuration", at);
      r := if m.Ok? then Ok(()) else Err(m.error);
    } else {
      r := Ok(());
    }
  }

  /** The fresh baseline number an apply will use. */
  function NextBaseline(d: Disk, before: Image, after: Image): nat {
    if before == after then d.nextId else d.nextId + 1
  }

  /** Everything that holds when `apply` is over, however it ended. */
  ghost predicate ApplyEnded(sha: string -> string, d: Disk, d': Disk, alive: bool, r: Result<ApplyResult>,
                             expected: string, before: Image, after: Image,
                             edit: Option<map<string, File>>, mid: Image) {
    if d.journal.now.Some? then d' == d && r.Err?
    else
      && (r.Ok? ==> Applied(sha, d', before, after, expected, r.value))
      && if before == after then mid == before && SameEnded(sha, d, d', alive, ErrorOf(r), before)
         else TransactEnded(sha, d, d', alive, ErrorOf(r), before, after, edit, mid)
  }

  /** The end of an `apply` that changes no file: only the baseline may move, to this image. */
  ghost predicate SameEnded(sha: string -> string, d: Disk, d': Disk, alive: bool, e: Option<Error>, im: Image) {
    && d'.live == d.live && d'.journal == d.journal
    && (e.Some? && e.value !in {Dead, IO, Broken, TooLarge, Invalid} ==> d' == d)
    && Ended(sha, d', alive, View(im, d.pointer.now), View(im, Some(d.nextId)))
    && Grown(sha, d, d', map[d.nextId := im])
  }

  /** What a call of `apply` is refused for before it writes anything. */
  ghost predicate Refused(s: Store, d: Disk, expected: string, before: Image, after: Image, controller: bool,
                          cancelled: bool) {
    || d.journal.now.Some? || expected == "" || expected != RevisionOf(s.sha, before) || !ValidImage(s.accepts, after)
    || (before != after && (!controller || cancelled))
  }

  lemma RefusedEnds(s: Store, d: Disk, before: Image, after: Image, expected: string, edit: Option<map<string, File>>,
                    e: Error)
    requires Sound(s.sha, d) && AtRest(d) && before == ImageOf(d.live.now) && s.disk == d
    requires e in {Dead, IO, Conflict, RecoveryRequired, Invalid, NoController, Cancelled, TooLarge, Broken}
    ensures ApplyEnded(s.sha, d, s.disk, s.alive, Err(e), expected, before, after, edit, before)
    ensures RuntimeTold(s, NeededAction(before, after), Some(e))
  {
    hide Loads, Canonical, ImageOf, Managed, Moves, Play, Grown, Reached, Running;
    GrownStill(s.sha, d, d);
    GrownMore(s.sha, d, d, map[], map[d.nextId := before, d.nextId + 1 := after]);
    GrownMore(s.sha, d, d, map[], map[d.nextId := before]);
    AtRestTorn(d);
  }

  lemma UnchangedReached(im: Image)
    requires Canonical(im)
    ensures Reached(im, im) == im
  {
    PlayedOut(im, im);
  }

  /** `apply`. */
  method ApplyImage(s: Store, expected: string, before: Image, after: Image, reason: string,
                    controller: bool, cancelled: bool, at: int, at': int, edit: Option<map<string, File>>)
    returns (r: Result<ApplyResult>, ghost mid: Image)
    requires s.alive && Sound(s.sha, s.disk) && AtRest(s.disk) && CollisionFree(s.sha)
    requires before == ImageOf(s.disk.live.now) && Readable(before)
    modifies s
    ensures s.alive <==> r != Err(Dead)
    ensures ApplyEnded(s.sha, old(s.disk), s.disk, s.alive, r, expected, before, after, edit, mid)
    ensures Refused(s, old(s.disk), expected, before, after, controller, cancelled) ==> r.Err? && s.disk == old(s.disk)
    ensures r.Err? && r.error in {RecoveryRequired, NoController, Cancelled} ==> s.disk == old(s.disk)
    ensures r.Ok? && r.value.action == NoAction ==> s.ran == old(s.ran)
    ensures !(r.Ok? && r.value.action == NoAction) ==> RuntimeTold(s, NeededAction(before, after), ErrorOf(r))
    ensures r.Ok? && before != after && !r.value.warning && Newer(old(s.disk), at) ==> BackedUp(s.disk, before, r.value)
    ensures r == Err(Conflict) ==> expected == "" || expected != RevisionOf(s.sha, before) || mid != before
    ensures before == after && !old(AllLoad(s)) && s.disk.pointer.now != old(s.disk.pointer.now) ==> r.Err?
    ensures r == Err(Broken) ==> before == after && s.disk.pointer.now == Some(old(s.disk.nextId))
  {
    hide Loads, Canonical, ImageOf, Firm, Managed, Sound, Keeps, Readable, CollisionFree, Torn, AtRest, RevisionOf,
      ValidKeys, Reached, TimeOf, Grown, Explained, TransactEnded, NoJournal, Running, AllLoads;
    ghost var d0 := s.disk;
    mid := before;
    var act := ChangeAction(before, after);
    var rev := Revise(s.sha, before);
    if expected == "" || expected != rev {
      RefusedEnds(s, d0, before, after, expected, edit, Conflict);
      return Err(Conflict), mid;
    }
    var pend := PendingExists(s);
    if pend.Err? || pend.value {
      var e := if pend.Err? then pend.error else RecoveryRequired;
      RefusedEnds(s, d0, before, after, expected, edit, e);
      return Err(e), mid;
    }
    var ok := ValidateImage(s.accepts, after);
    if !ok {
      RefusedEnds(s, d0, before, after, expected, edit, Invalid);
      return Err(Invalid), mid;
    }
    if act == NoAction {
      LiveCanonical(s.disk.live.now);
      UnchangedReached(before);
      var same := NoChange(s, after, at);
      r := if same.Ok? then Ok(ApplyResult(act, None, rev, false)) else Err(same.error);
      return;
    }
    if !controller || cancelled {
      var e := if !controller then NoController else Cancelled;
      RefusedEnds(s, d0, before, after, expected, edit, e);
      return Err(e), mid;
    }
    r, mid := Transact(s, expected, before, after, act, reason, at, at', edit);
  }

  // ----- the public operations -----

  /** `Apply`: the change set laid over the image on disk. */
  method Apply(s: Store, expected: string, changes: map<string, Option<string>>, controller: bool, cancelled: bool,
               at: int, at': int, edit: Option<map<string, File>>)
    returns (r: Result<ApplyResult>, ghost before: Image, ghost after: Image, ghost mid: Image)
    requires s.alive && Sound(s.sha, s.disk) && AtRest(s.disk) && CollisionFree(s.sha)
    modifies s
    ensures s.alive <==> r != Err(Dead)
    ensures before == ImageOf(old(s.disk.live.now))
    ensures ApplyEnded(s.sha, old(s.disk), s.disk, s.alive, r, expected, before, after, edit, mid)
    ensures s.disk != old(s.disk) || r.Ok? ==> IsOverlay(before, changes, after)
    ensures s.disk != old(s.disk) || r.Ok? ==> !Refused(s, old(s.disk), expected, before, after, controller, cancelled)
    ensures !Readable(before) || !(forall p | p in changes :: ValidPath(p)) ==> r.Err? && s.disk == old(s.disk)
    ensures r.Err? && r.error in {RecoveryRequired, NoController, Cancelled} ==> s.disk == old(s.disk)
    ensures r.Ok? && r.value.action == NoAction ==> s.ran == old(s.ran)
    ensures !(r.Ok? && r.value.action == NoAction) ==> RuntimeTold(s, NeededAction(before, after), ErrorOf(r))
    ensures r.Ok? && before != after && !r.value.warning && Newer(old(s.disk), at) ==> BackedUp(s.disk, before, r.value)
    ensures before == after && !old(AllLoad(s)) && s.disk.pointer.now != old(s.disk.pointer.now) ==> r.Err?
    ensures r == Err(Broken) ==> before == after && s.disk.pointer.now == Some(old(s.disk.nextId))
    ensures r == Err(Conflict) ==> expected == "" || expected != RevisionOf(s.sha, before) || mid != before
  {
    hide Loads, Canonical, ImageOf, Firm, Managed, Sound, Readable, CollisionFree, AtRest, RevisionOf, ApplyEnded,
      IsOverlay, ValidPath, Running, TimeOf, AllLoads, Refused;
    before := ImageOf(s.disk.live.now);
    after, mid := before, before;
    ghost var d0 := s.disk;
    var read := Read(s);
    if read.Err? {
      RefusedEnds(s, d0, before, after, expected, edit, read.error);
      r := Err(read.error);
      return;
    }
    var laid := Overlay(read.value, changes);
    if laid.Err? {
      RefusedEnds(s, d0, before, after, expected, edit, Invalid);
      r := Err(Invalid);
      return;
    }
    after := laid.value;
    r, mid := ApplyImage(s, expected, read.value, laid.value, "Save & Apply", controller, cancelled, at, at', edit);
  }

  /** `Restore`: the whole image of a snapshot. */
  method Restore(s: Store, id: nat, expected: string, controller: bool, cancelled: bool, at: int, at': int,
                 edit: Option<map<string, File>>)
    returns (r: Result<ApplyResult>, ghost before: Image, ghost after: Image, ghost mid: Image)
    requires s.alive && Sound(s.sha, s.disk) && AtRest(s.disk) && CollisionFree(s.sha)
    modifies s
    ensures s.alive <==> r != Err(Dead)
    ensures before == ImageOf(old(s.disk.live.now))
    ensures ApplyEnded(s.sha, old(s.disk), s.disk, s.alive, r, expected, before, after, edit, mid)
    ensures s.disk != old(s.disk) || r.Ok? ==> old(Loadable(s, id)) && after == old(SnapImage(s.disk, id))
    ensures s.disk != old(s.disk) || r.Ok? ==> !Refused(s, old(s.disk), expected, before, after, controller, cancelled)
    ensures !Readable(before) || !old(Loadable(s, id)) ==> r.Err? && s.disk == old(s.disk)
    ensures r.Err? && r.error in {RecoveryRequired, NoController, Cancelled} ==> s.disk == old(s.disk)
    ensures r.Ok? && r.value.action == NoAction ==> s.ran == old(s.ran)
    ensures !(r.Ok? && r.value.action == NoAction) ==> RuntimeTold(s, NeededAction(before, after), ErrorOf(r))
    ensures r.Ok? && before != after && !r.value.warning && Newer(old(s.disk), at) ==> BackedUp(s.disk, before, r.value)
    ensures r == Err(Conflict) ==> expected == "" || expected != RevisionOf(s.sha, before) || mid != before
  {
    hide Loads, Canonical, ImageOf, Firm, Managed, Sound, Readable, CollisionFree, AtRest, RevisionOf, ApplyEnded,
      SnapImage, Running, TimeOf, AllLoads, Refused;
    before := ImageOf(s.disk.live.now);
    after, mid := before, before;
    ghost var d0 := s.disk;
    var load := LoadSnapshot(s, id);
    if load.Err? {
      RefusedEnds(s, d0, before, after, expected, edit, load.error);
      r := Err(load.error);
      return;
    }
    var read := Read(s);
    if read.Err? {
      RefusedEnds(s, d0, before, after, expected, edit, read.error);
      r := Err(read.error);
      return;
    }
    after := load.value.1;
    r, mid := ApplyImage(s, expected, read.value, load.value.1, "Restore", controller, cancelled, at, at', edit);
  }

  /** An operation that leaves live image, journal and baseline alone. */
  ghost predicate Aside(sha: string -> string, d: Disk, d': Disk, alive: bool) {
    && Grown(sha, d, d', map[d.nextId := ImageOf(d.live.now)])
    && Ended(sha, d', alive, Committed(d), Committed(d))
    && d'.live == d.live && d'.journal == d.journal && d'.pointer == d.pointer
    && (d.pointer.now.Some? ==> SnapImage(d', d.pointer.now.value) == SnapImage(d, d.pointer.now.value))
  }

  lemma SnappedAside(s: Store, d: Disk)
    requires Sound(s.sha, d) && AtRest(d) && Snapped(d, s.disk) && d.journal.now.None?
    requires Grown(s.sha, d, s.disk, map[d.nextId := ImageOf(d.live.now)])
    ensures Aside(s.sha, d, s.disk, s.alive) && AtRest(s.disk)
  {
    hide Loads, Canonical, ImageOf, Managed, Grown;
    SnappedSound(s.sha, d, s.disk);
  }

  lemma PrunedAside(s: Store, d: Disk, d1: Disk)
    requires Aside(s.sha, d, d1, true) && d.journal.now.None? && Pruned(d1, s.disk) && Grown(s.sha, d1, s.disk, map[])
    ensures Aside(s.sha, d, s.disk, s.alive)
  {
    hide Loads, Canonical, ImageOf, Managed, Grown;
    GrownOn(s.sha, d, d1, s.disk, map[d.nextId := ImageOf(d.live.now)]);
    PrunedSound(s.sha, d1, s.disk);
  }

  lemma SameAside(s: Store, d: Disk)
    requires Sound(s.sha, d) && AtRest(d) && s.disk == d
    ensures Aside(s.sha, d, s.disk, s.alive)
  {
    hide Grown, ImageOf;
    AtRestTorn(d);
    StillGrown(s.sha, d);
  }

  lemma BackupKept(sha: string -> string, d0: Disk, d1: Disk, d2: Disk, m: Manifest, im: Image)
    requires Sound(sha, d0) && Snapped(d0, d1) && Stored(sha, d1, m, im) && m.id == d0.nextId
    requires Canonical(im) && Readable(im) && Retained(d1, d2, 20)
    requires forall id | id in d0.snaps.now :: TimeOf(d0, id) < m.createdAt
    ensures m.id in d2.snaps.now && Loads(sha, d2.snaps.now[m.id], m.id) && SnapImage(d2, m.id) == im
  {
    hide Canonical, Readable, Loads, AllLaid, Metas, Agree;
    CanonicalAgree(im);
    StoredLoads(sha, d1, m, im);
    NewId(sha, d0);
    forall id | id in d1.snaps.now && id != m.id
      ensures TimeOf(d1, id) < TimeOf(d1, m.id)
    {
      assert SlotKept(d0, d1, id);
    }
    if d1.pointer.now.Some? {
      assert SlotKept(d0, d1, d1.pointer.now.value);
    }
    NewestSurvives(d1, d2, 20, m.id);
  }

  /** `Snapshot`: an ordinary backup. */
  method Snapshot(s: Store, reason: string, at: int) returns (r: Result<Manifest>)
    requires s.alive && Sound(s.sha, s.disk) && AtRest(s.disk)
    modifies s`alive, s`disk
    ensures s.alive <==> r != Err(Dead)
    ensures Aside(s.sha, old(s.disk), s.disk, s.alive)
    ensures old(s.disk.journal.now).Some? ==> r.Err? && s.disk == old(s.disk)
    ensures !old(AllLoad(s)) ==> r.Err?
    ensures r.Ok? ==> Count(s.disk) <= 20
    ensures r.Ok? && (forall id | id in old(s.disk.snaps.now) :: TimeOf(old(s.disk), id) < at) ==>
              Loadable(s, r.value.id) && SnapImage(s.disk, r.value.id) == ImageOf(old(s.disk.live.now))
  {
    hide Loads, Canonical, ImageOf, Firm, Managed, Readable, Metas, AllLaid, Agree, Torn, LiveSynced, Grown, AllLoads;
    ghost var d0 := s.disk;
    SameAside(s, d0);
    var read := Read(s);
    if read.Err? {
      return Err(read.error);
    }
    var pend := PendingExists(s);
    if pend.Err? || pend.value {
      return Err(if pend.Err? then pend.error else RecoveryRequired);
    }
    r := TakeSnapshot(s, read.value, reason, at);
    SnappedAside(s, d0);
    if r.Err? {
      return;
    }
    ghost var d1 := s.disk;
    SnappedOthers(d0, d1);
    BrokenKept(s.sha, d0, d1);
    LiveCanonical(s.disk.live.now);
    var p := Prune(s, 20);
    PrunedAside(s, d0, d1);
    if p.Err? {
      r := Err(p.error);
    } else if forall id | id in d0.snaps.now :: TimeOf(d0, id) < at {
      BackupKept(s.sha, d0, d1, s.disk, r.value, read.value);
    }
  }

  /** `DeleteSnapshot`, never the managed baseline, and never while a journal waits. */
  method Delete(s: Store, id: nat) returns (r: Result<()>)
    requires s.alive && Sound(s.sha, s.disk) && AtRest(s.disk)
    modifies s`alive, s`disk
    ensures s.alive <==> r != Err(Dead)
    ensures Aside(s.sha, old(s.disk), s.disk, s.alive)
    ensures r.Ok? ==> id in old(s.disk.snaps.now) && id !in s.disk.snaps.now
    ensures OthersKept(old(s.disk), s.disk, id)
    ensures old(s.disk.journal.now).Some? || old(s.disk.pointer.now) == Some(id) || !old(Loadable(s, id)) ==>
              r.Err? && s.disk == old(s.disk)
  {
    hide Loads, Canonical, ImageOf, Firm, Managed, Torn, LiveSynced, Grown;
    ghost var d0 := s.disk;
    SameAside(s, d0);
    AtRestCalm(d0);
    r := DeleteSnapshot(s, id);
    if d0.journal.now.None? {
      PrunedAside(s, d0, d0);
    }
  }

  lemma StillGrown(sha: string -> string, d: Disk)
    ensures Grown(sha, d, d, map[d.nextId := ImageOf(d.live.now)])
  {
    hide Grown, ImageOf;
    GrownStill(sha, d, d);
    GrownMore(sha, d, d, map[], map[d.nextId := ImageOf(d.live.now)]);
  }

  /** `Baseline`: the pinned version; the first call ever pins the image on disk. */
  method Baseline(s: Store, at: int) returns (r: Result<(Manifest, Image)>)
    requires s.alive && Sound(s.sha, s.disk) && AtRest(s.disk)
    modifies s`alive, s`disk
    ensures s.alive <==> r != Err(Dead)
    ensures var d := old(s.disk);
            && Ended(s.sha, s.disk, s.alive, Committed(d), Committed(d).(baseline := Some(d.nextId)))
            && s.disk.live == d.live && s.disk.journal == d.journal
            && (d.journal.now.Some? || d.pointer.now.Some? ==> s.disk == d)
            && (d.journal.now.Some? ==> r.Err?)
            && Grown(s.sha, d, s.disk, map[d.nextId := ImageOf(d.live.now)])
    ensures r.Ok? ==>
              s.disk.journal.now.None? && s.disk.pointer.now == Some(r.value.0.id) &&
              SnapImage(s.disk, r.value.0.id) == r.value.1
    ensures r.Ok? && old(s.disk.pointer.now).None? ==> r.value.1 == ImageOf(s.disk.live.now)
  {
    hide Loads, Canonical, ImageOf, Firm, Managed, Readable, Metas, AllLaid, Agree, Torn, Sound, Keeps, AtRest, Grown;
    ghost var d0 := s.disk;
    StillGrown(s.sha, d0);
    AtRestTorn(d0);
    AtRestCalm(d0);
    TornEither(d0, Committed(d0), Committed(d0).(baseline := Some(d0.nextId)));
    var pend := PendingExists(s);
    if pend.Err? || pend.value {
      return Err(if pend.Err? then pend.error else RecoveryRequired);
    }
    var pin := BaselineId(s);
    if pin.Err? {
      return Err(pin.error);
    }
    if pin.value.Some? {
      r := LoadSnapshot(s, pin.value.value);
      return;
    }
    var read := Read(s);
    if read.Err? {
      return Err(read.error);
    }
    LiveCanonical(s.disk.live.now);
    CanonicalAgree(read.value);
    var m := RecordBaseline(s, read.value, "Initial takeover", at);
    RecordedEnds(s, d0, read.value);
    r := if m.Ok? then Ok((m.value, read.value)) else Err(m.error);
  }

  /** `AcceptDisk`: the explicit "Reload from disk". */
  method AcceptDisk(s: Store, expected: string, at: int) returns (r: Result<Manifest>)
    requires s.alive && Sound(s.sha, s.disk) && AtRest(s.disk) && CollisionFree(s.sha)
    modifies s`alive, s`disk
    ensures s.alive <==> r != Err(Dead)
    ensures var d := old(s.disk);
            && Ended(s.sha, s.disk, s.alive, Committed(d), Committed(d).(baseline := Some(d.nextId)))
            && s.disk.live == d.live && s.disk.journal == d.journal
            && Grown(s.sha, d, s.disk, map[d.nextId := ImageOf(d.live.now)])
            && (d.journal.now.Some? || expected == "" || expected != RevisionOf(s.sha, ImageOf(d.live.now)) ==>
                  r.Err? && s.disk == d)
    ensures !old(AllLoad(s)) ==> r.Err?
    ensures r == Err(Broken) ==> s.disk.pointer.now == Some(old(s.disk.nextId))
    ensures r.Ok? ==> expected == RevisionOf(s.sha, ImageOf(s.disk.live.now))
    ensures r.Ok? ==>
              s.disk.pointer.now == Some(old(s.disk.nextId)) &&
              SnapImage(s.disk, old(s.disk.nextId)) == ImageOf(s.disk.live.now)
    ensures r == Err(Conflict) ==> s.disk == old(s.disk)
  {
    hide Loads, Canonical, ImageOf, Firm, Managed, Readable, Metas, AllLaid, Agree, Torn, Sound, Keeps, AtRest,
      RevisionOf, CollisionFree, Grown, AllLoads;
    ghost var d0 := s.disk;
    StillGrown(s.sha, d0);
    AtRestTorn(d0);
    TornEither(d0, Committed(d0), Committed(d0).(baseline := Some(d0.nextId)));
    var pend := PendingExists(s);
    if pend.Err? || pend.value {
      return Err(if pend.Err? then pend.error else RecoveryRequired);
    }
    var read := Read(s);
    if read.Err? {
      return Err(read.error);
    }
    var rev := Revise(s.sha, read.value);
    if expected == "" || expected != rev {
      return Err(Conflict);
    }
    r := RecordAndPrune(s, read.value, "Reload from disk", at);
  }
}
