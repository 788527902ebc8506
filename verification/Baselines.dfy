/** baseline.json and pending.json: the pinned version and the journal. */
module Baselines {
  import opened Basics
  import opened Images
  import opened Revision
  import opened Disks
  import opened Ages
  import opened Primitives
  import opened Snapshots
  import opened Retention

  // ----- setBaseline, recordBaseline -----

  /** Only the pointer moves, from where it was to b; syncing settles other names. */
  ghost predicate PointerMoved(d: Disk, d': Disk, b: Option<nat>) {
    && d' == d.(pointer := d'.pointer, snaps := Dir(d.snaps.now, d'.snaps.may))
    && (d'.snaps.may == d.snaps.may || d'.snaps.may == map[])
    && (d'.pointer.now == d.pointer.now || d'.pointer.now == b)
    && d'.pointer.may <= {d.pointer.now}
  }

  lemma PointerMovedSound(sha: string -> string, d: Disk, d': Disk, b: Option<nat>)
    requires Sound(sha, d) && PointerMoved(d, d', b) && (b.Some? ==> Firm(sha, d, b.value))
    ensures Sound(sha, d') && Keeps(sha, d, d')
  {
    hide Loads, Canonical;
  }

  method SetBaseline(s: Store, b: Option<nat>) returns (r: Result<()>)
    requires s.alive && Calm(s.disk) && Sound(s.sha, s.disk)
    requires b.Some? && Loadable(s, b.value) ==> Firm(s.sha, s.disk, b.value)
    modifies s`alive, s`disk
    ensures s.alive <==> r != Err(Dead)
    ensures PointerMoved(old(s.disk), s.disk, b)
    ensures Sound(s.sha, s.disk) && Keeps(s.sha, old(s.disk), s.disk)
    ensures s.alive ==> s.disk.pointer.may == {}
    ensures s.disk.pointer.now != old(s.disk.pointer.now) && b.Some? ==> Firm(s.sha, s.disk, b.value)
    ensures r.Ok? ==> s.disk.pointer == Slot(b, {}) && (b.Some? ==> Firm(s.sha, s.disk, b.value))
    ensures r.Err? && r.error in {Broken, TooLarge, Invalid} ==> b.Some? && !old(Loadable(s, b.value))
    ensures r.Err? ==> r.error in {Dead, IO, Broken, TooLarge, Invalid}
  {
    hide Loads, Sound;
    ghost var d0 := s.disk;
    if b.Some? {
      var load := LoadSnapshot(s, b.value);
      if load.Err? {
        KeepsRefl(s.sha, d0);
        return Err(load.error);
      }
    }
    KeepsRefl(s.sha, d0);
    PointerMovedSound(s.sha, d0, d0.(pointer := PutSlot(d0.pointer, b, s.power)), b);
    var e := s.PutPointer(b);
    if e != Done {
      return Err(Why(e));
    }
    PointerMovedSound(s.sha, d0, Store.Synced(s.disk), b);
    e := s.SyncBackups();
    r := if e == Done then Ok(()) else Err(Why(e));
  }

  lemma KeepsRefl(sha: string -> string, d: Disk)
    ensures Keeps(sha, d, d)
  {
  }

  lemma KeepsTrans(sha: string -> string, a: Disk, b: Disk, c: Disk)
    requires Keeps(sha, a, b) && Keeps(sha, b, c)
    ensures Keeps(sha, a, c)
  {
    hide Firm;
  }

  /** A new snapshot of im, and perhaps the pointer moved to it. */
  ghost predicate Recorded(sha: string -> string, d: Disk, d': Disk, im: Image) {
    && Sound(sha, d') && Keeps(sha, d, d')
    && d'.live == d.live && d'.journal == d.journal && d'.nextId == d.nextId + 1 && OthersKept(d, d', d.nextId)
    && (d'.pointer.now == d.pointer.now || d'.pointer.now == Some(d.nextId))
    && d'.pointer.may <= {d.pointer.now}
    && (d'.pointer.now == Some(d.nextId) ==>
          Firm(sha, d', d.nextId) &&
            (Readable(im) && (Agree(im) || CollisionFree(sha)) ==> SnapImage(d', d.nextId) == im))
  }

  method RecordBaseline(s: Store, im: Image, reason: string, at: int) returns (r: Result<Manifest>)
    requires s.alive && Calm(s.disk) && Sound(s.sha, s.disk)
    modifies s`alive, s`disk
    ensures s.alive <==> r != Err(Dead)
    ensures Recorded(s.sha, old(s.disk), s.disk, im)
    ensures Grown(s.sha, old(s.disk), s.disk, map[old(s.disk.nextId) := im])
    ensures Agree(im) && Readable(im) && r.Err? ==> r.error in {Dead, IO, Invalid}
    ensures s.alive ==> s.disk.pointer.may == {}
    ensures r.Ok? ==> s.disk.pointer == Slot(Some(old(s.disk.nextId)), {})
    ensures r.Ok? ==> r.value.id == old(s.disk.nextId) && r.value.createdAt == at
    ensures r.Ok? ==> r.value.id in s.disk.snaps.now && s.disk.snaps.now[r.value.id].manifest == Some(r.value)
    ensures r.Err? ==> r.error in {Dead, IO, Broken, TooLarge, Invalid}
  {
    hide Loads, Sound, Agree, CollisionFree, Readable, Metas, Firm, Fragments, AllLaid, SlotKept, Recorded, Stored,
      Keeps, OthersKept, Grown;
    ghost var d0 := s.disk;
    r := TakeSnapshot(s, im, reason, at);
    SnappedSound(s.sha, d0, s.disk);
    SnappedOthers(d0, s.disk);
    if r.Err? {
      NotMoved(s.sha, d0, s.disk, im);
      return;
    }
    ghost var d1 := s.disk;
    StoredFirm(s, r.value, im);
    StoredManifest(s.sha, d1, r.value, im);
    FirmLoads(s, r.value.id);
    var moved := SetBaseline(s, Some(r.value.id));
    GrownStill(s.sha, d1, s.disk);
    GrownOn(s.sha, d0, d1, s.disk, map[d0.nextId := im]);
    KeepsTrans(s.sha, d0, d1, s.disk);
    Moved(s.sha, d0, d1, s.disk, im);
    if moved.Err? {
      r := Err(moved.error);
    }
  }

  lemma FirmLoads(s: Store, id: nat)
    ensures Firm(s.sha, s.disk, id) ==> Loadable(s, id)
  {
    hide Loads;
  }

  lemma NotMoved(sha: string -> string, d0: Disk, d1: Disk, im: Image)
    requires Sound(sha, d0) && Calm(d0) && Snapped(d0, d1) && Sound(sha, d1) && Keeps(sha, d0, d1) &&
               OthersKept(d0, d1, d0.nextId)
    ensures Recorded(sha, d0, d1, im)
  {
    hide Loads, SlotKept, Agree, CollisionFree, Readable, Keeps, OthersKept;
    OldPointer(sha, d0);
  }

  lemma Moved(sha: string -> string, d0: Disk, d1: Disk, d2: Disk, im: Image)
    requires Sound(sha, d0) && Calm(d0) && Snapped(d0, d1) && OthersKept(d0, d1, d0.nextId)
    requires PointerMoved(d1, d2, Some(d0.nextId)) && Sound(sha, d2) && Keeps(sha, d0, d2)
    requires d2.pointer.now != d1.pointer.now ==> Firm(sha, d2, d0.nextId)
    requires Readable(im) && (Agree(im) || (CollisionFree(sha) && Firm(sha, d1, d0.nextId))) ==>
               SnapImage(d1, d0.nextId) == im
    requires d0.nextId !in d1.snaps.may
    ensures Recorded(sha, d0, d2, im)
  {
    hide Loads, SlotKept, Agree, CollisionFree, Readable, Keeps, Firm, SnapImage;
    OldPointer(sha, d0);
    SameSnapImage(d1, d2, d0.nextId);
    if Firm(sha, d2, d0.nextId) {
      FirmSame(sha, d1, d2, d0.nextId);
    }
  }

  lemma FirmSame(sha: string -> string, d: Disk, d': Disk, id: nat)
    requires d'.snaps.now == d.snaps.now && id !in d.snaps.may && Firm(sha, d', id)
    ensures Firm(sha, d, id)
  {
  }

  lemma StoredManifest(sha: string -> string, d: Disk, m: Manifest, im: Image)
    requires Stored(sha, d, m, im)
    ensures m.id in d.snaps.now && d.snaps.now[m.id].manifest == Some(m) && m.id !in d.snaps.may
  {
  }

  lemma OldPointer(sha: string -> string, d: Disk)
    requires Sound(sha, d)
    ensures d.pointer.now != Some(d.nextId)
  {
  }

  lemma SameSnapImage(d: Disk, d': Disk, id: nat)
    requires d'.snaps.now == d.snaps.now
    ensures SnapImage(d', id) == SnapImage(d, id)
  {
  }

  lemma StoredFirm(s: Store, m: Manifest, im: Image)
    requires Stored(s.sha, s.disk, m, im)
    ensures Loadable(s, m.id) ==> Firm(s.sha, s.disk, m.id)
    ensures Agree(im) && Readable(im) ==> Firm(s.sha, s.disk, m.id)
    ensures Readable(im) && (Agree(im) || (CollisionFree(s.sha) && Firm(s.sha, s.disk, m.id))) ==>
              SnapImage(s.disk, m.id) == im
  {
    hide Agree, AllLaid;
    if Readable(im) {
      StoredLoads(s.sha, s.disk, m, im);
    }
  }

  // ----- the journal -----

  method PendingExists(s: Store) returns (r: Result<bool>)
    requires s.alive
    modifies s`alive
    ensures s.alive <==> r != Err(Dead)
    ensures r.Ok? ==> r.value == s.disk.journal.now.Some?
    ensures r.Err? ==> r.error in {Dead, IO}
  {
    var e := s.Try();
    r := if e == Done then Ok(s.disk.journal.now.Some?) else Err(Why(e));
  }

  /** The commit point: removing the journal makes `next` the truth, and until
      the removal is durable a crash finds `was` or `next`. */
  method ClearPending(s: Store, ghost was: View, ghost next: View) returns (r: Result<()>)
    requires s.alive && Calm(s.disk) && Sound(s.sha, s.disk) && LiveSynced(s.disk)
    requires s.disk.journal.now.Some? && Committed(s.disk) == was
    requires View(ImageOf(s.disk.live.now), s.disk.pointer.now) == next
    modifies s`alive, s`disk
    ensures s.alive <==> r != Err(Dead)
    ensures Sound(s.sha, s.disk) && Torn(s.disk, was, next) && Keeps(s.sha, old(s.disk), s.disk)
    ensures s.alive ==> AtRest(s.disk)
    ensures s.disk.live == old(s.disk.live) && s.disk.pointer == old(s.disk.pointer)
    ensures s.disk.nextId == old(s.disk.nextId) && SnapsStill(old(s.disk), s.disk)
    ensures r.Ok? ==> s.disk.journal == Slot(None, {})
    ensures r == Err(IO) ==> s.disk == old(s.disk)
    ensures r == Err(JournalSync) ==> s.disk.journal == Slot(None, {})
    ensures r.Err? ==> r.error in {Dead, IO, JournalSync}
  {
    hide Loads, Canonical, ImageOf;
    var e := s.RemoveJournal();
    if e != Done {
      return Err(Why(e));
    }
    e := s.SyncBackups();
    r := if e == Done then Ok(()) else if e == Killed then Err(Dead) else Err(JournalSync);
  }
}
