/** The two directories the helper writes, as values: what they hold now, and
    what a loss of power may bring back until the directory has been synced. */
module Disks {
  import opened Basics
  import opened Paths
  import opened Images
  import opened Revision

  // ----- names, and what may become of them -----

  /** `now` is what the running kernel answers. `may[k]` holds the other values
      that name k can have after a loss of power, because the directory has not
      been synced since. A name absent from `may` is durable. */
  datatype Dir<K, V(==)> = Dir(now: map<K, V>, may: map<K, set<Option<V>>>)

  /** The same for one fixed name. */
  datatype Slot<V(==)> = Slot(now: Option<V>, may: set<Option<V>>)

  ghost predicate MayBe<K, V>(d: Dir<K, V>, k: K, v: Option<V>) {
    v == Get(d.now, k) || (k in d.may && v in d.may[k])
  }

  ghost predicate SlotMayBe<V>(s: Slot<V>, v: Option<V>) {
    v == s.now || v in s.may
  }

  /** One directory change. `track` is off when power is never lost. */
  function Put<K, V(==)>(d: Dir<K, V>, k: K, v: Option<V>, track: bool): Dir<K, V> {
    Dir(if v.Some? then d.now[k := v.value] else d.now - {k},
        if track then d.may[k := (if k in d.may then d.may[k] else {}) + {Get(d.now, k)}] else d.may)
  }

  function PutSlot<V(==)>(s: Slot<V>, v: Option<V>, track: bool): Slot<V> {
    Slot(v, if track then s.may + {s.now} else s.may)
  }

  /** Syncing the directory `services`, or the one above it, settles its own names. */
  function SyncLive(d: Dir<string, File>, services: bool): Dir<string, File> {
    Dir(d.now, map p | p in d.may && InServices(p) != services :: d.may[p])
  }

  // ----- snapshots -----

  datatype Manifest = Manifest(id: nat, createdAt: int, files: map<string, Meta>)

  /** One snapshot directory: the files it holds, its manifest, and whether one
      of its own two directories (services or the top) still has to be synced. */
  datatype SnapDir = SnapDir(files: map<string, string>, manifest: Option<Manifest>, loose: set<bool>)

  ghost predicate Entries(sha: string -> string, v: SnapDir, m: Manifest) {
    forall p | p in m.files ::
      ValidPath(p) && Canon(p) in v.files && sha(v.files[Canon(p)]) == m.files[p].sha
  }

  function Contents(v: SnapDir, m: Manifest): Image {
    map p | p in m.files && Canon(p) in v.files ::
      File(v.files[Canon(p)], m.files[p].mode, m.files[p].uid, m.files[p].gid)
  }

  /** `loadSnapshot` accepts this directory under the name id. */
  ghost predicate Loads(sha: string -> string, v: SnapDir, id: nat) {
    && v.manifest.Some?
    && v.manifest.value.id == id
    && Entries(sha, v, v.manifest.value)
    && Readable(Contents(v, v.manifest.value))
  }

  /** A part-way snapshot of `im`: no manifest yet, or the one that describes `im`. */
  ghost predicate Fragment(sha: string -> string, v: SnapDir, id: nat, im: Image) {
    v.manifest.Some? ==> v.manifest.value.id == id && v.manifest.value.files == Metas(sha, im)
  }

  /** A snapshot killed part-way never passes for another image. */
  lemma FragmentLoads(sha: string -> string, v: SnapDir, id: nat, im: Image)
    requires Fragment(sha, v, id, im) && Loads(sha, v, id) && CollisionFree(sha)
    ensures Contents(v, v.manifest.value) == im
  {
    hide ValidPath, Canon, Readable;
    var m := v.manifest.value;
    assert m.files.Keys == im.Keys;
    forall p | p in im
      ensures p in Contents(v, m) && Contents(v, m)[p] == im[p]
    {
      assert p in m.files && sha(v.files[Canon(p)]) == sha(im[p].data);
    }
  }

  /** What losing power, or an interrupted removal, leaves of a directory. */
  ghost predicate Shrinks(v: SnapDir, v': SnapDir) {
    && (forall q | q in v'.files :: q in v.files && v.files[q] == v'.files[q])
    && (v'.manifest == v.manifest || v'.manifest.None?)
  }

  ghost predicate Survives(c: Option<SnapDir>, after: Option<SnapDir>) {
    && (c.None? <==> after.None?)
    && (c.Some? ==>
          && after.value.loose == {}
          && (c.value.loose == {} ==> after == c)
          && Shrinks(c.value, after.value))
  }

  lemma FragmentShrinks(sha: string -> string, v: SnapDir, v': SnapDir, id: nat, im: Image)
    requires Fragment(sha, v, id, im) && Shrinks(v, v')
    ensures Fragment(sha, v', id, im)
  {
  }

  // ----- the whole disk -----

  /** The content of pending.json. */
  datatype Pending = Pending(snapshot: nat, baseline: Option<nat>)

  /** `live` is the Avahi configuration directory. The rest is the backup
      directory: snapshots by name, pending.json, baseline.json. Snapshot names
      are numbered in the order in which they were drawn; number 0 stands for
      every text that is not a well-formed name. */
  datatype Disk = Disk(live: Dir<string, File>, snaps: Dir<nat, SnapDir>,
                       journal: Slot<Pending>, pointer: Slot<nat>, nextId: nat)

  ghost predicate SnapSurvives(d: Disk, d': Disk, id: nat) {
    exists c :: MayBe(d.snaps, id, c) && Survives(c, Get(d'.snaps.now, id))
  }

  /** Every name on its own ends up with one of the values it may have. */
  ghost predicate PowerLoss(d: Disk, d': Disk) {
    && (forall p :: MayBe(d.live, p, Get(d'.live.now, p)))
    && (forall id :: SnapSurvives(d, d', id))
    && SlotMayBe(d.journal, d'.journal.now)
    && SlotMayBe(d.pointer, d'.pointer.now)
    && d'.live.may == map[] && d'.snaps.may == map[] && d'.journal.may == {} && d'.pointer.may == {}
    && d'.nextId == d.nextId
  }

  /** Nothing waits for a sync, as always when only the process can be killed. */
  ghost predicate Durable(d: Disk) {
    && d.live.may == map[] && d.snaps.may == map[] && d.journal.may == {} && d.pointer.may == {}
    && forall id | id in d.snaps.now :: d.snaps.now[id].loose == {}
  }

  /** With nothing waiting, a crash changes nothing on disk. */
  lemma DurableSurvives(d: Disk, d': Disk)
    requires Durable(d)
    ensures PowerLoss(d, d') <==> d' == d
  {
    if PowerLoss(d, d') {
      forall p
        ensures Get(d'.live.now, p) == Get(d.live.now, p)
      {
        assert MayBe(d.live, p, Get(d'.live.now, p));
      }
      EqualMaps(d.live.now, d'.live.now);
      forall id
        ensures Get(d'.snaps.now, id) == Get(d.snaps.now, id)
      {
        assert SnapSurvives(d, d', id);
      }
      EqualMaps(d.snaps.now, d'.snaps.now);
    }
    forall id
      ensures SnapSurvives(d, d, id)
    {
      assert MayBe(d.snaps, id, Get(d.snaps.now, id)) && Survives(Get(d.snaps.now, id), Get(d.snaps.now, id));
    }
  }

  lemma EqualMaps<K, V>(a: map<K, V>, b: map<K, V>)
    requires forall k :: Get(a, k) == Get(b, k)
    ensures a == b
  {
    forall k
      ensures (k in a <==> k in b) && (k in a ==> a[k] == b[k])
    {
      assert Get(a, k) == Get(b, k);
    }
  }

  // ----- what the disk stands for -----

  /** What the manager has promised: a live image and a managed baseline. */
  datatype View = View(image: Image, baseline: Option<nat>)

  /** A snapshot that loads, and still will after any loss of power. */
  ghost predicate Firm(sha: string -> string, d: Disk, id: nat) {
    && id in d.snaps.now && id !in d.snaps.may
    && d.snaps.now[id].loose == {}
    && Loads(sha, d.snaps.now[id], id)
  }

  function SnapImage(d: Disk, id: nat): Image {
    if id in d.snaps.now && d.snaps.now[id].manifest.Some?
    then Contents(d.snaps.now[id], d.snaps.now[id].manifest.value) else map[]
  }

  function JournalView(d: Disk, j: Pending): View {
    View(SnapImage(d, j.snapshot), j.baseline)
  }

  /** What a recovery would make of this disk: the journal decides. */
  function Committed(d: Disk): View {
    if d.journal.now.Some? then JournalView(d, d.journal.now.value)
    else View(ImageOf(d.live.now), d.pointer.now)
  }

  /** No managed name of the live directory waits for a sync. */
  ghost predicate LiveSynced(d: Disk) {
    forall p | p in d.live.may :: !Managed(p)
  }

  ghost predicate JournalSound(sha: string -> string, d: Disk, j: Pending) {
    && Firm(sha, d, j.snapshot)
    && Canonical(SnapImage(d, j.snapshot))
    && (j.baseline.Some? ==> Firm(sha, d, j.baseline.value))
  }

  /** The invariant of every reachable disk, crashed or not: the journal and the
      baseline pointer only ever name snapshots that load. */
  ghost predicate Sound(sha: string -> string, d: Disk) {
    && (forall j | SlotMayBe(d.journal, Some(j)) :: JournalSound(sha, d, j))
    && (forall id | SlotMayBe(d.pointer, Some(id)) :: Firm(sha, d, id))
    && (forall id | id in d.snaps.now || id in d.snaps.may :: 0 < id < d.nextId)
    && d.nextId > 0
  }

  ghost predicate Calm(d: Disk) {
    d.journal.may == {} && d.pointer.may == {}
  }

  /** Between two calls no reference waits for a sync, and without a journal the
      live image does not either. */
  ghost predicate AtRest(d: Disk) {
    Calm(d) && (d.journal.now.None? ==> LiveSynced(d))
  }

  /** Snapshots that loaded still do, with the same content. */
  ghost predicate Keeps(sha: string -> string, d: Disk, d': Disk) {
    forall id | Firm(sha, d, id) :: Firm(sha, d', id) && SnapImage(d', id) == SnapImage(d, id)
  }

  /** Whatever a crash makes of this disk stands for `was` or for `next`, and a
      journal that may be there stands for `was`. */
  ghost predicate Torn(d: Disk, was: View, next: View) {
    && (forall j | SlotMayBe(d.journal, Some(j)) :: JournalView(d, j) == was)
    && (SlotMayBe(d.journal, None) ==>
          && LiveSynced(d)
          && forall b | SlotMayBe(d.pointer, b) ::
                View(ImageOf(d.live.now), b) == was || View(ImageOf(d.live.now), b) == next)
  }

  lemma FirmSurvives(sha: string -> string, d: Disk, d': Disk, id: nat)
    requires PowerLoss(d, d') && Firm(sha, d, id)
    ensures Firm(sha, d', id) && d'.snaps.now[id] == d.snaps.now[id]
  {
    assert SnapSurvives(d, d', id);
    var c :| MayBe(d.snaps, id, c) && Survives(c, Get(d'.snaps.now, id));
  }

  lemma SyncedSurvives(d: Disk, d': Disk)
    requires PowerLoss(d, d') && LiveSynced(d)
    ensures ImageOf(d'.live.now) == ImageOf(d.live.now)
  {
    var a, b := ImageOf(d.live.now), ImageOf(d'.live.now);
    forall p
      ensures (p in a <==> p in b) && (p in a ==> a[p] == b[p])
    {
      assert MayBe(d.live, p, Get(d'.live.now, p));
    }
  }

  lemma IdsSurvive(d: Disk, d': Disk, id: nat)
    requires PowerLoss(d, d') && id in d'.snaps.now
    ensures id in d.snaps.now || id in d.snaps.may
  {
    assert SnapSurvives(d, d', id);
    var c :| MayBe(d.snaps, id, c) && Survives(c, Get(d'.snaps.now, id));
  }

  /** The crash step: soundness survives it, the next start finds a disk at
      rest, and that disk stands for one of the two views and no mixture. */
  lemma CrashSettles(sha: string -> string, d: Disk, d': Disk, was: View, next: View)
    requires PowerLoss(d, d') && Sound(sha, d) && Torn(d, was, next)
    ensures Sound(sha, d') && AtRest(d')
    ensures Committed(d') == was || Committed(d') == next
    ensures d'.journal.now.Some? ==> Committed(d') == was
  {
    forall id | id in d'.snaps.now
      ensures 0 < id < d'.nextId
    {
      IdsSurvive(d, d', id);
    }
    match d'.journal.now {
      case Some(j) =>
        assert JournalSound(sha, d, j);
        FirmSurvives(sha, d, d', j.snapshot);
        if j.baseline.Some? {
          FirmSurvives(sha, d, d', j.baseline.value);
        }
      case None =>
        SyncedSurvives(d, d');
    }
    if d'.pointer.now.Some? {
      FirmSurvives(sha, d, d', d'.pointer.now.value);
    }
  }
}
