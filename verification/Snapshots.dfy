/** Reading the live image; taking, loading, listing, pruning and deleting snapshots. */
module Snapshots {
  import opened Basics
  import opened Paths
  import opened Images
  import opened Revision
  import opened Disks
  import opened Ages
  import opened Primitives

  // ----- read -----

  method Read(s: Store) returns (r: Result<Image>)
    requires s.alive
    modifies s`alive
    ensures s.alive <==> r != Err(Dead)
    ensures r.Ok? ==> r.value == ImageOf(s.disk.live.now) && Readable(r.value)
    ensures r == Err(TooLarge) ==> !Readable(ImageOf(s.disk.live.now))
    ensures r.Err? ==> r.error in {Dead, IO, TooLarge}
  {
    hide Managed;
    var st := s.Try();
    if st != Done {
      return Err(Why(st));
    }
    var live := s.disk.live.now;
    ghost var all := ImageOf(live);
    var im: Image, total := map[], 0;
    var todo := {CONF, HOSTS} + set p | p in live && Managed(p);
    assert Managed(CONF) && Managed(HOSTS) by { FixedNames(); }
    while todo != {}
      invariant s.alive
      invariant forall p | p in todo :: Managed(p)
      invariant forall p | p in live && Managed(p) && p !in todo :: p in im
      invariant forall p | p in im :: p in all && im[p] == all[p] && p !in todo
      invariant forall p | p in im :: |im[p].data| <= MAX_FILE_SIZE
      invariant total == TotalSize(im) <= MAX_TOTAL_SIZE
      decreases todo
    {
      var p :| p in todo;
      todo := todo - {p};
      st := s.Try();
      if st != Done {
        return Err(Why(st));
      }
      if p in live {
        TotalPut(im, p, live[p]);
        TotalMonotone(im[p := live[p]], all);
        if |live[p].data| > MAX_FILE_SIZE || total + |live[p].data| > MAX_TOTAL_SIZE {
          assert p in all;
          return Err(TooLarge);
        }
        total := total + |live[p].data|;
        im := im[p := live[p]];
      }
    }
    assert im == all;
    return Ok(im);
  }

  lemma FixedNames()
    ensures Managed(CONF) && Managed(HOSTS)
  {
  }

  // ----- loadSnapshot -----

  ghost predicate Loadable(s: Store, id: nat)
    reads s
  {
    id in s.disk.snaps.now && Loads(s.sha, s.disk.snaps.now[id], id)
  }

  method LoadSnapshot(s: Store, id: nat) returns (r: Result<(Manifest, Image)>)
    requires s.alive
    modifies s`alive
    ensures s.alive <==> r != Err(Dead)
    ensures r.Ok? ==> Loadable(s, id) && r.value.1 == SnapImage(s.disk, id)
    ensures r.Ok? ==> s.disk.snaps.now[id].manifest == Some(r.value.0) && r.value.0.id == id && Readable(r.value.1)
    ensures r.Err? && r.error in {Broken, TooLarge, Invalid} ==> !Loadable(s, id)
    ensures r.Err? ==> r.error in {Dead, IO, Broken, TooLarge, Invalid}
  {
    hide ValidPath, Canon;
    var st := s.Try();
    if st != Done {
      return Err(Why(st));
    }
    if id !in s.disk.snaps.now {
      return Err(Invalid);
    }
    var v := s.disk.snaps.now[id];
    if v.manifest.None? || v.manifest.value.id != id {
      return Err(Broken);
    }
    var m := v.manifest.value;
    r := LoadEntries(s, v, m);
    assert s.disk == old(s.disk);
  }

  /** The loop over the manifest: every entry is read back and its digest compared. */
  method LoadEntries(s: Store, v: SnapDir, m: Manifest) returns (r: Result<(Manifest, Image)>)
    requires s.alive
    modifies s`alive
    ensures s.alive <==> r != Err(Dead)
    ensures r.Ok? ==> r.value == (m, Contents(v, m)) && Entries(s.sha, v, m) && Readable(Contents(v, m))
    ensures r == Err(Broken) ==> !Entries(s.sha, v, m)
    ensures r == Err(TooLarge) ==> !Readable(Contents(v, m))
    ensures r.Err? ==> r.error in {Dead, IO, Broken, TooLarge}
  {
    hide ValidPath, Canon;
    var im: Image, total := map[], 0;
    var todo := m.files.Keys;
    ghost var all := Contents(v, m);
    while todo != {}
      invariant s.alive && todo <= m.files.Keys
      invariant im.Keys == m.files.Keys - todo
      invariant forall p | p in im :: p in all && im[p] == all[p]
      invariant forall p | p in im :: ValidPath(p) && Canon(p) in v.files && s.sha(v.files[Canon(p)]) == m.files[p].sha
      invariant forall p | p in im :: |im[p].data| <= MAX_FILE_SIZE
      invariant total == TotalSize(im) <= MAX_TOTAL_SIZE
      decreases todo
    {
      var p :| p in todo;
      if !ValidPath(p) {
        return Err(Broken);
      }
      var st := s.Try();
      if st != Done {
        return Err(Why(st));
      }
      if Canon(p) !in v.files {
        return Err(Broken);
      }
      var data := v.files[Canon(p)];
      var f := File(data, m.files[p].mode, m.files[p].uid, m.files[p].gid);
      TotalPut(im, p, f);
      assert p in all && all[p] == f;
      if |data| > MAX_FILE_SIZE {
        return Err(TooLarge);
      }
      if s.sha(data) != m.files[p].sha {
        return Err(Broken);
      }
      TotalMonotone(im[p := f], all);
      total := total + |data|;
      if total > MAX_TOTAL_SIZE {
        return Err(TooLarge);
      }
      im := im[p := f];
      todo := todo - {p};
    }
    assert im == all;
    return Ok((m, im));
  }

  // ----- snapshot -----

  ghost predicate SlotKept(d: Disk, d': Disk, id: nat) {
    && Get(d'.snaps.now, id) == Get(d.snaps.now, id)
    && (id in d'.snaps.may ==> id in d.snaps.may && d'.snaps.may[id] == d.snaps.may[id])
  }

  /** Taking a snapshot touches nothing but the directory of a name never used before. */
  ghost predicate Snapped(d: Disk, d': Disk) {
    && d'.live == d.live && d'.journal == d.journal && d'.pointer == d.pointer
    && d'.nextId == d.nextId + 1
    && forall id | id != d.nextId :: SlotKept(d, d', id)
  }

  /** No directory but that of id differs. */
  ghost predicate OthersKept(d: Disk, d': Disk, id: nat) {
    forall other | other != id :: Get(d'.snaps.now, other) == Get(d.snaps.now, other)
  }

  lemma SnappedOthers(d: Disk, d': Disk)
    requires Snapped(d, d')
    ensures OthersKept(d, d', d.nextId)
  {
    forall other | other != d.nextId
      ensures Get(d'.snaps.now, other) == Get(d.snaps.now, other)
    {
      assert SlotKept(d, d', other);
    }
  }

  ghost predicate Fragments(sha: string -> string, d: Disk, id: nat, im: Image) {
    forall v | MayBe(d.snaps, id, Some(v)) :: Fragment(sha, v, id, im)
  }

  /** The files that writing the listed paths one after the other leaves. */
  function Laid(im: Image, ks: seq<string>): map<string, string>
    requires forall i | 0 <= i < |ks| :: ks[i] in im
  {
    if ks == [] then map[] else Laid(im, ks[..|ks| - 1])[Canon(ks[|ks| - 1]) := im[ks[|ks| - 1]].data]
  }

  lemma ListedPaths(im: Image)
    ensures forall i | 0 <= i < |SortedKeys(im.Keys)| :: SortedKeys(im.Keys)[i] in im
  {
    forall i | 0 <= i < |SortedKeys(im.Keys)|
      ensures SortedKeys(im.Keys)[i] in im
    {
      assert SortedKeys(im.Keys)[i] in Elements(SortedKeys(im.Keys));
    }
  }

  ghost function AllLaid(im: Image): map<string, string> {
    ListedPaths(im);
    Laid(im, SortedKeys(im.Keys))
  }

  /** A finished snapshot: complete, durable, and described by its manifest. */
  ghost predicate Stored(sha: string -> string, d: Disk, m: Manifest, im: Image) {
    && m.id in d.snaps.now && m.id !in d.snaps.may
    && m.files == Metas(sha, im)
    && d.snaps.now[m.id].manifest == Some(m) && d.snaps.now[m.id].loose == {}
    && d.snaps.now[m.id].files == AllLaid(im)
    && forall p | p in im :: ValidPath(p)
  }

  /** Paths that name the same file hold the same bytes. */
  ghost predicate Agree(im: Image) {
    forall p, q | p in im && q in im && Canon(p) == Canon(q) :: im[p].data == im[q].data
  }

  lemma {:induction false} LaidFrom(im: Image, ks: seq<string>, c: string)
    requires forall i | 0 <= i < |ks| :: ks[i] in im
    ensures c in Laid(im, ks) <==> exists i :: 0 <= i < |ks| && Canon(ks[i]) == c
    ensures c in Laid(im, ks) ==> exists i :: 0 <= i < |ks| && Canon(ks[i]) == c && im[ks[i]].data == Laid(im, ks)[c]
  {
    hide Canon;
    if ks != [] {
      var n := |ks| - 1;
      LaidFrom(im, ks[..n], c);
      if Canon(ks[n]) != c && c in Laid(im, ks[..n]) {
        var i :| 0 <= i < n && Canon(ks[..n][i]) == c && im[ks[..n][i]].data == Laid(im, ks[..n])[c];
        assert Canon(ks[i]) == c;
      }
      if i :| 0 <= i < n && Canon(ks[i]) == c {
        assert Canon(ks[..n][i]) == c;
      }
    }
  }

  /** Every path finds its own bytes in the directory exactly when paths that name one file agree. */
  lemma LaidHolds(im: Image)
    ensures (forall p | p in im :: Get(AllLaid(im), Canon(p)) == Some(im[p].data)) <==> Agree(im)
  {
    hide Canon, Laid, SortedKeys;
    var ks := SortedKeys(im.Keys);
    ListedPaths(im);
    forall p | p in im
      ensures Canon(p) in AllLaid(im)
      ensures Agree(im) ==> AllLaid(im)[Canon(p)] == im[p].data
    {
      assert p in Elements(ks);
      var i :| 0 <= i < |ks| && ks[i] == p;
      LaidFrom(im, ks, Canon(p));
    }
    if forall p | p in im :: Get(AllLaid(im), Canon(p)) == Some(im[p].data) {
      forall p, q | p in im && q in im && Canon(p) == Canon(q)
        ensures im[p].data == im[q].data
      {
        assert Get(AllLaid(im), Canon(p)) == Some(im[p].data);
        assert Get(AllLaid(im), Canon(q)) == Some(im[q].data);
      }
    }
  }

  lemma CanonicalAgree(im: Image)
    requires Canonical(im)
    ensures Agree(im)
  {
    hide Managed, Canon;
    forall p | p in im
      ensures Canon(p) == p
    {
      ManagedCanon(p);
    }
  }

  /** Round trip: what `snapshot` stored, `loadSnapshot` accepts and gives back,
      if, and only if, no two of its paths name one file with different bytes. */
  lemma StoredLoads(sha: string -> string, d: Disk, m: Manifest, im: Image)
    requires Stored(sha, d, m, im) && Readable(im)
    ensures Agree(im) ==> Firm(sha, d, m.id)
    ensures CollisionFree(sha) && Firm(sha, d, m.id) ==> Agree(im)
    ensures Agree(im) || (CollisionFree(sha) && Firm(sha, d, m.id)) ==> SnapImage(d, m.id) == im
  {
    hide ValidPath, Canon, Readable, AllLaid, Agree;
    LaidHolds(im);
    var v := d.snaps.now[m.id];
    assert m.files.Keys == im.Keys;
    if Agree(im) {
      assert forall p | p in im :: Get(v.files, Canon(p)) == Some(im[p].data);
      assert Entries(sha, v, m);
      assert Contents(v, m) == im;
    }
    if CollisionFree(sha) && Firm(sha, d, m.id) {
      forall p | p in im
        ensures Get(v.files, Canon(p)) == Some(im[p].data)
      {
        assert p in m.files && sha(v.files[Canon(p)]) == sha(im[p].data);
      }
      assert Contents(v, m) == im;
    }
  }

  /** It keeps loading in every later state whose slot for that name is untouched. */
  lemma FirmKept(sha: string -> string, d: Disk, d': Disk, id: nat)
    requires Firm(sha, d, id) && SlotKept(d, d', id)
    ensures Firm(sha, d', id) && SnapImage(d', id) == SnapImage(d, id)
  {
    assert Get(d.snaps.now, id) == Some(d.snaps.now[id]);
  }

  lemma SnappedSound(sha: string -> string, d: Disk, d': Disk)
    requires Sound(sha, d) && Snapped(d, d')
    ensures Sound(sha, d')
    ensures Keeps(sha, d, d')
    ensures d.nextId !in d.snaps.now && d.nextId !in d.snaps.may
  {
    hide Loads, Canonical;
    forall id | Firm(sha, d, id)
      ensures Firm(sha, d', id) && SnapImage(d', id) == SnapImage(d, id)
    {
      FirmKept(sha, d, d', id);
    }
    forall id | id in d'.snaps.now || id in d'.snaps.may
      ensures 0 < id < d'.nextId
    {
      if id != d.nextId {
        assert SlotKept(d, d', id);
      }
    }
  }

  /** What taking a snapshot makes of the directories. */
  lemma SnappedGrown(sha: string -> string, d: Disk, d': Disk, im: Image)
    requires Sound(sha, d) && Snapped(d, d') && Fragments(sha, d', d.nextId, im)
    ensures Grown(sha, d, d', map[d.nextId := im])
  {
    hide Loads, Fragment, Shrinks, Remains, JournalSound, Firm;
    forall id, v' | MayBe(d'.snaps, id, Some(v'))
      ensures Remains(d, id, v') || id == d.nextId
    {
      if id != d.nextId {
        assert SlotKept(d, d', id);
        Itself(d, id, v');
      }
    }
    forall id | Wedged(sha, d, id)
      ensures Wedged(sha, d', id)
    {
      assert SlotKept(d, d', id);
      assert Get(d.snaps.now, id).Some?;
    }
  }

  lemma SnappedPut(d0: Disk, d: Disk, v: Option<SnapDir>, track: bool)
    requires Snapped(d0, d)
    ensures Snapped(d0, d.(snaps := Put(d.snaps, d0.nextId, v, track)))
  {
    var d' := d.(snaps := Put(d.snaps, d0.nextId, v, track));
    forall id | id != d0.nextId
      ensures SlotKept(d0, d', id)
    {
      assert SlotKept(d0, d, id);
    }
  }

  lemma SnappedSync(d0: Disk, d: Disk)
    requires Snapped(d0, d) && Calm(d0)
    ensures Snapped(d0, Store.Synced(d))
  {
    forall id | id != d0.nextId
      ensures SlotKept(d0, Store.Synced(d), id)
    {
      assert SlotKept(d0, d, id);
    }
  }

  /** `atomicFile` inside a snapshot directory: stage, rename, sync the directory of the name. */
  method PutInSnap(s: Store, ghost im: Image, ghost d0: Disk, v: SnapDir, services: bool) returns (e: Status)
    requires s.alive && d0.nextId in s.disk.snaps.now
    requires Snapped(d0, s.disk) && Fragments(s.sha, s.disk, d0.nextId, im)
    requires forall l :: Fragment(s.sha, v.(loose := l), d0.nextId, im)
    modifies s`alive, s`disk
    ensures s.alive <==> e != Killed
    ensures Snapped(d0, s.disk)
    ensures Fragments(s.sha, s.disk, d0.nextId, im)
    ensures d0.nextId in s.disk.snaps.now
    ensures e == Done ==>
              s.disk.snaps.now[d0.nextId] == v.(loose := old(s.disk.snaps.now[d0.nextId].loose) - {services})
    ensures e == Done ==> s.disk.nextId == old(s.disk.nextId)
  {
    hide Fragment;
    var id := s.disk.nextId - 1;
    e := s.Try();
    if e != Done {
      return;
    }
    ghost var d1 := s.disk;
    e := s.ChangeSnap(id, v, services);
    if e == Done {
      SnappedPut(d0, d1, Some(s.disk.snaps.now[id]), s.power);
      ghost var d2 := s.disk;
      e := s.SyncSnap(id, services);
      if e == Done {
        SnappedPut(d0, d2, Some(s.disk.snaps.now[id]), s.power);
      }
    }
  }

  lemma LaidStep(im: Image, ks: seq<string>, i: nat)
    requires i < |ks| && forall j | 0 <= j < |ks| :: ks[j] in im
    ensures Laid(im, ks[..i + 1]) == Laid(im, ks[..i])[Canon(ks[i]) := im[ks[i]].data]
  {
    assert ks[..i + 1][..i] == ks[..i];
  }

  lemma NoManifest(sha: string -> string, v: SnapDir, id: nat, im: Image)
    requires v.manifest.None?
    ensures forall l :: Fragment(sha, v.(loose := l), id, im)
  {
  }

  /** Fill the new directory file by file; the manifest comes last. */
  method FillSnapshot(s: Store, im: Image, m: Manifest, ghost d0: Disk) returns (r: Result<Manifest>)
    requires s.alive && m.id == d0.nextId && m.id in s.disk.snaps.now
    requires m.files == Metas(s.sha, im) && s.disk.nextId == d0.nextId + 1
    requires Snapped(d0, s.disk) && Fragments(s.sha, s.disk, m.id, im)
    requires s.disk.snaps.now[m.id] == SnapDir(map[], None, {})
    modifies s`alive, s`disk
    ensures s.alive <==> r != Err(Dead)
    ensures Snapped(d0, s.disk) && Fragments(s.sha, s.disk, m.id, im)
    ensures r.Ok? ==> r.value == m && m.id in s.disk.snaps.now
    ensures r.Ok? ==> s.disk.snaps.now[m.id].manifest == Some(m) && s.disk.snaps.now[m.id].loose == {}
    ensures r.Ok? ==> forall p | p in im :: ValidPath(p)
    ensures r.Ok? ==> s.disk.snaps.now[m.id].files == AllLaid(im)
    ensures r.Err? ==> r.error in {Dead, IO, Invalid}
  {
    hide Fragments, Snapped, Metas, Sorted, ValidPath, Laid, SortedKeys, Less;
    var ks := SortedPaths(im.Keys);
    assert forall k :: k in ks <==> k in Elements(ks);
    ListedPaths(im);
    NothingLaid(im, ks);
    var i := 0;
    while i < |ks|
      invariant 0 <= i <= |ks| && s.alive && m.id in s.disk.snaps.now
      invariant s.disk.nextId == d0.nextId + 1
      invariant Snapped(d0, s.disk) && Fragments(s.sha, s.disk, m.id, im)
      invariant s.disk.snaps.now[m.id].manifest.None? && true !in s.disk.snaps.now[m.id].loose
      invariant forall j | 0 <= j < i :: ValidPath(ks[j])
      invariant s.disk.snaps.now[m.id].files == Laid(im, ks[..i])
    {
      var p := ks[i];
      if !ValidPath(p) {
        return Err(Invalid);
      }
      r := FillOne(s, im, m, d0, ks, i);
      if r.Err? {
        return;
      }
      i := i + 1;
    }
    r := FillManifest(s, im, m, d0);
    assert ks[..i] == ks;
  }

  lemma NothingLaid(im: Image, ks: seq<string>)
    requires forall j | 0 <= j < |ks| :: ks[j] in im
    ensures Laid(im, ks[..0]) == map[]
  {
  }

  /** MkdirAll and atomicFile for one path of the image. */
  method FillOne(s: Store, im: Image, m: Manifest, ghost d0: Disk, ks: seq<string>, i: nat)
    returns (r: Result<Manifest>)
    requires s.alive && m.id == d0.nextId && m.id in s.disk.snaps.now
    requires s.disk.nextId == d0.nextId + 1
    requires Snapped(d0, s.disk) && Fragments(s.sha, s.disk, m.id, im)
    requires s.disk.snaps.now[m.id].manifest.None? && true !in s.disk.snaps.now[m.id].loose
    requires i < |ks| && ValidPath(ks[i]) && forall j | 0 <= j < |ks| :: ks[j] in im
    requires s.disk.snaps.now[m.id].files == Laid(im, ks[..i])
    modifies s`alive, s`disk
    ensures s.alive <==> r != Err(Dead)
    ensures Snapped(d0, s.disk) && Fragments(s.sha, s.disk, m.id, im)
    ensures m.id in s.disk.snaps.now
    ensures r.Ok? ==> s.disk.nextId == d0.nextId + 1
    ensures r.Ok? ==> s.disk.snaps.now[m.id].manifest.None? && true !in s.disk.snaps.now[m.id].loose
    ensures r.Ok? ==> s.disk.snaps.now[m.id].files == Laid(im, ks[..i + 1])
    ensures r.Err? ==> r.error in {Dead, IO}
  {
    hide Fragment, Laid, ValidPath, Canon, InServices;
    var p := ks[i];
    var v := s.disk.snaps.now[m.id];
    ghost var d1 := s.disk;
    var e: Status;
    if InServices(p) {
      e := s.ChangeSnap(m.id, v, false);
      if e == Done {
        SnappedPut(d0, d1, Some(s.disk.snaps.now[m.id]), s.power);
        assert MayBe(d1.snaps, m.id, Some(v));
        SameFragment(s.sha, v, s.disk.snaps.now[m.id], m.id, im);
      }
    } else {
      e := s.Try();
    }
    if e != Done {
      return Err(Why(e));
    }
    LaidStep(im, ks, i);
    NoManifest(s.sha, v.(files := v.files[Canon(p) := im[p].data]), m.id, im);
    e := PutInSnap(s, im, d0, v.(files := v.files[Canon(p) := im[p].data]), InServices(p));
    if e != Done {
      return Err(Why(e));
    }
    r := Ok(m);
  }

  lemma SameFragment(sha: string -> string, v: SnapDir, w: SnapDir, id: nat, im: Image)
    requires Fragment(sha, v, id, im) && w == v.(loose := w.loose)
    ensures Fragment(sha, w, id, im)
  {
  }

  method FillManifest(s: Store, im: Image, m: Manifest, ghost d0: Disk) returns (r: Result<Manifest>)
    requires s.alive && m.id == d0.nextId && m.id in s.disk.snaps.now
    requires m.files == Metas(s.sha, im) && s.disk.nextId == d0.nextId + 1
    requires Snapped(d0, s.disk) && Fragments(s.sha, s.disk, m.id, im)
    requires true !in s.disk.snaps.now[m.id].loose
    modifies s`alive, s`disk
    ensures s.alive <==> r != Err(Dead)
    ensures Snapped(d0, s.disk) && Fragments(s.sha, s.disk, m.id, im)
    ensures r.Ok? ==> r.value == m && m.id in s.disk.snaps.now
    ensures r.Ok? ==> s.disk.snaps.now[m.id] == SnapDir(old(s.disk.snaps.now[m.id].files), Some(m), {})
    ensures r.Err? ==> r.error in {Dead, IO}
  {
    hide Canonical, Metas;
    var v := s.disk.snaps.now[m.id];
    assert MayBe(s.disk.snaps, m.id, Some(v));
    var e := PutInSnap(s, im, d0, v.(manifest := Some(m)), false);
    if e != Done {
      return Err(Why(e));
    }
    assert v.loose - {false} == {} by {
      assert forall l | l in v.loose - {false} :: l == true;
    }
    r := Ok(m);
  }

  /** `snapshot`, its deferred cleanup included. */
  method TakeSnapshot(s: Store, im: Image, reason: string, at: int) returns (r: Result<Manifest>)
    requires s.alive && Calm(s.disk) && Sound(s.sha, s.disk)
    modifies s`alive, s`disk
    ensures s.alive <==> r != Err(Dead)
    ensures Snapped(old(s.disk), s.disk)
    ensures Fragments(s.sha, s.disk, old(s.disk.nextId), im)
    ensures Grown(s.sha, old(s.disk), s.disk, map[old(s.disk.nextId) := im])
    ensures r.Ok? ==>
              r.value == Manifest(old(s.disk.nextId), at, Metas(s.sha, im)) && Stored(s.sha, s.disk, r.value, im)
    ensures r.Err? ==> r.error in {Dead, IO, Invalid}
  {
    hide Loads, Grown;
    ghost var d0 := s.disk;
    r := MakeAndFill(s, im, reason, at);
    SnappedGrown(s.sha, d0, s.disk, im);
  }

  method MakeAndFill(s: Store, im: Image, reason: string, at: int) returns (r: Result<Manifest>)
    requires s.alive && Calm(s.disk) && Sound(s.sha, s.disk)
    modifies s`alive, s`disk
    ensures s.alive <==> r != Err(Dead)
    ensures Snapped(old(s.disk), s.disk)
    ensures Fragments(s.sha, s.disk, old(s.disk.nextId), im)
    ensures r.Ok? ==>
              r.value == Manifest(old(s.disk.nextId), at, Metas(s.sha, im)) && Stored(s.sha, s.disk, r.value, im)
    ensures r.Err? ==> r.error in {Dead, IO, Invalid}
  {
    hide Canonical, Metas, Loads;
    ghost var d0 := s.disk;
    var id := s.DrawId();
    if |reason| > 512 {
      return Err(Invalid);
    }
    var e := s.MakeSnap(id);
    if e != Done {
      return Err(Why(e));
    }
    var m := Manifest(id, at, Metas(s.sha, im));
    r := FillSnapshot(s, im, m, d0);
    if r.Ok? {
      SnappedSync(d0, s.disk);
      e := s.SyncBackups();
      if e == Done {
        return;
      }
      r := Err(Why(e));
    }
    if s.alive {
      Cleanup(s, im, d0);
      if !s.alive {
        r := Err(Dead);
      }
    }
  }

  method Cleanup(s: Store, ghost im: Image, ghost d0: Disk)
    requires s.alive && s.disk.nextId == d0.nextId + 1
    requires Snapped(d0, s.disk) && Fragments(s.sha, s.disk, d0.nextId, im)
    modifies s`alive, s`disk
    ensures Snapped(d0, s.disk) && Fragments(s.sha, s.disk, d0.nextId, im)
  {
    hide Canonical, Metas, Fragment, Shrinks;
    var id := s.disk.nextId - 1;
    ghost var d1 := s.disk;
    var e := s.RemoveSnap(id);
    if id in d1.snaps.now {
      if e == Done {
        SnappedPut(d0, d1, None, s.power);
      } else {
        SnappedPut(d0, d1, Some(s.disk.snaps.now[id]), s.power);
        assert MayBe(d1.snaps, id, Some(d1.snaps.now[id]));
        FragmentShrinks(s.sha, d1.snaps.now[id], s.disk.snaps.now[id], id, im);
      }
    }
  }
}
