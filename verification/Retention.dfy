/** The listing of snapshots, and what pruning and deleting leave of it. */
module Retention {
  import opened Basics
  import opened Images
  import opened Disks
  import opened Ages
  import opened Primitives
  import opened Snapshots

  // ----- snapshots -----

  ghost predicate NewestFirst(list: seq<Manifest>) {
    forall i, j | 0 <= i < j < |list| :: list[i].createdAt >= list[j].createdAt
  }

  ghost predicate Distinct(list: seq<Manifest>) {
    forall i, j | 0 <= i < j < |list| :: list[i].id != list[j].id
  }

  ghost function Ids(list: seq<Manifest>): set<nat> {
    set i | 0 <= i < |list| :: list[i].id
  }

  /** A complete listing: one manifest per directory, the most recent first. */
  ghost predicate Listing(snaps: map<nat, SnapDir>, list: seq<Manifest>) {
    && Ids(list) == snaps.Keys && Distinct(list) && NewestFirst(list)
    && forall i | 0 <= i < |list| :: list[i].id in snaps && snaps[list[i].id].manifest == Some(list[i])
  }

  ghost predicate AllLoads(sha: string -> string, d: Disk) {
    forall id | id in d.snaps.now :: Loads(sha, d.snaps.now[id], id)
  }

  ghost predicate AllLoad(s: Store)
    reads s
  {
    AllLoads(s.sha, s.disk)
  }

  function InsertByTime(list: seq<Manifest>, m: Manifest): seq<Manifest> {
    if list == [] then [m]
    else if m.createdAt >= list[0].createdAt then [m] + list
    else [list[0]] + InsertByTime(list[1..], m)
  }

  lemma {:induction false} InsertMembers(list: seq<Manifest>, m: Manifest)
    ensures |InsertByTime(list, m)| == |list| + 1
    ensures forall x :: x in InsertByTime(list, m) <==> x == m || x in list
  {
    if list != [] && m.createdAt < list[0].createdAt {
      InsertMembers(list[1..], m);
      assert list == [list[0]] + list[1..];
    }
  }

  lemma {:induction false} InsertOrders(list: seq<Manifest>, m: Manifest)
    requires NewestFirst(list) && Distinct(list) && forall x | x in list :: x.id != m.id
    ensures NewestFirst(InsertByTime(list, m)) && Distinct(InsertByTime(list, m))
  {
    if list != [] && m.createdAt < list[0].createdAt {
      var tail := list[1..];
      assert forall i | 0 <= i < |tail| :: tail[i] == list[i + 1];
      InsertOrders(tail, m);
      InsertMembers(tail, m);
      PrependOrders(list[0], InsertByTime(tail, m));
    }
  }

  lemma PrependOrders(m: Manifest, list: seq<Manifest>)
    requires NewestFirst(list) && Distinct(list)
    requires forall x | x in list :: x.id != m.id && x.createdAt <= m.createdAt
    ensures NewestFirst([m] + list) && Distinct([m] + list)
  {
    var r := [m] + list;
    assert forall i | 1 <= i < |r| :: r[i] == list[i - 1] && r[i] in list;
  }

  lemma IdsOf(list: seq<Manifest>, x: nat)
    ensures x in Ids(list) <==> exists m :: m in list && m.id == x
  {
    if m :| m in list && m.id == x {
      var i :| 0 <= i < |list| && list[i] == m;
      assert list[i].id in Ids(list);
    }
  }

  lemma EmptyOrders()
    ensures NewestFirst([]) && Distinct([])
  {
  }

  /** One unreadable directory makes the whole listing fail. */
  method ListSnapshots(s: Store) returns (r: Result<seq<Manifest>>)
    requires s.alive
    modifies s`alive
    ensures s.alive <==> r != Err(Dead)
    ensures r.Ok? ==> Listing(s.disk.snaps.now, r.value) && AllLoad(s)
    ensures r.Err? && r.error in {Broken, TooLarge, Invalid} ==> !AllLoad(s)
    ensures r.Err? ==> r.error in {Dead, IO, Broken, TooLarge, Invalid}
  {
    hide Loads, NewestFirst, Distinct, InsertByTime;
    EmptyOrders();
    var st := s.Try();
    if st != Done {
      return Err(Why(st));
    }
    var snaps := s.disk.snaps.now;
    var todo := snaps.Keys;
    var list: seq<Manifest> := [];
    while todo != {}
      invariant s.alive && todo <= snaps.Keys
      invariant NewestFirst(list) && Distinct(list)
      invariant forall id :: id in Ids(list) <==> id in snaps && id !in todo
      invariant forall m | m in list :: m.id in snaps && snaps[m.id].manifest == Some(m)
      invariant forall id | id in snaps && id !in todo :: Loadable(s, id)
      decreases todo
    {
      var id :| id in todo;
      todo := todo - {id};
      var one := LoadSnapshot(s, id);
      if one.Err? {
        return Err(one.error);
      }
      var m := one.value.0;
      ghost var shorter := list;
      InsertMembers(list, m);
      assert forall x | x in list :: x.id != id by {
        IdsOf(list, id);
      }
      InsertOrders(list, m);
      list := InsertByTime(list, m);
      forall x
        ensures x in Ids(list) <==> x in snaps && x !in todo
      {
        IdsOf(list, x);
        IdsOf(shorter, x);
      }
    }
    return Ok(list);
  }

  // ----- prune -----

  /** Nothing but unpinned snapshot directories changes. */
  ghost predicate Pruned(d: Disk, d': Disk) {
    && d'.live == d.live && d'.journal == d.journal && d'.pointer == d.pointer && d'.nextId == d.nextId
    && d'.snaps.now.Keys <= d.snaps.now.Keys
    && d'.snaps.may.Keys <= d.snaps.may.Keys + d.snaps.now.Keys
    && (d.pointer.now.Some? ==> SlotKept(d, d', d.pointer.now.value))
  }

  lemma PrunedSound(sha: string -> string, d: Disk, d': Disk)
    requires Sound(sha, d) && Pruned(d, d') && Calm(d) && d.journal.now.None?
    ensures Sound(sha, d')
    ensures d.pointer.now.Some? ==> SnapImage(d', d.pointer.now.value) == SnapImage(d, d.pointer.now.value)
  {
    hide Loads;
    if d.pointer.now.Some? {
      FirmKept(sha, d, d', d.pointer.now.value);
    }
  }

  function Count(d: Disk): nat { |d.snaps.now| }

  function TimeOf(d: Disk, id: nat): int {
    if id in d.snaps.now && d.snaps.now[id].manifest.Some? then d.snaps.now[id].manifest.value.createdAt else 0
  }

  function Least(a: nat, b: nat): nat {
    if a < b then a else b
  }

  /** What a successful prune leaves: the number asked for, the managed baseline,
      and otherwise nothing older than anything it removed. */
  ghost predicate Retained(d: Disk, d': Disk, keep: nat) {
    && (forall id | id in d'.snaps.now :: id in d.snaps.now && d'.snaps.now[id] == d.snaps.now[id])
    && (keep > 0 ==> Count(d') == Least(Count(d), keep))
    && (forall gone | gone in d.snaps.now && gone !in d'.snaps.now :: d.pointer.now != Some(gone))
    && (forall stays, gone | stays in d'.snaps.now && gone in d.snaps.now && gone !in d'.snaps.now ::
          d.pointer.now == Some(stays) || TimeOf(d, stays) >= TimeOf(d, gone))
  }

  /** The directories that are left once everything from index k on, the pinned one apart, is removed. */
  ghost predicate CutAt(snaps: map<nat, SnapDir>, now: map<nat, SnapDir>, list: seq<Manifest>, k: int,
                        pinned: Option<nat>) {
    && (forall id | id in now :: id in snaps && now[id] == snaps[id])
    && (forall i | 0 <= i < |list| :: list[i].id in now <==> i < k || pinned == Some(list[i].id))
  }

  lemma CutRetains(d: Disk, d': Disk, list: seq<Manifest>, k: int, keep: nat)
    requires Listing(d.snaps.now, list) && CutAt(d.snaps.now, d'.snaps.now, list, k, d.pointer.now)
    requires 0 <= k <= |list|
    requires Count(d') <= Count(d) && (k == |list| || Count(d') >= keep)
    requires k == 0 || Count(d') <= keep
    ensures Retained(d, d', keep)
  {
    forall stays, gone | stays in d'.snaps.now && gone in d.snaps.now && gone !in d'.snaps.now
      ensures d.pointer.now == Some(stays) || TimeOf(d, stays) >= TimeOf(d, gone)
    {
      var i :| 0 <= i < |list| && list[i].id == stays;
      var j :| 0 <= j < |list| && list[j].id == gone;
    }
    forall gone | gone in d.snaps.now && gone !in d'.snaps.now
      ensures d.pointer.now != Some(gone)
    {
      var j :| 0 <= j < |list| && list[j].id == gone;
    }
    if k == 0 && |d'.snaps.now| > keep > 0 {
      OnlyPinned(d.snaps.now, d'.snaps.now, list, d.pointer.now);
    }
    if k == |list| {
      forall id | id in d.snaps.now
        ensures id in d'.snaps.now
      {
        var i :| 0 <= i < |list| && list[i].id == id;
      }
      assert d'.snaps.now == d.snaps.now;
    }
  }

  lemma OnlyPinned(snaps: map<nat, SnapDir>, now: map<nat, SnapDir>, list: seq<Manifest>, pinned: Option<nat>)
    requires Listing(snaps, list) && CutAt(snaps, now, list, 0, pinned)
    ensures |now| <= 1
  {
    var most := if pinned.Some? then {pinned.value} else {};
    forall id | id in now.Keys
      ensures id in most
    {
      var i :| 0 <= i < |list| && list[i].id == id;
    }
    SubsetSize(now.Keys, most);
  }

  lemma {:induction false} SubsetSize(a: set<nat>, b: set<nat>)
    requires a <= b
    ensures |a| <= |b|
  {
    if x :| x in a {
      SubsetSize(a - {x}, b - {x});
    }
  }

  method BaselineId(s: Store) returns (r: Result<Option<nat>>)
    requires s.alive
    modifies s`alive
    ensures s.alive <==> r != Err(Dead)
    ensures r.Ok? ==> r.value == s.disk.pointer.now
    ensures r.Err? ==> r.error in {Dead, IO}
  {
    var st := s.Try();
    if st != Done {
      return Err(Why(st));
    }
    return Ok(s.disk.pointer.now);
  }

  method Prune(s: Store, keep: nat) returns (r: Result<()>)
    requires s.alive && Calm(s.disk)
    modifies s`alive, s`disk
    ensures s.alive <==> r != Err(Dead)
    ensures Pruned(old(s.disk), s.disk)
    ensures r.Ok? ==> Retained(old(s.disk), s.disk, keep) && old(AllLoad(s)) && s.disk.snaps.may == map[]
    ensures r.Err? && r.error in {Broken, TooLarge, Invalid} ==> !old(AllLoad(s))
    ensures !old(AllLoad(s)) ==> s.disk == old(s.disk)
    ensures Grown(s.sha, old(s.disk), s.disk, map[])
    ensures r.Err? ==> r.error in {Dead, IO, Broken, TooLarge, Invalid}
  {
    hide Loads, Grown;
    GrownStill(s.sha, s.disk, s.disk);
    var all := ListSnapshots(s);
    if all.Err? {
      return Err(all.error);
    }
    var list := all.value;
    var pin := BaselineId(s);
    if pin.Err? {
      return Err(pin.error);
    }
    ghost var d0 := s.disk;
    r := RemoveOldest(s, list, pin.value, keep);
    if r.Ok? {
      ghost var d1 := s.disk;
      GrownStill(s.sha, d1, Store.Synced(d1));
      GrownOn(s.sha, d0, d1, Store.Synced(d1), map[]);
      var e := s.SyncBackups();
      if e != Done {
        r := Err(Why(e));
      }
    }
  }

  /** The loop of prune, from the oldest snapshot to the most recent. */
  method RemoveOldest(s: Store, list: seq<Manifest>, pinned: Option<nat>, keep: nat) returns (r: Result<()>)
    requires s.alive && Listing(s.disk.snaps.now, list) && pinned == s.disk.pointer.now && Calm(s.disk) && AllLoad(s)
    modifies s`alive, s`disk
    ensures s.alive <==> r != Err(Dead)
    ensures Pruned(old(s.disk), s.disk) && Grown(s.sha, old(s.disk), s.disk, map[])
    ensures r.Ok? ==> Retained(old(s.disk), s.disk, keep)
    ensures r.Err? ==> r.error in {Dead, IO}
  {
    hide Pruned, Listing, Retained, CutAt, Count, Loads, Grown;
    ghost var d0 := s.disk;
    StartPruned(d0, list);
    GrownStill(s.sha, d0, d0);
    ListingSize(s.disk, list);
    var remaining := |list|;
    var k := |list|;
    while k > 0 && remaining > keep
      invariant 0 <= k <= |list| && s.alive
      invariant Pruned(d0, s.disk) && CutAt(d0.snaps.now, s.disk.snaps.now, list, k, pinned)
      invariant Grown(s.sha, d0, s.disk, map[]) && forall id | id in s.disk.snaps.now ::
                  Loads(s.sha, s.disk.snaps.now[id], id)
      invariant remaining == Count(s.disk) <= Count(d0)
      invariant k == |list| || remaining >= keep
    {
      k := k - 1;
      CutStep(d0, s.disk, list, k, false);
      if pinned == Some(list[k].id) {
        continue;
      }
      var e := RemoveAt(s, list, k, d0);
      if e != Done {
        return Err(Why(e));
      }
      remaining := remaining - 1;
    }
    CutRetains(d0, s.disk, list, k, keep);
    r := Ok(());
  }

  lemma StartPruned(d: Disk, list: seq<Manifest>)
    ensures Pruned(d, d)
    ensures Listing(d.snaps.now, list) ==> CutAt(d.snaps.now, d.snaps.now, list, |list|, d.pointer.now)
  {
  }

  method RemoveAt(s: Store, list: seq<Manifest>, k: nat, ghost d0: Disk) returns (e: Status)
    requires s.alive && k < |list| && Listing(d0.snaps.now, list)
    requires Pruned(d0, s.disk) && d0.pointer.now != Some(list[k].id)
    requires CutAt(d0.snaps.now, s.disk.snaps.now, list, k + 1, d0.pointer.now)
    requires Grown(s.sha, d0, s.disk, map[]) && forall id | id in s.disk.snaps.now ::
               Loads(s.sha, s.disk.snaps.now[id], id)
    modifies s`alive, s`disk
    ensures s.alive <==> e != Killed
    ensures Pruned(d0, s.disk) && Grown(s.sha, d0, s.disk, map[])
    ensures e == Done ==> forall id | id in s.disk.snaps.now :: Loads(s.sha, s.disk.snaps.now[id], id)
    ensures e == Done ==> CutAt(d0.snaps.now, s.disk.snaps.now, list, k, d0.pointer.now)
    ensures e == Done ==> Count(s.disk) == Count(old(s.disk)) - 1
  {
    hide Pruned, CutAt, Listing, Grown, Loads, Shrinks;
    var id := list[k].id;
    CutStep(d0, s.disk, list, k, s.power);
    ghost var d1 := s.disk;
    e := s.RemoveSnap(id);
    GrownPut(s.sha, d1, id, if e == Done then None else Some(s.disk.snaps.now[id]), s.power);
    GrownOn(s.sha, d0, d1, s.disk, map[]);
    PrunedStep(d0, d1, id, if e == Done then None else Some(s.disk.snaps.now[id]), s.power);
    OneLess(d1.snaps.now, id);
  }

  lemma PrunedStep(d0: Disk, d: Disk, id: nat, v: Option<SnapDir>, track: bool)
    requires Pruned(d0, d) && d0.pointer.now != Some(id) && id in d.snaps.now
    ensures Pruned(d0, d.(snaps := Put(d.snaps, id, v, track)))
  {
    var d' := d.(snaps := Put(d.snaps, id, v, track));
    if d0.pointer.now.Some? {
      assert SlotKept(d, d', d0.pointer.now.value);
    }
  }

  lemma CutStep(d0: Disk, d: Disk, list: seq<Manifest>, k: int, track: bool)
    requires Listing(d0.snaps.now, list) && CutAt(d0.snaps.now, d.snaps.now, list, k + 1, d0.pointer.now)
    requires 0 <= k < |list|
    ensures list[k].id in d.snaps.now
    ensures d0.pointer.now == Some(list[k].id) ==> CutAt(d0.snaps.now, d.snaps.now, list, k, d0.pointer.now)
    ensures d0.pointer.now != Some(list[k].id) ==>
              CutAt(d0.snaps.now, Put(d.snaps, list[k].id, None, track).now, list, k, d0.pointer.now)
  {
  }

  lemma OneLess(snaps: map<nat, SnapDir>, id: nat)
    requires id in snaps
    ensures |snaps - {id}| == |snaps| - 1
  {
    assert (snaps - {id}).Keys == snaps.Keys - {id};
  }

  lemma ListingSize(d: Disk, list: seq<Manifest>)
    requires Listing(d.snaps.now, list)
    ensures |list| == Count(d)
  {
    IdsSize(list);
  }

  lemma {:induction false} IdsSize(list: seq<Manifest>)
    requires Distinct(list)
    ensures |Ids(list)| == |list|
  {
    if list != [] {
      var init, last := list[..|list| - 1], list[|list| - 1];
      IdsSize(init);
      assert Ids(list) == Ids(init) + {last.id};
    }
  }

  /** The two newest snapshots survive a prune that keeps two or more, whichever is pinned. */
  lemma RecentSurvives(d: Disk, d': Disk, keep: nat, a: nat, b: nat)
    requires Retained(d, d', keep) && keep >= 2 && a in d.snaps.now && b in d.snaps.now && a != b
    requires d.pointer.now == Some(b)
    requires forall id | id in d.snaps.now && id != a && id != b :: TimeOf(d, id) < TimeOf(d, a)
    ensures a in d'.snaps.now && b in d'.snaps.now
  {
    if a !in d'.snaps.now {
      forall id | id in d'.snaps.now.Keys
        ensures id in {b}
      {
      }
      SubsetSize(d'.snaps.now.Keys, {b});
      SubsetSize({a, b}, d.snaps.now.Keys);
    }
  }

  /** The newest ordinary snapshot survives a prune that keeps two or more, whether or not one is pinned. */
  lemma NewestSurvives(d: Disk, d': Disk, keep: nat, a: nat)
    requires Retained(d, d', keep) && keep >= 2 && a in d.snaps.now
    requires d.pointer.now.Some? ==> d.pointer.now.value in d.snaps.now && d.pointer.now.value != a
    requires forall id | id in d.snaps.now && id != a && d.pointer.now != Some(id) :: TimeOf(d, id) < TimeOf(d, a)
    ensures a in d'.snaps.now
  {
    if d.pointer.now.Some? {
      RecentSurvives(d, d', keep, a, d.pointer.now.value);
    } else if a !in d'.snaps.now {
      if id :| id in d'.snaps.now {
        assert false;
      }
      SubsetSize(d'.snaps.now.Keys, {});
      SubsetSize({a}, d.snaps.now.Keys);
    }
  }

  // ----- DeleteSnapshot -----

  ghost predicate OneDropped(d: Disk, d': Disk, id: nat) {
    && Pruned(d, d')
    && forall other | other != id :: Get(d'.snaps.now, other) == Get(d.snaps.now, other)
  }

  method DeleteSnapshot(s: Store, id: nat) returns (r: Result<()>)
    requires s.alive && Calm(s.disk)
    modifies s`alive, s`disk
    ensures s.alive <==> r != Err(Dead)
    ensures OneDropped(old(s.disk), s.disk, id) && Grown(s.sha, old(s.disk), s.disk, map[])
    ensures r.Ok? ==> id in old(s.disk.snaps.now) && id !in s.disk.snaps.now
    ensures old(s.disk.journal.now).Some? || s.disk.pointer.now == Some(id) || !old(Loadable(s, id)) ==>
              s.disk == old(s.disk) && r.Err?
  {
    hide Loads, Grown;
    GrownStill(s.sha, s.disk, s.disk);
    var pin := BaselineId(s);
    if pin.Err? {
      return Err(pin.error);
    }
    if pin.value == Some(id) {
      return Err(Pinned);
    }
    var st := s.Try();
    if st != Done {
      return Err(Why(st));
    }
    if s.disk.journal.now.Some? {
      return Err(RecoveryRequired);
    }
    var load := LoadSnapshot(s, id);
    if load.Err? {
      return Err(load.error);
    }
    r := Drop(s, id);
  }

  method Drop(s: Store, id: nat) returns (r: Result<()>)
    requires s.alive && Calm(s.disk) && s.disk.pointer.now != Some(id) && Loadable(s, id)
    modifies s`alive, s`disk
    ensures s.alive <==> r != Err(Dead)
    ensures OneDropped(old(s.disk), s.disk, id) && Grown(s.sha, old(s.disk), s.disk, map[])
    ensures r.Ok? ==> id !in s.disk.snaps.now
  {
    hide Loads, Grown, Shrinks;
    ghost var d0 := s.disk;
    var st := s.RemoveSnap(id);
    PrunedStep(d0, d0, id, if st == Done then None else Some(s.disk.snaps.now[id]), s.power);
    GrownPut(s.sha, d0, id, if st == Done then None else Some(s.disk.snaps.now[id]), s.power);
    ghost var d1 := s.disk;
    GrownStill(s.sha, d1, Store.Synced(d1));
    GrownOn(s.sha, d0, d1, Store.Synced(d1), map[]);
    if st == Killed {
      return Err(Dead);
    }
    var sync := s.SyncBackups();
    if sync == Killed {
      return Err(Dead);
    }
    return if st == Done && sync == Done then Ok(()) else Err(IO);
  }
}
