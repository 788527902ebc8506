/** `replace`: how a directory equal to `before` becomes one equal to `after`,
    and every image that can be seen on the way. */
module Replace {
  import opened Basics
  import opened Paths
  import opened Images
  import opened Revision
  import opened Disks
  import opened Primitives

  datatype Move = Write(path: string, file: File) | Erase(path: string)

  function Make(im: Image, m: Move): Image {
    match m
    case Write(p, f) => im[Canon(p) := f]
    case Erase(p) => im - {p}
  }

  function Play(im: Image, moves: seq<Move>): Image {
    if moves == [] then im
    else Make(Play(im, moves[..|moves| - 1]), moves[|moves| - 1])
  }

  function ChangedPaths(before: Image, after: Image): set<string> {
    set p | p in after && !(p in before && before[p] == after[p])
  }

  function GonePaths(before: Image, after: Image): set<string> {
    before.Keys - after.Keys
  }

  ghost function Writes(before: Image, after: Image): (moves: seq<Move>)
    ensures |moves| == |SortedKeys(ChangedPaths(before, after))|
  {
    var ks := SortedKeys(ChangedPaths(before, after));
    seq(|ks|, i requires 0 <= i < |ks| => assert ks[i] in Elements(ks); Write(ks[i], after[ks[i]]))
  }

  ghost function Erasures(before: Image, after: Image): (moves: seq<Move>)
    ensures |moves| == |SortedKeys(GonePaths(before, after))|
  {
    var ks := SortedKeys(GonePaths(before, after));
    seq(|ks|, i requires 0 <= i < |ks| => Erase(ks[i]))
  }

  /** The renames in path order, then the removals in path order. */
  ghost function Moves(before: Image, after: Image): seq<Move> {
    Writes(before, after) + Erasures(before, after)
  }

  lemma PlayNext(im: Image, moves: seq<Move>, i: nat)
    requires i < |moves|
    ensures Play(im, moves[..i + 1]) == Make(Play(im, moves[..i]), moves[i])
  {
    assert moves[..i + 1][..i] == moves[..i];
  }

  ghost predicate ValidKeys(im: Image) {
    forall p | p in im :: ValidPath(p)
  }

  /** Every image on the way has, for each path, its whole old or its whole new version. */
  lemma {:induction false} OldOrNew(before: Image, after: Image, i: nat, q: string)
    requires i <= |Moves(before, after)| && Canonical(after)
    ensures var mid := Play(before, Moves(before, after)[..i]);
            Get(mid, q) == Get(before, q) || Get(mid, q) == Get(after, q)
  {
    hide Managed, Canon, SortedKeys;
    if i > 0 {
      OldOrNew(before, after, i - 1, q);
      PlayNext(before, Moves(before, after), i - 1);
      MoveMeans(before, after, i - 1);
    }
  }

  lemma MoveMeans(before: Image, after: Image, i: nat)
    requires i < |Moves(before, after)|
    ensures match Moves(before, after)[i]
            case Write(p, f) => p in after && f == after[p] && (Canonical(after) ==> Canon(p) == p)
            case Erase(p) => p in before && p !in after
  {
    hide Managed, Canon;
    var ws, es := SortedKeys(ChangedPaths(before, after)), SortedKeys(GonePaths(before, after));
    if i < |ws| {
      assert ws[i] in Elements(ws);
      if Canonical(after) {
        ManagedCanon(ws[i]);
      }
    } else {
      assert es[i - |ws|] in Elements(es);
    }
  }

  /** The last word on a path: the final image has what `after` has. */
  lemma {:induction false} Settled(before: Image, after: Image, i: nat, j: nat, q: string)
    requires j < i <= |Moves(before, after)| && Canonical(after) && Moves(before, after)[j].path == q
    ensures Get(Play(before, Moves(before, after)[..i]), q) == Get(after, q)
  {
    hide Managed, Canon, SortedKeys;
    PlayNext(before, Moves(before, after), i - 1);
    MoveMeans(before, after, i - 1);
    if j < i - 1 {
      Settled(before, after, i - 1, j, q);
    }
  }

  lemma MoveOf(before: Image, after: Image, q: string) returns (j: nat)
    requires Get(before, q) != Get(after, q)
    ensures j < |Moves(before, after)| && Moves(before, after)[j].path == q
  {
    var ws, es := SortedKeys(ChangedPaths(before, after)), SortedKeys(GonePaths(before, after));
    if q in after {
      assert q in Elements(ws);
      j :| 0 <= j < |ws| && ws[j] == q;
    } else {
      assert q in Elements(es);
      var k: nat :| k < |es| && es[k] == q;
      j := |ws| + k;
    }
  }

  /** All moves together turn `before` into exactly `after`, for canonical keys. */
  lemma PlayedOut(before: Image, after: Image)
    requires Canonical(after)
    ensures Play(before, Moves(before, after)) == after
  {
    hide Managed, Canon, SortedKeys;
    var moves := Moves(before, after);
    assert moves[..|moves|] == moves;
    forall q
      ensures Get(Play(before, moves), q) == Get(after, q)
    {
      OldOrNew(before, after, |moves|, q);
      if Get(before, q) != Get(after, q) {
        var j := MoveOf(before, after, q);
        Settled(before, after, |moves|, j, q);
      }
    }
    EqualMaps(Play(before, moves), after);
  }

  /** Whatever was asked for, the directory only ever holds canonical names. */
  lemma {:induction false} PlayCanonical(before: Image, after: Image, i: nat)
    requires i <= |Moves(before, after)| && Canonical(before) && ValidKeys(after)
    ensures Canonical(Play(before, Moves(before, after)[..i]))
  {
    hide Managed, Canon, SortedKeys, ValidPath;
    if i > 0 {
      PlayCanonical(before, after, i - 1);
      PlayNext(before, Moves(before, after), i - 1);
      MoveMeans(before, after, i - 1);
      if Moves(before, after)[i - 1].Write? {
        CanonManaged(Moves(before, after)[i - 1].path);
      }
    }
  }

  /** So `replace` reaches the image it was given exactly when its keys are canonical. */
  lemma ReplaceReaches(before: Image, after: Image)
    requires Canonical(before) && ValidKeys(after)
    ensures Play(before, Moves(before, after)) == after <==> Canonical(after)
  {
    hide Managed, Canon, ValidPath;
    var moves := Moves(before, after);
    PlayCanonical(before, after, |moves|);
    assert moves[..|moves|] == moves;
    if Canonical(after) {
      PlayedOut(before, after);
    }
  }

  // ----- what a loss of power may leave on the way -----

  /** Some image on the way has v at p. */
  ghost predicate Seen(before: Image, after: Image, p: string, v: Option<File>) {
    exists i :: 0 <= i <= |Moves(before, after)| && v == Get(Play(before, Moves(before, after)[..i]), p)
  }

  /** Each managed name can only hold what it could hold at the start, or what some image on the way has there. */
  ghost predicate Whole(was: Dir<string, File>, live: Dir<string, File>, before: Image, after: Image) {
    forall p, v | Managed(p) && MayBe(live, p, v) :: MayBe(was, p, v) || Seen(before, after, p, v)
  }

  ghost predicate Within(was: Dir<string, File>, live: Dir<string, File>) {
    forall p, v | Managed(p) && MayBe(live, p, v) :: MayBe(was, p, v)
  }

  /** Whatever a name could hold, it still can. */
  ghost predicate Remembers(was: Dir<string, File>, live: Dir<string, File>) {
    forall p, v | MayBe(was, p, v) :: MayBe(live, p, v)
  }

  lemma PutRemembers(was: Dir<string, File>, live: Dir<string, File>, k: string, v: Option<File>)
    requires Remembers(was, live)
    ensures Remembers(was, Put(live, k, v, true))
  {
    forall p, w | MayBe(was, p, w)
      ensures MayBe(Put(live, k, v, true), p, w)
    {
      assert MayBe(live, p, w);
    }
  }

  lemma PutWithin(was: Dir<string, File>, live: Dir<string, File>, k: string, v: Option<File>, track: bool)
    requires Within(was, live) && !Managed(k)
    ensures Within(was, Put(live, k, v, track))
  {
    hide Managed;
    var after := Put(live, k, v, track);
    forall p, w | Managed(p) && MayBe(after, p, w)
      ensures MayBe(was, p, w)
    {
      assert MayBe(live, p, w);
    }
  }

  lemma PutWhole(was: Dir<string, File>, live: Dir<string, File>, before: Image, after: Image, k: string,
                 v: Option<File>, track: bool)
    requires Whole(was, live, before, after) && (Managed(k) ==> Seen(before, after, k, v))
    ensures Whole(was, Put(live, k, v, track), before, after)
  {
    hide Managed, Seen;
    var moved := Put(live, k, v, track);
    forall p, w | Managed(p) && MayBe(moved, p, w)
      ensures MayBe(was, p, w) || Seen(before, after, p, w)
    {
      if !(p == k && w == v) {
        assert MayBe(live, p, w);
      }
    }
  }

  lemma WholeFrom(was: Dir<string, File>, mid: Dir<string, File>, live: Dir<string, File>, before: Image, after: Image)
    requires Within(was, mid) && Whole(mid, live, before, after)
    ensures Whole(was, live, before, after)
  {
    hide Managed, Seen, MayBe;
  }

  lemma WholeWithin(was: Dir<string, File>, mid: Dir<string, File>, live: Dir<string, File>, before: Image,
                    after: Image)
    requires Whole(was, mid, before, after) && Within(mid, live)
    ensures Whole(was, live, before, after)
  {
    hide Managed, Seen, MayBe;
  }

  lemma WholeItself(was: Dir<string, File>, before: Image, after: Image)
    ensures Whole(was, was, before, after) && Within(was, was) && Remembers(was, was)
  {
    hide Managed, Seen, MayBe;
  }

  /** In images with canonical keys that is the whole old or the whole new version. */
  lemma SeenOldOrNew(before: Image, after: Image, p: string, v: Option<File>)
    requires Canonical(after) && Seen(before, after, p, v)
    ensures v == Get(before, p) || v == Get(after, p)
  {
    hide Managed, Moves, Play;
    var i :| 0 <= i <= |Moves(before, after)| && v == Get(Play(before, Moves(before, after)[..i]), p);
    OldOrNew(before, after, i, p);
  }

  /** A loss of power leaves each managed name with its old or with its new version, and may leave either. */
  ghost predicate EitherWay(live: Dir<string, File>, before: Image, after: Image) {
    forall p, v | Managed(p) :: MayBe(live, p, v) <==> v == Get(before, p) || v == Get(after, p)
  }

  lemma AllUnsynced(was: Dir<string, File>, live: Dir<string, File>, before: Image, after: Image)
    requires Whole(was, live, before, after) && Remembers(was, live) && forall p | p in was.may :: !Managed(p)
    requires ImageOf(was.now) == before && ImageOf(live.now) == after && Canonical(after)
    ensures EitherWay(live, before, after)
  {
    hide Managed, Seen;
    forall p, v | Managed(p)
      ensures MayBe(live, p, v) <==> v == Get(before, p) || v == Get(after, p)
    {
      ImageAt(was.now, p);
      ImageAt(live.now, p);
      assert MayBe(was, p, Get(before, p)) && MayBe(live, p, Get(after, p));
      if MayBe(live, p, v) && !MayBe(was, p, v) {
        SeenOldOrNew(before, after, p, v);
      }
    }
  }

  lemma ImageAt(live: map<string, File>, p: string)
    requires Managed(p)
    ensures Get(ImageOf(live), p) == Get(live, p)
  {
  }

  // ----- the code -----

  /** The temporaries that wait to be renamed. */
  ghost predicate Staged(live: map<string, File>, after: Image, staged: map<string, string>) {
    && (forall p | p in staged :: p in after && staged[p] in live && live[staged[p]] == after[p] && !Managed(staged[p]))
    && (forall p, q | p in staged && q in staged && p != q :: staged[p] != staged[q])
  }

  lemma TempInvisible(live: map<string, File>, t: string, f: File)
    requires !Managed(t)
    ensures ImageOf(live[t := f]) == ImageOf(live) == ImageOf(live - {t})
  {
    hide Managed;
    assert ImageOf(live[t := f]) == ImageOf(live);
    assert ImageOf(live - {t}) == ImageOf(live);
  }

  lemma RenameVisible(live: map<string, File>, t: string, p: string, f: File)
    requires !Managed(t) && Managed(p)
    ensures ImageOf(live[p := f] - {t}) == ImageOf(live)[p := f]
  {
    hide Managed;
  }

  lemma RemoveVisible(live: map<string, File>, p: string)
    ensures ImageOf(live - {p}) == ImageOf(live) - {p}
  {
    hide Managed;
  }

  lemma TempPut(was: Dir<string, File>, live: Dir<string, File>, t: string, v: Option<File>, track: bool)
    requires !Managed(t) && Within(was, live) && (track ==> Remembers(was, live))
    ensures Within(was, Put(live, t, v, track)) && (track ==> Remembers(was, Put(live, t, v, track)))
  {
    hide Managed, MayBe;
    PutWithin(was, live, t, v, track);
    if track {
      PutRemembers(was, live, t, v);
    }
  }

  /** `stage`: write the temporary, and take it away again when that fails. */
  method Stage(s: Store, p: string, f: File) returns (e: Status, tmp: string)
    requires s.alive && ValidPath(p)
    modifies s`alive, s`disk
    ensures s.alive <==> e != Killed
    ensures s.disk == old(s.disk).(live := s.disk.live)
    ensures e == Done ==> !Managed(tmp) && tmp !in old(s.disk.live.now)
    ensures forall n | n in old(s.disk.live.now) ::
              n in s.disk.live.now && s.disk.live.now[n] == old(s.disk.live.now)[n]
    ensures e == Done ==> s.disk.live.now == old(s.disk.live.now)[tmp := f]
    ensures ImageOf(s.disk.live.now) == ImageOf(old(s.disk.live.now))
    ensures Within(old(s.disk.live), s.disk.live) && (s.power ==> Remembers(old(s.disk.live), s.disk.live))
  {
    hide Managed, ValidPath, TempName, Within, Remembers;
    WholeItself(s.disk.live, map[], map[]);
    var id: string := *;
    tmp := TempName(p, id);
    TempUnmanaged(p, id);
    ghost var l0 := s.disk.live;
    var created: bool;
    e, created := s.WriteTemp(tmp, f);
    if tmp in s.disk.live.now {
      TempInvisible(l0.now, tmp, s.disk.live.now[tmp]);
      TempPut(l0, l0, tmp, Some(s.disk.live.now[tmp]), s.power);
    }
    if e == Failed && created {
      ghost var l1 := s.disk.live;
      var gone := s.Remove(tmp);
      TempInvisible(l1.now, tmp, l1.now[tmp]);
      TempPut(l0, l1, tmp, None, s.power);
      if gone == Killed {
        e := Killed;
      }
    }
  }

  /** Stage ALL files before any rename. */
  method StageAll(s: Store, before: Image, after: Image) returns (e: Status, staged: map<string, string>)
    requires s.alive && ValidKeys(after)
    modifies s`alive, s`disk
    ensures s.alive <==> e != Killed
    ensures s.disk == old(s.disk).(live := s.disk.live)
    ensures ImageOf(s.disk.live.now) == ImageOf(old(s.disk.live.now))
    ensures Staged(s.disk.live.now, after, staged)
    ensures e == Done ==> staged.Keys == ChangedPaths(before, after)
    ensures Within(old(s.disk.live), s.disk.live) && (s.power ==> Remembers(old(s.disk.live), s.disk.live))
  {
    hide Managed, ValidPath, ImageOf, Elements, Sorted, ChangedPaths, Staged, MayBe;
    var ks := SortedPaths(after.Keys);
    staged := map[];
    NothingStaged(s.disk.live.now, before, after, ks);
    var i := 0;
    while i < |ks|
      invariant 0 <= i <= |ks| && s.alive
      invariant s.disk == old(s.disk).(live := s.disk.live)
      invariant ImageOf(s.disk.live.now) == ImageOf(old(s.disk.live.now))
      invariant Staged(s.disk.live.now, after, staged)
      invariant Within(old(s.disk.live), s.disk.live) && (s.power ==> Remembers(old(s.disk.live), s.disk.live))
      invariant staged.Keys == Elements(ks[..i]) * ChangedPaths(before, after)
    {
      var p := ks[i];
      OneMoreElement(ks, i, before, after);
      if !(p in before && before[p] == after[p]) {
        var tmp: string;
        ghost var l0 := s.disk.live.now;
        e, tmp := Stage(s, p, after[p]);
        StagedMore(l0, s.disk.live.now, after, staged, p, tmp, e);
        if e != Done {
          return;
        }
        staged := staged[p := tmp];
      }
      i := i + 1;
    }
    assert ks[..i] == ks;
    AllChanged(before, after);
    e := Done;
  }

  lemma NothingStaged(live: map<string, File>, before: Image, after: Image, ks: seq<string>)
    ensures Staged(live, after, map[]) && Elements(ks[..0]) == {}
  {
  }

  lemma OneMoreElement(ks: seq<string>, i: nat, before: Image, after: Image)
    requires i < |ks| && Elements(ks) == after.Keys
    ensures ks[i] in after && Elements(ks[..i + 1]) == Elements(ks[..i]) + {ks[i]}
    ensures ks[i] in ChangedPaths(before, after) <==> !(ks[i] in before && before[ks[i]] == after[ks[i]])
  {
    assert ks[i] in Elements(ks);
    assert ks[..i + 1] == ks[..i] + [ks[i]];
  }

  lemma AllChanged(before: Image, after: Image)
    ensures after.Keys * ChangedPaths(before, after) == ChangedPaths(before, after)
  {
  }

  lemma StagedMore(l0: map<string, File>, l1: map<string, File>, after: Image, staged: map<string, string>,
                   p: string, tmp: string, e: Status)
    requires Staged(l0, after, staged) && p in after
    requires forall n | n in l0 :: n in l1 && l1[n] == l0[n]
    requires e == Done ==> !Managed(tmp) && tmp !in l0 && tmp in l1 && l1[tmp] == after[p]
    ensures Staged(l1, after, staged)
    ensures e == Done ==> Staged(l1, after, staged[p := tmp])
  {
    hide Managed;
  }

  // ----- renames, removals, syncs -----

  /** How far the moves have come. */
  ghost predicate Along(s: Store, before: Image, after: Image, done: nat)
    reads s
  {
    && done <= |Moves(before, after)|
    && ImageOf(s.disk.live.now) == Play(before, Moves(before, after)[..done])
  }

  ghost predicate StagedFrom(live: map<string, File>, after: Image, staged: map<string, string>, ks: seq<string>,
                             i: nat) {
    && (forall j | i <= j < |ks| :: ks[j] in staged && ks[j] in after && staged[ks[j]] in live
                                    && live[staged[ks[j]]] == after[ks[j]] && !Managed(staged[ks[j]]))
    && (forall j, k | i <= j < k < |ks| :: staged[ks[j]] != staged[ks[k]])
  }

  lemma StagedStart(live: map<string, File>, after: Image, staged: map<string, string>, ks: seq<string>)
    requires Staged(live, after, staged) && Sorted(ks) && Elements(ks) == staged.Keys
    ensures StagedFrom(live, after, staged, ks, 0)
  {
    hide Managed;
    forall j | 0 <= j < |ks|
      ensures ks[j] in staged
    {
      assert ks[j] in Elements(ks);
    }
    forall j, k | 0 <= j < k < |ks|
      ensures ks[j] != ks[k]
    {
      LessTotal(ks[j], ks[k]);
    }
  }

  lemma RenameStep(live: map<string, File>, after: Image, staged: map<string, string>, ks: seq<string>, i: nat)
    requires StagedFrom(live, after, staged, ks, i) && i < |ks| && ValidKeys(after)
    ensures var p := ks[i];
            && p in staged && p in after && ValidPath(p) && staged[p] != Canon(p) && !Managed(staged[p])
            && Get(live, staged[p]) == Some(after[p])
            && StagedFrom(live[Canon(p) := after[p]] - {staged[p]}, after, staged, ks, i + 1)
            && ImageOf(live[Canon(p) := after[p]] - {staged[p]}) == ImageOf(live)[Canon(p) := after[p]]
  {
    hide Managed, ValidPath, Canon;
    CanonManaged(ks[i]);
    RenameVisible(live, staged[ks[i]], Canon(ks[i]), after[ks[i]]);
  }

  lemma NoMoves(before: Image, after: Image)
    ensures Play(before, Moves(before, after)[..0]) == before
  {
  }

  lemma WriteMove(before: Image, after: Image, ks: seq<string>, i: nat)
    requires ks == SortedKeys(ChangedPaths(before, after))
    ensures |ks| == |Writes(before, after)| <= |Moves(before, after)|
    ensures i < |ks| ==> ks[i] in after && Moves(before, after)[i] == Write(ks[i], after[ks[i]])
  {
    if i < |ks| {
      assert ks[i] in Elements(ks);
    }
  }

  lemma EraseMove(before: Image, after: Image, ks: seq<string>, i: nat)
    requires ks == SortedKeys(GonePaths(before, after))
    ensures |Moves(before, after)| == |Writes(before, after)| + |ks|
    ensures i < |ks| ==> Moves(before, after)[|Writes(before, after)| + i] == Erase(ks[i])
  {
    hide SortedKeys;
  }

  /** The i-th rename and what a loss of power may make of it. */
  lemma RenamePut(was: Dir<string, File>, live: Dir<string, File>, before: Image, after: Image, i: nat, t: string,
                  track: bool)
    requires i < |Moves(before, after)| && Moves(before, after)[i].Write? && !Managed(t)
    requires Whole(was, live, before, after) && (track ==> Remembers(was, live))
    ensures var m := Moves(before, after)[i];
            var moved := Put(Put(live, Canon(m.path), Some(m.file), track), t, None, track);
            Whole(was, moved, before, after) && (track ==> Remembers(was, moved))
  {
    hide Managed, Moves, Play, Canon, Whole, Remembers;
    var m := Moves(before, after)[i];
    PlayNext(before, Moves(before, after), i);
    assert Seen(before, after, Canon(m.path), Some(m.file)) by {
      assert Get(Play(before, Moves(before, after)[..i + 1]), Canon(m.path)) == Some(m.file);
    }
    var one := Put(live, Canon(m.path), Some(m.file), track);
    PutWhole(was, live, before, after, Canon(m.path), Some(m.file), track);
    PutWhole(was, one, before, after, t, None, track);
    if track {
      PutRemembers(was, live, Canon(m.path), Some(m.file));
      PutRemembers(was, one, t, None);
    }
  }

  lemma ErasePut(was: Dir<string, File>, live: Dir<string, File>, before: Image, after: Image, i: nat, track: bool)
    requires i < |Moves(before, after)| && Moves(before, after)[i].Erase?
    requires Whole(was, live, before, after) && (track ==> Remembers(was, live))
    ensures var moved := Put(live, Moves(before, after)[i].path, None, track);
            Whole(was, moved, before, after) && (track ==> Remembers(was, moved))
  {
    hide Managed, Moves, Play, Whole, Remembers;
    var p := Moves(before, after)[i].path;
    PlayNext(before, Moves(before, after), i);
    assert Seen(before, after, p, None) by {
      assert Get(Play(before, Moves(before, after)[..i + 1]), p) == None;
    }
    PutWhole(was, live, before, after, p, None, track);
    if track {
      PutRemembers(was, live, p, None);
    }
  }

  method RenameAll(s: Store, ghost before: Image, ghost after: Image, staged: map<string, string>)
    returns (e: Status, ghost done: nat)
    requires s.alive && ValidKeys(after) && ImageOf(s.disk.live.now) == before
    requires Staged(s.disk.live.now, after, staged) && staged.Keys == ChangedPaths(before, after)
    modifies s`alive, s`disk
    ensures s.alive <==> e != Killed
    ensures s.disk == old(s.disk).(live := s.disk.live)
    ensures Along(s, before, after, done)
    ensures Whole(old(s.disk.live), s.disk.live, before, after)
    ensures s.power ==> Remembers(old(s.disk.live), s.disk.live)
    ensures e == Done ==> done == |Writes(before, after)|
  {
    hide Managed, ValidPath, ImageOf, Moves, Play, Staged, Canon, Sorted, Elements, ChangedPaths, Writes, StagedFrom,
      ValidKeys, Whole, Remembers;
    WholeItself(s.disk.live, before, after);
    var ks := SortedPaths(staged.Keys);
    StagedStart(s.disk.live.now, after, staged, ks);
    var i := 0;
    done := 0;
    NoMoves(before, after);
    WriteMove(before, after, ks, 0);
    while i < |ks|
      invariant 0 <= i <= |ks| && s.alive && done == i
      invariant s.disk == old(s.disk).(live := s.disk.live)
      invariant Along(s, before, after, done)
      invariant StagedFrom(s.disk.live.now, after, staged, ks, i)
      invariant Whole(old(s.disk.live), s.disk.live, before, after)
      invariant s.power ==> Remembers(old(s.disk.live), s.disk.live)
    {
      var p := ks[i];
      RenameStep(s.disk.live.now, after, staged, ks, i);
      WriteMove(before, after, ks, i);
      PlayNext(before, Moves(before, after), i);
      RenamePut(old(s.disk.live), s.disk.live, before, after, i, staged[p], s.power);
      e := s.Rename(staged[p], Canon(p));
      if e != Done {
        return;
      }
      done := done + 1;
      i := i + 1;
    }
    e := Done;
  }

  method EraseAll(s: Store, before: Image, after: Image) returns (e: Status, ghost done: nat)
    requires s.alive && Along(s, before, after, |Writes(before, after)|)
    modifies s`alive, s`disk
    ensures s.alive <==> e != Killed
    ensures s.disk == old(s.disk).(live := s.disk.live)
    ensures Along(s, before, after, done)
    ensures Whole(old(s.disk.live), s.disk.live, before, after)
    ensures s.power ==> Remembers(old(s.disk.live), s.disk.live)
    ensures e == Done ==> done == |Moves(before, after)|
  {
    hide Managed, ImageOf, Moves, Play, Sorted, Elements, Writes, Whole, Remembers;
    WholeItself(s.disk.live, before, after);
    var ks := SortedPaths(before.Keys - after.Keys);
    assert ks == SortedKeys(GonePaths(before, after));
    var i := 0;
    done := |Writes(before, after)|;
    EraseMove(before, after, ks, 0);
    while i < |ks|
      invariant 0 <= i <= |ks| && s.alive && done == |Writes(before, after)| + i
      invariant s.disk == old(s.disk).(live := s.disk.live)
      invariant Along(s, before, after, done)
      invariant Whole(old(s.disk.live), s.disk.live, before, after)
      invariant s.power ==> Remembers(old(s.disk.live), s.disk.live)
    {
      EraseMove(before, after, ks, i);
      PlayNext(before, Moves(before, after), done);
      RemoveVisible(s.disk.live.now, ks[i]);
      ErasePut(old(s.disk.live), s.disk.live, before, after, done, s.power);
      assert ks[i] !in s.disk.live.now ==> s.disk.live.now - {ks[i]} == s.disk.live.now;
      e := s.Remove(ks[i]);
      if e != Done {
        return;
      }
      done := done + 1;
      i := i + 1;
    }
    e := Done;
  }

  /** Both directories are synced, whatever becomes of the first sync. */
  method SyncBoth(s: Store) returns (e: Status)
    requires s.alive
    modifies s`alive, s`disk
    ensures s.alive <==> e != Killed
    ensures s.disk == old(s.disk).(live := s.disk.live) && s.disk.live.now == old(s.disk.live.now)
    ensures e == Done ==> LiveSynced(s.disk)
    ensures Within(old(s.disk.live), s.disk.live)
  {
    hide Managed;
    e := s.SyncLiveDir(true);
    if e == Killed {
      return;
    }
    var f := s.SyncLiveDir(false);
    e := if f == Killed then Killed else if e == Done then f else e;
  }

  /** The deferred removal of every temporary; errors are ignored. */
  method CleanTemps(s: Store, staged: map<string, string>)
    requires s.alive && forall p | p in staged :: !Managed(staged[p])
    modifies s`alive, s`disk
    ensures s.disk == old(s.disk).(live := s.disk.live)
    ensures ImageOf(s.disk.live.now) == ImageOf(old(s.disk.live.now))
    ensures LiveSynced(old(s.disk)) ==> LiveSynced(s.disk)
    ensures Within(old(s.disk.live), s.disk.live)
  {
    hide Managed, ImageOf, Within;
    WholeItself(s.disk.live, map[], map[]);
    var todo := staged.Keys;
    while todo != {}
      invariant s.alive && todo <= staged.Keys
      invariant s.disk == old(s.disk).(live := s.disk.live)
      invariant ImageOf(s.disk.live.now) == ImageOf(old(s.disk.live.now))
      invariant LiveSynced(old(s.disk)) ==> LiveSynced(s.disk)
      invariant Within(old(s.disk.live), s.disk.live)
      decreases todo
    {
      var p :| p in todo;
      todo := todo - {p};
      ghost var l0 := s.disk.live;
      PutWithin(old(s.disk.live), l0, staged[p], None, s.power);
      var e := s.Remove(staged[p]);
      TempInvisible(l0.now, staged[p], File("", 0, 0, 0));
      if e == Killed {
        return;
      }
    }
  }

  /** All the moves, and no sync yet: at the end every name can still be old or new. */
  method MakeMoves(s: Store, before: Image, after: Image, staged: map<string, string>)
    returns (e: Status, ghost done: nat)
    requires s.alive && ValidKeys(after) && ImageOf(s.disk.live.now) == before
    requires Staged(s.disk.live.now, after, staged) && staged.Keys == ChangedPaths(before, after)
    modifies s`alive, s`disk
    ensures s.alive <==> e != Killed
    ensures s.disk == old(s.disk).(live := s.disk.live)
    ensures Along(s, before, after, done)
    ensures Whole(old(s.disk.live), s.disk.live, before, after)
    ensures s.power ==> Remembers(old(s.disk.live), s.disk.live)
    ensures e == Done ==> done == |Moves(before, after)|
    ensures s.power && e == Done && old(LiveSynced(s.disk)) && Canonical(after) ==>
              EitherWay(s.disk.live, before, after)
  {
    hide Managed, ImageOf, Moves, Play, Staged, Writes, ChangedPaths, ValidKeys, Whole, Remembers, EitherWay,
      Canonical;
    e, done := RenameAll(s, before, after, staged);
    if e == Done {
      ghost var l0, l1 := old(s.disk.live), s.disk.live;
      e, done := EraseAll(s, before, after);
      WholeTrans(l0, l1, s.disk.live, before, after);
      if s.power {
        RemembersTrans(l0, l1, s.disk.live);
      }
      if s.power && e == Done && old(LiveSynced(s.disk)) && Canonical(after) {
        PlayedOut(before, after);
        assert Moves(before, after)[..done] == Moves(before, after);
        AllUnsynced(l0, s.disk.live, before, after);
      }
    }
  }

  lemma WholeTrans(a: Dir<string, File>, b: Dir<string, File>, c: Dir<string, File>, before: Image, after: Image)
    requires Whole(a, b, before, after) && Whole(b, c, before, after)
    ensures Whole(a, c, before, after)
  {
    hide Managed, Seen, MayBe;
  }

  lemma RemembersTrans(a: Dir<string, File>, b: Dir<string, File>, c: Dir<string, File>)
    requires Remembers(a, b) && Remembers(b, c)
    ensures Remembers(a, c)
  {
    hide MayBe;
  }

  /** The moves, then the syncs. */
  method MoveAll(s: Store, before: Image, after: Image, staged: map<string, string>)
    returns (e: Status, ghost done: nat)
    requires s.alive && ValidKeys(after) && ImageOf(s.disk.live.now) == before
    requires Staged(s.disk.live.now, after, staged) && staged.Keys == ChangedPaths(before, after)
    modifies s`alive, s`disk
    ensures s.alive <==> e != Killed
    ensures s.disk == old(s.disk).(live := s.disk.live)
    ensures Along(s, before, after, done)
    ensures Whole(old(s.disk.live), s.disk.live, before, after)
    ensures e == Done ==> done == |Moves(before, after)| && LiveSynced(s.disk)
  {
    hide Managed, ImageOf, Moves, Play, Staged, Writes, ChangedPaths, ValidKeys, LiveSynced, Whole, Within;
    e, done := MakeMoves(s, before, after, staged);
    if e == Done {
      ghost var l1 := s.disk.live;
      e := SyncBoth(s);
      WholeWithin(old(s.disk.live), l1, s.disk.live, before, after);
    }
  }

  /** `replace`. However it ends, the image seen is that of some number of whole
      moves, and after a loss of power every managed name holds what it could hold
      before or its version on the way; success means all moves, durably. */
  method ReplaceAll(s: Store, before: Image, after: Image) returns (r: Result<()>, ghost done: nat)
    requires s.alive && ValidKeys(after) && ImageOf(s.disk.live.now) == before
    modifies s`alive, s`disk
    ensures s.alive <==> r != Err(Dead)
    ensures s.disk == old(s.disk).(live := s.disk.live)
    ensures Along(s, before, after, done)
    ensures Whole(old(s.disk.live), s.disk.live, before, after)
    ensures r.Ok? ==> done == |Moves(before, after)| && LiveSynced(s.disk)
    ensures r.Err? ==> r.error in {Dead, IO}
  {
    hide Managed, ImageOf, Moves, Play, Staged, Writes, ChangedPaths, ValidKeys, LiveSynced, Whole, Within, Remembers;
    done := 0;
    NoMoves(before, after);
    ghost var l0 := s.disk.live;
    WholeItself(l0, before, after);
    var e := s.Try();
    if e != Done {
      return Err(Why(e)), 0;
    }
    var staged: map<string, string>;
    e, staged := StageAll(s, before, after);
    TempsOf(s.disk.live.now, after, staged);
    ghost var l1 := s.disk.live;
    WholeItself(l1, before, after);
    if e == Done {
      e, done := MoveAll(s, before, after, staged);
    }
    ghost var l2 := s.disk.live;
    WholeFrom(l0, l1, l2, before, after);
    if e != Killed {
      CleanTemps(s, staged);
      WholeWithin(l0, l2, s.disk.live, before, after);
      if !s.alive {
        e := Killed;
      }
    }
    r := if e == Done then Ok(()) else Err(Why(e));
  }

  lemma TempsOf(live: map<string, File>, after: Image, staged: map<string, string>)
    requires Staged(live, after, staged)
    ensures forall p | p in staged :: !Managed(staged[p])
  {
  }
}
