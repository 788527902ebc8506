/** Losing power inside `replace`: every unsynced rename is kept or lost on its
    own, so the directory can come up larger than it ever was. */
module PowerLosses {
  import opened Basics
  import opened Paths
  import opened Images
  import opened Revision
  import opened Disks
  import opened Primitives
  import opened Replace
  import opened Transactions
  import opened Agreement

  /** Of every path the version with more bytes. */
  function Bigger(before: Image, after: Image): (im: Image)
    ensures im.Keys == before.Keys + after.Keys
  {
    map p | p in before.Keys + after.Keys ::
      if p !in after || (p in before && |before[p].data| > |after[p].data|) then before[p] else after[p]
  }

  lemma {:induction false} TotalBelow(a: Image, b: Image)
    requires forall p | p in a :: p in b && |a[p].data| <= |b[p].data|
    ensures TotalSize(a) <= TotalSize(b)
    decreases |a|
  {
    if a != map[] {
      var p :| p in a;
      TotalWithout(a, p);
      TotalWithout(b, p);
      TotalBelow(a - {p}, b - {p});
    }
  }

  /** Every managed name that may be there holds its old or its new version, or nothing if it had or gets none. */
  ghost predicate OldOrNewAll(live: Dir<string, File>, before: Image, after: Image) {
    forall p, v | Managed(p) && MayBe(live, p, v) :: v == Get(before, p) || v == Get(after, p)
  }

  lemma MixtureBelow(im: Image, before: Image, after: Image)
    requires forall p | p in im :: Get(im, p) == Get(before, p) || Get(im, p) == Get(after, p)
    ensures TotalSize(im) <= TotalSize(Bigger(before, after))
    ensures Readable(before) && Readable(after) ==> forall p | p in im :: |im[p].data| <= MAX_FILE_SIZE
  {
    hide TotalSize;
    forall p | p in im
      ensures p in Bigger(before, after) && |im[p].data| <= |Bigger(before, after)[p].data|
    {
      assert Get(im, p) == Some(im[p]);
    }
    TotalBelow(im, Bigger(before, after));
  }

  /** Enough room for the larger versions of all paths: whatever any loss of power
      leaves, at any point of `replace`, can be read and so recovered from. */
  lemma EveryCutReadable(d: Disk, d': Disk, before: Image, after: Image)
    requires OldOrNewAll(d.live, before, after) && PowerLoss(d, d')
    requires Readable(before) && Readable(after) && TotalSize(Bigger(before, after)) <= MAX_TOTAL_SIZE
    ensures Readable(ImageOf(d'.live.now))
  {
    hide TotalSize, Managed, Bigger;
    var im := ImageOf(d'.live.now);
    forall p | p in im
      ensures Get(im, p) == Get(before, p) || Get(im, p) == Get(after, p)
    {
      assert MayBe(d.live, p, Get(d'.live.now, p));
    }
    MixtureBelow(im, before, after);
  }

  /** The crash that keeps the larger version of every path. */
  function WorstCut(d: Disk, before: Image, after: Image): Disk {
    Picked(d, map p | p in Bigger(before, after) :: Some(Bigger(before, after)[p]), map[], {}, {}, None, None)
  }

  lemma WorstCutImage(d: Disk, before: Image, after: Image)
    requires EitherWay(d.live, before, after) && Canonical(before) && Canonical(after)
    ensures PowerLoss(d, WorstCut(d, before, after)) &&
              ImageOf(WorstCut(d, before, after).live.now) == Bigger(before, after)
  {
    hide Managed;
    var big := Bigger(before, after);
    var names := map p | p in big :: Some(big[p]);
    PickedLoss(d, names, map[], {}, {}, None, None);
    var live := WorstCut(d, before, after).live.now;
    forall p
      ensures Get(ImageOf(live), p) == Get(big, p)
    {
      if Managed(p) {
        assert Get(live, p) == PickOne(d.live, names, p);
        assert MayBe(d.live, p, Get(big, p));
        assert MayBe(d.live, p, Get(d.live.now, p));
      }
    }
    EqualMaps(ImageOf(live), big);
  }

  /** Exactly when every loss of power can be recovered from, once all renames and
      removals are done and before the syncs: the larger versions of all paths together
      stay within the limit. That is a caller's sum over the two images. */
  lemma CutsReadableIff(d: Disk, before: Image, after: Image)
    requires EitherWay(d.live, before, after) && Canonical(before) && Canonical(after)
    requires Readable(before) && Readable(after)
    ensures (forall d' | PowerLoss(d, d') :: Readable(ImageOf(d'.live.now)))
       <==> TotalSize(Bigger(before, after)) <= MAX_TOTAL_SIZE
  {
    hide TotalSize, Managed, PowerLoss, Bigger, ImageOf, WorstCut;
    WorstCutImage(d, before, after);
    assert PowerLoss(d, WorstCut(d, before, after));
    if TotalSize(Bigger(before, after)) <= MAX_TOTAL_SIZE {
      forall d' | PowerLoss(d, d')
        ensures Readable(ImageOf(d'.live.now))
      {
        EveryCutReadable(d, d', before, after);
      }
    }
  }

  /** That condition is never weaker than the one for a killed process. */
  lemma PeakWithin(before: Image, after: Image)
    requires Canonical(after)
    ensures var moves := Moves(before, after);
            Peak(TotalSize(before), before, moves, |moves|) <= TotalSize(Bigger(before, after))
  {
    hide TotalSize, Moves, Play, Peak, Bigger, RunningSize, Managed;
    var moves, limit := Moves(before, after), TotalSize(Bigger(before, after));
    forall i | 0 <= i <= |moves|
      ensures Fits(TotalSize(before), before, moves, i, limit)
    {
      forall p
        ensures Get(Play(before, moves[..i]), p) == Get(before, p) || Get(Play(before, moves[..i]), p) == Get(after, p)
      {
        OldOrNew(before, after, i, p);
      }
      MixtureBelow(Play(before, moves[..i]), before, after);
      RunningIsSize(before, after, i);
    }
    PeakIsLargest(TotalSize(before), before, moves, |moves|, limit);
  }

  /** A change of one path, which is all that the helper's write calls ask for, meets it. */
  lemma OnePathFits(before: Image, after: Image, p: string)
    requires forall q | q != p :: Get(before, q) == Get(after, q)
    ensures Bigger(before, after) == before || Bigger(before, after) == after
  {
    var big := Bigger(before, after);
    forall q | q != p
      ensures Get(big, q) == Get(before, q)
    {
      assert Get(before, q) == Get(after, q);
    }
    if Get(big, p) == Get(before, p) {
      EqualMaps(big, before);
    } else {
      forall q
        ensures Get(big, q) == Get(after, q)
      {
        assert q != p ==> Get(before, q) == Get(after, q);
      }
      EqualMaps(big, after);
    }
  }

  lemma SwapMoves(before: Image, after: Image, a: string, b: string)
    requires a in after && b in after && Less(a, b) && before.Keys == after.Keys
    requires forall q | q in before :: before[q] != after[q] <==> q == a || q == b
    ensures Moves(before, after) == [Write(a, after[a]), Write(b, after[b])]
  {
    assert ChangedPaths(before, after) == {a, b} && GonePaths(before, after) == {};
    assert Elements([a, b]) == {a, b};
    SortedUnique(SortedKeys(ChangedPaths(before, after)), [a, b]);
    EmptyListing(SortedKeys(GonePaths(before, after)));
  }

  /** It is stronger: two files that trade places pass a kill without any growth, the
      first one shrinking first, and a loss of power can leave both of them large. */
  lemma SwapGrows(rest: Image, a: string, b: string, large: File, small: File)
    requires a !in rest && b !in rest && Less(a, b) && |small.data| < |large.data|
    ensures var before, after := rest[a := large][b := small], rest[a := small][b := large];
            && TotalSize(after) == TotalSize(before)
            && Peak(TotalSize(before), before, Moves(before, after), |Moves(before, after)|) == TotalSize(before)
            && TotalSize(Bigger(before, after)) == TotalSize(before) + |large.data| - |small.data|
  {
    hide TotalSize, Moves, Less;
    var before, after := rest[a := large][b := small], rest[a := small][b := large];
    LessTotal(a, b);
    SwapMoves(before, after, a, b);
    TotalPut(rest, a, large);
    TotalPut(rest[a := large], b, small);
    TotalPut(rest, a, small);
    TotalPut(rest[a := small], b, large);
    TotalPut(rest[a := large], b, large);
    assert Bigger(before, after) == rest[a := large][b := large];
    SwapPeak(before, Moves(before, after), a, b);
  }

  lemma SwapPeak(before: Image, moves: seq<Move>, a: string, b: string)
    requires a in before && b in before && |before[b].data| < |before[a].data|
    requires |moves| == 2 && moves[0].Write? && moves[1].Write? && moves[0].path == a && moves[1].path == b
    requires moves[0].file.data == before[b].data && moves[1].file.data == before[a].data
    ensures Peak(TotalSize(before), before, moves, 2) == TotalSize(before)
  {
    hide TotalSize;
    var base := TotalSize(before);
    assert RunningSize(base, before, moves, 0) == base;
    assert RunningSize(base, before, moves, 1) == base + |before[b].data| - |before[a].data|;
    assert RunningSize(base, before, moves, 2) == base;
    assert Peak(base, before, moves, 0) == base;
    assert Peak(base, before, moves, 1) == base;
  }
}
