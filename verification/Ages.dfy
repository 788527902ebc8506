/** What becomes of a snapshot directory over time: it only ever loses parts,
    so nothing else can come to load under its name. */
module Ages {
  import opened Basics
  import opened Paths
  import opened Images
  import opened Revision
  import opened Disks

  /** A durable directory that does not load. */
  ghost predicate Wedged(sha: string -> string, d: Disk, id: nat) {
    && id in d.snaps.now && id !in d.snaps.may && d.snaps.now[id].loose == {}
    && !Loads(sha, d.snaps.now[id], id)
  }

  /** v' is what time may have left of a directory that d may hold under id. */
  ghost predicate Remains(d: Disk, id: nat, v': SnapDir) {
    exists v :: MayBe(d.snaps, id, Some(v)) && Shrinks(v, v')
  }

  /** From d to d' every directory, crash or not, is the remains of an old one or
      a part of a new snapshot, whose image `born` gives; broken ones stay. */
  ghost predicate Grown(sha: string -> string, d: Disk, d': Disk, born: map<nat, Image>) {
    && d.nextId <= d'.nextId
    && (forall id | id in born :: d.nextId <= id)
    && (forall id, v' | MayBe(d'.snaps, id, Some(v')) ::
          Remains(d, id, v') || (id in born && Fragment(sha, v', id, born[id])))
    && (forall id | Wedged(sha, d, id) :: Wedged(sha, d', id))
  }

  lemma ShrinksTrans(a: SnapDir, b: SnapDir, c: SnapDir)
    requires Shrinks(a, b) && Shrinks(b, c)
    ensures Shrinks(a, c)
  {
  }

  lemma GrownTrans(sha: string -> string, a: Disk, b: Disk, c: Disk, one: map<nat, Image>, two: map<nat, Image>)
    requires Grown(sha, a, b, one) && Grown(sha, b, c, two) && one.Keys !! two.Keys
    ensures Grown(sha, a, c, one + two)
  {
    hide Shrinks, Loads, Fragment, Wedged;
    forall id, v' | MayBe(c.snaps, id, Some(v'))
      ensures Remains(a, id, v') || (id in one + two && Fragment(sha, v', id, (one + two)[id]))
    {
      if Remains(b, id, v') {
        var v :| MayBe(b.snaps, id, Some(v)) && Shrinks(v, v');
        if Remains(a, id, v) {
          var u :| MayBe(a.snaps, id, Some(u)) && Shrinks(u, v);
          ShrinksTrans(u, v, v');
        } else {
          FragmentShrinks(sha, v, v', id, one[id]);
        }
      }
    }
  }

  /** The common case: nothing new, or nothing new any more. */
  lemma GrownOn(sha: string -> string, a: Disk, b: Disk, c: Disk, born: map<nat, Image>)
    requires Grown(sha, a, b, born) && Grown(sha, b, c, map[])
    ensures Grown(sha, a, c, born)
  {
    hide Grown;
    GrownTrans(sha, a, b, c, born, map[]);
    assert born + map[] == born;
  }

  lemma GrownMore(sha: string -> string, d: Disk, d': Disk, born: map<nat, Image>, more: map<nat, Image>)
    requires Grown(sha, d, d', born)
    requires forall id | id in born :: id in more && more[id] == born[id]
    requires forall id | id in more :: d.nextId <= id
    ensures Grown(sha, d, d', more)
  {
    hide Shrinks, Loads, Fragment, Wedged, Remains;
  }

  lemma Itself(d: Disk, id: nat, v: SnapDir)
    requires MayBe(d.snaps, id, Some(v))
    ensures Remains(d, id, v)
  {
    assert Shrinks(v, v);
  }

  /** The same directories, some of them perhaps durable now. */
  ghost predicate SnapsStill(d: Disk, d': Disk) {
    d'.snaps.now == d.snaps.now && (d'.snaps.may == d.snaps.may || d'.snaps.may == map[])
  }

  lemma GrownStill(sha: string -> string, d: Disk, d': Disk)
    requires SnapsStill(d, d') && d.nextId <= d'.nextId
    ensures Grown(sha, d, d', map[])
  {
    hide Shrinks, Loads, Remains;
    forall id, v' | MayBe(d'.snaps, id, Some(v'))
      ensures Remains(d, id, v')
    {
      Itself(d, id, v');
    }
  }

  /** One directory gives way to what is left of it. */
  lemma GrownPut(sha: string -> string, d: Disk, id: nat, v: Option<SnapDir>, track: bool)
    requires id in d.snaps.now && !Wedged(sha, d, id)
    requires v.Some? ==> Shrinks(d.snaps.now[id], v.value)
    ensures Grown(sha, d, d.(snaps := Put(d.snaps, id, v, track)), map[])
  {
    hide Shrinks, Loads;
    var d' := d.(snaps := Put(d.snaps, id, v, track));
    forall i, v' | MayBe(d'.snaps, i, Some(v'))
      ensures Remains(d, i, v')
    {
      if MayBe(d.snaps, i, Some(v')) {
        Itself(d, i, v');
      } else {
        assert MayBe(d.snaps, id, Some(d.snaps.now[id]));
      }
    }
  }

  /** A loss of power is no exception. */
  lemma GrownCrash(sha: string -> string, d: Disk, d': Disk)
    requires PowerLoss(d, d')
    ensures Grown(sha, d, d', map[])
  {
    hide Shrinks, Loads;
    forall id, v' | MayBe(d'.snaps, id, Some(v'))
      ensures Remains(d, id, v')
    {
      assert SnapSurvives(d, d', id);
      var c :| MayBe(d.snaps, id, c) && Survives(c, Get(d'.snaps.now, id));
    }
    forall id | Wedged(sha, d, id)
      ensures Wedged(sha, d', id)
    {
      assert SnapSurvives(d, d', id);
      var c :| MayBe(d.snaps, id, c) && Survives(c, Get(d'.snaps.now, id));
    }
  }

  // ----- what can load under a name -----

  function ImageIn(v: SnapDir): Image {
    if v.manifest.Some? then Contents(v, v.manifest.value) else map[]
  }

  /** Whatever loads under this name, now or after a crash, is this image. */
  ghost predicate Only(sha: string -> string, d: Disk, id: nat, im: Image) {
    forall v | MayBe(d.snaps, id, Some(v)) && Loads(sha, v, id) :: ImageIn(v) == im
  }

  /** What is left of a directory loads only if the directory did, and then as the same image. */
  lemma ShrunkLoads(sha: string -> string, v: SnapDir, v': SnapDir, id: nat)
    requires Shrinks(v, v') && Loads(sha, v', id)
    ensures Loads(sha, v, id) && ImageIn(v) == ImageIn(v')
  {
    hide ValidPath, Canon, Readable;
    var m := v.manifest.value;
    assert Contents(v, m) == Contents(v', m);
  }

  lemma FirmOnly(sha: string -> string, d: Disk, id: nat)
    requires Firm(sha, d, id)
    ensures Only(sha, d, id, SnapImage(d, id))
  {
    hide Loads, Contents;
  }

  lemma OnlyFirm(sha: string -> string, d: Disk, id: nat, im: Image)
    requires Only(sha, d, id, im) && Firm(sha, d, id)
    ensures SnapImage(d, id) == im
  {
    assert MayBe(d.snaps, id, Some(d.snaps.now[id]));
  }

  lemma OnlyGrown(sha: string -> string, d: Disk, d': Disk, born: map<nat, Image>, id: nat, im: Image)
    requires Only(sha, d, id, im) && Grown(sha, d, d', born) && id !in born
    ensures Only(sha, d', id, im)
  {
    hide Loads, Shrinks, Fragment, Wedged, ImageIn;
    forall v' | MayBe(d'.snaps, id, Some(v')) && Loads(sha, v', id)
      ensures ImageIn(v') == im
    {
      assert Remains(d, id, v');
      var v :| MayBe(d.snaps, id, Some(v)) && Shrinks(v, v');
      ShrunkLoads(sha, v, v', id);
    }
  }

  lemma NothingBefore(sha: string -> string, d: Disk, id: nat, v': SnapDir)
    requires Sound(sha, d) && d.nextId <= id
    ensures !Remains(d, id, v')
  {
  }

  lemma FragmentIs(sha: string -> string, v: SnapDir, id: nat, im: Image)
    requires Fragment(sha, v, id, im) && Loads(sha, v, id) && CollisionFree(sha)
    ensures ImageIn(v) == im
  {
    FragmentLoads(sha, v, id, im);
  }

  /** A new name: nothing was there, so only parts of its image can be. */
  lemma BornOnly(sha: string -> string, d: Disk, d': Disk, born: map<nat, Image>, id: nat)
    requires Sound(sha, d) && Grown(sha, d, d', born) && id in born && CollisionFree(sha)
    ensures Only(sha, d', id, born[id])
  {
    hide Loads, Shrinks, Fragment, CollisionFree, Remains, ImageIn;
    forall v' | MayBe(d'.snaps, id, Some(v')) && Loads(sha, v', id)
      ensures ImageIn(v') == born[id]
    {
      NothingBefore(sha, d, id, v');
      FragmentIs(sha, v', id, born[id]);
    }
  }

  /** A directory made and not filled, or stripped of its manifest, does not load. */
  lemma BareIsBroken(sha: string -> string, v: SnapDir, id: nat)
    ensures !Loads(sha, v.(manifest := None), id)
    ensures Shrinks(v, v.(manifest := None))
  {
  }
}
