/** The manager's database: the managed files it remembers, and the drift report. */
module Drifts {
  import opened Basics

  datatype Row = Row(hash: string, modified: bool)

  datatype Drift = Drift(path: string, managed: string, disk: string)

  datatype Settings = Settings(snapshot: Option<nat>, revision: Option<string>)

  type Hashes = map<string, string>

  /** Indexing a Go map: a missing path has the empty hash. */
  function Lookup(m: Hashes, p: string): string { if p in m then m[p] else "" }

  function Known(rows: map<string, Row>): Hashes {
    map p | p in rows :: rows[p].hash
  }

  function Fresh(hashes: Hashes): map<string, Row> {
    map p | p in hashes :: Row(hashes[p], false)
  }

  // ----- the drift report, declaratively -----

  /** Changed, missing or added. */
  predicate Differs(known: Hashes, live: Hashes, p: string) {
    (p in known && Lookup(live, p) != known[p]) || (p in live && p !in known)
  }

  /** Every differing path, once, with both hashes, and no other path. */
  ghost predicate Exact(known: Hashes, live: Hashes, drift: seq<Drift>) {
    && (forall i, j | 0 <= i < j < |drift| :: drift[i].path != drift[j].path)
    && (forall d | d in drift ::
          Differs(known, live, d.path) && d == Drift(d.path, Lookup(known, d.path), Lookup(live, d.path)))
    && (forall p | Differs(known, live, p) :: Drift(p, Lookup(known, p), Lookup(live, p)) in drift)
  }

  /** A path is reported exactly when the two listings disagree about it, but for
      one case that real digests exclude: an empty managed hash and no file. */
  lemma DiffersIff(known: Hashes, live: Hashes, p: string)
    ensures Differs(known, live, p) <==> Get(known, p) != Get(live, p) && !(Get(known, p) == Some("") && p !in live)
  {
  }

  lemma ExactMore(known: Hashes, live: Hashes, drift: seq<Drift>, p: string, seen: set<string>)
    requires Reported(known, live, drift, seen) && p !in seen
    ensures Reported(known, live,
                     if Differs(known, live, p) then drift + [Drift(p, Lookup(known, p), Lookup(live, p))]
                       else drift, seen + {p})
  {
  }

  /** The report so far is exact for the paths seen so far. */
  ghost predicate Reported(known: Hashes, live: Hashes, drift: seq<Drift>, seen: set<string>) {
    && (forall i, j | 0 <= i < j < |drift| :: drift[i].path != drift[j].path)
    && (forall d | d in drift ::
          d.path in seen && Differs(known, live, d.path) &&
          d == Drift(d.path, Lookup(known, d.path), Lookup(live, d.path)))
    && (forall p | p in seen && Differs(known, live, p) :: Drift(p, Lookup(known, p), Lookup(live, p)) in drift)
  }

  class Database {
    var files: map<string, Row>
    var settings: Settings

    constructor ()
      ensures files == map[] && settings == Settings(None, None)
    {
      files, settings := map[], Settings(None, None);
    }

    /** `SaveBaseline`: one transaction; any statement or the commit may fail. */
    method SaveBaseline(snapshot: nat, revision: string, hashes: Hashes) returns (ok: bool)
      modifies this
      ensures ok ==> files == Fresh(hashes) && settings == Settings(Some(snapshot), Some(revision))
      ensures !ok ==> files == old(files) && settings == old(settings)
    {
      var rows: map<string, Row> := map[];
      var todo := hashes.Keys;
      while todo != {}
        invariant todo <= hashes.Keys
        invariant rows == map p | p in hashes && p !in todo :: Row(hashes[p], false)
        decreases todo
      {
        var p :| p in todo;
        if * {
          return false;
        }
        rows := rows[p := Row(hashes[p], false)];
        todo := todo - {p};
      }
      if * {
        return false;
      }
      files, settings := rows, Settings(Some(snapshot), Some(revision));
      return true;
    }

    /** `ObserveFiles`: report the drift and flag it, without accepting it. */
    method ObserveFiles(hashes: Hashes) returns (r: Option<seq<Drift>>)
      modifies this`files
      ensures r.Some? ==> Exact(old(Known(files)), hashes, r.value)
      ensures r.Some? ==> forall p | p in files :: files[p].modified <==> Differs(Known(files), hashes, p)
      ensures Known(files) == old(Known(files))
      ensures r.None? ==> files == old(files)
    {
      hide Reported, Differs;
      ghost var known := Known(files);
      var done, rows, drift := FlagKnown(files, hashes);
      if !done {
        return None;
      }
      drift := AddNew(Known(rows), hashes, drift);
      ReportedAll(known, hashes, drift);
      if * {
        return None;
      }
      files := rows;
      return Some(drift);
    }
  }

  /** The first loop: the managed files, each flagged by whether it differs. */
  method FlagKnown(files: map<string, Row>, hashes: Hashes)
    returns (done: bool, rows: map<string, Row>, drift: seq<Drift>)
    ensures done ==> Known(rows) == Known(files) && Reported(Known(files), hashes, drift, Known(files).Keys)
    ensures done ==> forall p | p in rows :: rows[p].modified <==> Differs(Known(files), hashes, p)
  {
    hide Reported, Differs;
    var known := Known(files);
    rows, drift := files, [];
    var todo := known.Keys;
    NothingReported(known, hashes);
    while todo != {}
      invariant todo <= known.Keys && rows.Keys == known.Keys && Known(rows) == known
      invariant forall p | p in known && p !in todo :: rows[p].modified <==> Differs(known, hashes, p)
      invariant Reported(known, hashes, drift, known.Keys - todo)
      decreases todo
    {
      var p :| p in todo;
      var different := Lookup(hashes, p) != known[p];
      KnownDiffers(known, hashes, p);
      ExactMore(known, hashes, drift, p, known.Keys - todo);
      if different {
        drift := drift + [Drift(p, known[p], Lookup(hashes, p))];
      }
      if * {
        return false, rows, drift;
      }
      rows := rows[p := rows[p].(modified := different)];
      assert known.Keys - (todo - {p}) == known.Keys - todo + {p};
      todo := todo - {p};
    }
    assert known.Keys - {} == known.Keys;
    return true, rows, drift;
  }

  lemma NothingReported(known: Hashes, live: Hashes)
    ensures Reported(known, live, [], known.Keys - known.Keys)
  {
  }

  lemma KnownDiffers(known: Hashes, live: Hashes, p: string)
    requires p in known
    ensures Differs(known, live, p) <==> Lookup(live, p) != known[p]
  {
  }

  lemma NewDiffers(known: Hashes, live: Hashes, p: string)
    requires p in live && p !in known
    ensures Differs(known, live, p)
  {
  }

  lemma ReportedAll(known: Hashes, live: Hashes, drift: seq<Drift>)
    requires Reported(known, live, drift, known.Keys + live.Keys)
    ensures Exact(known, live, drift)
  {
  }

  /** The second loop: files that are not managed at all. */
  method AddNew(known: Hashes, hashes: Hashes, drift: seq<Drift>) returns (r: seq<Drift>)
    requires Reported(known, hashes, drift, known.Keys)
    ensures Reported(known, hashes, r, known.Keys + hashes.Keys)
  {
    hide Reported, Differs;
    r := drift;
    var todo := hashes.Keys;
    assert known.Keys + (hashes.Keys - todo) == known.Keys;
    while todo != {}
      invariant todo <= hashes.Keys && Reported(known, hashes, r, known.Keys + (hashes.Keys - todo))
      decreases todo
    {
      var p :| p in todo;
      ghost var seen := known.Keys + (hashes.Keys - todo);
      if p !in known {
        NewDiffers(known, hashes, p);
        ExactMore(known, hashes, r, p, seen);
        r := r + [Drift(p, "", hashes[p])];
        assert seen + {p} == known.Keys + (hashes.Keys - (todo - {p}));
      } else {
        assert seen == known.Keys + (hashes.Keys - (todo - {p}));
      }
      todo := todo - {p};
    }
    assert hashes.Keys - {} == hashes.Keys;
  }
}
