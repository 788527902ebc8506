/** A Restore between two images that both fit can pass through one that does
    not, and recovery then refuses to start. */
module Stranding {
  import opened Basics
  import opened Paths
  import opened Images
  import opened Revision
  import opened Disks
  import opened Ages
  import opened Replace
  import opened Transactions
  import opened Agreement
  import opened Runs
  import opened Crashes

  /** After the renames and before the removals both sets of files are there. */
  lemma UnionReached(before: Image, after: Image)
    requires Canonical(after)
    ensures Play(before, Moves(before, after)[..|Writes(before, after)|]) == before + after
  {
    hide Managed, Canon, SortedKeys, Moves, Play;
    var n := |Writes(before, after)|;
    MovesLength(before, after);
    var mid := Play(before, Moves(before, after)[..n]);
    forall q
      ensures Get(mid, q) == Get(before + after, q)
    {
      OldOrNew(before, after, n, q);
      if q in after && Get(before, q) != Get(after, q) {
        var j := MoveOf(before, after, q);
        MoveMeans(before, after, j);
        KindOfMove(before, after, j);
        Settled(before, after, n, j, q);
      } else if q !in after {
        forall j | 0 <= j < n
          ensures Moves(before, after)[j].path != q
        {
          MoveMeans(before, after, j);
          KindOfMove(before, after, j);
        }
        Untouched(before, after, n, q);
      }
    }
    EqualMaps(mid, before + after);
  }

  lemma MovesLength(before: Image, after: Image)
    ensures |Writes(before, after)| <= |Moves(before, after)|
  {
  }

  lemma KindOfMove(before: Image, after: Image, i: nat)
    requires i < |Moves(before, after)|
    ensures Moves(before, after)[i].Write? <==> i < |Writes(before, after)|
  {
  }

  /** The configuration file and n service files named after c, all with the text t. */
  function Bulk(c: char, n: nat, conf: string, t: string): (im: Image)
    ensures CONF in im && im[CONF] == NEW_FILE.(data := conf)
  {
    if n == 0 then map[CONF := NEW_FILE.(data := conf)]
    else
      ServicesOnly(BulkName(c, n));
      Bulk(c, n - 1, conf, t)[BulkName(c, n) := NEW_FILE.(data := t)]
  }

  function BulkName(c: char, n: nat): string {
    SERVICES + (seq(n, _ => c) + SUFFIX)
  }

  lemma BulkNameParts(c: char, n: nat)
    ensures BulkName(c, n)[..9] == SERVICES && BulkName(c, n)[9..] == seq(n, _ => c) + SUFFIX
    ensures HasPrefix(BulkName(c, n), SERVICES)
    ensures HasSuffix(BulkName(c, n)[9..], SUFFIX) && HasSuffix(BulkName(c, n), SUFFIX)
  {
    var t := seq(n, _ => c) + SUFFIX;
    assert t[n..] == SUFFIX;
    var s := BulkName(c, n);
    assert s[9 + n..] == SUFFIX;
  }

  lemma BulkNameValid(c: char, n: nat)
    requires n > 0 && c in "ab"
    ensures ValidPath(BulkName(c, n)) && Managed(BulkName(c, n))
  {
    hide Split, Clean, HasPrefix, HasSuffix, DirParts, Base;
    var t := seq(n, _ => c) + SUFFIX;
    BulkNameParts(c, n);
    BulkNameChars(c, n);
    AliasParts(t);
    ServicesDir(t);
  }

  lemma BulkNameChars(c: char, n: nat)
    requires c in "ab"
    ensures '/' !in seq(n, _ => c) + SUFFIX
    ensures forall x | x in BulkName(c, n) :: x in SERVICES || x in "ab" || x in SUFFIX
    ensures '\\' !in BulkName(c, n) && '\0' !in BulkName(c, n) && '\r' !in BulkName(c, n) && '\n' !in BulkName(c, n)
  {
    var a := seq(n, _ => c);
    assert forall x | x in a :: x in "ab";
    assert forall x | x in BulkName(c, n) :: x in SERVICES || x in a || x in SUFFIX;
  }

  lemma ServicesDir(t: string)
    requires '/' !in t
    ensures DirParts(SERVICES + t) == ["services"]
  {
    var d := SERVICES[..8];
    PartsIffSep(t, '/');
    SplitAppend(d, '/', t);
    assert SERVICES + t == d + ['/'] + t;
    var parts := Split(SERVICES + t, '/');
    assert parts == [d, t] && parts[..1] == [d];
    assert [d][1..] == [] && [] + [d] == [d] && d == "services";
    assert Clean([], [d]) == [d];
    assert Clean([d], []) == [d];
  }

  /** The text passes the parser of service files under any valid service path. */
  ghost predicate AnyService(accepts: (string, string) -> bool, t: string) {
    forall p | ValidPath(p) && HasPrefix(p, SERVICES) :: accepts(p, t)
  }

  lemma {:induction false} BulkFits(accepts: (string, string) -> bool, c: char, n: nat, conf: string, t: string)
    requires c in "ab" && accepts(CONF, conf) && AnyService(accepts, t)
    requires |conf| <= MAX_FILE_SIZE && |t| <= MAX_FILE_SIZE
    ensures Canonical(Bulk(c, n, conf, t)) && ValidKeys(Bulk(c, n, conf, t))
    ensures forall p | p in Bulk(c, n, conf, t) ::
              |Bulk(c, n, conf, t)[p].data| <= MAX_FILE_SIZE && accepts(p, Bulk(c, n, conf, t)[p].data)
    ensures forall m | m > n :: BulkName(c, m) !in Bulk(c, n, conf, t)
    ensures TotalSize(Bulk(c, n, conf, t)) == |conf| + n * |t|
  {
    hide ValidPath, Managed, TotalSize, BulkName, HasPrefix;
    if n == 0 {
      BareSize(conf);
      forall m | m > 0
        ensures BulkName(c, m) != CONF
      {
        BulkNameParts(c, m);
        ServicesOnly(BulkName(c, m));
      }
      assert ValidPath(CONF) && Managed(CONF) by {
        BareKeys();
      }
    } else {
      BulkFits(accepts, c, n - 1, conf, t);
      BulkNameValid(c, n);
      BulkNameParts(c, n);
      TotalPut(Bulk(c, n - 1, conf, t), BulkName(c, n), NEW_FILE.(data := t));
      forall m | m > n
        ensures BulkName(c, m) != BulkName(c, n)
      {
        BulkNameLength(c, m);
        BulkNameLength(c, n);
      }
    }
  }

  lemma BulkNameLength(c: char, n: nat)
    ensures |BulkName(c, n)| == n + 17
  {
  }

  lemma BareKeys()
    ensures ValidPath(CONF) && Managed(CONF)
  {
  }

  lemma BareSize(conf: string)
    ensures TotalSize(map[CONF := NEW_FILE.(data := conf)]) == |conf|
  {
    TotalPut(map[], CONF, NEW_FILE.(data := conf));
    assert (map[])[CONF := NEW_FILE.(data := conf)] == map[CONF := NEW_FILE.(data := conf)];
  }

  /** Files named after different letters never meet. */
  lemma {:induction false} BulkUnion(n: nat, m: nat, conf: string, t: string)
    requires TotalSize(Bulk('a', n, conf, t)) == |conf| + n * |t|
    ensures TotalSize(Bulk('a', n, conf, t) + Bulk('b', m, conf, t)) == |conf| + (n + m) * |t|
    ensures forall k | k > m :: BulkName('b', k) !in Bulk('a', n, conf, t) + Bulk('b', m, conf, t)
  {
    hide TotalSize, BulkName;
    if m == 0 {
      assert Bulk('a', n, conf, t) + Bulk('b', 0, conf, t) == Bulk('a', n, conf, t);
      forall k | k > 0
        ensures BulkName('b', k) !in Bulk('a', n, conf, t)
      {
        OtherLetter(n, k, conf, t);
      }
    } else {
      BulkUnion(n, m - 1, conf, t);
      var f := NEW_FILE.(data := t);
      var smaller := Bulk('a', n, conf, t) + Bulk('b', m - 1, conf, t);
      assert Bulk('a', n, conf, t) + Bulk('b', m, conf, t) == smaller[BulkName('b', m) := f];
      TotalPut(smaller, BulkName('b', m), f);
      forall k | k > m
        ensures BulkName('b', k) != BulkName('b', m)
      {
        BulkNameLength('b', k);
        BulkNameLength('b', m);
      }
    }
  }

  lemma {:induction false} OtherLetter(n: nat, k: nat, conf: string, t: string)
    requires k > 0
    ensures BulkName('b', k) !in Bulk('a', n, conf, t)
  {
    BulkNameParts('b', k);
    assert BulkName('b', k)[9] == 'b';
    if n == 0 {
      ServicesOnly(BulkName('b', k));
    } else {
      OtherLetter(n - 1, k, conf, t);
      assert BulkName('a', n)[9] == 'a';
    }
  }

  /** Recovery is not always possible. Take any service text of the largest size that
      the parser accepts (blank lines in an acceptable file change nothing) and
      any acceptable configuration file. Nine such services under some names and nine
      under others are two images that `apply` accepts, and there is a point inside
      `replace` between them at which the directory holds all eighteen. */
  lemma RestoreCanStrand(accepts: (string, string) -> bool, conf: string, t: string)
    returns (before: Image, after: Image, i: nat)
    requires accepts(CONF, conf) && |conf| <= MAX_FILE_SIZE
    requires AnyService(accepts, t) && |t| == MAX_FILE_SIZE
    ensures Canonical(before) && ValidImage(accepts, before)
    ensures Canonical(after) && ValidImage(accepts, after)
    ensures i <= |Moves(before, after)| && !Readable(Play(before, Moves(before, after)[..i]))
  {
    hide TotalSize, BulkName, Moves, Play, Managed, ValidPath, HasPrefix;
    before, after := Bulk('a', 9, conf, t), Bulk('b', 9, conf, t);
    BulkFits(accepts, 'a', 9, conf, t);
    BulkFits(accepts, 'b', 9, conf, t);
    UnionReached(before, after);
    BulkUnion(9, 9, conf, t);
    MovesLength(before, after);
    i := |Writes(before, after)|;
  }

  /** And then it stays impossible: with the journal there and a live image that cannot
      be read, no number of starts and recovery attempts ever serves again or changes
      anything; the helper is stranded until somebody else edits the directory. */
  lemma {:induction false} Stranded(sha: string -> string, nodes: seq<Node>, acts: seq<Act>)
    requires Run(sha, nodes, acts) && OnlyRestarts(acts) && !nodes[0].Up? && Durable(nodes[0].disk)
    requires nodes[0].disk.journal.now.Some? && !Readable(ImageOf(nodes[0].disk.live.now))
    ensures forall i | 0 <= i < |nodes| :: !nodes[i].Up? && nodes[i].disk == nodes[0].disk
  {
    hide Durable, PowerLoss, Readable, ImageOf, Ended, Keeps, Grown;
    if acts != [] {
      assert Step(sha, nodes[0], acts[0], nodes[1]);
      DurableSurvives(nodes[0].disk, nodes[1].disk);
      RunTail(sha, nodes, acts, 1);
      assert forall i | 0 <= i < |acts[1..]| :: acts[1..][i] == acts[i + 1];
      Stranded(sha, nodes[1..], acts[1..]);
      forall i | 0 <= i < |nodes|
        ensures !nodes[i].Up? && nodes[i].disk == nodes[0].disk
      {
        if i > 0 {
          assert nodes[1..][i - 1] == nodes[i];
        }
      }
    }
  }
}
