/** Configuration images: a managed path to bytes, permission bits and owner. */
module Images {
  import opened Basics
  import opened Paths

  const MAX_FILE_SIZE: nat := 0x10_0000
  const MAX_TOTAL_SIZE: nat := 0x100_0000

  /** Permission bits: `read` keeps no more of a file's mode. */
  type Perm = m: nat | m <= 0x1FF

  datatype File = File(data: string, mode: Perm, uid: int, gid: int)

  type Image = map<string, File>

  datatype Action = NoAction | Reload | Restart

  ghost function TotalSize(im: Image): nat {
    if im == map[] then 0
    else
      var p :| p in im;
      |im[p].data| + TotalSize(im - {p})
  }

  lemma {:induction false} TotalWithout(im: Image, p: string)
    requires p in im
    ensures TotalSize(im) == |im[p].data| + TotalSize(im - {p})
    decreases |im|
  {
    var q :| q in im && TotalSize(im) == |im[q].data| + TotalSize(im - {q});
    if q != p {
      TotalWithout(im - {q}, p);
      TotalWithout(im - {p}, q);
      assert im - {q} - {p} == im - {p} - {q};
    }
  }

  lemma TotalPut(im: Image, p: string, f: File)
    requires p !in im
    ensures TotalSize(im[p := f]) == TotalSize(im) + |f.data|
  {
    TotalWithout(im[p := f], p);
    assert im[p := f] - {p} == im;
  }

  lemma {:induction false} TotalMonotone(part: Image, im: Image)
    requires forall p | p in part :: p in im && im[p] == part[p]
    ensures TotalSize(part) <= TotalSize(im)
    decreases |part|
  {
    if part != map[] {
      var p :| p in part;
      TotalWithout(part, p);
      TotalWithout(im, p);
      TotalMonotone(part - {p}, im - {p});
    }
  }

  /** The limits that `read`, `ValidateImage` and `loadSnapshot` put on an image. */
  ghost predicate Readable(im: Image) {
    && (forall p | p in im :: |im[p].data| <= MAX_FILE_SIZE)
    && TotalSize(im) <= MAX_TOTAL_SIZE
  }

  /** The part of a live directory that `read` sees. */
  function ImageOf(live: map<string, File>): Image {
    map p | p in live && Managed(p) :: live[p]
  }

  /** Every key is the name of the file it stands for. */
  predicate Canonical(im: Image) {
    forall p | p in im :: Managed(p)
  }

  // ----- the change set of one Apply call -----

  /** Files that Apply creates belong to root and are world-readable. */
  const NEW_FILE := File("", 0x1A4, 0, 0)

  function Overlaid(before: Image, p: string, data: Option<string>, onto: Image): Image {
    if data.None? then onto - {p}
    else onto[p := (if p in before then before[p] else NEW_FILE).(data := data.value)]
  }

  /** The image that a change set asks for, read off without any loop. */
  ghost predicate IsOverlay(before: Image, changes: map<string, Option<string>>, after: Image) {
    && (forall p | p !in changes :: Get(after, p) == Get(before, p))
    && (forall p | p in changes :: Get(after, p) == Get(Overlaid(before, p, changes[p], map[]), p))
  }

  /** The loop of Apply over its change set. */
  method Overlay(before: Image, changes: map<string, Option<string>>) returns (r: Result<Image>)
    ensures r.Ok? <==> forall p | p in changes :: ValidPath(p)
    ensures r.Ok? ==> IsOverlay(before, changes, r.value)
    ensures r.Err? ==> r.error == Invalid
  {
    var after := before;
    var todo := changes.Keys;
    while todo != {}
      invariant todo <= changes.Keys
      invariant forall p | p in changes && p !in todo :: ValidPath(p)
      invariant forall p | p !in changes || p in todo :: Get(after, p) == Get(before, p)
      invariant forall p | p in changes && p !in todo :: Get(after, p) == Get(Overlaid(before, p, changes[p], map[]), p)
      decreases todo
    {
      var p :| p in todo;
      if !ValidPath(p) {
        return Err(Invalid);
      }
      after := Overlaid(before, p, changes[p], after);
      todo := todo - {p};
    }
    r := Ok(after);
  }

  predicate SameAt(before: Image, after: Image, p: string) {
    Get(before, p) == Get(after, p)
  }

  /** What a change means for the daemon. */
  function NeededAction(before: Image, after: Image): Action {
    if before == after then NoAction
    else if !SameAt(before, after, CONF) || !SameAt(before, after, HOSTS) then Restart
    else Reload
  }

  /** ChangeAction visits the paths in no particular order; its answer does not depend on it. */
  method ChangeAction(before: Image, after: Image) returns (a: Action)
    ensures a == NeededAction(before, after)
  {
    a := NoAction;
    var all := before.Keys + after.Keys;
    var todo := all;
    while todo != {}
      invariant todo <= all
      invariant forall p | p in all && p !in todo && !SameAt(before, after, p) :: p != CONF && p != HOSTS
      invariant a == NoAction ==> forall p | p in all && p !in todo :: SameAt(before, after, p)
      invariant a != NoAction ==> a == Reload && exists p :: !SameAt(before, after, p)
      decreases todo
    {
      var p :| p in todo;
      todo := todo - {p};
      if !SameAt(before, after, p) {
        if p == CONF || p == HOSTS {
          return Restart;
        }
        a := Reload;
      }
    }
    if a == NoAction {
      forall p
        ensures SameAt(before, after, p)
      {
      }
      EqualByPath(before, after);
    }
  }

  lemma EqualByPath(a: Image, b: Image)
    requires forall p :: SameAt(a, b, p)
    ensures a == b
  {
    forall p
      ensures (p in a <==> p in b) && (p in a ==> a[p] == b[p])
    {
      assert SameAt(a, b, p);
    }
  }
}
