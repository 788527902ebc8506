/** The helper process and its primitive steps. Every step may fail, and the
    process may be killed at every step: then `alive` is false, and no further
    step can be taken, because each one requires it. */
module Primitives {
  import opened Basics
  import opened Paths
  import opened Images
  import opened Revision
  import opened Disks

  /** The controller's last completed job: the action, the configuration that
      was there for it, and whether the daemon was found healthy since. */
  datatype Ran = Ran(action: Action, image: Image, healthy: bool)

  class Store {
    const sha: string -> string
    /** Whether the text of one file passes ParseDaemon and Validate, ParseHosts or ParseService. */
    const accepts: (string, string) -> bool
    /** A crash loses power, and a directory sync that returns has worked.
        Otherwise a crash only kills the process, and a sync may fail. */
    const power: bool

    var disk: Disk
    var alive: bool
    var ran: Option<Ran>

    constructor (sha: string -> string, accepts: (string, string) -> bool, power: bool, disk: Disk)
      ensures this.sha == sha && this.accepts == accepts && this.power == power
      ensures this.disk == disk && alive && ran == None
    {
      this.sha, this.accepts, this.power, this.disk := sha, accepts, power, disk;
      alive, ran := true, None;
    }

    /** A system call that reads, or that writes only what nothing ever reads. */
    method Try() returns (s: Status)
      requires alive
      modifies this`alive
      ensures alive <==> s != Killed
    {
      s := *;
      alive := s != Killed;
    }

    // ----- the live directory -----

    /** Create and fill a temporary file under a name that must be free.
        A failure part-way leaves any content. */
    method WriteTemp(name: string, f: File) returns (s: Status, created: bool)
      requires alive && !Managed(name)
      modifies this`alive, this`disk
      ensures alive <==> s != Killed
      ensures disk == old(disk).(live := disk.live)
      ensures created <==> name !in old(disk.live.now)
      ensures !created ==> s != Done && disk.live == old(disk.live)
      ensures created ==>
                name in disk.live.now && disk.live == Put(old(disk.live), name, Some(disk.live.now[name]), power)
      ensures s == Done ==> disk.live.now[name] == f
    {
      s := Try();
      created := name !in disk.live.now;
      if !created {
        s := if s == Killed then Killed else Failed;
        return;
      }
      var g: File := *;
      if s == Done {
        g := f;
      }
      disk := disk.(live := Put(disk.live, name, Some(g), power));
    }

    method Rename(from: string, to: string) returns (s: Status)
      requires alive && from != to
      modifies this`alive, this`disk
      ensures alive <==> s != Killed
      ensures disk == old(disk).(live := disk.live)
      ensures s != Done ==> disk.live == old(disk.live)
      ensures s == Done ==> from in old(disk.live.now)
      ensures s == Done ==>
                disk.live == Put(Put(old(disk.live), to, Get(old(disk.live.now), from), power), from, None, power)
    {
      s := Try();
      if s == Done && from !in disk.live.now {
        s := Failed;
      } else if s == Done {
        disk := disk.(live := Put(Put(disk.live, to, Get(disk.live.now, from), power), from, None, power));
      }
    }

    /** Remove a name; one that is not there counts as removed, as every caller treats it. */
    method Remove(name: string) returns (s: Status)
      requires alive
      modifies this`alive, this`disk
      ensures alive <==> s != Killed
      ensures disk == old(disk).(live := disk.live)
      ensures disk.live == (if s == Done && name in old(disk.live.now) then Put(old(disk.live), name, None, power)
                else old(disk.live))
    {
      s := Try();
      if s == Done && name in disk.live.now {
        disk := disk.(live := Put(disk.live, name, None, power));
      }
    }

    method SyncLiveDir(services: bool) returns (s: Status)
      requires alive
      modifies this`alive, this`disk
      ensures alive <==> s != Killed
      ensures s == Failed ==> !power
      ensures disk == old(disk).(live := if s == Done then SyncLive(old(disk.live), services) else old(disk.live))
    {
      s := Try();
      if power && s == Failed {
        s := Killed;
        alive := false;
      }
      if s == Done {
        disk := disk.(live := SyncLive(disk.live, services));
      }
    }

    // ----- the backup directory -----

    /** The rename that puts a staged pending.json in place. */
    method PutJournal(j: Pending) returns (s: Status)
      requires alive
      modifies this`alive, this`disk
      ensures alive <==> s != Killed
      ensures disk == old(disk).(journal := if s == Done then PutSlot(old(disk.journal), Some(j), power)
                else old(disk.journal))
    {
      s := Try();
      if s == Done {
        disk := disk.(journal := PutSlot(disk.journal, Some(j), power));
      }
    }

    method RemoveJournal() returns (s: Status)
      requires alive
      modifies this`alive, this`disk
      ensures alive <==> s != Killed
      ensures disk == old(disk).(journal := if s == Done then PutSlot(old(disk.journal), None, power)
                else old(disk.journal))
      ensures s == Done ==> old(disk.journal.now).Some?
    {
      s := Try();
      if s == Done && disk.journal.now.None? {
        s := Failed;
      } else if s == Done {
        disk := disk.(journal := PutSlot(disk.journal, None, power));
      }
    }

    /** The rename that puts baseline.json in place, or its removal. */
    method PutPointer(b: Option<nat>) returns (s: Status)
      requires alive
      modifies this`alive, this`disk
      ensures alive <==> s != Killed
      ensures disk == old(disk).(pointer := if s == Done then PutSlot(old(disk.pointer), b, power)
                else old(disk.pointer))
    {
      s := Try();
      if s == Done {
        disk := disk.(pointer := PutSlot(disk.pointer, b, power));
      }
    }

    /** Syncing the backup directory settles every name in it. */
    method SyncBackups() returns (s: Status)
      requires alive
      modifies this`alive, this`disk
      ensures alive <==> s != Killed
      ensures s == Failed ==> !power
      ensures s != Done ==> disk == old(disk)
      ensures s == Done ==> disk == Synced(old(disk))
    {
      s := Try();
      if power && s == Failed {
        s := Killed;
        alive := false;
      }
      if s == Done {
        disk := Synced(disk);
      }
    }

    static function Synced(d: Disk): Disk {
      d.(journal := Slot(d.journal.now, {}), pointer := Slot(d.pointer.now, {}), snaps := Dir(d.snaps.now, map[]))
    }

    /** A snapshot name never drawn before. */
    method DrawId() returns (id: nat)
      modifies this`disk
      ensures id == old(disk.nextId) && disk == old(disk).(nextId := id + 1)
    {
      id := disk.nextId;
      disk := disk.(nextId := id + 1);
    }

    method MakeSnap(id: nat) returns (s: Status)
      requires alive && id !in disk.snaps.now
      modifies this`alive, this`disk
      ensures alive <==> s != Killed
      ensures disk == old(disk).(snaps := disk.snaps)
      ensures disk.snaps == (if s == Done then Put(old(disk.snaps), id, Some(SnapDir(map[], None, {})), power)
                else old(disk.snaps))
    {
      s := Try();
      if s == Done {
        disk := disk.(snaps := Put(disk.snaps, id, Some(SnapDir(map[], None, {})), power));
      }
    }

    /** Change the inside of a snapshot directory; its own directory `services` must be synced for it. */
    method ChangeSnap(id: nat, v: SnapDir, services: bool) returns (s: Status)
      requires alive && id in disk.snaps.now
      modifies this`alive, this`disk
      ensures alive <==> s != Killed
      ensures disk == old(disk).(snaps := disk.snaps)
      ensures s != Done ==> disk.snaps == old(disk.snaps)
      ensures s == Done ==>
                disk.snaps == Put(old(disk.snaps), id,
                Some(v.(loose := Loosen(old(disk.snaps.now[id].loose), services, power))), power)
    {
      s := Try();
      if s == Done {
        disk := disk.(snaps := Put(disk.snaps, id,
          Some(v.(loose := Loosen(disk.snaps.now[id].loose, services, power))), power));
      }
    }

    static function Loosen(loose: set<bool>, services: bool, power: bool): set<bool> {
      if power then loose + {services} else loose
    }

    method SyncSnap(id: nat, services: bool) returns (s: Status)
      requires alive && id in disk.snaps.now
      modifies this`alive, this`disk
      ensures alive <==> s != Killed
      ensures disk == old(disk).(snaps := disk.snaps)
      ensures s != Done ==> disk.snaps == old(disk.snaps)
      ensures s == Done ==>
                disk.snaps == Put(old(disk.snaps), id,
                Some(old(disk.snaps.now[id]).(loose := old(disk.snaps.now[id].loose) - {services})), power)
    {
      s := Try();
      if power && s == Failed {
        s := Killed;
        alive := false;
      }
      if s == Done {
        var v := disk.snaps.now[id];
        disk := disk.(snaps := Put(disk.snaps, id, Some(v.(loose := v.loose - {services})), power));
      }
    }

    /** RemoveAll. A failure or a kill part-way leaves some of the directory. */
    method RemoveSnap(id: nat) returns (s: Status)
      requires alive
      modifies this`alive, this`disk
      ensures alive <==> s != Killed
      ensures disk == old(disk).(snaps := disk.snaps)
      ensures id !in old(disk.snaps.now) ==> disk.snaps == old(disk.snaps)
      ensures id in old(disk.snaps.now) && s == Done ==> disk.snaps == Put(old(disk.snaps), id, None, power)
      ensures id in old(disk.snaps.now) && s != Done ==>
                exists v :: Shrinks(old(disk.snaps.now[id]), v) &&
                  disk.snaps == Put(old(disk.snaps), id, Some(v), power)
    {
      s := Try();
      if id in disk.snaps.now {
        if s == Done {
          disk := disk.(snaps := Put(disk.snaps, id, None, power));
        } else {
          var v := disk.snaps.now[id];
          var keep: set<string> := *;
          var cut: bool := *;
          var w := SnapDir(map q | q in v.files && q in keep :: v.files[q], if cut then None else v.manifest,
                           Loosen(Loosen(v.loose, true, power), false, power));
          assert Shrinks(v, w);
          disk := disk.(snaps := Put(disk.snaps, id, Some(w), power));
        }
      }
    }

    /** Somebody else leaves the configuration directory like this, durably. */
    method Outside(live: map<string, File>)
      requires alive
      modifies this`disk
      ensures disk == old(disk).(live := Dir(live, map[]))
    {
      disk := disk.(live := Dir(live, map[]));
    }

    // ----- the runtime controller -----

    /** Controller.Apply. A failure leaves it open what the daemon runs with. */
    method Control(a: Action) returns (s: Status)
      requires alive
      modifies this`alive, this`ran
      ensures alive <==> s != Killed
      ensures ran == if s == Done then Some(Ran(a, ImageOf(disk.live.now), false)) else None
    {
      s := Try();
      ran := if s == Done then Some(Ran(a, ImageOf(disk.live.now), false)) else None;
    }

    /** Controller.Healthy. */
    method CheckHealth() returns (s: Status)
      requires alive
      modifies this`alive, this`ran
      ensures alive <==> s != Killed
      ensures ran == if s == Done && old(ran).Some? then Some(old(ran).value.(healthy := true)) else old(ran)
    {
      s := Try();
      if s == Done && ran.Some? {
        ran := Some(ran.value.(healthy := true));
      }
    }

    /** The process ends without any step of its own, as when it is told to stop. */
    method Stop()
      requires alive
      modifies this`alive
      ensures !alive
    {
      alive := false;
    }

    /** The machine comes up again with some disk that the crash may leave, and the
        helper starts anew. */
    method Reboot()
      requires !alive
      modifies this
      ensures alive && ran == None && PowerLoss(old(disk), disk)
    {
      var names: map<string, Option<File>> := *;
      var dirs: map<nat, Option<SnapDir>> := *;
      var keep: set<(nat, string)>, cut: set<nat> := *, *;
      var journal: Option<Pending>, pointer: Option<nat> := *, *;
      PickedLoss(disk, names, dirs, keep, cut, journal, pointer);
      disk := Picked(disk, names, dirs, keep, cut, journal, pointer);
      alive, ran := true, None;
    }
  }

  // ----- one crash -----

  /** The value that a crash leaves under one name: the one it picks, if that is possible. */
  function PickOne<K, V(==)>(d: Dir<K, V>, picks: map<K, Option<V>>, k: K): Option<V> {
    if k in picks && k in d.may && picks[k] in d.may[k] then picks[k] else Get(d.now, k)
  }

  function PickSlot<V(==)>(s: Slot<V>, pick: Option<V>): Option<V> {
    if pick in s.may then pick else s.now
  }

  /** What is left of one snapshot directory, if its own directories were not synced. */
  function PickDir(v: SnapDir, id: nat, keep: set<(nat, string)>, cut: set<nat>): SnapDir {
    if v.loose == {} then v
    else SnapDir(map q | q in v.files && (id, q) in keep :: v.files[q], if id in cut then None else v.manifest, {})
  }

  function Picked(d: Disk, names: map<string, Option<File>>, dirs: map<nat, Option<SnapDir>>,
                  keep: set<(nat, string)>, cut: set<nat>, journal: Option<Pending>, pointer: Option<nat>): Disk {
    Disk(
      Dir(map p | p in d.live.now.Keys + d.live.may.Keys && PickOne(d.live, names, p).Some? ::
            PickOne(d.live, names, p).value, map[]),
      Dir(map id | id in d.snaps.now.Keys + d.snaps.may.Keys && PickOne(d.snaps, dirs, id).Some? ::
            PickDir(PickOne(d.snaps, dirs, id).value, id, keep, cut), map[]),
      Slot(PickSlot(d.journal, journal), {}), Slot(PickSlot(d.pointer, pointer), {}), d.nextId)
  }

  /** Whatever is picked, a crash may leave it. */
  lemma PickedLoss(d: Disk, names: map<string, Option<File>>, dirs: map<nat, Option<SnapDir>>,
                   keep: set<(nat, string)>, cut: set<nat>, journal: Option<Pending>, pointer: Option<nat>)
    ensures PowerLoss(d, Picked(d, names, dirs, keep, cut, journal, pointer))
  {
    var d' := Picked(d, names, dirs, keep, cut, journal, pointer);
    forall p
      ensures MayBe(d.live, p, Get(d'.live.now, p))
    {
      assert Get(d'.live.now, p) == PickOne(d.live, names, p);
    }
    forall id
      ensures SnapSurvives(d, d', id)
    {
      var c := PickOne(d.snaps, dirs, id);
      assert MayBe(d.snaps, id, c) && Survives(c, Get(d'.snaps.now, id));
    }
  }
}
