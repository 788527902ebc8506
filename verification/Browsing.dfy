/** `browse` and `Run`: the signal loop, its eight resolver workers and its two
    bounded channels, under every interleaving. */
module Browsing {
  import opened Basics
  import opened Discoveries
  import opened Logs

  const WORKERS: nat := 8
  const QUEUE: nat := 512
  const MAX_TYPES: nat := 256
  const MAX_SERVICES: nat := 4096

  datatype Work = Idle | Asking(request: Request) | Holding(reply: Reply)

  function OfWork(w: Work): nat {
    match w
    case Idle => 0
    case Asking(r) => r.generation
    case Holding(r) => r.request.generation
  }

  function Requested(w: Work): Option<Request> {
    match w
    case Idle => None
    case Asking(r) => Some(r)
    case Holding(r) => Some(r.request)
  }

  datatype Body = OwnerChanged | Failure | Malformed | TypeNew(kind: string, domain: string)
                | ItemNew(id: Identity, flags: nat) | ItemRemove(id: Identity) | Other

  datatype Signal = NoSignal | Signal(path: nat, body: Body)

  /** A signal from one of our own browser objects, other than a change of owner. */
  predicate Concerns(sig: Signal, objects: set<nat>) {
    sig.Signal? && sig.body != OwnerChanged && sig.path in objects
  }

  /** Why a session ended. */
  datatype End = Cancelled | Disconnected | StreamClosed | OwnerLost | BrowserFailed | BadSignal
               | TooManyTypes | CallFailed | TooManyServices | QueueFull

  // ----- what holds between any two steps -----

  /** The generation table, by key, is what the log of signals says. */
  ghost predicate Table(log: seq<Event>, generations: map<string, nat>, generation: nat) {
    && generation == Adds(log)
    && (forall k | k in generations :: generations[k] > 0)
    && (forall k :: GenOf(log, k) == if k in generations then generations[k] else 0)
  }

  ghost function Outstanding(jobs: seq<Request>, workers: seq<Work>, results: seq<Reply>, g: nat): nat {
    Tally(jobs, OfRequest, g) + Tally(workers, OfWork, g) + Tally(results, OfReply, g)
  }

  /** Each generation 1, 2, ... is in exactly one place, and there once: queued,
      with a worker, waiting to be handled, or handled; no other one is anywhere. */
  ghost predicate Accounted(log: seq<Event>, jobs: seq<Request>, workers: seq<Work>, results: seq<Reply>) {
    forall g: nat | g > 0 ::
      Outstanding(jobs, workers, results, g) + Tally(log, OfEvent, g) == if g <= Adds(log) then 1 else 0
  }

  /** Everything under way was asked for in this session. */
  ghost predicate OwnRequests(log: seq<Event>, jobs: seq<Request>, workers: seq<Work>, results: seq<Reply>) {
    && (forall r | r in jobs :: Proper(log, r))
    && (forall w | w in workers && w != Idle :: Proper(log, Requested(w).value))
    && (forall r | r in results :: Proper(log, r.request))
  }

  ghost predicate MirrorsAt(log: seq<Event>, services: map<string, Service>, k: string) {
    && (k in services <==> GenOf(log, k) > 0)
    && (k in services ==>
          && GenOf(log, k) <= Adds(log)
          && Timeless(services[k]) == Shown(log, k)
          && services[k].first == Some(FirstOf(log, k)))
  }

  /** The cache has exactly the present keys, each with the reply for its present
      generation once that was handled, and with the time it was first seen. */
  ghost predicate Mirrors(log: seq<Event>, services: map<string, Service>) {
    forall k :: MirrorsAt(log, services, k)
  }

  lemma NotYetHeard(log: seq<Event>, jobs: seq<Request>, workers: seq<Work>, results: seq<Reply>)
    requires Accounted(log, jobs, workers, results)
    ensures ReplyTo(log, Adds(log) + 1).None?
  {
    RepliesTallied(log, Adds(log) + 1);
    assert Outstanding(jobs, workers, results, Adds(log) + 1) + Tally(log, OfEvent, Adds(log) + 1) == 0;
  }

  lemma AddedMirrors(log: seq<Event>, services: map<string, Service>, id: Identity, flags: nat, at: int)
    requires Mirrors(log, services) && ReplyTo(log, Adds(log) + 1).None?
    ensures Mirrors(log + [Added(id, flags, at)],
              services[id.Key() := Stamped(Found(id, flags), Get(services, id.Key()), at)])
  {
    hide Identity.Key, Adds, GenOf, ReplyTo, FirstOf, Asked;
    Adding(log, Added(id, flags, at));
    var after := services[id.Key() := Stamped(Found(id, flags), Get(services, id.Key()), at)];
    forall k
      ensures MirrorsAt(log + [Added(id, flags, at)], after, k)
    {
      assert MirrorsAt(log, services, k);
    }
  }

  lemma RemovedMirrors(log: seq<Event>, services: map<string, Service>, id: Identity)
    requires Mirrors(log, services)
    ensures Mirrors(log + [Removed(id)], services - {id.Key()})
  {
    hide Identity.Key, Adds, GenOf, ReplyTo, FirstOf, Asked;
    Adding(log, Removed(id));
    forall k
      ensures MirrorsAt(log + [Removed(id)], services - {id.Key()}, k)
    {
      assert MirrorsAt(log, services, k);
    }
  }

  /** A reply changes the cache only when it is for a present generation. */
  lemma HeardMirrors(log: seq<Event>, services: map<string, Service>, r: Reply, at: int)
    requires Mirrors(log, services) && Proper(log, r.request) && Honest(Heard(r, at))
    ensures var k := r.request.id.Key();
            Mirrors(log + [Heard(r, at)],
                    if GenOf(log, k) == r.request.generation
                    then services[k := Stamped(Display(r), Get(services, k), at)] else services)
  {
    hide Identity.Key, Adds, GenOf, ReplyTo, FirstOf, Asked;
    Adding(log, Heard(r, at));
    var kr := r.request.id.Key();
    var after := if GenOf(log, kr) == r.request.generation
                 then services[kr := Stamped(Display(r), Get(services, kr), at)] else services;
    forall k
      ensures MirrorsAt(log + [Heard(r, at)], after, k)
    {
      assert MirrorsAt(log, services, k) && MirrorsAt(log, services, kr);
      GenOfAsked(log, k);
    }
  }

  /** The one assumption is needed: handling a present reply keeps the cache right
      if, and only if, the reply is about the item that was asked for. */
  lemma HeardMirrorsIff(log: seq<Event>, services: map<string, Service>, r: Reply, at: int)
    requires Mirrors(log, services) && Proper(log, r.request) && GenOf(log, r.request.id.Key()) == r.request.generation
    requires forall k | k in services :: services[k].id.Key() == k
    ensures var k := Display(r).id.Key();
            Mirrors(log + [Heard(r, at)], services[k := Stamped(Display(r), Get(services, k), at)]) <==>
              Honest(Heard(r, at))
  {
    hide Identity.Key, Adds, GenOf, ReplyTo, FirstOf, Asked;
    if Honest(Heard(r, at)) {
      HeardMirrors(log, services, r, at);
    }
    var kr, k := r.request.id.Key(), Display(r).id.Key();
    var after := services[k := Stamped(Display(r), Get(services, k), at)];
    if k != kr {
      Adding(log, Heard(r, at));
      assert MirrorsAt(log, services, kr);
      assert !MirrorsAt(log + [Heard(r, at)], after, kr);
    }
  }

  lemma MoreProper(log: seq<Event>, e: Event, jobs: seq<Request>, workers: seq<Work>, results: seq<Reply>)
    requires OwnRequests(log, jobs, workers, results)
    ensures OwnRequests(log + [e], jobs, workers, results)
  {
    hide Proper;
    forall r | Proper(log, r)
      ensures Proper(log + [e], r)
    {
      StillProper(log, e, r);
    }
  }

  /** Conservation: a generation was answered, or it is outstanding in one place, never both. */
  lemma AnsweredOrOutstanding(log: seq<Event>, jobs: seq<Request>, workers: seq<Work>, results: seq<Reply>, g: nat)
    requires Accounted(log, jobs, workers, results) && 1 <= g <= Adds(log)
    ensures Outstanding(jobs, workers, results, g) == if ReplyTo(log, g).None? then 1 else 0
  {
    RepliesTallied(log, g);
    assert Outstanding(jobs, workers, results, g) + Tally(log, OfEvent, g) == 1;
  }

  /** Every cached service shows the reply for its present generation, or has that one request outstanding. */
  lemma ShownOrOutstanding(log: seq<Event>, jobs: seq<Request>, workers: seq<Work>, results: seq<Reply>,
                           services: map<string, Service>, k: string)
    requires MirrorsAt(log, services, k) && Accounted(log, jobs, workers, results) && k in services
    ensures var g := GenOf(log, k);
            match ReplyTo(log, g)
            case Some(r) => Timeless(services[k]) == Display(r) && Outstanding(jobs, workers, results, g) == 0
            case None =>
              Timeless(services[k]) == Found(Asked(log, g).id, Asked(log, g).flags) &&
              Outstanding(jobs, workers, results, g) == 1
  {
    hide Display, Found, Timeless;
    AnsweredOrOutstanding(log, jobs, workers, results, GenOf(log, k));
  }

  /** Once nothing is outstanding, every cached service shows a reply. */
  lemma QuietMeansResolved(log: seq<Event>, workers: seq<Work>, services: map<string, Service>, k: string)
    requires MirrorsAt(log, services, k) && Accounted(log, [], workers, []) && k in services
    requires forall i | 0 <= i < |workers| :: workers[i] == Idle
    ensures ReplyTo(log, GenOf(log, k)).Some? && Timeless(services[k]) == Display(ReplyTo(log, GenOf(log, k)).value)
  {
    IdleTally(workers, GenOf(log, k));
    AnsweredOrOutstanding(log, [], workers, [], GenOf(log, k));
  }

  lemma {:induction false} IdleTally(workers: seq<Work>, g: nat)
    requires g > 0 && forall i | 0 <= i < |workers| :: workers[i] == Idle
    ensures Tally(workers, OfWork, g) == 0
  {
    if workers != [] {
      IdleTally(workers[..|workers| - 1], g);
    }
  }

  // ----- how the requests move -----

  lemma QueueMove(log: seq<Event>, jobs: seq<Request>, workers: seq<Work>, results: seq<Reply>, id: Identity,
                  flags: nat, at: int)
    requires Accounted(log, jobs, workers, results)
    ensures Accounted(log + [Added(id, flags, at)], jobs + [Request(id, Adds(log) + 1)], workers, results)
  {
    Adding(log, Added(id, flags, at));
    forall g: nat | g > 0
      ensures Outstanding(jobs + [Request(id, Adds(log) + 1)], workers, results, g) +
                Tally(log + [Added(id, flags, at)], OfEvent, g)
              == if g <= Adds(log) + 1 then 1 else 0
    {
      assert Outstanding(jobs, workers, results, g) + Tally(log, OfEvent, g) == if g <= Adds(log) then 1 else 0;
      TallyAppend(jobs, Request(id, Adds(log) + 1), OfRequest, g);
      TallyAppend(log, Added(id, flags, at), OfEvent, g);
    }
  }

  lemma TakeMove(log: seq<Event>, jobs: seq<Request>, workers: seq<Work>, results: seq<Reply>, w: nat)
    requires Accounted(log, jobs, workers, results) && jobs != [] && w < |workers| && workers[w] == Idle
    ensures Accounted(log, jobs[1..], workers[w := Asking(jobs[0])], results)
  {
    forall g: nat | g > 0
      ensures Outstanding(jobs[1..], workers[w := Asking(jobs[0])], results, g)
                == Outstanding(jobs, workers, results, g)
    {
      TallyTail(jobs, OfRequest, g);
      TallyUpdate(workers, w, Asking(jobs[0]), OfWork, g);
    }
  }

  lemma ResolveMove(log: seq<Event>, jobs: seq<Request>, workers: seq<Work>, results: seq<Reply>, w: nat, a: Answer)
    requires Accounted(log, jobs, workers, results) && w < |workers| && workers[w].Asking?
    ensures Accounted(log, jobs, workers[w := Holding(Reply(workers[w].request, a))], results)
  {
    forall g: nat | g > 0
      ensures Outstanding(jobs, workers[w := Holding(Reply(workers[w].request, a))], results, g)
              == Outstanding(jobs, workers, results, g)
    {
      TallyUpdate(workers, w, Holding(Reply(workers[w].request, a)), OfWork, g);
    }
  }

  lemma DeliverMove(log: seq<Event>, jobs: seq<Request>, workers: seq<Work>, results: seq<Reply>, w: nat)
    requires Accounted(log, jobs, workers, results) && w < |workers| && workers[w].Holding?
    ensures Accounted(log, jobs, workers[w := Idle], results + [workers[w].reply])
  {
    forall g: nat | g > 0
      ensures Outstanding(jobs, workers[w := Idle], results + [workers[w].reply], g)
                == Outstanding(jobs, workers, results, g)
    {
      TallyUpdate(workers, w, Idle, OfWork, g);
      TallyAppend(results, workers[w].reply, OfReply, g);
    }
  }

  lemma HandleMove(log: seq<Event>, jobs: seq<Request>, workers: seq<Work>, results: seq<Reply>, at: int)
    requires Accounted(log, jobs, workers, results) && results != []
    ensures Accounted(log + [Heard(results[0], at)], jobs, workers, results[1..])
  {
    Adding(log, Heard(results[0], at));
    forall g: nat | g > 0
      ensures Outstanding(jobs, workers, results[1..], g) + Tally(log + [Heard(results[0], at)], OfEvent, g)
              == if g <= Adds(log) then 1 else 0
    {
      assert Outstanding(jobs, workers, results, g) + Tally(log, OfEvent, g) == if g <= Adds(log) then 1 else 0;
      TallyTail(results, OfReply, g);
      TallyAppend(log, Heard(results[0], at), OfEvent, g);
    }
  }

  lemma ForgetMove(log: seq<Event>, jobs: seq<Request>, workers: seq<Work>, results: seq<Reply>, id: Identity)
    requires Accounted(log, jobs, workers, results)
    ensures Accounted(log + [Removed(id)], jobs, workers, results)
  {
    Adding(log, Removed(id));
    forall g: nat | g > 0
      ensures Tally(log + [Removed(id)], OfEvent, g) == Tally(log, OfEvent, g)
    {
      TallyAppend(log, Removed(id), OfEvent, g);
    }
  }

  lemma TakeOwn(log: seq<Event>, jobs: seq<Request>, workers: seq<Work>, results: seq<Reply>, w: nat)
    requires OwnRequests(log, jobs, workers, results) && jobs != [] && w < |workers|
    ensures OwnRequests(log, jobs[1..], workers[w := Asking(jobs[0])], results)
  {
    hide Proper;
  }

  lemma ResolveOwn(log: seq<Event>, jobs: seq<Request>, workers: seq<Work>, results: seq<Reply>, w: nat, a: Answer)
    requires OwnRequests(log, jobs, workers, results) && w < |workers| && workers[w].Asking?
    ensures OwnRequests(log, jobs, workers[w := Holding(Reply(workers[w].request, a))], results)
  {
    hide Proper;
    assert workers[w] in workers;
  }

  lemma DeliverOwn(log: seq<Event>, jobs: seq<Request>, workers: seq<Work>, results: seq<Reply>, w: nat)
    requires OwnRequests(log, jobs, workers, results) && w < |workers| && workers[w].Holding?
    ensures OwnRequests(log, jobs, workers[w := Idle], results + [workers[w].reply])
  {
    hide Proper;
    assert workers[w] in workers;
  }

  lemma HandleOwn(log: seq<Event>, jobs: seq<Request>, workers: seq<Work>, results: seq<Reply>, at: int)
    requires OwnRequests(log, jobs, workers, results) && results != []
    ensures OwnRequests(log + [Heard(results[0], at)], jobs, workers, results[1..]) && Proper(log, results[0].request)
    ensures results[0].request.generation > 0
  {
    assert Proper(log, results[0].request);
    hide Proper;
    MoreProper(log, Heard(results[0], at), jobs, workers, results);
  }

  lemma QueueOwn(log: seq<Event>, jobs: seq<Request>, workers: seq<Work>, results: seq<Reply>, id: Identity,
                 flags: nat, at: int)
    requires OwnRequests(log, jobs, workers, results)
    ensures OwnRequests(log + [Added(id, flags, at)], jobs + [Request(id, Adds(log) + 1)], workers, results)
  {
    Adding(log, Added(id, flags, at));
    assert Proper(log + [Added(id, flags, at)], Request(id, Adds(log) + 1));
    hide Proper;
    MoreProper(log, Added(id, flags, at), jobs, workers, results);
  }

  lemma FaithfulPrefix(log: seq<Event>, e: Event)
    ensures Faithful(log + [e]) <==> Faithful(log) && Honest(e)
  {
    hide Honest;
    assert e in log + [e];
    assert forall x | x in log :: x in log + [e];
  }

  lemma SameKey(r: Reply, at: int)
    requires Honest(Heard(r, at))
    ensures Display(r).id.Key() == r.request.id.Key()
  {
  }

  lemma FoundKey(id: Identity, flags: nat)
    ensures Found(id, flags).id == id
  {
  }

  lemma AddedTable(log: seq<Event>, generations: map<string, nat>, generation: nat, id: Identity, flags: nat, at: int)
    requires Table(log, generations, generation)
    ensures Table(log + [Added(id, flags, at)], generations[id.Key() := generation + 1], generation + 1)
    ensures generation == Adds(log)
  {
    hide Identity.Key, Adds, GenOf, ReplyTo, FirstOf, Asked;
    Adding(log, Added(id, flags, at));
  }

  lemma RemovedTable(log: seq<Event>, generations: map<string, nat>, generation: nat, id: Identity)
    requires Table(log, generations, generation)
    ensures Table(log + [Removed(id)], generations - {id.Key()}, generation)
  {
    hide Identity.Key, Adds, GenOf, ReplyTo, FirstOf, Asked;
    Adding(log, Removed(id));
  }

  lemma HeardTable(log: seq<Event>, generations: map<string, nat>, generation: nat, r: Reply, at: int)
    requires Table(log, generations, generation)
    ensures Table(log + [Heard(r, at)], generations, generation)
    ensures forall k :: (if k in generations then generations[k] else 0) == GenOf(log, k)
  {
    hide Identity.Key, Adds, GenOf, ReplyTo, FirstOf, Asked;
    Adding(log, Heard(r, at));
  }

  lemma CameKeeps(log: seq<Event>, jobs: seq<Request>, workers: seq<Work>, results: seq<Reply>,
                  generations: map<string, nat>, generation: nat, services: map<string, Service>,
                  id: Identity, flags: nat, at: int)
    requires Table(log, generations, generation) && Accounted(log, jobs, workers, results)
    requires OwnRequests(log, jobs, workers, results) && (Faithful(log) ==> Mirrors(log, services))
    ensures var after := log + [Added(id, flags, at)];
            && Table(after, generations[id.Key() := generation + 1], generation + 1)
            && Accounted(after, jobs + [Request(id, generation + 1)], workers, results)
            && OwnRequests(after, jobs + [Request(id, generation + 1)], workers, results)
            && (Faithful(after) ==>
                  Mirrors(after, services[id.Key() := Stamped(Found(id, flags), Get(services, id.Key()), at)]))
  {
    hide Accounted, Mirrors, Identity.Key, Stamped, OwnRequests, Table, Faithful, Honest, Found;
    QueueMove(log, jobs, workers, results, id, flags, at);
    QueueOwn(log, jobs, workers, results, id, flags, at);
    AddedTable(log, generations, generation, id, flags, at);
    FaithfulPrefix(log, Added(id, flags, at));
    NotYetHeard(log, jobs, workers, results);
    if Faithful(log) {
      AddedMirrors(log, services, id, flags, at);
    }
  }

  lemma GoneKeeps(log: seq<Event>, jobs: seq<Request>, workers: seq<Work>, results: seq<Reply>,
                  generations: map<string, nat>, generation: nat, services: map<string, Service>, id: Identity)
    requires Table(log, generations, generation) && Accounted(log, jobs, workers, results)
    requires OwnRequests(log, jobs, workers, results) && (Faithful(log) ==> Mirrors(log, services))
    ensures var after := log + [Removed(id)];
            && Table(after, generations - {id.Key()}, generation)
            && Accounted(after, jobs, workers, results) && OwnRequests(after, jobs, workers, results)
            && (Faithful(after) ==> Mirrors(after, services - {id.Key()}))
  {
    hide Accounted, Mirrors, Identity.Key, OwnRequests, Table, Faithful, Honest;
    ForgetMove(log, jobs, workers, results, id);
    MoreProper(log, Removed(id), jobs, workers, results);
    RemovedTable(log, generations, generation, id);
    FaithfulPrefix(log, Removed(id));
    if Faithful(log) {
      RemovedMirrors(log, services, id);
    }
  }

  lemma Fewer(m: map<string, nat>, k: string)
    ensures |m - {k}| <= |m|
  {
    if k in m {
      assert m == (m - {k})[k := m[k]];
    } else {
      assert m - {k} == m;
    }
  }

  lemma NothingYet(workers: seq<Work>)
    requires forall i | 0 <= i < |workers| :: workers[i] == Idle
    ensures Accounted([], [], workers, []) && Table([], map[], 0) && Mirrors([], map[])
  {
    forall g: nat | g > 0
      ensures Outstanding([], workers, [], g) == 0
    {
      IdleTally(workers, g);
    }
  }

  class Session {
    const disc: Discovery
    var jobs: seq<Request>
    var results: seq<Reply>
    var workers: seq<Work>
    var objects: set<nat>
    var types: map<(string, string), nat>
    var generations: map<string, nat>
    var generation: nat

    /** What the loop has handled, in order. */
    ghost var log: seq<Event>

    ghost predicate Limits()
      reads this
    {
      && |jobs| <= QUEUE && |results| <= QUEUE && |workers| == WORKERS
      && |types| <= MAX_TYPES && |generations| <= MAX_SERVICES && |objects| <= |types| + 1
    }

    /** Between any two steps of a live session. */
    ghost predicate Live()
      reads this, disc
    {
      && disc.Valid() && disc.connected && NoGhosts(disc.history) && Limits()
      && Table(log, generations, generation)
      && Accounted(log, jobs, workers, results)
      && OwnRequests(log, jobs, workers, results)
      && (Faithful(log) ==> Mirrors(log, disc.services))
    }

    constructor (disc: Discovery, root: nat)
      requires disc.Valid() && disc.connected && disc.services == map[] && NoGhosts(disc.history)
      ensures Live() && this.disc == disc && log == []
    {
      this.disc := disc;
      jobs, results, workers := [], [], seq(WORKERS, _ => Idle);
      objects, types, generations, generation := {root}, map[], map[], 0;
      log := [];
      new;
      NothingYet(workers);
    }

    // ----- the workers -----

    method Take(w: nat)
      requires Live() && jobs != [] && w < |workers| && workers[w] == Idle
      modifies this`jobs, this`workers
      ensures Live() && workers == old(workers)[w := Asking(old(jobs)[0])] && jobs == old(jobs)[1..]
    {
      hide Table, Accounted, Proper, Mirrors, Faithful, OwnRequests, Discovery.Valid, NoGhosts;
      TakeMove(log, jobs, workers, results, w);
      TakeOwn(log, jobs, workers, results, w);
      workers, jobs := workers[w := Asking(jobs[0])], jobs[1..];
    }

    /** Resolve answers, or fails, or times out. */
    method Resolve(w: nat, a: Answer)
      requires Live() && w < |workers| && workers[w].Asking?
      modifies this`workers
      ensures Live() && workers == old(workers)[w := Holding(Reply(old(workers)[w].request, a))]
    {
      hide Table, Accounted, Proper, Mirrors, Faithful, OwnRequests, Discovery.Valid, NoGhosts;
      ResolveMove(log, jobs, workers, results, w, a);
      ResolveOwn(log, jobs, workers, results, w, a);
      workers := workers[w := Holding(Reply(workers[w].request, a))];
    }

    method Deliver(w: nat)
      requires Live() && w < |workers| && workers[w].Holding? && |results| < QUEUE
      modifies this`workers, this`results
      ensures Live() && workers == old(workers)[w := Idle] && results == old(results) + [old(workers)[w].reply]
    {
      hide Table, Accounted, Proper, Mirrors, Faithful, OwnRequests, Discovery.Valid, NoGhosts;
      DeliverMove(log, jobs, workers, results, w);
      DeliverOwn(log, jobs, workers, results, w);
      workers, results := workers[w := Idle], results + [workers[w].reply];
    }

    // ----- the loop -----

    /** A result arrives. One whose generation is no longer the present one is dropped. */
    method Hear(now: int)
      requires Live() && results != []
      modifies this`results, this`log, disc
      ensures Live() && results == old(results)[1..] && log == old(log) + [Heard(old(results)[0], now)]
      ensures Get(old(generations), old(results)[0].request.id.Key()) != Some(old(results)[0].request.generation) ==>
                disc.services == old(disc.services) && disc.history == old(disc.history)
    {
      hide Accounted, Mirrors, Identity.Key, Stamped, Display, OwnRequests, Discovery.Valid, NoGhosts, Proper, Honest,
        Faithful, Table;
      var r := results[0];
      var k := r.request.id.Key();
      HandleMove(log, jobs, workers, results, now);
      HandleOwn(log, jobs, workers, results, now);
      HeardTable(log, generations, generation, r, now);
      FaithfulPrefix(log, Heard(r, now));
      if Faithful(log + [Heard(r, now)]) {
        HeardMirrors(log, disc.services, r, now);
        SameKey(r, now);
      }
      results := results[1..];
      log := log + [Heard(r, now)];
      if (if k in generations then generations[k] else 0) == r.request.generation {
        ghost var h := disc.history;
        disc.Upsert(Display(r), now);
        OneMoreState(h, disc.Now());
      }
    }

    /** ServiceTypeBrowser.ItemNew. `made` is what ServiceBrowserNew returns. */
    method NewType(kind: string, domain: string, made: Option<nat>) returns (end: Option<End>)
      requires Live()
      modifies this`types, this`objects
      ensures Live()
      ensures end.Some? <==> (kind, domain) !in old(types) && (|old(types)| >= MAX_TYPES || made.None?)
      ensures end.Some? ==> end.value == if |old(types)| >= MAX_TYPES then TooManyTypes else CallFailed
      ensures types == if end.None? && made.Some? && (kind, domain) !in old(types)
                       then old(types)[(kind, domain) := made.value] else old(types)
      ensures objects == if end.None? && made.Some? && (kind, domain) !in old(types)
                         then old(objects) + {made.value} else old(objects)
    {
      hide Table, Accounted, OwnRequests, Mirrors, Faithful, Discovery.Valid, NoGhosts;
      if (kind, domain) in types {
        return None;
      }
      if |types| >= MAX_TYPES {
        return Some(TooManyTypes);
      }
      if made.None? {
        return Some(CallFailed);
      }
      types := types[(kind, domain) := made.value];
      objects := objects + {made.value};
      return None;
    }

    method ItemGone(id: Identity)
      requires Live()
      modifies this`generations, this`log, disc
      ensures Live() && log == old(log) + [Removed(id)] && generations == old(generations) - {id.Key()}
      ensures disc.services == old(disc.services) - {id.Key()}
    {
      hide Accounted, Mirrors, Identity.Key, OwnRequests, Table, Faithful, Discovery.Valid, Discovery.Now, NoGhosts,
        Honest;
      GoneKeeps(log, jobs, workers, results, generations, generation, disc.services, id);
      Fewer(generations, id.Key());
      generations := generations - {id.Key()};
      log := log + [Removed(id)];
      ghost var h := disc.history;
      disc.Remove(id);
      disc.NowConnected();
      OneMoreState(h, disc.Now());
    }

    /** Number the item and show it; its request is yet to be queued. */
    method Number(id: Identity, flags: nat, now: int)
      requires Live() && |generations| < MAX_SERVICES
      modifies this`generations, this`generation, this`log, disc
      ensures disc.Valid() && disc.connected && NoGhosts(disc.history) && |generations| <= MAX_SERVICES
      ensures generation == old(generation) + 1 && log == old(log) + [Added(id, flags, now)]
      ensures Table(log, generations, generation)
      ensures Accounted(log, jobs + [Request(id, generation)], workers, results)
      ensures OwnRequests(log, jobs + [Request(id, generation)], workers, results)
      ensures Faithful(log) ==> Mirrors(log, disc.services)
    {
      hide Accounted, Mirrors, Identity.Key, Stamped, OwnRequests, Table, Faithful, Discovery.Valid, NoGhosts, Found;
      CameKeeps(log, jobs, workers, results, generations, generation, disc.services, id, flags, now);
      FoundKey(id, flags);
      generation := generation + 1;
      generations := generations[id.Key() := generation];
      log := log + [Added(id, flags, now)];
      ghost var h := disc.history;
      disc.Upsert(Found(id, flags), now);
      OneMoreState(h, disc.Now());
    }

    method ItemCame(id: Identity, flags: nat, now: int) returns (end: Option<End>)
      requires Live()
      modifies this`generations, this`generation, this`jobs, this`log, disc
      ensures disc.Valid() && NoGhosts(disc.history)
      ensures end.None? ==> Live() && log == old(log) + [Added(id, flags, now)]
      ensures end.None? ==> generation == old(generation) + 1 && jobs == old(jobs) + [Request(id, generation)]
      ensures end.Some? <==> |old(generations)| >= MAX_SERVICES || |old(jobs)| >= QUEUE
      ensures end.Some? ==> end.value == if |old(generations)| >= MAX_SERVICES then TooManyServices else QueueFull
    {
      hide Accounted, Mirrors, OwnRequests, Table, Faithful, Discovery.Valid, NoGhosts;
      if |generations| >= MAX_SERVICES {
        return Some(TooManyServices);
      }
      Number(id, flags, now);
      if |jobs| >= QUEUE {
        return Some(QueueFull);
      }
      jobs := jobs + [Request(id, generation)];
      return None;
    }

    /** `workers.Wait`, once the context is cancelled: nothing is left that could send. */
    method Join()
      modifies this`workers
      ensures |workers| == WORKERS && forall w | w in workers :: w == Idle
    {
      workers := seq(WORKERS, _ => Idle);
    }

    /** One signal; None for the channel being closed. */
    method OnSignal(sig: Option<Signal>, made: Option<nat>, now: int) returns (end: Option<End>)
      requires Live()
      modifies this, disc
      ensures disc.Valid() && NoGhosts(disc.history)
      ensures end.None? ==> Live()
      ensures sig.None? ==> end == Some(StreamClosed)
      ensures sig.Some? && sig.value.Signal? && sig.value.body == OwnerChanged ==> end == Some(OwnerLost)
      ensures sig.Some? && !Concerns(sig.value, old(objects)) &&
                !(sig.value.Signal? && sig.value.body == OwnerChanged) ==>
                end.None? && log == old(log) && disc.history == old(disc.history)
      ensures sig.Some? && Concerns(sig.value, old(objects)) ==>
                match sig.value.body
                case Failure => end == Some(BrowserFailed)
                case Malformed => end == Some(BadSignal)
                case ItemRemove(id) => end.None? && log == old(log) + [Removed(id)]
                case ItemNew(id, flags) => end.None? ==> log == old(log) + [Added(id, flags, now)]
                case _ => log == old(log) && disc.history == old(disc.history)
    {
      hide Table, Accounted, OwnRequests, Mirrors, Faithful, Discovery.Valid, NoGhosts, Limits;
      if sig.None? {
        return Some(StreamClosed);
      }
      if sig.value == NoSignal {
        return None;
      }
      if sig.value.body == OwnerChanged {
        return Some(OwnerLost);
      }
      if sig.value.path !in objects {
        return None;
      }
      match sig.value.body {
        case Failure => end := Some(BrowserFailed);
        case Malformed => end := Some(BadSignal);
        case TypeNew(kind, domain) => end := NewType(kind, domain, made);
        case ItemRemove(id) =>
          ItemGone(id);
          end := None;
        case ItemNew(id, flags) => end := ItemCame(id, flags, now);
        case _ => end := None;
      }
    }
  }

  // ----- whole sessions -----

  /** One step of the interleaving: the loop, a worker, or somebody outside. */
  method Advance(s: Session) returns (end: Option<End>)
    requires s.Live()
    modifies s, s.disc
    ensures s.disc.Valid() && NoGhosts(s.disc.history)
    ensures end.None? ==> s.Live()
  {
    hide Table, Accounted, OwnRequests, Mirrors, Faithful, Session.Limits, NoGhosts, Discovery.Channels,
      Discovery.Keyed, Discovery.Now;
    var now: int := *;
    end := None;
    if * {
      end := Some(End.Cancelled);
    } else if * {
      end := Some(Disconnected);
    } else if * {
      if s.results != [] {
        s.Hear(now);
      }
    } else if * {
      var sig: Option<Signal>, made: Option<nat> := *, *;
      end := s.OnSignal(sig, made, now);
    } else if * {
      RunWorker(s);
    } else {
      Bystander(s.disc);
    }
  }

  /** Some worker goes on, if it can. */
  method RunWorker(s: Session)
    requires s.Live()
    modifies s`jobs, s`workers, s`results
    ensures s.Live()
  {
    hide Table, Accounted, OwnRequests, Mirrors, Faithful, Session.Limits, NoGhosts, Discovery.Valid;
    var w: nat, a: Answer := *, *;
    if w < |s.workers| {
      if s.workers[w] == Idle && s.jobs != [] {
        s.Take(w);
      } else if s.workers[w].Asking? {
        s.Resolve(w, a);
      } else if s.workers[w].Holding? && |s.results| < QUEUE {
        s.Deliver(w);
      }
    }
  }

  /** Receivers and subscribers, which may act between any two steps. */
  method Bystander(d: Discovery)
    requires d.Valid()
    modifies d`chans, d`subs
    ensures d.Valid()
  {
    hide Rising, Channel.Tidy, Listing, Discovery.Keyed;
    var ch: nat := *;
    if * {
      d.Receivers();
    } else if * {
      ch := d.Subscribe();
    } else if ch in d.chans {
      d.Unsubscribe(ch);
    }
  }

  /** `browse`, for any number of steps. Everything of the session, its channels
      and its results included, is new, and its workers are joined at the end. */
  method Browse(d: Discovery, ready: bool, root: nat, steps: nat) returns (s: Option<Session>, end: Option<End>)
    requires d.Valid() && NoGhosts(d.history)
    modifies d
    ensures d.Valid() && NoGhosts(d.history)
    ensures s.Some? ==> fresh(s.value) && s.value.disc == d && (end.None? ==> s.value.Live())
    ensures end.None? ==> s.Some?
    ensures end.Some? && s.Some? ==> forall w | w in s.value.workers :: w == Idle
  {
    hide Session.Live, NoGhosts, Discovery.Valid;
    if !ready {
      return None, Some(CallFailed);
    }
    ghost var h := d.history;
    d.Reset(true, "");
    OneMoreState(h, d.Now());
    var session := new Session(d, root);
    s, end := Some(session), None;
    var i := 0;
    while i < steps && end.None?
      invariant fresh(session) && session.disc == d && d.Valid() && NoGhosts(d.history)
      invariant end.None? ==> session.Live()
    {
      end := Advance(session);
      i := i + 1;
    }
    if end.Some? {
      session.Join();
    }
  }

  /** `Run`: one session after the other. No state that any subscriber can ever
      receive shows a service while there is no connection. */
  method Run(d: Discovery, rounds: nat, steps: nat)
    requires d.Valid() && NoGhosts(d.history)
    modifies d
    ensures d.Valid() && NoGhosts(d.history)
  {
    hide NoGhosts, Discovery.Valid, Listing;
    var i := 0;
    while i < rounds
      invariant d.Valid() && NoGhosts(d.history)
    {
      var connects: bool, ready: bool, root: nat, text: string, stop: bool := *, *, *, *, *;
      if connects {
        var s, end := Browse(d, ready, root, steps);
      }
      if stop {
        return;
      }
      ghost var h := d.history;
      d.Reset(false, text);
      NothingListed();
      OneMoreState(h, d.Now());
      i := i + 1;
    }
  }
}
