/** The cache of discovered services and its fan-out: one-slot channels in which
    the latest complete state replaces one that nobody has received yet. */
module Discoveries {
  import opened Basics
  import opened Paths
  import opened Revision

  datatype Identity = Identity(intf: int, proto: int, name: string, kind: string, domain: string) {
    function Key(): string {
      Decimal(intf) + ['\0'] + (Decimal(proto) + ['\0'] + (name + ['\0'] + (kind + ['\0'] + domain)))
    }

    predicate NulFree() {
      '\0' !in name && '\0' !in kind && '\0' !in domain
    }
  }

  /** Keys name identities, because D-Bus strings hold no NUL. */
  lemma KeyInjective(a: Identity, b: Identity)
    requires a.NulFree() && b.NulFree()
    ensures a.Key() == b.Key() <==> a == b
  {
    hide Split, Decimal;
    if a.Key() == b.Key() {
      KeyParts(a);
      KeyParts(b);
      DecimalInjective(a.intf, b.intf);
      DecimalInjective(a.proto, b.proto);
    }
  }

  lemma KeyParts(a: Identity)
    requires a.NulFree()
    ensures Split(a.Key(), '\0') == [Decimal(a.intf), Decimal(a.proto), a.name, a.kind, a.domain]
  {
    hide Split, Decimal;
    PartsIffSep(a.domain, '\0');
    assert Split(a.domain, '\0') == [a.domain] by {
      Whole(a.domain, '\0');
    }
    SplitAppend(a.kind, '\0', a.domain);
    SplitAppend(a.name, '\0', a.kind + ['\0'] + a.domain);
    SplitAppend(Decimal(a.proto), '\0', a.name + ['\0'] + (a.kind + ['\0'] + a.domain));
    SplitAppend(Decimal(a.intf), '\0', Decimal(a.proto) + ['\0'] + (a.name + ['\0'] + (a.kind + ['\0'] + a.domain)));
  }

  lemma {:induction false} Whole(s: string, sep: char)
    requires sep !in s
    ensures Split(s, sep) == [s]
  {
    if s != [] {
      Whole(s[1..], sep);
      assert s == [s[0]] + s[1..];
    }
  }

  /** A time of None is Go's zero time. */
  datatype Service = Service(id: Identity, host: string, addressProtocol: int, address: string, port: nat,
                             txt: seq<string>,
                             flags: nat, first: Option<int>, last: Option<int>, error: string)

  datatype State = State(services: seq<Service>, connected: bool, err: string)

  ghost function Listing(cache: map<string, Service>): (list: seq<Service>)
    ensures |list| == |SortedKeys(cache.Keys)|
  {
    var ks := SortedKeys(cache.Keys);
    seq(|ks|, i requires 0 <= i < |ks| => assert ks[i] in Elements(ks); cache[ks[i]])
  }

  /** What one state shows: every cached service once, in key order, and nothing else. */
  lemma ListingShows(cache: map<string, Service>)
    requires forall k | k in cache :: cache[k].id.Key() == k
    ensures forall s :: s in Listing(cache) <==> s.id.Key() in cache && cache[s.id.Key()] == s
    ensures forall i, j | 0 <= i < j < |Listing(cache)| :: Less(Listing(cache)[i].id.Key(), Listing(cache)[j].id.Key())
  {
    hide Identity.Key;
    var ks := SortedKeys(cache.Keys);
    forall s
      ensures s in Listing(cache) <==> s.id.Key() in cache && cache[s.id.Key()] == s
    {
      if s in Listing(cache) {
        var i :| 0 <= i < |ks| && Listing(cache)[i] == s;
        assert ks[i] in Elements(ks);
      }
      if s.id.Key() in cache && cache[s.id.Key()] == s {
        assert s.id.Key() in Elements(ks);
        var i :| 0 <= i < |ks| && ks[i] == s.id.Key();
        assert Listing(cache)[i] == s;
      }
    }
    forall i, j | 0 <= i < j < |ks|
      ensures Less(Listing(cache)[i].id.Key(), Listing(cache)[j].id.Key())
    {
      assert ks[i] in Elements(ks) && ks[j] in Elements(ks);
    }
  }

  /** The services sorted by key. */
  method Ordered(cache: map<string, Service>) returns (list: seq<Service>)
    ensures list == Listing(cache)
  {
    hide Sorted, SortedKeys, Less;
    var ks := SortedPaths(cache.Keys);
    list := [];
    var i := 0;
    while i < |ks|
      invariant 0 <= i <= |ks|
      invariant list == Listing(cache)[..i]
    {
      assert ks[i] in Elements(ks);
      list := list + [cache[ks[i]]];
      i := i + 1;
    }
  }

  /** A Go channel of capacity one, with the index among all states there have
      been of the last one sent on it, and of those received from it. */
  datatype Channel = Channel(buf: Option<State>, closed: bool, ghost sent: nat, ghost seen: seq<nat>) {
    /** A receive. */
    function Taken(): Channel
      requires buf.Some?
    {
      this.(buf := None, seen := seen + [sent])
    }

    /** A send. */
    function Filled(s: State, ghost v: nat): Channel {
      this.(buf := Some(s), sent := v)
    }

    ghost predicate After(was: Channel) {
      this == was || (was.buf.Some? && this == was.Taken())
    }

    /** The channel carries the last state sent on it, or that one was received;
        and what was received came in the order in which it was current. */
    ghost predicate Tidy(history: seq<State>) {
      && sent < |history| && Rising(seen)
      && match buf
         case Some(s) => s == history[sent] && (seen != [] ==> seen[|seen| - 1] < sent)
         case None => seen != [] && seen[|seen| - 1] == sent
    }
  }

  /** The last state received, as an index among all states. */
  ghost function Latest(c: Channel): nat {
    if c.seen == [] then 0 else c.seen[|c.seen| - 1]
  }

  ghost predicate Rising(s: seq<nat>) {
    forall i, j | 0 <= i < j < |s| :: s[i] < s[j]
  }

  lemma TakenTidy(c: Channel, history: seq<State>)
    requires c.Tidy(history) && c.buf.Some?
    ensures c.Taken().Tidy(history)
  {
  }

  lemma FilledTidy(c: Channel, history: seq<State>, s: State, v: nat)
    requires c.Tidy(history) && c.buf.None? && c.sent < v < |history| && history[v] == s
    ensures c.Filled(s, v).Tidy(history)
  {
  }

  lemma NewTidy(history: seq<State>)
    requires history != []
    ensures Channel(Some(history[|history| - 1]), false, |history| - 1, []).Tidy(history)
  {
  }

  lemma ClosedTidy(c: Channel, history: seq<State>)
    requires c.Tidy(history)
    ensures c.(closed := true).Tidy(history)
  {
  }

  class Discovery {
    var services: map<string, Service>
    var connected: bool
    var err: string
    var subs: set<nat>
    /** Every channel ever made, by number. */
    var chans: map<nat, Channel>
    /** Every state there has been; its last element is the current one. */
    ghost var history: seq<State>

    ghost function Now(): State
      reads this`services, this`connected, this`err
    {
      State(Listing(services), connected, err)
    }

    ghost predicate Channels()
      reads this`chans, this`subs, this`history
    {
      && history != []
      && (forall ch | ch in chans :: chans[ch].Tidy(history))
      && (forall ch :: ch in subs <==> ch in chans && !chans[ch].closed)
    }

    ghost predicate Keyed()
      reads this`services
    {
      forall k | k in services :: services[k].id.Key() == k
    }

    /** Whenever the lock is free: each subscriber's channel holds exactly the
        current state, or is empty because that state was received. */
    ghost predicate Valid()
      reads this
    {
      && Channels() && Keyed()
      && history[|history| - 1] == Now()
      && forall ch | ch in subs :: chans[ch].sent == |history| - 1
    }

    constructor ()
      ensures Valid() && services == map[] && !connected && subs == {} && chans == map[] && history == [Now()]
    {
      services, connected, err, subs, chans := map[], false, "", {}, map[];
      history := [State([], false, "")];
      new;
      assert services.Keys == {};
      EmptyListing(SortedKeys({}));
    }

    // ----- receivers, which take no lock -----

    /** Receive from a channel, or find nothing there. */
    method Receive(ch: nat) returns (got: Option<State>)
      requires Channels() && ch in chans
      modifies this`chans
      ensures Channels()
      ensures got == old(chans)[ch].buf
      ensures chans == if got.Some? then old(chans)[ch := old(chans)[ch].Taken()] else old(chans)
      ensures got.Some? ==> got.value == history[chans[ch].sent]
      ensures old(Valid()) ==> Valid()
      ensures old(Valid()) && ch in subs ==> history[Latest(chans[ch])] == Now() && (got.Some? ==> got.value == Now())
    {
      hide Rising, Keyed, Now;
      got := chans[ch].buf;
      if got.Some? {
        TakenTidy(chans[ch], history);
        chans := chans[ch := chans[ch].Taken()];
      }
    }

    ghost predicate DrainedSince(was: map<nat, Channel>)
      reads this
    {
      chans.Keys == was.Keys && forall ch | ch in chans :: chans[ch].After(was[ch])
    }

    /** Any receivers take what is there, at any moment. */
    method Receivers()
      requires Channels()
      modifies this`chans
      ensures Channels() && DrainedSince(old(chans))
      ensures old(Valid()) ==> Valid()
    {
      hide Rising, Channel.Tidy, Valid, Keyed, Now;
      ghost var was, ready := chans, Valid();
      if ready {
        SentLast();
      }
      var who: set<nat> := *;
      var todo := set ch | ch in chans && ch in who;
      while todo != {}
        invariant todo <= chans.Keys && Channels() && DrainedSince(was)
        invariant forall ch | ch in todo :: chans[ch] == was[ch]
        decreases todo
      {
        var ch :| ch in todo;
        var got := Receive(ch);
        todo := todo - {ch};
      }
      if ready {
        StillValid(was);
      }
    }

    lemma SentLast()
      requires Valid()
      ensures Keyed() && history != [] && history[|history| - 1] == Now()
      ensures forall ch | ch in subs :: ch in chans && chans[ch].sent == |history| - 1
    {
      hide Keyed, Now, Channel.Tidy;
    }

    lemma StillValid(was: map<nat, Channel>)
      requires Channels() && Keyed() && history[|history| - 1] == Now() && DrainedSince(was)
      requires forall ch | ch in subs :: ch in was && was[ch].sent == |history| - 1
      ensures Valid()
    {
      hide Keyed, Now, Channel.Tidy;
    }

    // ----- senders, which hold the lock -----

    /** A send that cannot block and cannot hit a closed channel. */
    method Send(ch: nat, s: State, ghost v: nat)
      requires Channels() && ch in chans && chans[ch].sent < v < |history| && history[v] == s
      requires chans[ch].buf.None? && !chans[ch].closed
      modifies this`chans
      ensures Channels()
      ensures chans == old(chans)[ch := old(chans)[ch].Filled(s, v)]
    {
      hide Rising;
      FilledTidy(chans[ch], history, s, v);
      chans := chans[ch := chans[ch].Filled(s, v)];
    }

    /** `state`. */
    method Collect() returns (s: State)
      ensures s == Now()
    {
      var list := Ordered(services);
      return State(list, connected, err);
    }

    /** The sends on every channel but one are what they were. */
    ghost predicate SentAs(was: map<nat, Channel>, but: nat)
      reads this
    {
      chans.Keys == was.Keys && forall c | c in chans && c != but :: chans[c].sent == was[c].sent
    }

    /** The inner select of `notify`: make room, whether or not a receiver just has. */
    method MakeRoom(ch: nat)
      requires Channels() && ch in chans
      modifies this`chans
      ensures Channels() && chans.Keys == old(chans).Keys
      ensures chans[ch].buf.None?
      ensures forall c | c in chans :: chans[c].sent == old(chans)[c].sent
    {
      hide Rising, Channel.Tidy, Valid, Keyed, Now;
      Receivers();
      var stale := Receive(ch);
      Receivers();
    }

    /** One subscriber's turn in `notify`. Receivers run in between. */
    method Offer(ch: nat, s: State)
      requires Channels() && ch in subs && history[|history| - 1] == s && chans[ch].sent < |history| - 1
      modifies this`chans
      ensures Channels() && SentAs(old(chans), ch) && chans[ch].sent == |history| - 1
    {
      hide Rising, Channel.Tidy, Valid, Keyed, Now;
      Receivers();
      if chans[ch].buf.Some? {
        MakeRoom(ch);
      }
      Send(ch, s, |history| - 1);
    }

    method Notify()
      requires Channels() && Keyed() && forall ch | ch in subs :: chans[ch].sent == |history| - 1
      modifies this`chans, this`history
      ensures Valid() && history == old(history) + [Now()] && chans.Keys == old(chans).Keys
    {
      hide Rising, Channel.Tidy, Listing, Identity.Key, Keyed, Now;
      var s := Collect();
      ghost var n := |history|;
      Recorded(s);
      history := history + [s];
      assert Channels();
      var todo := subs;
      while todo != {}
        invariant todo <= subs && Channels() && chans.Keys == old(chans).Keys && history == old(history) + [s]
        invariant forall ch | ch in todo :: chans[ch].sent == n - 1
        invariant forall ch | ch in subs && ch !in todo :: chans[ch].sent == n
        decreases todo
      {
        var ch :| ch in todo;
        Offer(ch, s);
        todo := todo - {ch};
      }
    }

    lemma Recorded(s: State)
      requires Channels()
      ensures forall ch | ch in chans :: chans[ch].Tidy(history + [s])
    {
    }

    lemma NowConnected()
      requires connected
      ensures Now().connected
    {
    }

    // ----- the operations -----

    method Subscribe() returns (ch: nat)
      requires Valid()
      modifies this`chans, this`subs
      ensures Valid() && ch !in old(chans) && subs == old(subs) + {ch}
      ensures chans == old(chans)[ch := Channel(Some(Now()), false, |history| - 1, [])]
    {
      hide Listing, Identity.Key, Rising, Channel.Tidy, Keyed, Now;
      ch := Unused(chans.Keys);
      NewTidy(history);
      var s := Collect();
      chans := chans[ch := Channel(Some(s), false, |history| - 1, [])];
      subs := subs + {ch};
    }

    /** The function that Subscribe returns; later calls of it do nothing. */
    method Unsubscribe(ch: nat)
      requires Valid() && ch in chans
      modifies this`chans, this`subs
      ensures Valid() && subs == old(subs) - {ch}
      ensures chans == old(chans)[ch := old(chans)[ch].(closed := true)]
    {
      hide Listing, Identity.Key, Rising, Channel.Tidy, Keyed, Now;
      if !chans[ch].closed {
        ClosedTidy(chans[ch], history);
        subs := subs - {ch};
        chans := chans[ch := chans[ch].(closed := true)];
      }
    }

    method Reset(connected: bool, err: string)
      requires Valid()
      modifies this`services, this`connected, this`err, this`chans, this`history
      ensures Valid() && services == map[] && this.connected == connected && this.err == err
      ensures history == old(history) + [Now()]
    {
      hide Listing, Identity.Key, Channels;
      services := map[];
      this.connected, this.err := connected, err;
      Notify();
    }

    method Upsert(s: Service, now: int)
      requires Valid()
      modifies this`services, this`chans, this`history
      ensures Valid() && history == old(history) + [Now()]
      ensures services == old(services)[s.id.Key() := Stamped(s, Get(old(services), s.id.Key()), now)]
    {
      hide Listing, Identity.Key, Channels;
      var t := s;
      if s.id.Key() in services {
        t := t.(first := services[s.id.Key()].first);
      } else if s.first.None? {
        t := t.(first := Some(now));
      }
      t := t.(last := Some(now));
      services := services[s.id.Key() := t];
      Notify();
    }

    method Remove(i: Identity)
      requires Valid()
      modifies this`services, this`chans, this`history
      ensures Valid() && history == old(history) + [Now()]
      ensures services == old(services) - {i.Key()}
    {
      hide Listing, Identity.Key, Channels;
      services := services - {i.Key()};
      Notify();
    }
  }

  /** No state that was ever published shows a service without a connection. */
  ghost predicate NoGhosts(history: seq<State>) {
    forall i | 0 <= i < |history| :: history[i].connected || history[i].services == []
  }

  lemma OneMoreState(history: seq<State>, s: State)
    requires NoGhosts(history) && (s.connected || s.services == [])
    ensures NoGhosts(history + [s])
  {
  }

  lemma NothingListed()
    ensures Listing(map[]) == []
  {
    var cache: map<string, Service> := map[];
    assert cache.Keys == {};
    EmptyListing(SortedKeys({}));
  }

  /** A service keeps the time at which it was first seen. */
  function Stamped(s: Service, was: Option<Service>, now: int): Service {
    s.(first := if was.Some? then was.value.first else if s.first.None? then Some(now) else s.first, last := Some(now))
  }

  method Unused(taken: set<nat>) returns (n: nat)
    ensures n !in taken
  {
    n := 0;
    var left := taken;
    while n in taken
      invariant left == set k | k in taken && k >= n
      decreases left
    {
      left := left - {n};
      n := n + 1;
    }
  }
}
