/** What a browse session has handled so far, and what that says should be shown. */
module Logs {
  import opened Basics
  import opened Discoveries

  datatype Request = Request(id: Identity, generation: nat)

  /** What Resolve returned. Its identity is read back from the reply. */
  datatype Answer =
    | Resolved(id: Identity, host: string, addressProtocol: int, address: string, port: nat, txt: seq<string>,
      flags: nat)
    | Unresolved(error: string)

  datatype Reply = Reply(request: Request, answer: Answer)

  /** A signal or a result that the loop of `browse` has dealt with. */
  datatype Event = Added(id: Identity, flags: nat, at: int) | Removed(id: Identity) | Heard(reply: Reply, at: int)

  function Found(id: Identity, flags: nat): Service {
    Service(id, "", 0, "", 0, [], flags, None, None, "")
  }

  function Display(r: Reply): Service {
    match r.answer
    case Resolved(id, host, ap, a, port, txt, flags) => Service(id, host, ap, a, port, txt, flags, None, None, "")
    case Unresolved(e) => Service(r.request.id, "", 0, "", 0, [], 0, None, None, e)
  }

  function Timeless(s: Service): Service { s.(first := None, last := None) }

  // ----- what the log says -----

  /** How many ItemNew there were: the generations are 1, 2, ... up to this. */
  ghost function Adds(log: seq<Event>): nat {
    if log == [] then 0
    else Adds(log[..|log| - 1]) + if log[|log| - 1].Added? then 1 else 0
  }

  /** The generation of the last ItemNew of k, or 0 when k was never added or was removed since. */
  ghost function GenOf(log: seq<Event>, k: string): nat {
    if log == [] then 0
    else
      var rest := log[..|log| - 1];
      match log[|log| - 1]
      case Added(id, _, _) => if id.Key() == k then Adds(log) else GenOf(rest, k)
      case Removed(id) => if id.Key() == k then 0 else GenOf(rest, k)
      case Heard(_, _) => GenOf(rest, k)
  }

  /** The ItemNew of generation g. */
  ghost function Asked(log: seq<Event>, g: nat): (e: Event)
    requires 1 <= g <= Adds(log)
    ensures e.Added? && e in log
  {
    if g == Adds(log) && log[|log| - 1].Added? then log[|log| - 1] else Asked(log[..|log| - 1], g)
  }

  /** The reply handled last for generation g. */
  ghost function ReplyTo(log: seq<Event>, g: nat): Option<Reply> {
    if log == [] then None
    else
      var e := log[|log| - 1];
      if e.Heard? && e.reply.request.generation == g then Some(e.reply) else ReplyTo(log[..|log| - 1], g)
  }

  /** When k was first seen in its present life. */
  ghost function FirstOf(log: seq<Event>, k: string): int {
    if log == [] then 0
    else
      var rest, e := log[..|log| - 1], log[|log| - 1];
      if e.Added? && e.id.Key() == k && GenOf(rest, k) == 0 then e.at else FirstOf(rest, k)
  }

  /** The reply for the present generation, or else what the signal said. */
  ghost function Shown(log: seq<Event>, k: string): Service
    requires 1 <= GenOf(log, k) <= Adds(log)
  {
    var g := GenOf(log, k);
    match ReplyTo(log, g)
    case Some(r) => Display(r)
    case None => Found(Asked(log, g).id, Asked(log, g).flags)
  }

  /** The request asks about the item that the signal of its generation named. */
  ghost predicate Proper(log: seq<Event>, r: Request) {
    1 <= r.generation <= Adds(log) && Asked(log, r.generation).id == r.id
  }

  ghost predicate Honest(e: Event) {
    e.Heard? && e.reply.answer.Resolved? ==> e.reply.answer.id.Key() == e.reply.request.id.Key()
  }

  /** Every reply was about the item that was asked for. */
  ghost predicate Faithful(log: seq<Event>) {
    forall e | e in log :: Honest(e)
  }

  // ----- appending one event -----

  lemma Adding(log: seq<Event>, e: Event)
    ensures Adds(log + [e]) == Adds(log) + (if e.Added? then 1 else 0)
    ensures forall k :: GenOf(log + [e], k) ==
                        (if !e.Heard? && e.id.Key() == k then (if e.Added? then Adds(log) + 1 else 0)
                          else GenOf(log, k))
    ensures forall g :: ReplyTo(log + [e], g) ==
                        (if e.Heard? && e.reply.request.generation == g then Some(e.reply) else ReplyTo(log, g))
    ensures forall k :: FirstOf(log + [e], k) ==
                        (if e.Added? && e.id.Key() == k && GenOf(log, k) == 0 then e.at else FirstOf(log, k))
    ensures forall g | 1 <= g <= Adds(log) :: Asked(log + [e], g) == Asked(log, g)
    ensures e.Added? ==> Asked(log + [e], Adds(log) + 1) == e
  {
    assert (log + [e])[..|log|] == log;
  }

  lemma StillProper(log: seq<Event>, e: Event, r: Request)
    requires Proper(log, r)
    ensures Proper(log + [e], r)
  {
    Adding(log, e);
  }

  /** A present generation is that of an ItemNew of this very key. */
  lemma {:induction false} GenOfAsked(log: seq<Event>, k: string)
    ensures GenOf(log, k) <= Adds(log)
    ensures GenOf(log, k) > 0 ==> Asked(log, GenOf(log, k)).id.Key() == k
  {
    hide Identity.Key;
    if log != [] {
      GenOfAsked(log[..|log| - 1], k);
    }
  }

  // ----- the log read by positions -----

  ghost predicate LastWord(log: seq<Event>, i: int, k: string) {
    && 0 <= i < |log| && log[i].Added? && log[i].id.Key() == k
    && forall j | i < j < |log| :: log[j].Heard? || log[j].id.Key() != k
  }

  /** k is present exactly when the last signal about it was an ItemNew; what
      results came in, and when, makes no difference. */
  lemma {:induction false} PresentIff(log: seq<Event>, k: string)
    ensures GenOf(log, k) > 0 <==> exists i :: LastWord(log, i, k)
  {
    hide Identity.Key;
    if log != [] {
      var n := |log| - 1;
      var rest, e := log[..n], log[n];
      PresentIff(rest, k);
      if !e.Heard? && e.id.Key() == k {
        assert e.Added? ==> LastWord(log, n, k);
        forall i | LastWord(log, i, k)
          ensures i == n
        {
          if i < n {
            assert false;
          }
        }
      } else {
        forall i
          ensures LastWord(log, i, k) <==> LastWord(rest, i, k)
        {
          if LastWord(rest, i, k) {
            forall j | i < j < |log|
              ensures log[j].Heard? || log[j].id.Key() != k
            {
              assert j < n ==> rest[j] == log[j];
            }
          }
          if LastWord(log, i, k) {
            assert forall j | i < j < n :: rest[j] == log[j];
          }
        }
      }
    }
  }

  // ----- conservation of requests -----

  /** How many elements carry generation g, when f tells which one each carries, or 0. */
  ghost function Tally<T>(s: seq<T>, f: T -> nat, g: nat): nat {
    if s == [] then 0 else Tally(s[..|s| - 1], f, g) + if f(s[|s| - 1]) == g then 1 else 0
  }

  lemma TallyAppend<T>(s: seq<T>, x: T, f: T -> nat, g: nat)
    ensures Tally(s + [x], f, g) == Tally(s, f, g) + if f(x) == g then 1 else 0
  {
    assert (s + [x])[..|s|] == s;
  }

  lemma {:induction false} TallyTail<T>(s: seq<T>, f: T -> nat, g: nat)
    requires s != []
    ensures Tally(s, f, g) == Tally(s[1..], f, g) + if f(s[0]) == g then 1 else 0
  {
    if |s| > 1 {
      TallyTail(s[..|s| - 1], f, g);
      assert s[1..][..|s| - 2] == s[..|s| - 1][1..];
    }
  }

  lemma {:induction false} TallyUpdate<T>(s: seq<T>, i: nat, x: T, f: T -> nat, g: nat)
    requires i < |s|
    ensures Tally(s[i := x], f, g) == Tally(s, f, g) - (if f(s[i]) == g then 1 else 0) + (if f(x) == g then 1 else 0)
  {
    var n := |s| - 1;
    if i < n {
      TallyUpdate(s[..n], i, x, f, g);
      assert s[i := x][..n] == s[..n][i := x];
    } else {
      assert s[i := x][..n] == s[..n];
    }
  }

  function OfRequest(r: Request): nat { r.generation }

  function OfReply(r: Reply): nat { r.request.generation }

  function OfEvent(e: Event): nat {
    if e.Heard? then e.reply.request.generation else 0
  }

  lemma {:induction false} RepliesTallied(log: seq<Event>, g: nat)
    requires g > 0
    ensures ReplyTo(log, g).Some? <==> Tally(log, OfEvent, g) > 0
  {
    if log != [] {
      RepliesTallied(log[..|log| - 1], g);
    }
  }
}
