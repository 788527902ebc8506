/** The login limiter: five attempts per key in a window of fifteen minutes. */
module Limits {
  import opened Basics

  /** Times are in nanoseconds. */
  const WINDOW: int := 900_000_000_000
  const ATTEMPTS: nat := 5
  const TABLE: nat := 4096

  datatype Entry = Entry(count: nat, expires: int)

  type Table = map<string, Entry>

  function Swept(t: Table, now: int): Table {
    map k | k in t && now <= t[k].expires :: t[k]
  }

  function CountOf(t: Table, key: string): nat { if key in t then t[key].count else 0 }

  predicate Admits(t: Table, key: string, now: int) {
    var s := Swept(t, now);
    CountOf(s, key) < ATTEMPTS && (CountOf(s, key) == 0 ==> |s| < TABLE)
  }

  function Tried(t: Table, key: string, now: int): Table {
    var s := Swept(t, now);
    if !Admits(t, key, now) then s
    else if CountOf(s, key) == 0 then s[key := Entry(1, now + WINDOW)]
    else s[key := Entry(s[key].count + 1, s[key].expires)]
  }

  class Limiter {
    var attempts: Table

    constructor ()
      ensures attempts == map[]
    {
      attempts := map[];
    }

    /** `allow`. */
    method Allow(key: string, now: int) returns (ok: bool)
      modifies this
      ensures ok == Admits(old(attempts), key, now)
      ensures attempts == Tried(old(attempts), key, now)
    {
      ghost var was := attempts;
      var todo := attempts.Keys;
      while todo != {}
        invariant todo <= attempts.Keys
        invariant attempts == map k | k in was && (k in todo || now <= was[k].expires) :: was[k]
        decreases todo
      {
        var k :| k in todo;
        todo := todo - {k};
        if now > attempts[k].expires {
          attempts := attempts - {k};
        }
      }
      assert attempts == Swept(was, now);
      var v := if key in attempts then attempts[key] else Entry(0, 0);
      if v.count >= ATTEMPTS {
        return false;
      }
      if v.count == 0 {
        if |attempts| >= TABLE {
          return false;
        }
        v := v.(expires := now + WINDOW);
      }
      v := v.(count := v.count + 1);
      attempts := attempts[key := v];
      return true;
    }

    /** The end of a successful Login. */
    method Forget(key: string)
      modifies this
      ensures attempts == old(attempts) - {key}
    {
      attempts := attempts - {key};
    }
  }

  // ----- runs -----

  datatype Event = Try(key: string, now: int) | Success(key: string)

  function Final(events: seq<Event>): Table {
    if events == [] then map[]
    else
      var t := Final(events[..|events| - 1]);
      match events[|events| - 1]
      case Try(key, now) => Tried(t, key, now)
      case Success(key) => t - {key}
  }

  /** Any calls of a limiter make a run. */
  method Drive(events: seq<Event>) returns (l: Limiter)
    ensures l.attempts == Final(events)
  {
    l := new Limiter();
    for i := 0 to |events|
      invariant l.attempts == Final(events[..i])
    {
      assert events[..i + 1][..i] == events[..i];
      match events[i] {
        case Try(key, now) =>
          var ok := l.Allow(key, now);
        case Success(key) =>
          l.Forget(key);
      }
    }
    assert events[..|events|] == events;
  }

  lemma SmallerTable(a: Table, b: Table)
    requires a.Keys <= b.Keys
    ensures |a| <= |b|
  {
    var x, y := a.Keys, b.Keys;
    assert |y - x| == |y| - |x|;
  }

  /** In every run the table stays bounded, and so does every count in it. */
  lemma {:induction false} TableBounded(events: seq<Event>)
    ensures |Final(events)| <= TABLE
    ensures forall k | k in Final(events) :: 1 <= Final(events)[k].count <= ATTEMPTS
  {
    if events != [] {
      var t, after := Final(events[..|events| - 1]), Final(events);
      TableBounded(events[..|events| - 1]);
      match events[|events| - 1] {
        case Try(key, now) =>
          var s := Swept(t, now);
          SmallerTable(s, t);
          if key in s {
            assert after.Keys == s.Keys;
            SmallerTable(after, s);
          } else if Admits(t, key, now) {
            assert after.Keys == s.Keys + {key};
          }
        case Success(key) =>
          SmallerTable(after, t);
      }
    }
  }

  // ----- the attempts of one key -----

  /** The time of the latest attempt. */
  function Latest(events: seq<Event>): int {
    if events == [] then 0
    else
      var n := |events| - 1;
      if events[n].Try? then events[n].now else Latest(events[..n])
  }

  predicate Clocked(events: seq<Event>) {
    forall i, j | 0 <= i < j < |events| && events[i].Try? && events[j].Try? :: events[i].now <= events[j].now
  }

  predicate NeverIn(events: seq<Event>, key: string) {
    forall i | 0 <= i < |events| :: events[i] != Success(key)
  }

  /** When the key was admitted, and when each admission's window was opened. */
  function Times(events: seq<Event>, key: string): seq<int> {
    if events == [] then []
    else
      var n := |events| - 1;
      var e := events[n];
      var ts := Times(events[..n], key);
      if e.Try? && e.key == key && Admits(Final(events[..n]), key, e.now) then ts + [e.now] else ts
  }

  function Opened(events: seq<Event>, key: string): (opens: seq<int>)
    ensures |opens| == |Times(events, key)|
  {
    if events == [] then []
    else
      var n := |events| - 1;
      var e := events[n];
      var os := Opened(events[..n], key);
      if e.Try? && e.key == key && Admits(Final(events[..n]), key, e.now)
      then os + [Final(events)[key].expires - WINDOW] else os
  }

  ghost predicate InWindows(ts: seq<int>, os: seq<int>) {
    && |ts| == |os|
    && (forall i | 0 <= i < |ts| :: os[i] <= ts[i] <= os[i] + WINDOW)
    && (forall i, j | 0 <= i < j < |ts| :: ts[i] <= ts[j])
  }

  ghost predicate Apart(os: seq<int>) {
    forall i, j | 0 <= i < j < |os| :: os[i] == os[j] || os[j] > os[i] + WINDOW
  }

  /** An admission is in the same window as the one before, or it opened its own. */
  ghost predicate Opener(ts: seq<int>, os: seq<int>, i: int) {
    0 <= i < |ts| == |os| && ((i > 0 && os[i - 1] == os[i]) || ts[i] == os[i])
  }

  ghost predicate OpenedByOne(ts: seq<int>, os: seq<int>) {
    forall i | 0 <= i < |ts| :: Opener(ts, os, i)
  }

  ghost predicate AtMostFive(os: seq<int>) {
    forall i, j | 0 <= i && j == i + 5 && j < |os| :: os[i] != os[j]
  }

  /** The windows one key goes through: each admission lies in its window, windows
      follow one another without overlap, each starts with an admission, and none
      holds more than five. */
  ghost predicate Windows(ts: seq<int>, os: seq<int>) {
    InWindows(ts, os) && Apart(os) && OpenedByOne(ts, os) && AtMostFive(os)
  }

  /** How the table entry of the key stands to its windows, by the time of the latest attempt. */
  ghost predicate Standing(entry: Option<Entry>, ts: seq<int>, os: seq<int>, latest: int) {
    var n := |os|;
    && |ts| == n
    && (forall i | 0 <= i < n :: ts[i] <= latest)
    && match entry
       case Some(e) =>
         && 1 <= e.count <= n && e.count <= ATTEMPTS
         && (forall i | n - e.count <= i < n :: os[i] + WINDOW == e.expires)
         && (n > e.count ==> os[n - 1 - e.count] + WINDOW < e.expires)
       case None => n > 0 ==> latest > os[n - 1] + WINDOW
  }

  function Bumped(entry: Option<Entry>, now: int): Entry {
    if entry.Some? then Entry(entry.value.count + 1, entry.value.expires) else Entry(1, now + WINDOW)
  }

  /** One more admission, in the window that is open or in a new one. */
  lemma AdmittedWindows(entry: Option<Entry>, ts: seq<int>, os: seq<int>, now: int)
    requires Windows(ts, os) && Standing(entry, ts, os, now)
    requires entry.Some? ==> now <= entry.value.expires && entry.value.count < ATTEMPTS
    ensures var after := Bumped(entry, now);
            && Windows(ts + [now], os + [after.expires - WINDOW])
            && Standing(Some(after), ts + [now], os + [after.expires - WINDOW], now)
  {
    var o, n := Bumped(entry, now).expires - WINDOW, |os|;
    OpenBefore(entry, ts, os, now);
    assert InWindows(ts + [now], os + [o]) by {
      hide Apart, AtMostFive, OpenedByOne;
    }
    assert Apart(os + [o]) by {
      hide InWindows, AtMostFive, OpenedByOne, Standing;
    }
    assert OpenedByOne(ts + [now], os + [o]) by {
      hide InWindows, Apart, AtMostFive, OpenedByOne;
      OpenedMore(ts, os, now, o);
    }
    assert AtMostFive(os + [o]) by {
      hide InWindows, Apart, OpenedByOne;
      if n >= 5 {
        FifthBack(entry, ts, os, now);
      }
    }
    StandingMore(entry, ts, os, now);
  }

  lemma StandingMore(entry: Option<Entry>, ts: seq<int>, os: seq<int>, now: int)
    requires Standing(entry, ts, os, now)
    requires entry.Some? ==> entry.value.count < ATTEMPTS
    requires forall i | 0 <= i < |os| ::
               os[i] == Bumped(entry, now).expires - WINDOW || Bumped(entry, now).expires > os[i] + WINDOW + WINDOW
    ensures Standing(Some(Bumped(entry, now)), ts + [now], os + [Bumped(entry, now).expires - WINDOW], now)
  {
    var o, n := Bumped(entry, now).expires - WINDOW, |os|;
    var os' := os + [o];
    assert forall i | 0 <= i < n :: os'[i] == os[i];
    assert entry.None? && n > 0 ==> os'[n - 1] == os[n - 1];
  }

  lemma OpenedMore(ts: seq<int>, os: seq<int>, now: int, o: int)
    requires |ts| == |os| && OpenedByOne(ts, os)
    requires (os != [] && os[|os| - 1] == o) || now == o
    ensures OpenedByOne(ts + [now], os + [o])
  {
    var ts', os' := ts + [now], os + [o];
    forall i | 0 <= i < |ts'|
      ensures Opener(ts', os', i)
    {
      assert i < |ts| ==> Opener(ts, os, i);
    }
  }

  /** Every earlier window is this one or is over. */
  lemma OpenBefore(entry: Option<Entry>, ts: seq<int>, os: seq<int>, now: int)
    requires Windows(ts, os) && Standing(entry, ts, os, now)
    requires entry.Some? ==> now <= entry.value.expires
    ensures var o := Bumped(entry, now).expires - WINDOW;
            && o <= now <= o + WINDOW
            && forall i | 0 <= i < |os| :: os[i] == o || o > os[i] + WINDOW
  {
    hide AtMostFive, OpenedByOne;
    var o, n := Bumped(entry, now).expires - WINDOW, |os|;
    if n > 0 {
      assert os[n - 1] <= ts[n - 1] <= now;
      forall i | 0 <= i < n
        ensures os[i] == o || o > os[i] + WINDOW
      {
        assert i < n - 1 ==> os[i] == os[n - 1] || os[n - 1] > os[i] + WINDOW;
      }
    }
  }

  /** Five back, another window was open. */
  lemma FifthBack(entry: Option<Entry>, ts: seq<int>, os: seq<int>, now: int)
    requires Windows(ts, os) && Standing(entry, ts, os, now) && |os| >= 5
    requires entry.Some? ==> now <= entry.value.expires && entry.value.count < ATTEMPTS
    ensures os[|os| - 5] != Bumped(entry, now).expires - WINDOW
  {
    hide AtMostFive, OpenedByOne;
    var n := |os|;
    if entry.Some? {
      var b := n - 1 - entry.value.count;
      assert b == n - 5 || os[n - 5] == os[b] || os[b] > os[n - 5] + WINDOW;
    } else {
      OpenBefore(entry, ts, os, now);
      assert os[n - 5] == os[n - 1] || os[n - 1] > os[n - 5] + WINDOW || n == 5;
    }
  }

  lemma SweptStanding(entry: Option<Entry>, ts: seq<int>, os: seq<int>, latest: int, now: int)
    requires Standing(entry, ts, os, latest) && (ts != [] ==> latest <= now)
    ensures Standing(if entry.Some? && now <= entry.value.expires then entry else None, ts, os, now)
  {
  }

  lemma {:induction false} LatestIsLast(events: seq<Event>, now: int)
    requires forall i | 0 <= i < |events| && events[i].Try? :: events[i].now <= now
    requires exists i :: 0 <= i < |events| && events[i].Try?
    ensures Latest(events) <= now
  {
    var n := |events| - 1;
    if !events[n].Try? {
      var i :| 0 <= i < |events| && events[i].Try?;
      assert events[..n][i].Try?;
      LatestIsLast(events[..n], now);
    }
  }

  lemma {:induction false} AdmittedTried(events: seq<Event>, key: string)
    requires Times(events, key) != []
    ensures exists i :: 0 <= i < |events| && events[i].Try?
  {
    var n := |events| - 1;
    if !events[n].Try? {
      AdmittedTried(events[..n], key);
      var i :| 0 <= i < n && events[..n][i].Try?;
      assert events[i].Try?;
    }
  }

  lemma EntryAfter(t: Table, key: string, who: string, now: int)
    ensures var swept := if key in t && now <= t[key].expires then Some(t[key]) else None;
            && (key != who || !Admits(t, who, now) ==> Get(Tried(t, who, now), key) == swept)
            && (key == who && Admits(t, who, now) && swept.Some? && swept.value.count > 0 ==>
                  swept.value.count < ATTEMPTS &&
                    Get(Tried(t, who, now), key) == Some(Entry(swept.value.count + 1, swept.value.expires)))
            && (key == who && Admits(t, who, now) && swept.None? ==>
                  Get(Tried(t, who, now), key) == Some(Entry(1, now + WINDOW)))
  {
  }

  /** The invariant of every run in which time does not go back and the key never logs in. */
  lemma {:induction false} KeyWindows(events: seq<Event>, key: string)
    requires Clocked(events) && NeverIn(events, key)
    ensures Windows(Times(events, key), Opened(events, key))
    ensures Standing(Get(Final(events), key), Times(events, key), Opened(events, key), Latest(events))
  {
    if events == [] {
      NoWindows();
    } else {
      hide Windows, Standing, Times, Opened, Final, Latest, Clocked, NeverIn;
      var before, e := events[..|events| - 1], events[|events| - 1];
      assert before + [e] == events;
      Before(before, e, key);
      KeyWindows(before, key);
      OneMore(before, e, key);
    }
  }

  lemma OneMore(before: seq<Event>, e: Event, key: string)
    requires Windows(Times(before, key), Opened(before, key))
    requires Standing(Get(Final(before), key), Times(before, key), Opened(before, key), Latest(before))
    requires e != Success(key) && (e.Try? && Times(before, key) != [] ==> Latest(before) <= e.now)
    ensures var events := before + [e];
            && Windows(Times(events, key), Opened(events, key))
            && Standing(Get(Final(events), key), Times(events, key), Opened(events, key), Latest(events))
  {
    hide Windows, Standing, Admits, Tried, Times, Opened, Final, Latest;
    var t, ts, os := Final(before), Times(before, key), Opened(before, key);
    FinalStep(before, e);
    TimesStep(before, e, key);
    OpenedStep(before, e, key);
    if e.Try? {
      EntryAfter(t, key, e.key, e.now);
      SweptStanding(Get(t, key), ts, os, Latest(before), e.now);
      var entry := if key in t && e.now <= t[key].expires then Some(t[key]) else None;
      if e.key == key && Admits(t, key, e.now) {
        StandingCounts(entry, ts, os, e.now);
        AdmittedWindows(entry, ts, os, e.now);
      }
    }
  }

  lemma FinalStep(before: seq<Event>, e: Event)
    ensures Final(before + [e]) == if e.Try? then Tried(Final(before), e.key, e.now) else Final(before) - {e.key}
    ensures Latest(before + [e]) == if e.Try? then e.now else Latest(before)
  {
    hide Tried;
    assert (before + [e])[..|before|] == before;
  }

  lemma TimesStep(before: seq<Event>, e: Event, key: string)
    ensures Times(before + [e], key)
         == if e.Try? && e.key == key && Admits(Final(before), key, e.now) then Times(before, key) + [e.now]
           else Times(before, key)
  {
    hide Final, Admits;
    assert (before + [e])[..|before|] == before;
  }

  lemma OpenedStep(before: seq<Event>, e: Event, key: string)
    ensures Opened(before + [e], key)
         == if e.Try? && e.key == key && Admits(Final(before), key, e.now)
            then Opened(before, key) + [Tried(Final(before), key, e.now)[key].expires - WINDOW] else Opened(before, key)
  {
    FinalStep(before, e);
    hide Final, Times;
    assert (before + [e])[..|before|] == before;
  }

  lemma NoWindows()
    ensures Windows([], []) && Standing(None, [], [], 0)
  {
  }

  lemma Before(before: seq<Event>, e: Event, key: string)
    requires Clocked(before + [e]) && NeverIn(before + [e], key)
    ensures Clocked(before) && NeverIn(before, key) && e != Success(key)
    ensures e.Try? && Times(before, key) != [] ==> Latest(before) <= e.now
  {
    hide Times, Latest;
    var events := before + [e];
    assert forall i | 0 <= i < |before| :: before[i] == events[i];
    assert events[|before|] == e;
    if e.Try? && Times(before, key) != [] {
      AdmittedTried(before, key);
      LatestIsLast(before, e.now);
    }
  }

  lemma StandingCounts(entry: Option<Entry>, ts: seq<int>, os: seq<int>, latest: int)
    requires Standing(entry, ts, os, latest)
    ensures entry.Some? ==> entry.value.count > 0
  {
  }

  // ----- main results -----

  /** At most five admissions while a window is open. */
  lemma FivePerWindow(events: seq<Event>, key: string, i: nat)
    requires Clocked(events) && NeverIn(events, key) && i + 5 < |Times(events, key)|
    ensures Times(events, key)[i + 5] > Opened(events, key)[i] + WINDOW
  {
    KeyWindows(events, key);
    var ts, os := Times(events, key), Opened(events, key);
    assert os[i] != os[i + 5];
  }

  /** At most nine admissions in any fifteen minutes, wherever they begin: the
      tenth after any admission is more than a window away. */
  lemma NinePerInterval(events: seq<Event>, key: string, i: nat)
    requires Clocked(events) && NeverIn(events, key) && i + 9 < |Times(events, key)|
    ensures Times(events, key)[i + 9] > Times(events, key)[i] + WINDOW
  {
    KeyWindows(events, key);
    hide Times, Opened;
    var ts, os := Times(events, key), Opened(events, key);
    if os[i + 4] == os[i] {
      assert Opener(ts, os, i);
      assert i > 0 ==> os[i - 1] != os[i - 1 + 5];
      assert os[i] != os[i + 5];
    } else {
      assert os[i + 4] != os[i + 4 + 5];
    }
  }

  lemma OneTry(events: seq<Event>, key: string, now: int)
    ensures Final(events + [Try(key, now)]) == Tried(Final(events), key, now)
    ensures Times(events + [Try(key, now)], key)
         == if Admits(Final(events), key, now) then Times(events, key) + [now] else Times(events, key)
  {
    assert (events + [Try(key, now)])[..|events|] == events;
  }

  function Ninth(i: int): int { if i == 0 then 0 else if i < 5 then WINDOW else WINDOW + 1 }

  /** The table after i of the attempts below. */
  function NinthTable(key: string, i: int): Table {
    if i <= 0 then map[]
    else if i <= 5 then map[key := Entry(i, WINDOW)]
    else map[key := Entry(i - 5, WINDOW + 1 + WINDOW)]
  }

  lemma NinthStep(key: string, i: nat)
    requires i < 10
    ensures Admits(NinthTable(key, i), key, Ninth(i)) &&
              Tried(NinthTable(key, i), key, Ninth(i)) == NinthTable(key, i + 1)
  {
    var t := NinthTable(key, i);
    if 0 < i < 5 || i > 5 {
      assert Swept(t, Ninth(i)) == t;
    } else {
      assert Swept(t, Ninth(i)) == map[];
    }
  }

  /** Nine is reached: one attempt, four at the last moment of its window, five just after. */
  lemma NineHappen(key: string) returns (events: seq<Event>)
    ensures Clocked(events) && NeverIn(events, key)
    ensures |Times(events, key)| == 10 && Times(events, key)[9] == Times(events, key)[1] + 1
  {
    hide Final, Times, Tried, Admits, NinthTable;
    events := [];
    NothingYet(key);
    for i := 0 to 10
      invariant |events| == |Times(events, key)| == i && Final(events) == NinthTable(key, i)
      invariant forall j | 0 <= j < i :: events[j] == Try(key, Ninth(j)) && Times(events, key)[j] == Ninth(j)
    {
      NinthStep(key, i);
      OneTry(events, key, Ninth(i));
      events := events + [Try(key, Ninth(i))];
    }
  }

  lemma NothingYet(key: string)
    ensures Final([]) == NinthTable(key, 0) && Times([], key) == []
  {
  }
}
