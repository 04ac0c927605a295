/** The fixed-window limiter of failed credentials and traffic (internal/oidc/clientauth.go). */
module Limiter {
  import opened Records

  const CAPACITY := 10000

  const CLIENT_LIMIT := 30

  datatype Entry = Entry(count: int, expires: Time)

  type Entries = map<Id, Entry>

  datatype Call = Call(key: Id, limit: int, window: Time, now: Time)

  // ---------- One call ----------

  function Unexpired(entries: Entries, now: Time): Entries {
    map k | k in entries && entries[k].expires > now :: entries[k]
  }

  /** Whether the call is admitted once the expired entries are gone. */
  predicate Admits(entries: Entries, c: Call) {
    var live := Unexpired(entries, c.now);
    if c.key in live then live[c.key].count < c.limit else 0 < c.limit && |live| < CAPACITY
  }

  function Counted(entries: Entries, c: Call): Entries {
    var live := Unexpired(entries, c.now);
    var e := if c.key in live then live[c.key] else Entry(0, 0);
    live[c.key := Entry(e.count + 1, if e.count == 0 then c.now + c.window else e.expires)]
  }

  function Take(entries: Entries, c: Call): Entries {
    if Admits(entries, c) then Counted(entries, c) else Unexpired(entries, c.now)
  }

  predicate Available(entries: Entries, key: Id, now: Time) {
    key in entries && entries[key].expires > now ==> entries[key].count < CLIENT_LIMIT
  }

  /** A bucket is available exactly when a failure can still be counted against it, if there is room. */
  lemma AvailableExactly(entries: Entries, key: Id, window: Time, now: Time)
    requires |Unexpired(entries, now)| < CAPACITY
    ensures Available(entries, key, now) <==> Admits(entries, Call(key, CLIENT_LIMIT, window, now))
  {
  }

  // ---------- A sequence of calls ----------

  function After(calls: seq<Call>): Entries {
    if calls == [] then map[] else Take(After(calls[..|calls| - 1]), calls[|calls| - 1])
  }

  /** The admitted calls for a key in the interval [from, to). */
  function Admitted(calls: seq<Call>, key: Id, from: Time, to: Time): nat {
    if calls == [] then 0
    else
      var before := calls[..|calls| - 1];
      var c := calls[|calls| - 1];
      Admitted(before, key, from, to) + if c.key == key && from <= c.now < to && Admits(After(before), c) then 1 else 0
  }

  /** The clock never goes back, and calls for the key use one limit and one window. */
  ghost predicate Regular(calls: seq<Call>, key: Id, limit: int, window: Time) {
    && (forall i, j :: 0 <= i <= j < |calls| ==> calls[i].now <= calls[j].now)
    && (forall c <- calls :: c.key == key ==> c.limit == limit && c.window == window)
  }

  /** How many calls of the interval were admitted, read off the key's entry: its window began at
      `expires - window`. */
  ghost predicate Bounded(entries: Entries, key: Id, n: nat, last: Time, limit: int, window: Time, from: Time) {
    && (last < from ==> n == 0)
    && if key in entries then
      var e := entries[key];
      var start := e.expires - window;
      && 1 <= e.count <= limit && start <= last
      && n <= if start < from then e.count - 1 else if start < from + window then limit - 1 + e.count else 2 * limit - 1
    else n <= limit - 1 || (last >= from + window && n <= 2 * limit - 1)
  }

  lemma CountedBounded(entries: Entries, c: Call, key: Id, n: nat, last: Time, limit: int, window: Time, from: Time)
    requires Bounded(entries, key, n, last, limit, window, from) && last <= c.now && window > 0 && limit >= 1
    requires c.key == key ==> c.limit == limit && c.window == window
    ensures Bounded(Take(entries, c), key,
                    n + if c.key == key && from <= c.now < from + window && Admits(entries, c) then 1 else 0, c.now,
                    limit, window, from)
  {
  }

  lemma {:induction false} CallsBounded(calls: seq<Call>, key: Id, limit: int, window: Time, from: Time)
    requires Regular(calls, key, limit, window) && window > 0 && limit >= 1 && calls != []
    ensures Bounded(After(calls), key, Admitted(calls, key, from, from + window), calls[|calls| - 1].now, limit, window,
                    from)
  {
    var before := calls[..|calls| - 1];
    var c := calls[|calls| - 1];
    if before == [] {
      CountedBounded(map[], c, key, 0, c.now, limit, window, from);
    } else {
      assert forall x <- before :: x in calls;
      CallsBounded(before, key, limit, window, from);
      CountedBounded(After(before), c, key, Admitted(before, key, from, from + window), before[|before| - 1].now, limit,
                     window, from);
    }
  }

  /** Any half-open interval one window long admits at most twice the limit less one. */
  lemma WindowBound(calls: seq<Call>, key: Id, limit: int, window: Time, from: Time)
    requires Regular(calls, key, limit, window) && window > 0 && limit >= 1
    ensures Admitted(calls, key, from, from + window) <= 2 * limit - 1
  {
    if calls != [] {
      CallsBounded(calls, key, limit, window, from);
    }
  }

  /** The bound is met for every limit: one call opens a window at 0, the window fills up just before it
      ends, and the next one fills up as soon as it ends. */
  function Burst(limit: int, window: Time, n: nat): (r: seq<Call>)
    ensures |r| == n
  {
    seq(n, i => Call(1, limit, window, if i == 0 then 0 else if i < limit then window - 1 else window))
  }

  /** The entry after the first n calls of the burst. */
  function BurstEntry(limit: int, window: Time, n: nat): Entry {
    if n <= limit then Entry(n, window) else Entry(n - limit, 2 * window)
  }

  lemma {:induction false} BurstFills(limit: int, window: Time, n: nat)
    requires limit >= 1 && window > 1 && 1 <= n <= 2 * limit
    ensures After(Burst(limit, window, n)) == map[1 := BurstEntry(limit, window, n)]
    ensures Admitted(Burst(limit, window, n), 1, window - 1, 2 * window - 1) == n - 1
  {
    var calls := Burst(limit, window, n);
    var c := calls[n - 1];
    assert calls[..n - 1] == Burst(limit, window, n - 1);
    if n > 1 {
      BurstFills(limit, window, n - 1);
    }
    BurstCall(limit, window, n, if n == 1 then map[] else map[1 := BurstEntry(limit, window, n - 1)], c);
  }

  lemma BurstCall(limit: int, window: Time, n: nat, before: Entries, c: Call)
    requires limit >= 1 && window > 1 && 1 <= n <= 2 * limit
    requires before == if n == 1 then map[] else map[1 := BurstEntry(limit, window, n - 1)]
    requires c == Call(1, limit, window, if n == 1 then 0 else if n <= limit then window - 1 else window)
    ensures Admits(before, c) && Take(before, c) == map[1 := BurstEntry(limit, window, n)]
  {
    var live := Unexpired(before, c.now);
    assert live == if n == 1 || n == limit + 1 then map[] else before;
  }

  lemma BoundMet(limit: int, window: Time)
    requires limit >= 1 && window > 1
    ensures var calls := Burst(limit, window, 2 * limit);
            && Regular(calls, 1, limit, window)
            && Admitted(calls, 1, window - 1, (window - 1) + window) == 2 * limit - 1
  {
    BurstFills(limit, window, 2 * limit);
  }

  lemma UnexpiredSmaller(entries: Entries, now: Time)
    ensures |Unexpired(entries, now)| <= |entries|
  {
    assert Unexpired(entries, now).Keys <= entries.Keys;
    SubsetSmaller(Unexpired(entries, now).Keys, entries.Keys);
  }

  lemma {:induction false} SubsetSmaller(a: set<Id>, b: set<Id>)
    requires a <= b
    ensures |a| <= |b|
  {
    SomeElement(a);
    if a != {} {
      var x :| x in a;
      SubsetSmaller(a - {x}, b - {x});
    }
  }

  /** The map never holds more than 10000 entries. */
  lemma {:induction false} EntriesBound(calls: seq<Call>)
    ensures |After(calls)| <= CAPACITY
  {
    if calls != [] {
      var before := After(calls[..|calls| - 1]);
      var c := calls[|calls| - 1];
      EntriesBound(calls[..|calls| - 1]);
      UnexpiredSmaller(before, c.now);
      var live := Unexpired(before, c.now);
      if Admits(before, c) {
        assert Take(before, c).Keys == live.Keys + {c.key};
      }
    }
  }

  // ---------- The limiter ----------

  class ClientAuthLimiter {
    var entries: Entries

    constructor ()
      ensures entries == map[]
    {
      entries := map[];
    }

    /** The loop that deletes every expired entry. */
    method DropExpired(now: Time)
      modifies this
      ensures entries == Unexpired(old(entries), now)
    {
      var todo := entries.Keys;
      ghost var was := entries;
      while todo != {}
        invariant todo <= was.Keys
        invariant forall k :: k in entries <==> k in was && (k in todo || was[k].expires > now)
        invariant forall k <- entries :: entries[k] == was[k]
      {
        SomeElement(todo);
        var k :| k in todo;
        todo := todo - {k};
        if entries[k].expires <= now {
          entries := entries - {k};
        }
      }
      SameEntries(was, now, entries);
    }

    method TakeCall(key: Id, limit: int, window: Time, now: Time) returns (admitted: bool)
      modifies this
      ensures admitted == Admits(old(entries), Call(key, limit, window, now))
      ensures entries == Take(old(entries), Call(key, limit, window, now))
    {
      DropExpired(now);
      var present := key in entries;
      var e := if present then entries[key] else Entry(0, 0);
      if e.count >= limit {
        return false;
      }
      if !present && |entries| >= CAPACITY {
        return false;
      }
      if e.count == 0 {
        e := e.(expires := now + window);
      }
      e := e.(count := e.count + 1);
      entries := entries[key := e];
      admitted := true;
    }

    method IsAvailable(key: Id, now: Time) returns (available: bool)
      ensures available == Available(entries, key, now)
    {
      var e := if key in entries then entries[key] else Entry(0, now);
      available := e.expires <= now || e.count < CLIENT_LIMIT;
    }
  }

  lemma SameEntries(was: Entries, now: Time, entries: Entries)
    requires forall k :: k in entries <==> k in was && was[k].expires > now
    requires forall k :: k in entries ==> entries[k] == was[k]
    ensures entries == Unexpired(was, now)
  {
    forall k ensures k in entries <==> k in Unexpired(was, now) {}
    assert entries.Keys == Unexpired(was, now).Keys;
    forall k | k in entries ensures entries[k] == Unexpired(was, now)[k] {}
  }
}
