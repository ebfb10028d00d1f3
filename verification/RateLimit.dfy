/** The in-memory sliding-window rate limiter with its background eviction, and its
    refinement of an ideal limiter that remembers every accepted request. */
module RateLimit {

  type Store = map<string, seq<int>>

  datatype Outcome = Accept | Reject | Panic

  // ----- the limiter, on values

  /** A queue is dropped once it is empty or its newest entry is older than the
      expiration time. */
  predicate Expired(queue: seq<int>, expiration: int, now: int) {
    |queue| == 0 || now - queue[|queue| - 1] > expiration
  }

  function Swept(store: Store, expiration: int, now: int): Store {
    map k | k in store && !Expired(store[k], expiration, now) :: store[k]
  }

  function Requested(store: Store, key: string, limit: int, window: int, now: int): (Outcome, Store) {
    if key !in store then
      // make panics on a negative capacity
      if limit < 0 then (Panic, store) else (Accept, store[key := [now]])
    else if |store[key]| < limit then
      (Accept, store[key := store[key] + [now]])
    else if |store[key]| == 0 then
      (Panic, store)
    else if now - store[key][0] >= window then
      (Accept, store[key := store[key][1..] + [now]])
    else
      (Reject, store)
  }

  class InMemoryRateLimiter {
    var store: Store
    const expiration: int  // whole seconds

    constructor (expiration: int)
      ensures store == map[] && this.expiration == expiration
    {
      store := map[];
      this.expiration := expiration;
    }

    method Request(key: string, limit: int, window: int, now: int) returns (o: Outcome)
      modifies this
      ensures o == Requested(old(store), key, limit, window, now).0
      ensures store == Requested(old(store), key, limit, window, now).1
    {
      if key in store {
        var queue := store[key];
        if |queue| < limit {
          store := store[key := queue + [now]];
          o := Accept;
        } else if |queue| == 0 {
          o := Panic;
        } else if now - queue[0] >= window {
          queue := queue[1..];
          queue := queue + [now];
          store := store[key := queue];
          o := Accept;
        } else {
          o := Reject;
        }
      } else if limit < 0 {
        o := Panic;
      } else {
        store := store[key := []];
        store := store[key := store[key] + [now]];
        assert [] + [now] == [now];
        assert store == old(store)[key := [now]];
        o := Accept;
      }
    }

    /** One sweep of the background task. */
    method ClearExpiredItems(now: int)
      modifies this
      ensures store == Swept(old(store), expiration, now)
    {
      var keys := store.Keys;
      while keys != {}
        invariant keys <= store.Keys <= old(store).Keys
        invariant forall k <- store :: store[k] == old(store)[k]
        invariant forall k <- old(store) :: k in store <==> k in keys || !Expired(old(store)[k], expiration, now)
        decreases keys
      {
        var key :| key in keys;
        keys := keys - {key};
        var queue := store[key];
        if |queue| == 0 || now - queue[|queue| - 1] > expiration {
          store := store - {key};
        }
      }
    }
  }

  // ----- runs of requests and sweeps

  datatype Event = Req(key: string, now: int) | Sweep(now: int)

  /** The limit and window each key is asked with, fixed per key; the expiration time in whole seconds, and
      whether the background task was started, which takes a positive duration. */
  datatype Config = Config(limit: string -> int, window: string -> int, expiration: int, sweeps: bool)

  function Handle(store: Store, e: Event, c: Config): (Outcome, Store) {
    match e
    case Req(key, now) => Requested(store, key, c.limit(key), c.window(key), now)
    case Sweep(now) => (Accept, Swept(store, c.expiration, now))
  }

  function Decisions(store: Store, events: seq<Event>, c: Config): seq<Outcome>
    decreases |events|
  {
    if events == [] then [] else
      var (o, store') := Handle(store, events[0], c);
      [o] + Decisions(store', events[1..], c)
  }

  // ----- the ideal limiter

  /** How many of these times lie in the last window seconds. */
  function Recent(times: seq<int>, now: int, window: int): nat {
    if times == [] then 0 else
      Recent(times[..|times| - 1], now, window) + if now - times[|times| - 1] < window then 1 else 0
  }

  type History = map<string, seq<int>>

  function Times(h: History, key: string): seq<int> {
    if key in h then h[key] else []
  }

  /** A new key is let in even when its limit is zero. */
  function Capacity(limit: int): int { if limit < 1 then 1 else limit }

  function IdealHandle(h: History, e: Event, c: Config): (Outcome, History) {
    match e
    case Req(key, now) =>
      if Recent(Times(h, key), now, c.window(key)) < Capacity(c.limit(key))
      then (Accept, h[key := Times(h, key) + [now]]) else (Reject, h)
    case Sweep(_) => (Accept, h)
  }

  function IdealDecisions(h: History, events: seq<Event>, c: Config): seq<Outcome>
    decreases |events|
  {
    if events == [] then [] else
      var (o, h') := IdealHandle(h, events[0], c);
      [o] + IdealDecisions(h', events[1..], c)
  }

  // ----- the coupling between queue and history

  ghost predicate Sorted(times: seq<int>) {
    forall i, j :: 0 <= i < j < |times| ==> times[i] <= times[j]
  }

  ghost predicate AllBy(times: seq<int>, clock: int) {
    forall i :: 0 <= i < |times| ==> times[i] <= clock
  }

  ghost predicate AllOld(times: seq<int>, clock: int, window: int) {
    forall i :: 0 <= i < |times| ==> clock - times[i] >= window
  }

  /** The queue is the end of the history, and what it lacks no longer matters: either
      the queue is full, or all that is missing has left the window. */
  ghost predicate Tracks(queue: seq<int>, past: seq<int>, times: seq<int>, limit: int, window: int, clock: int) {
    && times == past + queue
    && 1 <= |queue| <= Capacity(limit)
    && (|queue| == Capacity(limit) || AllOld(past, clock, window))
  }

  ghost predicate KeyCoupled(store: Store, h: History, key: string, c: Config, clock: int) {
    var times := Times(h, key);
    && Sorted(times) && AllBy(times, clock)
    && (if key in store
        then |store[key]| <= |times| &&
             Tracks(store[key], times[..|times| - |store[key]|], times, c.limit(key), c.window(key), clock)
        else AllOld(times, clock, c.window(key)))
  }

  ghost predicate Coupled(store: Store, h: History, c: Config, clock: int) {
    forall key :: KeyCoupled(store, h, key, c, clock)
  }

  lemma {:induction false} RecentOfOld(times: seq<int>, now: int, window: int)
    requires AllOld(times, now, window)
    ensures Recent(times, now, window) == 0
  {
    if times != [] { RecentOfOld(times[..|times| - 1], now, window); }
  }

  lemma {:induction false} RecentSplit(a: seq<int>, b: seq<int>, now: int, window: int)
    ensures Recent(a + b, now, window) == Recent(a, now, window) + Recent(b, now, window)
  {
    if b == [] {
      assert a + b == a;
    } else {
      assert (a + b)[..|a + b| - 1] == a + b[..|b| - 1];
      RecentSplit(a, b[..|b| - 1], now, window);
    }
  }

  lemma {:induction false} RecentAtMost(times: seq<int>, now: int, window: int)
    ensures Recent(times, now, window) <= |times|
    ensures (forall i :: 0 <= i < |times| ==> now - times[i] < window) ==> Recent(times, now, window) == |times|
  {
    if times != [] { RecentAtMost(times[..|times| - 1], now, window); }
  }

  /** What the ideal limiter counts decides the same as the two tests on the queue. */
  lemma QueueDecides(past: seq<int>, queue: seq<int>, limit: int, window: int, clock: int, now: int)
    requires Tracks(queue, past, past + queue, limit, window, clock) && Sorted(past + queue) && clock <= now
    ensures Recent(past + queue, now, window) < Capacity(limit) <==>
            |queue| < Capacity(limit) || now - queue[0] >= window
  {
    RecentSplit(past, queue, now, window);
    RecentAtMost(queue, now, window);
    if |queue| < Capacity(limit) {
      RecentOfOld(past, now, window);
    } else if now - queue[0] >= window {
      OlderToo(past, queue, now, window);
      RecentOfOld(past, now, window);
      assert queue == [queue[0]] + queue[1..];
      RecentSplit([queue[0]], queue[1..], now, window);
      RecentOfOld([queue[0]], now, window);
      RecentAtMost(queue[1..], now, window);
    } else {
      forall i | 0 <= i < |queue| ensures now - queue[i] < window {
        assert queue[i] == (past + queue)[|past| + i] && queue[0] == (past + queue)[|past|];
      }
    }
  }

  /** The limiter's answer to one request is the ideal limiter's answer. */
  lemma SameAnswer(store: Store, h: History, key: string, c: Config, clock: int, now: int)
    requires KeyCoupled(store, h, key, c, clock) && clock <= now && c.limit(key) >= 0
    ensures Requested(store, key, c.limit(key), c.window(key), now).0 == IdealHandle(h, Req(key, now), c).0
  {
    var times := Times(h, key);
    if key !in store {
      RecentOfOld(times, now, c.window(key));
    } else {
      QueueDecides(times[..|times| - |store[key]|], store[key], c.limit(key), c.window(key), clock, now);
    }
  }

  lemma OlderToo(past: seq<int>, queue: seq<int>, now: int, window: int)
    requires Sorted(past + queue) && |queue| >= 1 && now - queue[0] >= window
    ensures AllOld(past, now, window)
  {
    forall i | 0 <= i < |past| ensures now - past[i] >= window {
      assert (past + queue)[i] == past[i] && (past + queue)[|past|] == queue[0];
    }
  }

  lemma KeepCoupledOnRequest(store: Store, h: History, key: string, c: Config, clock: int, now: int)
    requires Coupled(store, h, c, clock) && clock <= now && c.limit(key) >= 0
    ensures Coupled(Handle(store, Req(key, now), c).1, IdealHandle(h, Req(key, now), c).1, c, now)
  {
    var store', h' := Handle(store, Req(key, now), c).1, IdealHandle(h, Req(key, now), c).1;
    forall k ensures KeyCoupled(store', h', k, c, now) {
      assert KeyCoupled(store, h, key, c, clock) && KeyCoupled(store, h, k, c, clock);
      KeepKeyCoupled(store, h, key, k, c, clock, now);
    }
  }

  lemma KeepKeyCoupled(store: Store, h: History, key: string, k: string, c: Config, clock: int, now: int)
    requires KeyCoupled(store, h, key, c, clock) && KeyCoupled(store, h, k, c, clock)
    requires clock <= now && c.limit(key) >= 0
    ensures KeyCoupled(Handle(store, Req(key, now), c).1, IdealHandle(h, Req(key, now), c).1, k, c, now)
  {
    SameAnswer(store, h, key, c, clock, now);
    if k == key && Requested(store, key, c.limit(key), c.window(key), now).0 == Accept {
      PushCoupled(store, h, key, c, clock, now);
    } else {
      TimePasses(store, h, Handle(store, Req(key, now), c).1, IdealHandle(h, Req(key, now), c).1, k, c, clock, now);
    }
  }

  lemma TimePasses(store: Store, h: History, store': Store, h': History, key: string, c: Config, clock: int, now: int)
    requires KeyCoupled(store, h, key, c, clock) && clock <= now && Times(h, key) == Times(h', key)
    requires (key in store <==> key in store') && (key in store ==> store'[key] == store[key])
    ensures KeyCoupled(store', h', key, c, now)
  {
  }

  lemma PushTracks(past: seq<int>, queue: seq<int>, limit: int, window: int, clock: int, now: int)
    requires Tracks(queue, past, past + queue, limit, window, clock) && clock <= now
    ensures |queue| < limit ==> Tracks(queue + [now], past, past + queue + [now], limit, window, now)
    ensures |queue| >= limit ==>
              Tracks(queue[1..] + [now], past + [queue[0]], past + queue + [now], limit, window, now)
  {
    assert past + [queue[0]] + (queue[1..] + [now]) == past + queue + [now];
  }

  lemma PushSorted(times: seq<int>, clock: int, now: int)
    requires Sorted(times) && AllBy(times, clock) && clock <= now
    ensures Sorted(times + [now]) && AllBy(times + [now], now)
  {
  }

  lemma PushCoupled(store: Store, h: History, key: string, c: Config, clock: int, now: int)
    requires KeyCoupled(store, h, key, c, clock) && clock <= now && c.limit(key) >= 0
    requires Requested(store, key, c.limit(key), c.window(key), now).0 == Accept
    ensures KeyCoupled(Requested(store, key, c.limit(key), c.window(key), now).1,
                       h[key := Times(h, key) + [now]], key, c, now)
  {
    var times := Times(h, key);
    var times' := times + [now];
    PushSorted(times, clock, now);
    if key !in store {
      assert times'[..|times'| - 1] == times;
    } else {
      var queue := store[key];
      var past := times[..|times| - |queue|];
      PushTracks(past, queue, c.limit(key), c.window(key), clock, now);
      assert times'[..|times'| - (|queue| + 1)] == past;
      assert times'[..|times'| - |queue|] == past + [queue[0]];
    }
  }

  lemma KeepKeyOnSweep(store: Store, h: History, key: string, c: Config, clock: int, now: int)
    requires KeyCoupled(store, h, key, c, clock) && clock <= now && c.window(key) <= c.expiration + 1
    ensures KeyCoupled(Swept(store, c.expiration, now), h, key, c, now)
  {
    var store' := Swept(store, c.expiration, now);
    if key in store && key !in store' {
      var times := Times(h, key);
      assert times[|times| - 1] == store[key][|store[key]| - 1];
    } else {
      TimePasses(store, h, store', h, key, c, clock, now);
    }
  }

  lemma KeepCoupledOnSweep(store: Store, h: History, c: Config, clock: int, now: int)
    requires Coupled(store, h, c, clock) && clock <= now
    requires forall key :: c.window(key) <= c.expiration + 1
    ensures Coupled(Swept(store, c.expiration, now), h, c, now)
  {
    forall key ensures KeyCoupled(Swept(store, c.expiration, now), h, key, c, now) {
      assert KeyCoupled(store, h, key, c, clock);
      KeepKeyOnSweep(store, h, key, c, clock, now);
    }
  }

  // ----- the refinement

  ghost predicate InOrder(events: seq<Event>, clock: int)
    decreases |events|
  {
    events == [] || (clock <= events[0].now && InOrder(events[1..], events[0].now))
  }

  ghost predicate AllowsSweeps(c: Config) {
    forall key :: c.window(key) <= c.expiration + 1
  }

  ghost predicate Accepted(c: Config) {
    forall key :: c.limit(key) >= 0
  }

  lemma KeepCoupled(store: Store, h: History, e: Event, c: Config, clock: int)
    requires Coupled(store, h, c, clock) && clock <= e.now && Accepted(c) && (AllowsSweeps(c) || e.Req?)
    ensures Handle(store, e, c).0 == IdealHandle(h, e, c).0
    ensures Coupled(Handle(store, e, c).1, IdealHandle(h, e, c).1, c, e.now)
  {
    match e {
      case Req(key, now) =>
        assert KeyCoupled(store, h, key, c, clock);
        SameAnswer(store, h, key, c, clock, now);
        KeepCoupledOnRequest(store, h, key, c, clock, now);
      case Sweep(now) => KeepCoupledOnSweep(store, h, c, clock, now);
    }
  }

  /** For every sequence of requests and sweeps in clock order the bounded queues
      decide exactly as the unbounded history does. */
  lemma {:induction false} Refines(store: Store, h: History, events: seq<Event>, c: Config, clock: int)
    requires Coupled(store, h, c, clock) && InOrder(events, clock) && Accepted(c)
    requires AllowsSweeps(c) || forall i :: 0 <= i < |events| ==> events[i].Req?
    ensures Decisions(store, events, c) == IdealDecisions(h, events, c)
    decreases |events|
  {
    if events != [] {
      var e := events[0];
      KeepCoupled(store, h, e, c, clock);
      Refines(Handle(store, e, c).1, IdealHandle(h, e, c).1, events[1..], c, e.now);
    }
  }

  // ----- what the ideal limiter guarantees

  /** How many of these times lie in the window of the given length ending at end. */
  function InWindow(times: seq<int>, end: int, window: int): nat {
    if times == [] then 0 else
      InWindow(times[..|times| - 1], end, window) +
      if times[|times| - 1] <= end && end - times[|times| - 1] < window then 1 else 0
  }

  /** Every accepted time had room in its own window when it was accepted. */
  ghost predicate Admissible(times: seq<int>, capacity: int, window: int) {
    forall i :: 0 <= i < |times| ==> Recent(times[..i], times[i], window) < capacity
  }

  lemma {:induction false} InWindowAtMostRecent(times: seq<int>, end: int, last: int, window: int)
    requires last <= end
    ensures InWindow(times, end, window) <= Recent(times, last, window)
  {
    if times != [] { InWindowAtMostRecent(times[..|times| - 1], end, last, window); }
  }

  /** No window of that length, wherever it is placed, holds more than the capacity. */
  lemma {:induction false} NoWindowExceedsCapacity(times: seq<int>, end: int, capacity: int, window: int)
    requires Admissible(times, capacity, window) && capacity >= 0
    ensures InWindow(times, end, window) <= capacity
  {
    if times != [] {
      var n := |times| - 1;
      assert forall i :: 0 <= i < n ==> times[..n][..i] == times[..i];
      NoWindowExceedsCapacity(times[..n], end, capacity, window);
      if times[n] <= end {
        InWindowAtMostRecent(times[..n], end, times[n], window);
        assert Recent(times[..n], times[n], window) < capacity;
      }
    }
  }

  lemma KeepAdmissible(h: History, e: Event, c: Config, key: string)
    requires Admissible(Times(h, key), Capacity(c.limit(key)), c.window(key))
    ensures Admissible(Times(IdealHandle(h, e, c).1, key), Capacity(c.limit(key)), c.window(key))
  {
    var times, times' := Times(h, key), Times(IdealHandle(h, e, c).1, key);
    forall i | 0 <= i < |times'| ensures Recent(times'[..i], times'[i], c.window(key)) < Capacity(c.limit(key)) {
      assert times'[..i] == times[..i];
    }
  }

  /** The accepted times of one key over a run of the real limiter. */
  function AcceptedTimes(store: Store, events: seq<Event>, c: Config, key: string, before: seq<int>): seq<int>
    decreases |events|
  {
    if events == [] then before else
      var (o, store') := Handle(store, events[0], c);
      var accepted := events[0].Req? && events[0].key == key && o == Accept;
      AcceptedTimes(store', events[1..], c, key, if accepted then before + [events[0].now] else before)
  }

  /** Over every run, no window of a key's length holds more accepted requests than
      its limit (a limit of zero still lets one through). */
  lemma {:induction false} LimitIsNeverExceeded(store: Store, h: History, events: seq<Event>, c: Config, clock: int,
                                                key: string, end: int)
    requires Coupled(store, h, c, clock) && InOrder(events, clock) && Accepted(c)
    requires AllowsSweeps(c) || forall i :: 0 <= i < |events| ==> events[i].Req?
    requires Admissible(Times(h, key), Capacity(c.limit(key)), c.window(key))
    ensures InWindow(AcceptedTimes(store, events, c, key, Times(h, key)), end, c.window(key)) <= Capacity(c.limit(key))
    decreases |events|
  {
    if events == [] {
      NoWindowExceedsCapacity(Times(h, key), end, Capacity(c.limit(key)), c.window(key));
    } else {
      var e := events[0];
      var h' := IdealHandle(h, e, c).1;
      KeepCoupled(store, h, e, c, clock);
      KeepAdmissible(h, e, c, key);
      LimitIsNeverExceeded(Handle(store, e, c).1, h', events[1..], c, e.now, key, end);
    }
  }

  // ----- the exact condition on the expiration time

  function Repeat(key: string, n: nat): seq<Event> { seq(n, _ => Req(key, 0)) }

  function Zeros(n: nat): seq<int> { seq(n, _ => 0) }

  lemma {:induction false} RecentZeros(n: nat, now: int, window: int)
    requires now < window
    ensures Recent(Zeros(n), now, window) == n
  {
    RecentAtMost(Zeros(n), now, window);
  }

  /** Filling one key to its limit at time zero, then sweeping and asking once more
      just after the expiration time. */
  function FillSweepAsk(key: string, n: nat, c: Config): seq<Event> {
    Repeat(key, n) + [Sweep(c.expiration + 1), Req(key, c.expiration + 1)]
  }

  lemma DiffersLater(store: Store, h: History, events: seq<Event>, c: Config)
    requires events != []
    requires Decisions(Handle(store, events[0], c).1, events[1..], c) !=
             IdealDecisions(IdealHandle(h, events[0], c).1, events[1..], c)
    ensures Decisions(store, events, c) != IdealDecisions(h, events, c)
  {
    assert Decisions(store, events, c)[1..] == Decisions(Handle(store, events[0], c).1, events[1..], c);
    assert IdealDecisions(h, events, c)[1..] == IdealDecisions(IdealHandle(h, events[0], c).1, events[1..], c);
  }

  lemma FullThenSwept(key: string, n: nat, c: Config)
    requires 0 <= c.limit(key) && n == Capacity(c.limit(key)) && c.expiration >= 0
    requires c.window(key) >= c.expiration + 2
    ensures var full := map[key := Zeros(n)];
            Decisions(full, FillSweepAsk(key, 0, c), c) != IdealDecisions(full, FillSweepAsk(key, 0, c), c)
  {
    var full, t := map[key := Zeros(n)], c.expiration + 1;
    var events := FillSweepAsk(key, 0, c);
    assert events == [Sweep(t), Req(key, t)];
    assert events[1..] == [Req(key, t)];
    assert Swept(full, c.expiration, t) == map[];
    RecentZeros(n, t, c.window(key));
    assert Decisions(map[], events[1..], c)[0] == Accept;
    assert IdealDecisions(full, events[1..], c)[0] == Reject;
    DiffersLater(full, full, events, c);
  }

  lemma {:induction false} OverfilledAfterSweep(key: string, done: nat, n: nat, c: Config)
    requires 0 <= c.limit(key) && n + done == Capacity(c.limit(key)) && c.expiration >= 0
    requires c.window(key) >= c.expiration + 2
    ensures var store: Store := if done == 0 then map[] else map[key := Zeros(done)];
            Decisions(store, FillSweepAsk(key, n, c), c) != IdealDecisions(store, FillSweepAsk(key, n, c), c)
    decreases n
  {
    var store: Store := if done == 0 then map[] else map[key := Zeros(done)];
    var events := FillSweepAsk(key, n, c);
    if n == 0 {
      FullThenSwept(key, done, c);
    } else {
      assert events[0] == Req(key, 0) && events[1..] == FillSweepAsk(key, n - 1, c);
      assert Zeros(done) + [0] == Zeros(done + 1);
      RecentZeros(done, 0, c.window(key));
      assert Zeros(0) == [] && Zeros(1) == [0];
      assert store[key := Zeros(done + 1)] == map[key := Zeros(done + 1)];
      OverfilledAfterSweep(key, done + 1, n - 1, c);
      DiffersLater(store, store, events, c);
    }
  }

  lemma {:induction false} FillInOrder(key: string, n: nat, c: Config)
    requires c.expiration >= 0
    ensures InOrder(FillSweepAsk(key, n, c), 0)
  {
    var events := FillSweepAsk(key, n, c);
    if n == 0 {
      assert events == [Sweep(c.expiration + 1), Req(key, c.expiration + 1)];
      assert events[1..] == [Req(key, c.expiration + 1)] && events[1..][1..] == [];
    } else {
      assert events[1..] == FillSweepAsk(key, n - 1, c);
      FillInOrder(key, n - 1, c);
    }
  }

  /** No sweep happens unless the background task was started. */
  predicate Possible(events: seq<Event>, c: Config) {
    forall i :: 0 <= i < |events| && events[i].Sweep? ==> c.sweeps
  }

  /** The limiter is exact on all runs iff nothing is swept, or no key's window is longer
      than the expiration time plus one second. */
  lemma ExactIffWindowsFit(c: Config)
    requires Accepted(c) && (c.sweeps ==> c.expiration >= 0)
    ensures (forall events :: InOrder(events, 0) && Possible(events, c) ==>
               Decisions(map[], events, c) == IdealDecisions(map[], events, c))
            <==> !c.sweeps || AllowsSweeps(c)
  {
    if !c.sweeps || AllowsSweeps(c) {
      forall events | InOrder(events, 0) && Possible(events, c)
        ensures Decisions(map[], events, c) == IdealDecisions(map[], events, c)
      {
        Refines(map[], map[], events, c, 0);
      }
    } else {
      var key :| c.window(key) > c.expiration + 1;
      var n := Capacity(c.limit(key));
      FillInOrder(key, n, c);
      OverfilledAfterSweep(key, 0, n, c);
      assert Possible(FillSweepAsk(key, n, c), c);
    }
  }
}
