/** Runs in which an order is credited twice, or its status does not show the credit: one for
    every combination of handlers that allows it. With OrderCredit they make the
    conditions there exact. */
module OrderRuns {
  import opened OrderLock
  import opened OrderLockSafety
  import opened OrderCredit

  // ----- driving one thread while the others wait

  ghost predicate Reaches(s: State, end: State) {
    exists run :: IsRun(s, run) && After(s, run) == end
  }

  lemma ReachesItself(s: State)
    ensures Reaches(s, s)
  {
    assert IsRun(s, []) && After(s, []) == s;
  }

  lemma DriveStep(ts: seq<Thread>, t: nat, l: Locks, th: Thread, d: Db, env: Env, end: State)
    requires t < |ts| && CanStep(l, th)
    requires Reaches(State(LockStep(l, th.pc), ts[t := NextThread(l, d, th, env)], DbStep(d, th.pc, env)), end)
    ensures Reaches(State(l, ts[t := th], d), end)
  {
    var s := State(l, ts[t := th], d);
    var s' := State(LockStep(l, th.pc), ts[t := NextThread(l, d, th, env)], DbStep(d, th.pc, env));
    assert s.threads[t := NextThread(l, d, th, env)] == s'.threads;
    assert Step(s, t, env) == s';
    var run :| IsRun(s', run) && After(s', run) == end;
    var longer := [Choice(t, env)] + run;
    assert longer[1..] == run;
    assert IsRun(s, longer) && After(s, longer) == end;
  }

  /** Everything goes well, or the gateway refuses the checkout. */
  const Ok := Env(true, true, true)
  const Refused := Env(true, true, false)

  const Fresh := RefCountedMutex(false, 0)

  function Free(heap: seq<RefCountedMutex>): Locks { Locks(false, map[], heap, false) }

  /** The locks while one thread is in the critical section of an order. */
  function Held(heap: seq<RefCountedMutex>, k: string): Locks {
    Locks(false, map[k := |heap|], heap + [RefCountedMutex(true, 1)], false)
  }

  function Entered(heap: seq<RefCountedMutex>, k: string, refCount: int): Locks {
    Locks(true, map[k := |heap|], heap + [RefCountedMutex(false, refCount)], false)
  }

  predicate Locking(job: Job) { Start(job) == AwaitCreate(job) }

  lemma EnterFromEntry(ts: seq<Thread>, t: nat, heap: seq<RefCountedMutex>, jobs: seq<Job>, job: Job, d: Db, end: State)
    requires t < |ts|
    requires Reaches(State(Held(heap, job.tradeNo), ts[t := Thread(jobs, Body(job, |heap|))], d), end)
    ensures Reaches(State(Entered(heap, job.tradeNo, 0), ts[t := Thread(jobs, Increment(job, |heap|))], d), end)
  {
    var m, k := |heap|, job.tradeNo;
    var l1 := Entered(heap, k, 1);
    var l2 := l1.(createLocked := false);
    assert LockStep(l2, AwaitMutex(job, m)).heap == Held(heap, k).heap;
    DriveStep(ts, t, l2, Thread(jobs, AwaitMutex(job, m)), d, Ok, end);
    DriveStep(ts, t, l1, Thread(jobs, ReleaseCreate(job, m)), d, Ok, end);
    assert LockStep(Entered(heap, k, 0), Increment(job, m)).heap == l1.heap;
    DriveStep(ts, t, Entered(heap, k, 0), Thread(jobs, Increment(job, m)), d, Ok, end);
  }

  /** A locking handler gets to its critical section. */
  lemma Enter(ts: seq<Thread>, t: nat, heap: seq<RefCountedMutex>, jobs: seq<Job>, job: Job, d: Db, end: State)
    requires t < |ts| && Locking(job)
    requires Reaches(State(Held(heap, job.tradeNo), ts[t := Thread(jobs, Body(job, |heap|))], d), end)
    ensures Reaches(State(Free(heap), ts[t := Thread([job] + jobs, Idle)], d), end)
  {
    var l := Free(heap).(createLocked := true);
    EnterFromEntry(ts, t, heap, jobs, job, d, end);
    DriveStep(ts, t, l, Thread(jobs, StoreEntry(job)), d, Ok, end);
    DriveStep(ts, t, l, Thread(jobs, LoadEntry(job)), d, Ok, end);
    DriveStep(ts, t, Free(heap), Thread(jobs, AwaitCreate(job)), d, Ok, end);
    assert ([job] + jobs)[1..] == jobs;
    DriveStep(ts, t, Free(heap), Thread([job] + jobs, Idle), d, Ok, end);
  }

  lemma LeaveFromDecrement(ts: seq<Thread>, t: nat, heap: seq<RefCountedMutex>, jobs: seq<Job>, job: Job, d: Db,
                           end: State)
    requires t < |ts|
    requires Reaches(State(Free(heap + [Fresh]), ts[t := Thread(jobs, Idle)], d), end)
    ensures Reaches(State(Entered(heap, job.tradeNo, 1), ts[t := Thread(jobs, Decrement(job, |heap|))], d), end)
  {
    var m, k := |heap|, job.tradeNo;
    var l := Free(heap + [Fresh]).(createLocked := true);
    DriveStep(ts, t, l, Thread(jobs, ReleaseCreateAgain(job)), d, Ok, end);
    assert map[k := m] - {k} == map[];
    DriveStep(ts, t, Entered(heap, k, 0), Thread(jobs, DeleteIfZero(job, m)), d, Ok, end);
    assert LockStep(Entered(heap, k, 1), Decrement(job, m)).heap == Entered(heap, k, 0).heap;
    DriveStep(ts, t, Entered(heap, k, 1), Thread(jobs, Decrement(job, m)), d, Ok, end);
  }

  /** And from its end back to idle, with the lock map empty again. */
  lemma Leave(ts: seq<Thread>, t: nat, heap: seq<RefCountedMutex>, jobs: seq<Job>, job: Job, d: Db, end: State)
    requires t < |ts|
    requires Reaches(State(Free(heap + [Fresh]), ts[t := Thread(jobs, Idle)], d), end)
    ensures Reaches(State(Held(heap, job.tradeNo), ts[t := Thread(jobs, LoadForUnlock(job, |heap|))], d), end)
  {
    var m, k := |heap|, job.tradeNo;
    var l := Entered(heap, k, 1).(createLocked := false);
    LeaveFromDecrement(ts, t, heap, jobs, job, d, end);
    DriveStep(ts, t, l, Thread(jobs, AwaitCreateAgain(job, m)), d, Ok, end);
    assert LockStep(Held(heap, k), Unlock(job, m)).heap == l.heap;
    DriveStep(ts, t, Held(heap, k), Thread(jobs, Unlock(job, m)), d, Ok, end);
    DriveStep(ts, t, Held(heap, k), Thread(jobs, LoadForUnlock(job, m)), d, Ok, end);
  }

  // ----- whole jobs

  function HeapAfter(heap: seq<RefCountedMutex>, job: Job): seq<RefCountedMutex> {
    if Locking(job) then heap + [Fresh] else heap
  }

  /** A handler that credits runs from start to end. */
  lemma RunCredit(ts: seq<Thread>, t: nat, heap: seq<RefCountedMutex>, jobs: seq<Job>, job: Job, d: Db, end: State)
    requires t < |ts| && CreditsSome(job.handler) && job.tradeNo !in d.subs
    requires Reaches(State(Free(HeapAfter(heap, job)), ts[t := Thread(jobs, Idle)], Transaction(d, job, Ok)), end)
    ensures Reaches(State(Free(heap), ts[t := Thread([job] + jobs, Idle)], d), end)
  {
    if Locking(job) {
      Leave(ts, t, heap, jobs, job, Transaction(d, job, Ok), end);
      DriveStep(ts, t, Held(heap, job.tradeNo), Thread(jobs, Body(job, |heap|)), d, Ok, end);
      Enter(ts, t, heap, jobs, job, d, end);
    } else {
      DriveStep(ts, t, Free(heap), Thread(jobs, UnlockedBody(job)), d, Ok, end);
      assert ([job] + jobs)[1..] == jobs;
      DriveStep(ts, t, Free(heap), Thread([job] + jobs, Idle), d, Ok, end);
    }
  }

  /** So does the expiry handler. */
  lemma RunExpiry(ts: seq<Thread>, t: nat, heap: seq<RefCountedMutex>, jobs: seq<Job>, k: string, d: Db, end: State)
    requires t < |ts| && k in d.orders && k !in d.subs
    requires Reaches(State(Free(heap + [Fresh]), ts[t := Thread(jobs, Idle)],
                           WriteBack(d, k, d.orders[k], Expired, Ok)), end)
    ensures Reaches(State(Free(heap), ts[t := Thread([Job(SessionExpired, k)] + jobs, Idle)], d), end)
  {
    var job, m, row := Job(SessionExpired, k), |heap|, d.orders[k];
    var d' := WriteBack(d, k, row, Expired, Ok);
    Leave(ts, t, heap, jobs, job, d', end);
    DriveStep(ts, t, Held(heap, k), Thread(jobs, Save(job, m, row)), d, Ok, end);
    DriveStep(ts, t, Held(heap, k), Thread(jobs, Body(job, m)), d, Ok, end);
    Enter(ts, t, heap, jobs, job, d, end);
  }

  // ----- threads that hold a pending row and will fail it

  function Holder(job: Job, paidBy: PaymentMethod): Thread { Thread([], UnlockedSave(job, TopUp(Pending, paidBy))) }

  function Paying(jobs: seq<Job>): Thread { Thread(jobs, Idle) }

  function Pend(k: string, paidBy: PaymentMethod): Db { Db(map[k := TopUp(Pending, paidBy)], map[], map[]) }

  /** Whoever holds the row, a start state leads to it beside a thread that is to pay: the
      failure notice reads an existing order, a refused checkout has inserted it. */
  function Race(h: Handler, k: string, paidBy: PaymentMethod, jobs: seq<Job>): State {
    State(Free([]), [Thread([Job(h, k)], Idle), Paying(jobs)],
          if h == WaffoFailed then Pend(k, paidBy) else Db(map[], map[], map[]))
  }

  lemma RaceBegins(h: Handler, k: string, paidBy: PaymentMethod, jobs: seq<Job>, end: State)
    requires h == WaffoFailed || (h == Open(paidBy) && StoresFirst(paidBy))
    requires Reaches(State(Free([]), [Holder(Job(h, k), paidBy), Paying(jobs)], Pend(k, paidBy)), end)
    ensures Initial(Race(h, k, paidBy, jobs)) && Reaches(Race(h, k, paidBy, jobs), end)
  {
    var job := Job(h, k);
    var ts, d := [Holder(job, paidBy), Paying(jobs)], Race(h, k, paidBy, jobs).db;
    assert ts[0 := Holder(job, paidBy)] == ts;
    assert map[][k := TopUp(Pending, paidBy)] == map[k := TopUp(Pending, paidBy)];
    DriveStep(ts, 0, Free([]), Thread([], Start(job)), d, Refused, end);
    assert [job][1..] == [];
    DriveStep(ts, 0, Free([]), Thread([job], Idle), d, Ok, end);
    assert ts[0 := Thread([job], Idle)] == Race(h, k, paidBy, jobs).threads;
  }

  /** The order after it was credited once. */
  function Paid(k: string, paidBy: PaymentMethod): Db { Db(map[k := TopUp(Success, paidBy)], map[k := 1], map[]) }

  lemma PendIsPaid(h: Handler, k: string, paidBy: PaymentMethod)
    requires Pays(h, paidBy)
    ensures Transaction(Pend(k, paidBy), Job(h, k), Ok) == Paid(k, paidBy)
  {
    assert map[k := TopUp(Pending, paidBy)][k := TopUp(Success, paidBy)] == map[k := TopUp(Success, paidBy)];
    assert map[][k := 1] == map[k := 1];
  }

  /** The credit comes between the holder's read and its write. */
  lemma HolderFailsPaid(holder: Job, payer: Job, paidBy: PaymentMethod, rest: seq<Job>, end: State)
    requires Pays(payer.handler, paidBy) && payer.tradeNo == holder.tradeNo
    requires Reaches(State(Free(HeapAfter([], payer)), [Thread([], Idle), Paying(rest)],
                           Db(map[payer.tradeNo := TopUp(Failed, paidBy)], map[payer.tradeNo := 1], map[])), end)
    ensures Reaches(State(Free([]), [Holder(holder, paidBy), Paying([payer] + rest)], Pend(payer.tradeNo, paidBy)), end)
  {
    var k, h := payer.tradeNo, Holder(holder, paidBy);
    var l, ts := Free(HeapAfter([], payer)), [h, Paying(rest)];
    PendIsPaid(payer.handler, k, paidBy);
    assert ts[0 := Thread([], Idle)] == [Thread([], Idle), Paying(rest)] && ts[0 := h] == ts;
    assert map[k := TopUp(Success, paidBy)][k := TopUp(Failed, paidBy)] == map[k := TopUp(Failed, paidBy)];
    DriveStep(ts, 0, l, h, Paid(k, paidBy), Ok, end);
    assert ts[1 := Thread(rest, Idle)] == ts;
    RunCredit(ts, 1, [], rest, payer, Pend(k, paidBy), end);
    assert ts[1 := Thread([payer] + rest, Idle)] == [h, Paying([payer] + rest)];
  }

  // ----- the exact conditions

  /** In no run whatever, with only these handlers queued for the order, is it credited twice. */
  ghost predicate AtMostOnce(a: set<Handler>, k: string) {
    forall s, run :: Initial(s) && Queued(s.threads, k) <= a && IsRun(s, run) ==> Credits(After(s, run).db, k) <= 1
  }

  ghost predicate FailedIsUncredited(a: set<Handler>, k: string) {
    forall s, run :: Initial(s) && Queued(s.threads, k) <= a && IsRun(s, run) ==>
      var d := After(s, run).db;
      k in d.orders && d.orders[k].status == Failed ==> Credits(d, k) == 0
  }

  ghost predicate StatusAlwaysShows(a: set<Handler>, k: string) {
    forall s, run :: Initial(s) && Queued(s.threads, k) <= a && k !in s.db.subs && IsRun(s, run) ==>
      StatusShowsCredit(After(s, run).db, k)
  }

  lemma QueuedInRace(h: Handler, k: string, paidBy: PaymentMethod, jobs: seq<Job>, a: set<Handler>)
    requires h in a && forall j <- jobs :: j.handler in a
    ensures Queued(Race(h, k, paidBy, jobs).threads, k) <= a
  {
    var ts := Race(h, k, paidBy, jobs).threads;
    forall x <- Queued(ts, k) ensures x in a {
      var t, i :| 0 <= t < |ts| && 0 <= i < |ts[t].jobs| && ts[t].jobs[i].tradeNo == k && ts[t].jobs[i].handler == x;
      if t == 1 { assert ts[t].jobs[i] in jobs; }
    }
  }

  /** A failure notice or a refused checkout holds the pending row while the payment is credited and then
      fails it; a second notice of the payment revives and credits it again. */
  lemma TwiceCredited(h: Handler, k: string, a: set<Handler>) returns (s: State, end: State)
    requires h == WaffoFailed || h == Open(Wechat)
    requires h in a && WechatPaid in a
    ensures Initial(s) && Queued(s.threads, k) <= a && Reaches(s, end) && Credits(end.db, k) == 2
  {
    var pay := Job(WechatPaid, k);
    var failed := Db(map[k := TopUp(Failed, Wechat)], map[k := 1], map[]);
    var ts := [Thread([], Idle), Paying([])];
    s := Race(h, k, Wechat, [pay] + [pay]);
    end := State(Free([]), ts, Transaction(failed, pay, Ok));
    ReachesItself(end);
    assert ts[1 := Thread([], Idle)] == ts && [pay] + [] == [pay];
    RunCredit(ts, 1, [], [], pay, failed, end);
    assert ts[1 := Thread([pay], Idle)] == [Thread([], Idle), Paying([pay])];
    HolderFailsPaid(Job(h, k), pay, Wechat, [pay], end);
    RaceBegins(h, k, Wechat, [pay] + [pay], end);
    QueuedInRace(h, k, Wechat, [pay] + [pay], a);
  }

  /** The same without the second notice: the order ends failed, and was credited. */
  lemma FailedThoughCredited(h: Handler, payer: Handler, paidBy: PaymentMethod, k: string, a: set<Handler>)
    returns (s: State, end: State)
    requires h == WaffoFailed || (h == Open(paidBy) && StoresFirst(paidBy))
    requires h in a && payer in a && Pays(payer, paidBy)
    ensures Initial(s) && Queued(s.threads, k) <= a && k !in s.db.subs && Reaches(s, end)
    ensures k in end.db.orders && end.db.orders[k].status == Failed && Credits(end.db, k) == 1
  {
    var pay := Job(payer, k);
    s := Race(h, k, paidBy, [pay] + []);
    end := State(Free(HeapAfter([], pay)), [Thread([], Idle), Paying([])],
                 Db(map[k := TopUp(Failed, paidBy)], map[k := 1], map[]));
    ReachesItself(end);
    HolderFailsPaid(Job(h, k), pay, paidBy, [], end);
    RaceBegins(h, k, paidBy, [pay] + [], end);
    QueuedInRace(h, k, paidBy, [pay] + [], a);
  }

  lemma ExpireAfter(payer: Job, jobs: seq<Job>, d: Db, end: State)
    requires CreditsSome(payer.handler) && payer.tradeNo !in d.subs
    requires var d' := Transaction(d, payer, Ok);
             && payer.tradeNo in d'.orders && payer.tradeNo !in d'.subs
             && Reaches(State(Free(HeapAfter([], payer) + [Fresh]), [Thread(jobs, Idle)],
                              WriteBack(d', payer.tradeNo, d'.orders[payer.tradeNo], Expired, Ok)), end)
    ensures Reaches(State(Free([]), [Thread([payer] + ([Job(SessionExpired, payer.tradeNo)] + jobs), Idle)], d), end)
  {
    var k, ts := payer.tradeNo, [Thread(jobs, Idle)];
    var later := [Job(SessionExpired, k)] + jobs;
    var d' := Transaction(d, payer, Ok);
    assert ts[0 := Thread(jobs, Idle)] == ts;
    RunExpiry(ts, 0, HeapAfter([], payer), jobs, k, d', end);
    RunCredit(ts, 0, [], later, payer, d, end);
    assert ts[0 := Thread([payer] + later, Idle)] == [Thread([payer] + later, Idle)];
  }

  /** An expiry notice that follows a payment hides it. */
  lemma ExpiredThoughCredited(payer: Handler, k: string, a: set<Handler>) returns (s: State, end: State)
    requires SessionExpired in a && payer in a && CreditsSome(payer)
    ensures Initial(s) && Queued(s.threads, k) <= a && k !in s.db.subs && Reaches(s, end)
    ensures k in end.db.orders && end.db.orders[k].status == Expired && Credits(end.db, k) == 1
  {
    var job := Job(payer, k);
    var d := Db(map[], map[], map[]);
    var jobs := [job] + ([Job(SessionExpired, k)] + []);
    if payer != AdminRecharge {
      var paidBy :| Pays(payer, paidBy);
      d := Pend(k, paidBy);
    }
    s := State(Free([]), [Thread(jobs, Idle)], d);
    var d' := Transaction(d, job, Ok);
    assert k in d'.orders && Credits(d', k) == 1;
    end := State(Free(HeapAfter([], job) + [Fresh]), [Thread([], Idle)], WriteBack(d', k, d'.orders[k], Expired, Ok));
    ReachesItself(end);
    ExpireAfter(job, [], d, end);
    forall x <- Queued(s.threads, k) ensures x in a {
      var t, i :| 0 <= t < |s.threads| && 0 <= i < |s.threads[t].jobs| && s.threads[t].jobs[i].handler == x;
      assert s.threads[t].jobs[i] in jobs;
    }
  }

  /** An order is credited at most once in every run exactly when no WeChat payment is queued for it beside a
      Waffo failure notice or the opening of a WeChat order. */
  lemma AtMostOnceIff(a: set<Handler>, k: string)
    ensures AtMostOnce(a, k) <==> !CanCreditTwice(a)
  {
    if CanCreditTwice(a) {
      var s, end := TwiceCredited(if WaffoFailed in a then WaffoFailed else Open(Wechat), k, a);
      var run :| IsRun(s, run) && After(s, run) == end;
      assert Initial(s) && Queued(s.threads, k) <= a;
    } else {
      forall s, run | Initial(s) && Queued(s.threads, k) <= a && IsRun(s, run)
        ensures Credits(After(s, run).db, k) <= 1
      {
        InitialThreadsOk(s, k, a);
        OnceInEveryRun(s, run, k, a);
      }
    }
  }

  lemma HidingHandlers(a: set<Handler>) returns (h: Handler, payer: Handler, paidBy: PaymentMethod)
    requires FailureHidesCredit(a)
    ensures h == WaffoFailed || (h == Open(paidBy) && StoresFirst(paidBy))
    ensures h in a && payer in a && Pays(payer, paidBy)
  {
    if WaffoFailed in a && exists m :: Creditable(a, m) {
      h := WaffoFailed;
      paidBy :| Creditable(a, paidBy);
    } else {
      paidBy :| StoresFirst(paidBy) && Open(paidBy) in a && Creditable(a, paidBy);
      h := Open(paidBy);
    }
    payer :| payer in a && Pays(payer, paidBy);
  }

  /** A failed order is uncredited in every run exactly when no handler that credits it is queued beside an
      unlocked failure write. */
  lemma FailedIsUncreditedIff(a: set<Handler>, k: string)
    ensures FailedIsUncredited(a, k) <==> !FailureHidesCredit(a)
  {
    if FailureHidesCredit(a) {
      var h, payer, paidBy := HidingHandlers(a);
      var s, end := FailedThoughCredited(h, payer, paidBy, k, a);
      var run :| IsRun(s, run) && After(s, run) == end;
      assert Initial(s) && Queued(s.threads, k) <= a;
    } else {
      forall s, run | Initial(s) && Queued(s.threads, k) <= a && IsRun(s, run)
        ensures FailedUnpaid(After(s, run).db, k)
      {
        InitialLockInv(s);
        InitialThreadsOk(s, k, a);
        QuietInEveryRun(s, run, k, a);
      }
    }
  }

  /** The status of a top-up order shows its credit in every run exactly when, beside a handler that credits
      it, neither an unlocked failure write nor an expiry is queued. */
  lemma StatusAlwaysShowsIff(a: set<Handler>, k: string)
    ensures StatusAlwaysShows(a, k) <==> !FailureHidesCredit(a) && !ExpiryHidesCredit(a)
  {
    if FailureHidesCredit(a) {
      var h, payer, paidBy := HidingHandlers(a);
      var s, end := FailedThoughCredited(h, payer, paidBy, k, a);
      var run :| IsRun(s, run) && After(s, run) == end;
      assert Initial(s) && Queued(s.threads, k) <= a && !StatusShowsCredit(After(s, run).db, k);
    } else if ExpiryHidesCredit(a) {
      var payer :| payer in a && CreditsSome(payer);
      var s, end := ExpiredThoughCredited(payer, k, a);
      var run :| IsRun(s, run) && After(s, run) == end;
      assert Initial(s) && Queued(s.threads, k) <= a && !StatusShowsCredit(After(s, run).db, k);
    } else {
      forall s, run | Initial(s) && Queued(s.threads, k) <= a && k !in s.db.subs && IsRun(s, run)
        ensures StatusShowsCredit(After(s, run).db, k)
      {
        InitialLockInv(s);
        InitialThreadsOk(s, k, a);
        ShownInEveryRun(s, run, k, a);
      }
    }
  }
}
