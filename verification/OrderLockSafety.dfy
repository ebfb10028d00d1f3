/** What every interleaving of the order lock keeps: mutual exclusion per trade
    number, no lost or stale map entry, no deadlock, and a bound on every run. */
module OrderLockSafety {
  import opened OrderLock

  /** The thread relies on the map entry of its trade number being its mutex. */
  predicate Bound(pc: Pc) {
    pc.Increment? || pc.ReleaseCreate? || pc.AwaitMutex? || InCriticalSection(pc) ||
    pc.AwaitCreateAgain? || pc.Decrement? || pc.DeleteIfZero?
  }

  /** An entry may have reference count zero only while the create-lock holder
      is about to raise it or has just lowered it. */
  predicate InTransit(pc: Pc, m: nat) {
    (pc.Increment? || pc.DeleteIfZero?) && pc.m == m
  }

  function One(b: bool): nat { if b then 1 else 0 }

  ghost predicate CountsAgree(l: Locks, ts: seq<Thread>) {
    && Count(ts, HoldsCreate) == One(l.createLocked)
    && (forall m :: 0 <= m < |l.heap| ==>
          && Count(ts, RegisteredOn(m)) == l.heap[m].refCount
          && Count(ts, HoldsMutex(m)) == One(l.heap[m].locked))
  }

  ghost predicate EntryAgrees(l: Locks, pc: Pc) {
    && (Bound(pc) ==> pc.job.tradeNo in l.orderLocks && l.orderLocks[pc.job.tradeNo] == pc.m)
    && (pc.StoreEntry? ==> pc.job.tradeNo !in l.orderLocks)
  }

  /** Every entry points at a mutex, and no two at the same one. */
  ghost predicate InHeap(l: Locks) {
    && (forall k <- l.orderLocks :: l.orderLocks[k] < |l.heap|)
    && (forall k, k' | k in l.orderLocks && k' in l.orderLocks && k != k' :: l.orderLocks[k] != l.orderLocks[k'])
  }

  ghost predicate EntriesAgree(l: Locks, ts: seq<Thread>) {
    InHeap(l) && forall t :: 0 <= t < |ts| ==> EntryAgrees(l, ts[t].pc)
  }

  ghost predicate EntriesNeeded(l: Locks, ts: seq<Thread>)
    requires InHeap(l)
  {
    forall k <- l.orderLocks ::
      l.heap[l.orderLocks[k]].refCount > 0 ||
      exists t :: 0 <= t < |ts| && InTransit(ts[t].pc, l.orderLocks[k])
  }

  ghost predicate LockInv(s: State) {
    && !s.locks.fatal
    && CountsAgree(s.locks, s.threads)
    && EntriesAgree(s.locks, s.threads)
    && EntriesNeeded(s.locks, s.threads)
  }

  // ----- consequences of the counts

  /** At most one thread holds the create-lock. */
  lemma CreateHolderUnique(l: Locks, ts: seq<Thread>, i: nat, j: nat)
    requires CountsAgree(l, ts) && i < |ts| && j < |ts|
    requires Satisfies(ts[i].pc, HoldsCreate) && Satisfies(ts[j].pc, HoldsCreate)
    ensures i == j && l.createLocked
  {
    CountAtLeastOne(ts, i, HoldsCreate);
    if i < j { CountAtLeastTwo(ts, i, j, HoldsCreate); }
    if j < i { CountAtLeastTwo(ts, j, i, HoldsCreate); }
  }

  /** Mutual exclusion: two threads between Lock and Unlock of one trade number are
      the same thread. */
  lemma MutualExclusion(s: State, i: nat, j: nat)
    requires LockInv(s) && i < |s.threads| && j < |s.threads|
    requires InCriticalSection(s.threads[i].pc) && InCriticalSection(s.threads[j].pc)
    requires s.threads[i].pc.job.tradeNo == s.threads[j].pc.job.tradeNo
    ensures i == j
  {
    assert EntryAgrees(s.locks, s.threads[i].pc) && EntryAgrees(s.locks, s.threads[j].pc);
    var q := HoldsMutex(s.threads[i].pc.m);
    if i < j { CountAtLeastTwo(s.threads, i, j, q); }
    if j < i { CountAtLeastTwo(s.threads, j, i, q); }
  }

  /** UnlockOrder reads the map without the create-lock; it still finds the mutex
      its caller has locked. */
  lemma UnlockFindsOwnMutex(s: State, t: nat)
    requires LockInv(s) && t < |s.threads| && InCriticalSection(s.threads[t].pc)
    ensures var pc := s.threads[t].pc;
            && pc.job.tradeNo in s.locks.orderLocks && s.locks.orderLocks[pc.job.tradeNo] == pc.m
            && pc.m < |s.locks.heap| && s.locks.heap[pc.m].locked
  {
    assert EntryAgrees(s.locks, s.threads[t].pc);
    CountAtLeastOne(s.threads, t, HoldsMutex(s.threads[t].pc.m));
  }

  // ----- preservation

  lemma KeepCreateCount(s: State, t: nat, env: Env)
    requires LockInv(s) && Enabled(s, t)
    ensures Count(Step(s, t, env).threads, HoldsCreate) == One(Step(s, t, env).locks.createLocked)
  {
    var pc := s.threads[t].pc;
    CountUpdate(s.threads, t, NextThread(s.locks, s.db, s.threads[t], env), HoldsCreate);
    if Satisfies(pc, HoldsCreate) { CreateHolderUnique(s.locks, s.threads, t, t); }
  }

  /** One step changes a mutex's count exactly as it changes who is registered on it. */
  lemma RefCountDelta(l: Locks, d: Db, th: Thread, env: Env, m: nat)
    requires CanStep(l, th) && InHeap(l) && EntryAgrees(l, th.pc) && m < |l.heap|
    requires InCriticalSection(th.pc) ==> l.heap[th.pc.m].locked
    ensures LockStep(l, th.pc).heap[m].refCount ==
            l.heap[m].refCount - One(Satisfies(th.pc, RegisteredOn(m))) +
            One(Satisfies(NextThread(l, d, th, env).pc, RegisteredOn(m)))
  {
  }

  /** And its lock exactly as it changes who holds it. */
  lemma LockedDelta(l: Locks, d: Db, th: Thread, env: Env, m: nat)
    requires CanStep(l, th) && InHeap(l) && EntryAgrees(l, th.pc) && m < |l.heap|
    requires InCriticalSection(th.pc) ==> l.heap[th.pc.m].locked
    ensures One(LockStep(l, th.pc).heap[m].locked) ==
            One(l.heap[m].locked) - One(Satisfies(th.pc, HoldsMutex(m))) +
            One(Satisfies(NextThread(l, d, th, env).pc, HoldsMutex(m)))
  {
  }

  lemma KeepMutexCounts(s: State, t: nat, env: Env, m: nat)
    requires LockInv(s) && Enabled(s, t) && m < |Step(s, t, env).locks.heap|
    ensures Count(Step(s, t, env).threads, RegisteredOn(m)) == Step(s, t, env).locks.heap[m].refCount
    ensures Count(Step(s, t, env).threads, HoldsMutex(m)) == One(Step(s, t, env).locks.heap[m].locked)
  {
    var th' := NextThread(s.locks, s.db, s.threads[t], env);
    CountUpdate(s.threads, t, th', RegisteredOn(m));
    CountUpdate(s.threads, t, th', HoldsMutex(m));
    assert EntryAgrees(s.locks, s.threads[t].pc);
    if InCriticalSection(s.threads[t].pc) { UnlockFindsOwnMutex(s, t); }
    if m < |s.locks.heap| {
      RefCountDelta(s.locks, s.db, s.threads[t], env, m);
      LockedDelta(s.locks, s.db, s.threads[t], env, m);
    } else {
      NewMutexUnknown(s);
    }
  }

  lemma NewMutexUnknown(s: State)
    requires LockInv(s)
    ensures Count(s.threads, RegisteredOn(|s.locks.heap|)) == 0
    ensures Count(s.threads, HoldsMutex(|s.locks.heap|)) == 0
  {
    forall i | 0 <= i < |s.threads| ensures !(Bound(s.threads[i].pc) && s.threads[i].pc.m == |s.locks.heap|) {
      assert EntryAgrees(s.locks, s.threads[i].pc);
    }
    CountNone(s.threads, RegisteredOn(|s.locks.heap|));
    CountNone(s.threads, HoldsMutex(|s.locks.heap|));
  }

  lemma OwnEntryAgrees(l: Locks, d: Db, th: Thread, env: Env)
    requires CanStep(l, th) && InHeap(l) && EntryAgrees(l, th.pc)
    ensures EntryAgrees(LockStep(l, th.pc), NextThread(l, d, th, env).pc)
  {
  }

  lemma KeepInHeap(l: Locks, pc: Pc)
    requires InHeap(l)
    ensures InHeap(LockStep(l, pc))
  {
    var l' := LockStep(l, pc);
    assert forall k <- l'.orderLocks :: k in l.orderLocks || pc.StoreEntry?;
  }

  lemma OtherEntryAgrees(l: Locks, pc: Pc, other: Pc)
    requires InHeap(l) && EntryAgrees(l, pc) && EntryAgrees(l, other)
    requires !(Satisfies(pc, HoldsCreate) && Satisfies(other, HoldsCreate))
    requires pc.DeleteIfZero? && l.heap[pc.m].refCount == 0 ==> !Satisfies(other, RegisteredOn(pc.m))
    ensures EntryAgrees(LockStep(l, pc), other)
  {
  }

  lemma KeepEntries(s: State, t: nat, env: Env)
    requires LockInv(s) && Enabled(s, t)
    ensures EntriesAgree(Step(s, t, env).locks, Step(s, t, env).threads)
  {
    var l, ts, pc := s.locks, s.threads, s.threads[t].pc;
    KeepInHeap(l, pc);
    OwnEntryAgrees(l, s.db, ts[t], env);
    forall i | 0 <= i < |ts| && i != t ensures EntryAgrees(LockStep(l, pc), ts[i].pc) {
      if Satisfies(pc, HoldsCreate) && Satisfies(ts[i].pc, HoldsCreate) {
        CreateHolderUnique(l, ts, i, t);
      }
      if pc.DeleteIfZero? && Satisfies(ts[i].pc, RegisteredOn(pc.m)) {
        CountAtLeastOne(ts, i, RegisteredOn(pc.m));
      }
      OtherEntryAgrees(l, pc, ts[i].pc);
    }
  }

  /** A step that takes an entry's count to zero, or finds it there, leaves its
      thread in transit or the entry deleted. */
  lemma OwnEntryNeeded(l: Locks, d: Db, th: Thread, env: Env, k: string)
    requires CanStep(l, th) && InHeap(l) && EntryAgrees(l, th.pc)
    requires k in LockStep(l, th.pc).orderLocks
    ensures var m := LockStep(l, th.pc).orderLocks[k];
            || InTransit(NextThread(l, d, th, env).pc, m)
            || (&& k in l.orderLocks && l.orderLocks[k] == m
                && m < |LockStep(l, th.pc).heap|
                && LockStep(l, th.pc).heap[m].refCount >= l.heap[m].refCount
                && (InTransit(th.pc, m) && l.heap[m].refCount >= 0 ==> LockStep(l, th.pc).heap[m].refCount > 0))
  {
  }

  lemma KeepNeeded(s: State, t: nat, env: Env)
    requires LockInv(s) && Enabled(s, t)
    requires InHeap(Step(s, t, env).locks)
    ensures EntriesNeeded(Step(s, t, env).locks, Step(s, t, env).threads)
  {
    var l, ts, pc := s.locks, s.threads, s.threads[t].pc;
    var l', ts' := Step(s, t, env).locks, Step(s, t, env).threads;
    assert EntryAgrees(l, pc);
    forall k <- l'.orderLocks
      ensures l'.heap[l'.orderLocks[k]].refCount > 0 ||
              exists i :: 0 <= i < |ts'| && InTransit(ts'[i].pc, l'.orderLocks[k])
    {
      var m := l'.orderLocks[k];
      OwnEntryNeeded(l, s.db, ts[t], env, k);
      if InTransit(ts'[t].pc, m) {
      } else if l.heap[m].refCount <= 0 {
        assert Count(ts, RegisteredOn(m)) == l.heap[m].refCount;
        var i :| 0 <= i < |ts| && InTransit(ts[i].pc, m);
        assert i != t ==> ts'[i] == ts[i];
      }
    }
  }

  lemma KeepLockInv(s: State, t: nat, env: Env)
    requires LockInv(s) && Enabled(s, t)
    ensures LockInv(Step(s, t, env))
  {
    var s' := Step(s, t, env);
    KeepCreateCount(s, t, env);
    forall m | 0 <= m < |s'.locks.heap|
      ensures Count(s'.threads, RegisteredOn(m)) == s'.locks.heap[m].refCount
      ensures Count(s'.threads, HoldsMutex(m)) == One(s'.locks.heap[m].locked)
    {
      KeepMutexCounts(s, t, env, m);
    }
    if s.threads[t].pc.Unlock? { UnlockFindsOwnMutex(s, t); }
    KeepEntries(s, t, env);
    KeepNeeded(s, t, env);
  }

  lemma InitialLockInv(s: State)
    requires Initial(s)
    ensures LockInv(s)
  {
    CountNone(s.threads, HoldsCreate);
  }

  /** The invariant, hence mutual exclusion, holds after every run. */
  lemma {:induction false} LockInvHoldsAfterEveryRun(s: State, run: seq<Choice>)
    requires LockInv(s) && IsRun(s, run)
    ensures LockInv(After(s, run))
    decreases |run|
  {
    if run != [] {
      KeepLockInv(s, run[0].thread, run[0].env);
      LockInvHoldsAfterEveryRun(Step(s, run[0].thread, run[0].env), run[1..]);
    }
  }

  /** In every interleaving at most one thread is in the critical section of a
      trade number, and no mutex is ever unlocked while not locked. */
  lemma MutualExclusionInEveryRun(s: State, run: seq<Choice>, i: nat, j: nat)
    requires Initial(s) && IsRun(s, run)
    ensures !After(s, run).locks.fatal
    ensures var ts := After(s, run).threads;
            (&& i < |ts| && j < |ts|
             && InCriticalSection(ts[i].pc) && InCriticalSection(ts[j].pc)
             && ts[i].pc.job.tradeNo == ts[j].pc.job.tradeNo)
            ==> i == j
  {
    InitialLockInv(s);
    LockInvHoldsAfterEveryRun(s, run);
    var s' := After(s, run);
    if i < |s'.threads| && j < |s'.threads| && InCriticalSection(s'.threads[i].pc) &&
       InCriticalSection(s'.threads[j].pc) && s'.threads[i].pc.job.tradeNo == s'.threads[j].pc.job.tradeNo {
      MutualExclusion(s', i, j);
    }
  }

  /** While the create-lock is free, a trade number has a map entry iff some thread
      is registered on it, and the entry's reference count is how many are. */
  lemma EntryExistsIffRegistered(s: State, k: string)
    requires LockInv(s) && !s.locks.createLocked
    ensures k in s.locks.orderLocks <==>
            exists t :: 0 <= t < |s.threads| && Bound(s.threads[t].pc) && s.threads[t].pc.job.tradeNo == k
    ensures k in s.locks.orderLocks ==>
            var m := s.locks.orderLocks[k];
            s.locks.heap[m].refCount > 0 && s.locks.heap[m].refCount == Count(s.threads, RegisteredOn(m))
  {
    if k in s.locks.orderLocks {
      var m := s.locks.orderLocks[k];
      if s.locks.heap[m].refCount <= 0 {
        var t :| 0 <= t < |s.threads| && InTransit(s.threads[t].pc, m);
        CountAtLeastOne(s.threads, t, HoldsCreate);
      }
      assert Count(s.threads, RegisteredOn(m)) == s.locks.heap[m].refCount;
      var t := CountWitness(s.threads, RegisteredOn(m));
      assert EntryAgrees(s.locks, s.threads[t].pc);
    }
    forall t | 0 <= t < |s.threads| && Bound(s.threads[t].pc) && s.threads[t].pc.job.tradeNo == k
      ensures k in s.locks.orderLocks
    {
      assert EntryAgrees(s.locks, s.threads[t].pc);
    }
  }

  // ----- progress

  predicate Finished(th: Thread) { th.pc.Idle? && th.jobs == [] }

  /** No deadlock: whenever some thread is unfinished, some thread can step. */
  lemma SomeThreadCanStep(s: State, u: nat) returns (t: nat)
    requires LockInv(s) && u < |s.threads| && !Finished(s.threads[u])
    ensures Enabled(s, t)
  {
    if s.locks.createLocked {
      t := CountWitness(s.threads, HoldsCreate);
    } else if s.threads[u].pc.AwaitMutex? {
      var m := s.threads[u].pc.m;
      assert EntryAgrees(s.locks, s.threads[u].pc);
      if s.locks.heap[m].locked {
        assert Count(s.threads, HoldsMutex(m)) == 1;
        t := CountWitness(s.threads, HoldsMutex(m));
      } else {
        t := u;
      }
    } else {
      t := u;
    }
  }

  /** When every thread is done nothing is locked and the map is empty again. */
  lemma NothingLeftBehind(s: State)
    requires LockInv(s) && forall t :: 0 <= t < |s.threads| ==> Finished(s.threads[t])
    ensures !s.locks.createLocked && s.locks.orderLocks == map[]
    ensures forall m :: 0 <= m < |s.locks.heap| ==> s.locks.heap[m] == RefCountedMutex(false, 0)
  {
    CountNone(s.threads, HoldsCreate);
    forall m | 0 <= m < |s.locks.heap| ensures s.locks.heap[m] == RefCountedMutex(false, 0) {
      CountNone(s.threads, RegisteredOn(m));
      CountNone(s.threads, HoldsMutex(m));
    }
    forall k ensures k !in s.locks.orderLocks { EntryExistsIffRegistered(s, k); }
  }

  /** Steps a thread still has to make, at most. */
  function Remaining(th: Thread): nat {
    15 * |th.jobs| +
    match th.pc
    case Idle => 0
    case AwaitCreate(_) => 14
    case LoadEntry(_) => 13
    case StoreEntry(_) => 12
    case Increment(_, _) => 11
    case ReleaseCreate(_, _) => 10
    case AwaitMutex(_, _) => 9
    case Body(_, _) => 8
    case Save(_, _, _) => 7
    case LoadForUnlock(_, _) => 6
    case Unlock(_, _) => 5
    case AwaitCreateAgain(_, _) => 4
    case Decrement(_, _) => 3
    case DeleteIfZero(_, _) => 2
    case ReleaseCreateAgain(_) => 1
    case UnlockedBody(_) => 1
    case UnlockedInsert(_) => 2
    case UnlockedRead(_) => 2
    case UnlockedSave(_, _) => 1
  }

  function TotalRemaining(ts: seq<Thread>): nat {
    if ts == [] then 0 else Remaining(ts[0]) + TotalRemaining(ts[1..])
  }

  lemma {:induction false} TotalRemainingUpdate(ts: seq<Thread>, i: nat, th: Thread)
    requires i < |ts|
    ensures TotalRemaining(ts[i := th]) == TotalRemaining(ts) - Remaining(ts[i]) + Remaining(th)
  {
    if i == 0 {
      assert ts[i := th][1..] == ts[1..];
    } else {
      assert ts[i := th][1..] == ts[1..][i - 1 := th];
      TotalRemainingUpdate(ts[1..], i - 1, th);
    }
  }

  lemma StepMakesProgress(l: Locks, d: Db, th: Thread, env: Env)
    requires CanStep(l, th)
    ensures Remaining(NextThread(l, d, th, env)) < Remaining(th)
  {
  }

  /** No run is longer than the work it starts with: the lock admits no livelock,
      and with SomeThreadCanStep every run can be continued until all are done. */
  lemma {:induction false} EveryRunIsBounded(s: State, run: seq<Choice>)
    requires IsRun(s, run)
    ensures |run| + TotalRemaining(After(s, run).threads) <= TotalRemaining(s.threads)
    decreases |run|
  {
    if run != [] {
      var t := run[0].thread;
      var th' := NextThread(s.locks, s.db, s.threads[t], run[0].env);
      StepMakesProgress(s.locks, s.db, s.threads[t], run[0].env);
      TotalRemainingUpdate(s.threads, t, th');
      EveryRunIsBounded(Step(s, t, run[0].env), run[1..]);
    }
  }

  /** Every run that cannot be continued has finished every job and emptied the map. */
  lemma EveryMaximalRunFinishes(s: State, run: seq<Choice>)
    requires Initial(s) && IsRun(s, run)
    requires forall t: nat :: !Enabled(After(s, run), t)
    ensures var s' := After(s, run);
            && s'.locks.orderLocks == map[]
            && forall t :: 0 <= t < |s'.threads| ==> Finished(s'.threads[t])
  {
    InitialLockInv(s);
    LockInvHoldsAfterEveryRun(s, run);
    var s' := After(s, run);
    forall t | 0 <= t < |s'.threads| ensures Finished(s'.threads[t]) {
      if !Finished(s'.threads[t]) { var u := SomeThreadCanStep(s', t); }
    }
    NothingLeftBehind(s');
  }
}
