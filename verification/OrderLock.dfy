/** The per-order lock of the payment webhooks: a map from trade numbers to
    reference-counted mutexes, guarded by one create-lock, and everything that
    writes top-up orders: the handlers that run while holding an order's mutex, and
    those that do not take it.

    The program is a state machine.  A thread works through a list of jobs; every
    access to shared state (the create-lock, the map, a reference count, an order's
    mutex, the database) is one atomic step of one thread, so a run is any
    interleaving of any number of threads.  */
module OrderLock {

  datatype Status = Pending | Success | Failed | Expired

  datatype PaymentMethod = Stripe | Creem | Waffo | Epay | Wechat | Admin

  /** A row of the top-up table. */
  datatype TopUp = TopUp(status: Status, paidBy: PaymentMethod)

  datatype Handler =
    | Fulfill        // checkout completed, or delayed payment succeeded (Stripe)
    | AsyncFailed    // delayed payment failed (Stripe)
    | SessionExpired // checkout session expired (Stripe)
    | CreemPaid
    | EpayPaid
    | AdminComplete
    | WaffoPaid
    | EpaySubscribed // a subscription paid through Epay
    // the others run without the order lock
    | Open(paidBy: PaymentMethod) // a user opens an order and the gateway is asked for a checkout
    | WaffoFailed        // failure notice
    | WechatPaid
    | AdminRecharge      // an administrator grants credits under a trade number of its own
    | CancelSubscription // the gateway refused a subscription's checkout

  datatype Job = Job(handler: Handler, tradeNo: string)

  datatype Pc =
    | Idle
    // LockOrder
    | AwaitCreate(job: Job)
    | LoadEntry(job: Job)
    | StoreEntry(job: Job)
    | Increment(job: Job, m: nat)
    | ReleaseCreate(job: Job, m: nat)
    | AwaitMutex(job: Job, m: nat)
    // the critical section; m is the mutex the thread has locked
    | Body(job: Job, m: nat)
    | Save(job: Job, m: nat, row: TopUp)
    // UnlockOrder; from Unlock on, m is the mutex found in the map
    | LoadForUnlock(job: Job, m: nat)
    | Unlock(job: Job, m: nat)
    | AwaitCreateAgain(job: Job, m: nat)
    | Decrement(job: Job, m: nat)
    | DeleteIfZero(job: Job, m: nat)
    | ReleaseCreateAgain(job: Job)
    // handlers that do not lock: one transaction, or a row held and written back later
    | UnlockedBody(job: Job)
    | UnlockedInsert(job: Job)
    | UnlockedRead(job: Job)
    | UnlockedSave(job: Job, row: TopUp)

  datatype Thread = Thread(jobs: seq<Job>, pc: Pc)

  datatype RefCountedMutex = RefCountedMutex(locked: bool, refCount: int)

  /** createLock, the orderLocks map, whose values are addresses in heap, and whether
      some mutex was unlocked while not locked, which is a fatal error. */
  datatype Locks = Locks(
    createLocked: bool,
    orderLocks: map<string, nat>,
    heap: seq<RefCountedMutex>,
    fatal: bool)

  /** The top-up table, how often each order's quota was granted, and the table of
      subscription orders. */
  datatype Db = Db(orders: map<string, TopUp>, credits: map<string, nat>, subs: map<string, TopUp>)

  datatype State = State(locks: Locks, threads: seq<Thread>, db: Db)

  /** What the environment decides in a step: whether the database call succeeds, whether
      the subscription lookup does (its errors read as not found), and whether the
      payment gateway opens a checkout. */
  datatype Env = Env(dbOk: bool, found: bool, accepted: bool)

  // ----- one step of one thread: on the locks, on the database, on the thread

  predicate CanStep(l: Locks, th: Thread) {
    match th.pc
    case Idle => th.jobs != []
    case AwaitCreate(_) => !l.createLocked
    case AwaitCreateAgain(_, _) => !l.createLocked
    case AwaitMutex(_, m) => m < |l.heap| && !l.heap[m].locked
    case _ => true
  }

  function LockStep(l: Locks, pc: Pc): Locks {
    match pc
    case AwaitCreate(_) => l.(createLocked := true)
    case StoreEntry(job) =>
      l.(heap := l.heap + [RefCountedMutex(false, 0)], orderLocks := l.orderLocks[job.tradeNo := |l.heap|])
    case Increment(_, m) => AddRef(l, m, 1)
    case ReleaseCreate(_, _) => l.(createLocked := false)
    case AwaitMutex(_, m) => SetLocked(l, m, true)
    case Unlock(_, m) => if m < |l.heap| && l.heap[m].locked then SetLocked(l, m, false) else l.(fatal := true)
    case AwaitCreateAgain(_, _) => l.(createLocked := true)
    case Decrement(_, m) => AddRef(l, m, -1)
    case DeleteIfZero(job, m) =>
      if m < |l.heap| && l.heap[m].refCount == 0 then l.(orderLocks := l.orderLocks - {job.tradeNo}) else l
    case ReleaseCreateAgain(_) => l.(createLocked := false)
    case _ => l
  }

  function AddRef(l: Locks, m: nat, d: int): Locks {
    if m < |l.heap| then l.(heap := l.heap[m := l.heap[m].(refCount := l.heap[m].refCount + d)]) else l
  }

  function SetLocked(l: Locks, m: nat, b: bool): Locks {
    if m < |l.heap| then l.(heap := l.heap[m := l.heap[m].(locked := b)]) else l
  }

  /** Which payment methods each crediting handler accepts. */
  predicate Pays(h: Handler, paidBy: PaymentMethod) {
    match h
    case Fulfill => paidBy == Stripe
    case CreemPaid => paidBy == Creem
    case EpayPaid => paidBy == Epay
    case AdminComplete => true
    case WaffoPaid => paidBy == Waffo
    case WechatPaid => paidBy == Wechat
    case _ => false
  }

  /** And which statuses: a WeChat payment also revives a failed order. */
  predicate Revives(h: Handler, status: Status) {
    status == Pending || (h == WechatPaid && status == Failed)
  }

  /** Events that may name a subscription order. */
  predicate AsksSubscriptions(h: Handler) {
    h == Fulfill || h == CreemPaid || h == SessionExpired || h == EpaySubscribed || h == CancelSubscription
  }

  predicate IsSubscription(d: Db, job: Job, env: Env) {
    AsksSubscriptions(job.handler) && job.tradeNo in d.subs && env.found
  }

  function DbStep(d: Db, pc: Pc, env: Env): Db {
    match pc
    case Body(job, _) => Transaction(d, job, env)
    case UnlockedBody(job) => Transaction(d, job, env)
    case UnlockedInsert(job) => Insert(d, job, env)
    case Save(job, _, row) =>
      WriteBack(d, job.tradeNo, row, if job.handler == SessionExpired then Expired else Failed, env)
    case UnlockedSave(job, row) => WriteBack(d, job.tradeNo, row, Failed, env)
    case _ => d
  }

  function Transaction(d: Db, job: Job, env: Env): Db {
    if !env.dbOk then d
    else if IsSubscription(d, job, env) then Subscribe(d, job)
    else if job.handler == AdminRecharge then Grant(d, job.tradeNo)
    else Credit(d, job)
  }

  /** A pending subscription order is completed, which writes a successful top-up row and
      grants no quota, or it expires. */
  function Subscribe(d: Db, job: Job): Db
    requires job.tradeNo in d.subs
  {
    var k := job.tradeNo;
    var sub := d.subs[k];
    if sub.status != Pending then d
    else if job.handler == SessionExpired || job.handler == CancelSubscription then
      d.(subs := d.subs[k := sub.(status := Expired)])
    else
      d.(subs := d.subs[k := sub.(status := Success)],
         orders := d.orders[k := TopUp(Success, if k in d.orders then d.orders[k].paidBy else sub.paidBy)])
  }

  /** The transaction shared by the crediting handlers: an order that can still be paid
      becomes successful and its quota is granted, anything else is left alone. */
  function Credit(d: Db, job: Job): Db {
    var k := job.tradeNo;
    if k in d.orders && Pays(job.handler, d.orders[k].paidBy) && Revives(job.handler, d.orders[k].status) then
      d.(orders := d.orders[k := d.orders[k].(status := Success)], credits := d.credits[k := Credits(d, k) + 1])
    else
      d
  }

  /** A new row, successful at once, and its quota. */
  function Grant(d: Db, k: string): Db {
    if k in d.orders then d
    else d.(orders := d.orders[k := TopUp(Success, Admin)], credits := d.credits[k := Credits(d, k) + 1])
  }

  /** A new pending row; trade numbers are unique. */
  function Insert(d: Db, job: Job, env: Env): Db {
    if Inserts(d, job, env) then d.(orders := d.orders[job.tradeNo := TopUp(Pending, job.handler.paidBy)]) else d
  }

  predicate Inserts(d: Db, job: Job, env: Env) {
    job.handler.Open? && env.dbOk && job.tradeNo !in d.orders
  }

  function Credits(d: Db, k: string): nat {
    if k in d.credits then d.credits[k] else 0
  }

  /** Writes a whole row back, as read or inserted earlier, with a new status. */
  function WriteBack(d: Db, k: string, row: TopUp, status: Status, env: Env): Db {
    if env.dbOk then d.(orders := d.orders[k := row.(status := status)]) else d
  }

  /** Where the order is stored before the gateway is asked, a refusal marks it failed. */
  predicate StoresFirst(paidBy: PaymentMethod) {
    paidBy == Waffo || paidBy == Wechat || paidBy == Epay
  }

  function NextPc(l: Locks, d: Db, pc: Pc, env: Env): Pc
    requires !pc.Idle?
  {
    var k := pc.job.tradeNo;
    match pc
    case AwaitCreate(job) => LoadEntry(job)
    case LoadEntry(job) => if k in l.orderLocks then Increment(job, l.orderLocks[k]) else StoreEntry(job)
    case StoreEntry(job) => Increment(job, |l.heap|)
    case Increment(job, m) => ReleaseCreate(job, m)
    case ReleaseCreate(job, m) => AwaitMutex(job, m)
    case AwaitMutex(job, m) => Body(job, m)
    case Body(job, m) =>
      if k in d.orders && !IsSubscription(d, job, env) && SavesRow(job.handler, d.orders[k], env)
      then Save(job, m, d.orders[k]) else LoadForUnlock(job, m)
    case Save(job, m, _) => LoadForUnlock(job, m)
    case LoadForUnlock(job, _) => if k in l.orderLocks then Unlock(job, l.orderLocks[k]) else Idle
    case Unlock(job, m) => AwaitCreateAgain(job, m)
    case AwaitCreateAgain(job, m) => Decrement(job, m)
    case Decrement(job, m) => DeleteIfZero(job, m)
    case DeleteIfZero(job, _) => ReleaseCreateAgain(job)
    case ReleaseCreateAgain(_) => Idle
    case UnlockedBody(_) => Idle
    case UnlockedInsert(job) =>
      if Inserts(d, job, env) && StoresFirst(job.handler.paidBy) && !env.accepted
      then UnlockedSave(job, TopUp(Pending, job.handler.paidBy)) else Idle
    case UnlockedRead(job) =>
      if k in d.orders && d.orders[k].status == Pending && env.dbOk then UnlockedSave(job, d.orders[k]) else Idle
    case UnlockedSave(_, _) => Idle
  }

  /** Whether the handler, having read this row, goes on to write it back.  The
      expiry handler does so whatever the status; it only logs a wrong one. */
  predicate SavesRow(h: Handler, row: TopUp, env: Env) {
    env.dbOk && (h == SessionExpired || (h == AsyncFailed && row.paidBy == Stripe && row.status == Pending))
  }

  /** Where a handler starts. */
  function Start(job: Job): Pc {
    match job.handler
    case Open(_) => UnlockedInsert(job)
    case WaffoFailed => UnlockedRead(job)
    case WechatPaid => UnlockedBody(job)
    case AdminRecharge => UnlockedBody(job)
    case CancelSubscription => UnlockedBody(job)
    case _ => AwaitCreate(job)
  }

  function NextThread(l: Locks, d: Db, th: Thread, env: Env): Thread
    requires CanStep(l, th)
  {
    if th.pc.Idle? then
      Thread(th.jobs[1..], Start(th.jobs[0]))
    else
      th.(pc := NextPc(l, d, th.pc, env))
  }

  predicate Enabled(s: State, t: nat) {
    t < |s.threads| && CanStep(s.locks, s.threads[t])
  }

  function Step(s: State, t: nat, env: Env): State
    requires Enabled(s, t)
  {
    var th := s.threads[t];
    State(LockStep(s.locks, th.pc),
          s.threads[t := NextThread(s.locks, s.db, th, env)],
          DbStep(s.db, th.pc, env))
  }

  // ----- runs

  datatype Choice = Choice(thread: nat, env: Env)

  ghost predicate IsRun(s: State, run: seq<Choice>)
    decreases |run|
  {
    run == [] || (Enabled(s, run[0].thread) && IsRun(Step(s, run[0].thread, run[0].env), run[1..]))
  }

  ghost function After(s: State, run: seq<Choice>): State
    requires IsRun(s, run)
    decreases |run|
  {
    if run == [] then s else After(Step(s, run[0].thread, run[0].env), run[1..])
  }

  /** Nothing has run yet: no lock entry exists, and nothing was credited or completed. */
  ghost predicate Initial(s: State) {
    && s.locks == Locks(false, map[], [], false)
    && (forall t :: 0 <= t < |s.threads| ==> s.threads[t].pc == Idle)
    && s.db.credits == map[]
    && (forall k <- s.db.orders :: s.db.orders[k].status != Success)
    && (forall k <- s.db.subs :: s.db.subs[k].status == Pending)
  }

  // ----- counting threads

  datatype Query = HoldsCreate | RegisteredOn(m: nat) | HoldsMutex(m: nat)

  predicate Satisfies(pc: Pc, q: Query) {
    match q
    case HoldsCreate =>
      pc.LoadEntry? || pc.StoreEntry? || pc.Increment? || pc.ReleaseCreate? ||
      pc.Decrement? || pc.DeleteIfZero? || pc.ReleaseCreateAgain?
    case RegisteredOn(m) =>
      (pc.ReleaseCreate? || pc.AwaitMutex? || InCriticalSection(pc) || pc.AwaitCreateAgain? || pc.Decrement?)
      && pc.m == m
    case HoldsMutex(m) => InCriticalSection(pc) && pc.m == m
  }

  /** Between the return of mu.Lock and the call of mu.Unlock. */
  predicate InCriticalSection(pc: Pc) {
    pc.Body? || pc.Save? || pc.LoadForUnlock? || pc.Unlock?
  }

  function Count(ts: seq<Thread>, q: Query): nat {
    if ts == [] then 0 else Count(ts[1..], q) + if Satisfies(ts[0].pc, q) then 1 else 0
  }

  lemma {:induction false} CountUpdate(ts: seq<Thread>, i: nat, th: Thread, q: Query)
    requires i < |ts|
    ensures Count(ts[i := th], q) ==
            Count(ts, q) - (if Satisfies(ts[i].pc, q) then 1 else 0) + (if Satisfies(th.pc, q) then 1 else 0)
  {
    if i == 0 {
      assert ts[i := th][1..] == ts[1..];
    } else {
      assert ts[i := th][1..] == ts[1..][i - 1 := th];
      CountUpdate(ts[1..], i - 1, th, q);
    }
  }

  lemma {:induction false} CountAtLeastOne(ts: seq<Thread>, i: nat, q: Query)
    requires i < |ts| && Satisfies(ts[i].pc, q)
    ensures Count(ts, q) >= 1
  {
    if i > 0 { CountAtLeastOne(ts[1..], i - 1, q); }
  }

  lemma {:induction false} CountAtLeastTwo(ts: seq<Thread>, i: nat, j: nat, q: Query)
    requires i < j < |ts| && Satisfies(ts[i].pc, q) && Satisfies(ts[j].pc, q)
    ensures Count(ts, q) >= 2
  {
    if i > 0 {
      CountAtLeastTwo(ts[1..], i - 1, j - 1, q);
    } else {
      CountAtLeastOne(ts[1..], j - 1, q);
    }
  }

  lemma {:induction false} CountWitness(ts: seq<Thread>, q: Query) returns (i: nat)
    requires Count(ts, q) >= 1
    ensures i < |ts| && Satisfies(ts[i].pc, q)
  {
    if Satisfies(ts[0].pc, q) {
      i := 0;
    } else {
      i := CountWitness(ts[1..], q);
      i := i + 1;
    }
  }

  lemma {:induction false} CountNone(ts: seq<Thread>, q: Query)
    requires forall i :: 0 <= i < |ts| ==> !Satisfies(ts[i].pc, q)
    ensures Count(ts, q) == 0
  {
    if ts != [] { CountNone(ts[1..], q); }
  }
}
