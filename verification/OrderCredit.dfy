/** What the writers of top-up orders do over every interleaving: how often an order is
    credited, and whether its status shows the credit. Both depend on which handlers are
    queued for the order; the conditions here are exact, as OrderRuns shows. */
module OrderCredit {
  import opened OrderLock
  import opened OrderLockSafety

  // ----- conditions on the handlers queued for an order

  /** One of these handlers credits orders paid by this method. */
  predicate Creditable(a: set<Handler>, paidBy: PaymentMethod) {
    exists h <- a :: Pays(h, paidBy)
  }

  predicate CreditsSome(h: Handler) {
    h == AdminRecharge || exists paidBy :: Pays(h, paidBy)
  }

  /** A WeChat payment revives failed orders, and some unlocked write can fail a paid one. */
  predicate CanCreditTwice(a: set<Handler>) {
    WechatPaid in a && (WaffoFailed in a || Open(Wechat) in a)
  }

  /** An unlocked failure write can land on an order that another handler has credited. */
  predicate FailureHidesCredit(a: set<Handler>) {
    || (WaffoFailed in a && exists paidBy :: Creditable(a, paidBy))
    || exists paidBy :: StoresFirst(paidBy) && Open(paidBy) in a && Creditable(a, paidBy)
  }

  predicate ExpiryHidesCredit(a: set<Handler>) {
    SessionExpired in a && exists h <- a :: CreditsSome(h)
  }

  /** The handlers queued for an order. */
  function Queued(ts: seq<Thread>, k: string): set<Handler> {
    set t, i | 0 <= t < |ts| && 0 <= i < |ts[t].jobs| && ts[t].jobs[i].tradeNo == k :: ts[t].jobs[i].handler
  }

  // ----- what a thread may be doing

  /** Each handler stays on its own path. */
  predicate Fits(pc: Pc) {
    match pc
    case Idle => true
    case UnlockedBody(job) => Start(job) == pc
    case UnlockedInsert(job) => Start(job) == pc
    case UnlockedRead(job) => Start(job) == pc
    case UnlockedSave(job, row) =>
      job.handler == WaffoFailed || (job.handler == Open(row.paidBy) && StoresFirst(row.paidBy))
    case Save(job, _, row) => job.handler == SessionExpired || (job.handler == AsyncFailed && row.paidBy == Stripe)
    case _ => Start(pc.job) == AwaitCreate(pc.job)
  }

  /** For this order the thread only runs these handlers. */
  predicate Only(th: Thread, k: string, a: set<Handler>) {
    && (forall j <- th.jobs :: j.tradeNo == k ==> j.handler in a)
    && (!th.pc.Idle? && th.pc.job.tradeNo == k ==> th.pc.job.handler in a)
  }

  /** A row about to be written back names the payment method of the stored one. */
  predicate Matches(d: Db, pc: Pc, k: string) {
    (pc.Save? || pc.UnlockedSave?) && pc.job.tradeNo == k ==> k in d.orders && d.orders[k].paidBy == pc.row.paidBy
  }

  predicate ThreadOk(d: Db, th: Thread, k: string, a: set<Handler>) {
    Fits(th.pc) && Only(th, k, a) && Matches(d, th.pc, k)
  }

  ghost predicate ThreadsOk(s: State, k: string, a: set<Handler>) {
    forall t :: 0 <= t < |s.threads| ==> ThreadOk(s.db, s.threads[t], k, a)
  }

  lemma OwnThreadOk(l: Locks, d: Db, th: Thread, env: Env, k: string, a: set<Handler>)
    requires CanStep(l, th) && ThreadOk(d, th, k, a)
    ensures ThreadOk(DbStep(d, th.pc, env), NextThread(l, d, th, env), k, a)
  {
    var th' := NextThread(l, d, th, env);
    assert forall j <- th'.jobs :: j in th.jobs;
    if th.pc.Idle? { assert th.jobs[0] in th.jobs; }
  }

  lemma OtherThreadOk(d: Db, pc: Pc, env: Env, th: Thread, k: string, a: set<Handler>)
    requires Matches(d, pc, k) && ThreadOk(d, th, k, a)
    ensures ThreadOk(DbStep(d, pc, env), th, k, a)
  {
  }

  lemma KeepThreadsOk(s: State, t: nat, env: Env, k: string, a: set<Handler>)
    requires Enabled(s, t) && ThreadsOk(s, k, a)
    ensures ThreadsOk(Step(s, t, env), k, a)
  {
    var s' := Step(s, t, env);
    forall i | 0 <= i < |s'.threads| ensures ThreadOk(s'.db, s'.threads[i], k, a) {
      if i == t {
        OwnThreadOk(s.locks, s.db, s.threads[t], env, k, a);
      } else {
        OtherThreadOk(s.db, s.threads[t].pc, env, s.threads[i], k, a);
      }
    }
  }

  lemma InitialThreadsOk(s: State, k: string, a: set<Handler>)
    requires Initial(s) && Queued(s.threads, k) <= a
    ensures ThreadsOk(s, k, a)
  {
    forall t | 0 <= t < |s.threads| ensures ThreadOk(s.db, s.threads[t], k, a) {
      forall j <- s.threads[t].jobs | j.tradeNo == k ensures j.handler in a {
        var i :| 0 <= i < |s.threads[t].jobs| && s.threads[t].jobs[i] == j;
        assert j.handler in Queued(s.threads, k);
      }
    }
  }

  // ----- how often an order is credited

  /** An order that does not exist yet or is pending has not been credited. */
  predicate UnpaidFirst(d: Db, k: string) {
    k !in d.orders || d.orders[k].status == Pending ==> Credits(d, k) == 0
  }

  /** At most one credit, and none that a WeChat payment could repeat. */
  predicate Once(d: Db, k: string, a: set<Handler>) {
    && UnpaidFirst(d, k) && Credits(d, k) <= 1
    && (WechatPaid in a && k in d.orders && d.orders[k] == TopUp(Failed, Wechat) ==> Credits(d, k) == 0)
  }

  lemma TransactionKeepsOnce(d: Db, job: Job, env: Env, k: string, a: set<Handler>)
    requires Once(d, k, a) && (job.tradeNo == k ==> job.handler in a)
    ensures Once(Transaction(d, job, env), k, a)
  {
  }

  lemma WriteKeepsOnce(d: Db, job: Job, row: TopUp, env: Env, k: string, a: set<Handler>)
    requires !CanCreditTwice(a) && Once(d, k, a) && (job.tradeNo == k ==> job.handler in a && k in d.orders)
    requires job.handler == WaffoFailed || job.handler == Open(row.paidBy) || row.paidBy == Stripe
    ensures Once(WriteBack(d, job.tradeNo, row, Failed, env), k, a)
  {
  }

  lemma KeepOnce(d: Db, th: Thread, env: Env, k: string, a: set<Handler>)
    requires !CanCreditTwice(a) && Once(d, k, a) && ThreadOk(d, th, k, a)
    ensures Once(DbStep(d, th.pc, env), k, a)
  {
    match th.pc
    case Body(job, _) => TransactionKeepsOnce(d, job, env, k, a);
    case UnlockedBody(job) => TransactionKeepsOnce(d, job, env, k, a);
    case UnlockedSave(job, row) => WriteKeepsOnce(d, job, row, env, k, a);
    case Save(job, _, row) => if job.handler == AsyncFailed { WriteKeepsOnce(d, job, row, env, k, a); }
    case _ =>
  }

  lemma {:induction false} OnceInEveryRun(s: State, run: seq<Choice>, k: string, a: set<Handler>)
    requires !CanCreditTwice(a) && ThreadsOk(s, k, a) && Once(s.db, k, a) && IsRun(s, run)
    ensures Once(After(s, run).db, k, a)
    decreases |run|
  {
    if run != [] {
      var t, env := run[0].thread, run[0].env;
      KeepOnce(s.db, s.threads[t], env, k, a);
      KeepThreadsOk(s, t, env, k, a);
      OnceInEveryRun(Step(s, t, env), run[1..], k, a);
    }
  }

  // ----- whether a failed order hides a credit

  /** A thread about to fail the order does so before any credit, and no handler can
      credit it while an unlocked write is under way. */
  predicate Quiet(d: Db, pc: Pc, k: string, a: set<Handler>) {
    && (pc.Save? && pc.job.handler == AsyncFailed && pc.job.tradeNo == k ==> Credits(d, k) == 0)
    && (pc.UnlockedSave? && pc.job.tradeNo == k ==> Credits(d, k) == 0 && !Creditable(a, pc.row.paidBy))
  }

  ghost predicate AllQuiet(s: State, k: string, a: set<Handler>) {
    forall t :: 0 <= t < |s.threads| ==> Quiet(s.db, s.threads[t].pc, k, a)
  }

  predicate FailedUnpaid(d: Db, k: string) {
    && UnpaidFirst(d, k)
    && (k in d.orders && d.orders[k].status == Failed ==> Credits(d, k) == 0)
  }

  lemma TransactionKeepsFailedUnpaid(d: Db, job: Job, env: Env, k: string)
    requires FailedUnpaid(d, k)
    ensures FailedUnpaid(Transaction(d, job, env), k)
  {
  }

  lemma KeepFailedUnpaid(d: Db, th: Thread, env: Env, k: string, a: set<Handler>)
    requires ThreadOk(d, th, k, a) && Quiet(d, th.pc, k, a) && FailedUnpaid(d, k)
    ensures FailedUnpaid(DbStep(d, th.pc, env), k)
  {
    match th.pc
    case Body(job, _) => TransactionKeepsFailedUnpaid(d, job, env, k);
    case UnlockedBody(job) => TransactionKeepsFailedUnpaid(d, job, env, k);
    case _ =>
  }

  /** What a thread reads or inserts before it fails the order is a pending row. */
  lemma OwnQuiet(l: Locks, d: Db, th: Thread, env: Env, k: string, a: set<Handler>)
    requires !FailureHidesCredit(a) && CanStep(l, th)
    requires ThreadOk(d, th, k, a) && Quiet(d, th.pc, k, a) && FailedUnpaid(d, k)
    ensures Quiet(DbStep(d, th.pc, env), NextThread(l, d, th, env).pc, k, a)
  {
    match th.pc
    case Body(job, m) => AsyncFailureIsQuiet(d, job, m, env, k, a, l);
    case _ =>
  }

  lemma AsyncFailureIsQuiet(d: Db, job: Job, m: nat, env: Env, k: string, a: set<Handler>, l: Locks)
    requires UnpaidFirst(d, k)
    ensures Quiet(Transaction(d, job, env), NextPc(l, d, Body(job, m), env), k, a)
  {
  }

  lemma OtherQuiet(d: Db, th: Thread, env: Env, other: Thread, k: string, a: set<Handler>)
    requires ThreadOk(d, th, k, a) && ThreadOk(d, other, k, a) && Quiet(d, other.pc, k, a)
    requires !(&& InCriticalSection(th.pc) && InCriticalSection(other.pc)
               && th.pc.job.tradeNo == other.pc.job.tradeNo == k)
    ensures Quiet(DbStep(d, th.pc, env), other.pc, k, a)
  {
  }

  lemma KeepQuiet(s: State, t: nat, env: Env, k: string, a: set<Handler>)
    requires !FailureHidesCredit(a) && LockInv(s) && Enabled(s, t)
    requires ThreadsOk(s, k, a) && AllQuiet(s, k, a) && FailedUnpaid(s.db, k)
    ensures AllQuiet(Step(s, t, env), k, a) && FailedUnpaid(Step(s, t, env).db, k)
  {
    var s' := Step(s, t, env);
    OwnQuiet(s.locks, s.db, s.threads[t], env, k, a);
    KeepFailedUnpaid(s.db, s.threads[t], env, k, a);
    forall i | 0 <= i < |s'.threads| && i != t ensures Quiet(s'.db, s'.threads[i].pc, k, a) {
      var pc, other := s.threads[t].pc, s.threads[i].pc;
      if InCriticalSection(pc) && InCriticalSection(other) && pc.job.tradeNo == other.job.tradeNo == k {
        MutualExclusion(s, i, t);
      }
      OtherQuiet(s.db, s.threads[t], env, s.threads[i], k, a);
    }
  }

  lemma {:induction false} QuietInEveryRun(s: State, run: seq<Choice>, k: string, a: set<Handler>)
    requires !FailureHidesCredit(a) && LockInv(s) && IsRun(s, run)
    requires ThreadsOk(s, k, a) && AllQuiet(s, k, a) && FailedUnpaid(s.db, k)
    ensures FailedUnpaid(After(s, run).db, k)
    decreases |run|
  {
    if run != [] {
      var t, env := run[0].thread, run[0].env;
      KeepLockInv(s, t, env);
      KeepThreadsOk(s, t, env, k, a);
      KeepQuiet(s, t, env, k, a);
      QuietInEveryRun(Step(s, t, env), run[1..], k, a);
    }
  }

  // ----- whether the status shows the credit

  /** The order is successful exactly if it was credited, and then once. */
  predicate StatusShowsCredit(d: Db, k: string) {
    Credits(d, k) == if k in d.orders && d.orders[k].status == Success then 1 else 0
  }

  predicate Shown(d: Db, k: string, a: set<Handler>) {
    && k !in d.subs && StatusShowsCredit(d, k)
    && (SessionExpired in a ==> Credits(d, k) == 0)
  }

  lemma TransactionKeepsShown(d: Db, job: Job, env: Env, k: string, a: set<Handler>)
    requires !ExpiryHidesCredit(a) && Shown(d, k, a) && (job.tradeNo == k ==> job.handler in a)
    ensures Shown(Transaction(d, job, env), k, a)
  {
    if job.handler in a && SessionExpired in a { assert !CreditsSome(job.handler); }
  }

  lemma KeepShown(d: Db, th: Thread, env: Env, k: string, a: set<Handler>)
    requires !ExpiryHidesCredit(a) && ThreadOk(d, th, k, a) && Quiet(d, th.pc, k, a)
    requires FailedUnpaid(d, k) && Shown(d, k, a)
    ensures Shown(DbStep(d, th.pc, env), k, a)
  {
    match th.pc
    case Body(job, _) => TransactionKeepsShown(d, job, env, k, a);
    case UnlockedBody(job) => TransactionKeepsShown(d, job, env, k, a);
    case _ =>
  }

  lemma {:induction false} ShownInEveryRun(s: State, run: seq<Choice>, k: string, a: set<Handler>)
    requires !FailureHidesCredit(a) && !ExpiryHidesCredit(a) && LockInv(s) && IsRun(s, run)
    requires ThreadsOk(s, k, a) && AllQuiet(s, k, a) && FailedUnpaid(s.db, k) && Shown(s.db, k, a)
    ensures Shown(After(s, run).db, k, a)
    decreases |run|
  {
    if run != [] {
      var t, env := run[0].thread, run[0].env;
      KeepLockInv(s, t, env);
      KeepThreadsOk(s, t, env, k, a);
      KeepQuiet(s, t, env, k, a);
      KeepShown(s.db, s.threads[t], env, k, a);
      ShownInEveryRun(Step(s, t, env), run[1..], k, a);
    }
  }

  // ----- from a start state

  /** From any start and over every interleaving, by the handlers queued for the order. */
  lemma PaymentsAreConsistent(s: State, run: seq<Choice>, k: string)
    requires Initial(s) && IsRun(s, run)
    ensures var d, a := After(s, run).db, Queued(s.threads, k);
            && (!CanCreditTwice(a) ==> Credits(d, k) <= 1)
            && (!FailureHidesCredit(a) && k in d.orders && d.orders[k].status == Failed ==> Credits(d, k) == 0)
            && (!FailureHidesCredit(a) && !ExpiryHidesCredit(a) && k !in s.db.subs ==> StatusShowsCredit(d, k))
  {
    var a := Queued(s.threads, k);
    InitialLockInv(s);
    InitialThreadsOk(s, k, a);
    if !CanCreditTwice(a) { OnceInEveryRun(s, run, k, a); }
    if !FailureHidesCredit(a) {
      QuietInEveryRun(s, run, k, a);
      if !ExpiryHidesCredit(a) && k !in s.db.subs { ShownInEveryRun(s, run, k, a); }
    }
  }

  // ----- subscription orders

  /** The row of a subscription order comes from completing it and carries no credit. */
  predicate SubscriptionOnly(d: Db, k: string, a: set<Handler>) {
    && k in d.subs && Credits(d, k) == 0
    && (k in d.orders ==> d.subs[k].status == Success && d.orders[k].status in {Success, Expired})
    && (d.subs[k].status == Success ==> k in d.orders)
    && (SessionExpired !in a && k in d.orders ==> d.orders[k].status == Success)
  }

  /** Nothing but the expiry handler is about to write a row of this order back. */
  predicate OnlyExpires(pc: Pc, k: string) {
    && (pc.Save? && pc.job.tradeNo == k ==> pc.job.handler == SessionExpired)
    && !(pc.UnlockedSave? && pc.job.tradeNo == k)
  }

  lemma TransactionKeepsSubscription(d: Db, job: Job, env: Env, k: string, a: set<Handler>)
    requires AdminRecharge !in a && SubscriptionOnly(d, k, a) && (job.tradeNo == k ==> job.handler in a)
    ensures SubscriptionOnly(Transaction(d, job, env), k, a)
  {
  }

  lemma KeepSubscriptionOnly(d: Db, th: Thread, env: Env, k: string, a: set<Handler>)
    requires AdminRecharge !in a && (forall paidBy :: Open(paidBy) !in a)
    requires ThreadOk(d, th, k, a) && SubscriptionOnly(d, k, a)
    requires OnlyExpires(th.pc, k)
    ensures SubscriptionOnly(DbStep(d, th.pc, env), k, a)
  {
    match th.pc
    case Body(job, _) => TransactionKeepsSubscription(d, job, env, k, a);
    case UnlockedBody(job) => TransactionKeepsSubscription(d, job, env, k, a);
    case _ =>
  }

  lemma KeepOnlyExpires(l: Locks, d: Db, th: Thread, env: Env, k: string, a: set<Handler>)
    requires CanStep(l, th) && (forall paidBy :: Open(paidBy) !in a)
    requires ThreadOk(d, th, k, a) && SubscriptionOnly(d, k, a) && OnlyExpires(th.pc, k)
    ensures OnlyExpires(NextThread(l, d, th, env).pc, k)
  {
  }

  lemma {:induction false} SubscriptionInEveryRun(s: State, run: seq<Choice>, k: string, a: set<Handler>)
    requires AdminRecharge !in a && (forall paidBy :: Open(paidBy) !in a)
    requires ThreadsOk(s, k, a) && SubscriptionOnly(s.db, k, a) && IsRun(s, run)
    requires forall t :: 0 <= t < |s.threads| ==> OnlyExpires(s.threads[t].pc, k)
    ensures SubscriptionOnly(After(s, run).db, k, a)
    decreases |run|
  {
    if run != [] {
      var t, env := run[0].thread, run[0].env;
      KeepThreadsOk(s, t, env, k, a);
      KeepSubscriptionOnly(s.db, s.threads[t], env, k, a);
      KeepOnlyExpires(s.locks, s.db, s.threads[t], env, k, a);
      SubscriptionInEveryRun(Step(s, t, env), run[1..], k, a);
    }
  }

  /** A subscription order is never credited, has a row exactly once it is completed, and, unless
      an expiry is queued for it, that row is successful: for subscriptions success means no
      credit. */
  lemma SubscriptionsAreNotCredited(s: State, run: seq<Choice>, k: string)
    requires Initial(s) && IsRun(s, run) && k in s.db.subs && k !in s.db.orders
    requires AdminRecharge !in Queued(s.threads, k) && forall paidBy :: Open(paidBy) !in Queued(s.threads, k)
    ensures var d := After(s, run).db;
            && k in d.subs && Credits(d, k) == 0 && (k in d.orders <==> d.subs[k].status == Success)
            && (SessionExpired !in Queued(s.threads, k) && k in d.orders ==> d.orders[k].status == Success)
  {
    var a := Queued(s.threads, k);
    InitialThreadsOk(s, k, a);
    SubscriptionInEveryRun(s, run, k, a);
  }
}
