/** The relay of one request: reserve, try channels until one succeeds or no retry is allowed,
    then settle or refund. What channel selection, upstream and the database do is an input. */
module Relay {

  import opened Billing
  import opened Routing
  import opened Wrappers

  datatype ApiError = ApiError(channelError: bool, skipRetry: bool, alwaysSkip: bool, status: int)

  /** One call of the upstream handler: the settlements it asks for, how it ends, whether anything was
      written to the client and whether the request is over by then. */
  datatype Attempt = Attempt(settles: seq<SettleCall>, error: Option<ApiError>, panics: bool, wrote: bool,
                             terminated: bool)

  datatype SettleCall = SettleCall(actual: int, io: SettleIo)

  /** Everything the relay does not decide itself; functions give the n-th outcome. */
  datatype World = World(routes: Routes, body: nat -> bool, attempt: nat -> Attempt,
                         specificChannel: bool, retryStatus: int -> bool)

  predicate ShouldRetry(w: World, e: ApiError, wrote: bool, terminated: bool, retryTimes: int) {
    if terminated then false
    else if wrote then false
    else if w.routes.affinitySkip then false
    else if e.channelError then true
    else if e.skipRetry then false
    else if retryTimes <= 0 then false
    else if w.specificChannel then false
    else if 200 <= e.status < 300 then false
    else if e.status < 100 || e.status > 599 then true
    else if e.alwaysSkip then false
    else w.retryStatus(e.status)
  }

  // ----- the retry loop

  /** Why the attempts stopped. */
  datatype Why = Answered | Aborted | NoRoute | NoBody | Final | Exhausted

  /** How a run ended: the error reported, whether it panicked, the number of attempts, where routing stands
      and why. */
  datatype Outcome = Outcome(error: Option<ApiError>, panicked: bool, attempts: nat, at: At, why: Why)

  predicate Failed(r: Outcome) { r.error.Some? || r.panicked }

  /** The last of the first n attempts succeeded. */
  predicate Succeeded(w: World, n: nat) {
    n > 0 && w.attempt(n - 1).error.None? && !w.attempt(n - 1).panics
  }

  /** An attempt that may be followed by another, given this many retries: it failed, the request goes on, and
      nothing was written. */
  predicate MayRetry(w: World, a: Attempt, left: int) {
    a.error.Some? && !a.panics && ShouldRetry(w, a.error.value, a.wrote, a.terminated, left)
  }

  /** Every one of the first n attempts failed, wrote nothing and could be followed by another. */
  predicate AllRetried(w: World, n: int) {
    forall i :: 0 <= i < n ==> MayRetry(w, w.attempt(i), 1) && !w.attempt(i).wrote
  }

  const Refused := ApiError(false, true, false, 500)

  function ErrorBefore(w: World, n: nat): Option<ApiError> { if n > 0 then w.attempt(n - 1).error else None }

  /** What one iteration does: it stops, or goes on from another head. */
  datatype Iteration = Stop(outcome: Outcome) | GoOn(at: At)

  function Iterated(w: World, c: At, n: nat): Iteration
    requires Ready(w.routes, c)
  {
    var (channel, at) := Selected(w.routes, c);
    if channel.None? then Stop(Outcome(Some(Refused), false, n, at, NoRoute))
    else
      var chosen := at.(used := at.used + [channel.value]);
      var a := w.attempt(n);
      if !w.body(n) then Stop(Outcome(Some(Refused), false, n, chosen, NoBody))
      else if a.panics then Stop(Outcome(None, true, n + 1, chosen, Aborted))
      else if a.error.None? then Stop(Outcome(None, false, n + 1, chosen, Answered))
      else if !MayRetry(w, a, w.routes.retryTimes - at.retry) then Stop(Outcome(a.error, false, n + 1, chosen, Final))
      else GoOn(chosen.(retry := at.retry + 1))
  }

  lemma IterationGoesOn(w: World, c: At, n: nat)
    requires Ready(w.routes, c) && Iterated(w, c, n).GoOn?
    ensures var c' := Iterated(w, c, n).at; c.retry < |c'.used| == c'.retry <= w.routes.retryTimes + 1
  {
    SelectionIsJustified(w.routes, c);
    var (channel, at) := Selected(w.routes, c);
    assert channel.Some? ==> |at.used + [channel.value]| == at.retry + 1;
  }

  /** The loop from its head, with n attempts made. */
  function Looped(w: World, c: At, n: nat): Outcome
    requires |c.used| == c.retry
    decreases w.routes.retryTimes - c.retry
  {
    if c.retry > w.routes.retryTimes then Outcome(ErrorBefore(w, n), false, n, c, Exhausted)
    else
      match Iterated(w, c, n)
      case Stop(r) => r
      case GoOn(c') =>
        IterationGoesOn(w, c, n);
        Looped(w, c', n + 1)
  }

  /** What stopping for each reason means. */
  predicate Justified(w: World, r: Outcome) {
    var last := w.attempt(if r.attempts > 0 then r.attempts - 1 else 0);
    match r.why
    case Answered => r.error == None && !r.panicked && Succeeded(w, r.attempts)
    case Aborted => r.panicked && r.attempts > 0 && last.panics
    case NoRoute => r.error == Some(Refused) && NoRouteAt(w.routes, r.at)
    case NoBody => r.error == Some(Refused) && !w.body(r.attempts)
    case Final =>
      && r.attempts > 0 && r.error.Some? && r.error == last.error && !last.panics
      && !MayRetry(w, last, w.routes.retryTimes - (|r.at.used| - 1))
    case Exhausted =>
      && |r.at.used| == (if w.routes.retryTimes >= 0 then w.routes.retryTimes + 1 else 0)
      && (w.routes.retryTimes >= 0 ==> r.attempts > 0 && r.error == last.error && MayRetry(w, last, 0))
  }

  function Limit(w: World): nat { if w.routes.retryTimes >= 0 then w.routes.retryTimes + 1 else 0 }

  /** The loop invariant: recorded channels equal the retry counter, calls equal attempts, and every attempt so
      far failed and was retried. */
  predicate AtHead(w: World, c: At, n: nat) {
    && n <= |c.used| == c.retry <= Limit(w) && c.calls == n && AllRetried(w, n) && (c.retry > 0 ==> n > 0)
    && (n > 0 && c.retry > w.routes.retryTimes ==> MayRetry(w, w.attempt(n - 1), 0))
  }

  predicate Sound(w: World, r: Outcome) {
    && r.attempts <= |r.at.used| <= Limit(w) && AllRetried(w, r.attempts - 1) && Justified(w, r)
    && (!Failed(r) <==> w.routes.retryTimes < 0 || Succeeded(w, r.attempts))
    && r.at.calls == r.attempts + if r.why in {NoRoute, NoBody} then 1 else 0
  }

  lemma IterationIsSound(w: World, c: At, n: nat)
    requires AtHead(w, c, n) && c.retry <= w.routes.retryTimes
    ensures match Iterated(w, c, n) case Stop(r) => n <= r.attempts && Sound(w, r) case GoOn(c') => AtHead(w, c', n + 1)
  {
    SelectionIsJustified(w.routes, c);
    var (channel, at) := Selected(w.routes, c);
    assert channel.Some? ==> |at.used + [channel.value]| == at.retry + 1;
  }

  /** For every world: at most one more channel than retries is used, counting those rejected on price; all
      attempts but the last failed without output; the loop stops only for a reason, never early; and it reports
      no error exactly when the last attempt succeeded, or the number of retries is negative. */
  lemma {:induction false} LoopIsJustified(w: World, c: At, n: nat)
    requires AtHead(w, c, n)
    ensures Sound(w, Looped(w, c, n)) && n <= Looped(w, c, n).attempts
    decreases w.routes.retryTimes - c.retry
  {
    if c.retry <= w.routes.retryTimes {
      IterationIsSound(w, c, n);
      if Iterated(w, c, n).GoOn? {
        IterationGoesOn(w, c, n);
        LoopIsJustified(w, Iterated(w, c, n).at, n + 1);
      }
    }
  }

  /** A channel and the body are to be had for every attempt. */
  ghost predicate Routed(w: World) {
    && (forall n :: w.routes.pick(n).Priced?) && (forall n :: w.body(n))
    && forall n :: w.routes.metaMissing(n) ==> w.routes.contextPriced(n)
  }

  /** How many attempts are made then, from the n-th on. */
  function Stops(w: World, n: nat): nat
    decreases w.routes.retryTimes - n
  {
    if n > w.routes.retryTimes then n
    else if MayRetry(w, w.attempt(n), w.routes.retryTimes - n) then Stops(w, n + 1)
    else n + 1
  }

  /** Then exactly that many are made: every attempt that may be retried is followed by another until the
      retries are used up. */
  lemma {:induction false} RoutedAttempts(w: World, c: At, n: nat)
    requires Routed(w) && c.retry == |c.used| == n
    ensures var r := Looped(w, c, n);
            r.attempts == Stops(w, n) && r.why in {Answered, Aborted, Final, Exhausted} && |r.at.used| == r.attempts
    decreases w.routes.retryTimes - n
  {
    if n <= w.routes.retryTimes {
      var (channel, at) := Selected(w.routes, c);
      assert channel.Some? && at.retry == n && at.used == c.used;
      if MayRetry(w, w.attempt(n), w.routes.retryTimes - n) {
        RoutedAttempts(w, at.(used := at.used + [channel.value], retry := at.retry + 1), n + 1);
      }
    }
  }

  lemma {:induction false} StopsAt(w: World, n: nat, m: nat)
    requires n <= m <= w.routes.retryTimes
    requires forall i :: n <= i < m ==> MayRetry(w, w.attempt(i), w.routes.retryTimes - i)
    ensures !MayRetry(w, w.attempt(m), w.routes.retryTimes - m) ==> Stops(w, n) == m + 1
    decreases m - n
  {
    if n < m { StopsAt(w, n + 1, m); }
  }

  lemma {:induction false} StopsAfterRetries(w: World, n: nat)
    ensures Stops(w, n) >= n
    ensures forall i :: n <= i < Stops(w, n) - 1 ==>
              i <= w.routes.retryTimes && MayRetry(w, w.attempt(i), w.routes.retryTimes - i)
    ensures Stops(w, n) > n ==> Stops(w, n) - 1 <= w.routes.retryTimes
    decreases w.routes.retryTimes - n
  {
    if n <= w.routes.retryTimes && MayRetry(w, w.attempt(n), w.routes.retryTimes - n) { StopsAfterRetries(w, n + 1); }
  }

  /** Attempt m succeeds, after ones that may all be retried. */
  predicate SucceedsAt(w: World, m: nat) {
    && m <= w.routes.retryTimes && Succeeded(w, m + 1)
    && forall i :: 0 <= i < m ==> MayRetry(w, w.attempt(i), w.routes.retryTimes - i)
  }

  /** And the relay succeeds exactly when some attempt within the retries does, after ones that may be retried. */
  lemma RoutedSucceedsIff(w: World)
    requires Routed(w) && w.routes.retryTimes >= 0
    ensures !Failed(Looped(w, Begin, 0)) <==> exists m :: SucceedsAt(w, m)
  {
    var r := Looped(w, Begin, 0);
    LoopIsJustified(w, Begin, 0);
    RoutedAttempts(w, Begin, 0);
    if m :| SucceedsAt(w, m) { StopsAt(w, 0, m); }
    if !Failed(r) {
      StopsAfterRetries(w, 0);
      assert SucceedsAt(w, r.attempts - 1);
    }
  }

  // ----- the billing calls of a run

  function Steps(settles: seq<SettleCall>): seq<Step> {
    seq(|settles|, i requires 0 <= i < |settles| => Settle(settles[i].actual, settles[i].io))
  }

  /** The settlements of the first n attempts, in order. */
  function SettleSteps(w: World, n: nat): seq<Step> {
    if n == 0 then [] else SettleSteps(w, n - 1) + Steps(w.attempt(n - 1).settles)
  }

  function Started(session: BillingSession): State
    reads session
  {
    State(session.Value(), session.db, 0, 0, None, false, false, false)
  }

  /** A session and its database rows after the first k of these settlements. */
  function SettledBy(cfg: Config, at: (Session, Db), settles: seq<SettleCall>, k: nat): (Session, Db)
    requires k <= |settles|
  {
    if k == 0 then at
    else
      var (s, db) := SettledBy(cfg, at, settles, k - 1);
      var (s', db', _) := Settlement(cfg, s, db, settles[k - 1].actual, settles[k - 1].io);
      (s', db')
  }

  /** And after all settlements of the first n attempts. */
  function SettledThrough(cfg: Config, at: (Session, Db), w: World, n: nat): (Session, Db) {
    if n == 0 then at
    else SettledBy(cfg, SettledThrough(cfg, at, w, n - 1), w.attempt(n - 1).settles, |w.attempt(n - 1).settles|)
  }

  function Reached(cfg: Config, at: (Session, Db), free: bool, w: World, n: nat): (Session, Db) {
    if free then at else SettledThrough(cfg, at, w, n)
  }

  method PerformAttempt(session: BillingSession, ghost at: (Session, Db), free: bool, w: World, n: nat)
    requires (session.Value(), session.db) == Reached(session.cfg, at, free, w, n)
    modifies session
    ensures (session.Value(), session.db) == Reached(session.cfg, at, free, w, n + 1)
  {
    if free { return; }
    var settles := w.attempt(n).settles;
    ghost var before := (session.Value(), session.db);
    for i := 0 to |settles|
      invariant (session.Value(), session.db) == SettledBy(session.cfg, before, settles, i)
    {
      var ok := session.Settle(settles[i].actual, settles[i].io);
    }
  }

  lemma {:induction false} SettledByIsRun(cfg: Config, st: State, settles: seq<SettleCall>, k: nat)
    requires k <= |settles|
    ensures IsRun(cfg, st, Steps(settles)[..k])
    ensures var end := After(cfg, st, Steps(settles)[..k]); (end.s, end.db) == SettledBy(cfg, (st.s, st.db), settles, k)
  {
    if k > 0 {
      var before := Steps(settles)[..k - 1];
      SettledByIsRun(cfg, st, settles, k - 1);
      RunSnoc(cfg, st, before, Steps(settles)[k - 1]);
      assert Steps(settles)[..k] == before + [Steps(settles)[k - 1]];
    }
  }

  lemma {:induction false} RunConcat(cfg: Config, st: State, a: seq<Step>, b: seq<Step>)
    requires IsRun(cfg, st, a) && IsRun(cfg, After(cfg, st, a), b)
    ensures IsRun(cfg, st, a + b) && After(cfg, st, a + b) == After(cfg, After(cfg, st, a), b)
    decreases |b|
  {
    if b == [] {
      assert a + b == a;
    } else {
      var init := b[..|b| - 1];
      RunConcat(cfg, st, a, init);
      RunSnoc(cfg, st, a + init, b[|b| - 1]);
      assert a + b == a + init + [b[|b| - 1]];
    }
  }

  /** The settlements of the attempts are a run of the billing steps. */
  lemma {:induction false} SettledThroughIsRun(cfg: Config, st: State, w: World, n: nat)
    ensures IsRun(cfg, st, SettleSteps(w, n))
    ensures var end := After(cfg, st, SettleSteps(w, n)); (end.s, end.db) == SettledThrough(cfg, (st.s, st.db), w, n)
  {
    if n > 0 {
      SettledThroughIsRun(cfg, st, w, n - 1);
      var settles := w.attempt(n - 1).settles;
      var mid := After(cfg, st, SettleSteps(w, n - 1));
      SettledByIsRun(cfg, mid, settles, |settles|);
      assert Steps(settles)[..|settles|] == Steps(settles);
      RunConcat(cfg, st, SettleSteps(w, n - 1), Steps(settles));
    }
  }

  // ----- Relay

  /** One iteration of the retry loop: pick a channel, call upstream with its settlements, and stop or go on. */
  method TryOnce(w: World, session: BillingSession, free: bool, ctx: RetryContext, n: nat, ghost start: (Session, Db))
    returns (it: Iteration)
    requires Ready(w.routes, ctx.Value())
    requires (session.Value(), session.db) == Reached(session.cfg, start, free, w, n)
    modifies session, ctx
    ensures it == Iterated(w, old(ctx.Value()), n) && ctx.Value() == if it.Stop? then it.outcome.at else it.at
    ensures (session.Value(), session.db) ==
            Reached(session.cfg, start, free, w, if it.Stop? then it.outcome.attempts else n + 1)
  {
    var channel := ctx.GetChannel(w.routes);
    if channel.None? { return Stop(Outcome(Some(Refused), false, n, ctx.Value(), NoRoute)); }
    ctx.AddUsedChannel(channel.value);
    if !w.body(n) { return Stop(Outcome(Some(Refused), false, n, ctx.Value(), NoBody)); }
    var a := w.attempt(n);
    PerformAttempt(session, start, free, w, n);
    if a.panics { return Stop(Outcome(None, true, n + 1, ctx.Value(), Aborted)); }
    if a.error.None? { return Stop(Outcome(None, false, n + 1, ctx.Value(), Answered)); }
    if a.terminated || !ShouldRetry(w, a.error.value, a.wrote, a.terminated, w.routes.retryTimes - ctx.retry) {
      return Stop(Outcome(a.error, false, n + 1, ctx.Value(), Final));
    }
    ctx.retry := ctx.retry + 1;
    return GoOn(ctx.Value());
  }

  /** The retry loop. */
  method TryChannels(w: World, session: BillingSession, free: bool) returns (r: Outcome)
    modifies session
    ensures r == Looped(w, Begin, 0)
    ensures (session.Value(), session.db) ==
            Reached(session.cfg, old((session.Value(), session.db)), free, w, r.attempts)
  {
    var ctx := new RetryContext();
    var n := 0;
    ghost var start := (session.Value(), session.db);
    while ctx.retry <= w.routes.retryTimes
      invariant fresh(ctx) && 0 <= |ctx.used| == ctx.retry
      invariant Looped(w, Begin, 0) == Looped(w, ctx.Value(), n)
      invariant (session.Value(), session.db) == Reached(session.cfg, start, free, w, n)
      decreases w.routes.retryTimes - ctx.retry
    {
      ghost var c := ctx.Value();
      var it := TryOnce(w, session, free, ctx, n, start);
      if it.Stop? { return it.outcome; }
      IterationGoesOn(w, c, n);
      n := n + 1;
    }
    return Outcome(if n > 0 then w.attempt(n - 1).error else None, false, n, ctx.Value(), Exhausted);
  }

  /** The billing calls of a whole relay: the settlements of its attempts, then one refund if it failed. */
  function RelayRun(w: World, n: nat, failed: bool): seq<Step> {
    SettleSteps(w, n) + if failed then [Billing.Refund] else []
  }

  /** Where the billing calls of a relay lead. */
  lemma RelayRunEnds(cfg: Config, start: State, w: World, n: nat, failed: bool)
    ensures IsRun(cfg, start, RelayRun(w, n, failed))
    ensures var (s, db) := SettledThrough(cfg, (start.s, start.db), w, n);
            var end := After(cfg, start, RelayRun(w, n, failed));
            && end.db == db
            && end.s == if failed && !cfg.strict && NeedsRefund(cfg, s) then s.(refunded := true) else s
  {
    SettledThroughIsRun(cfg, start, w, n);
    if failed {
      RunSnoc(cfg, start, SettleSteps(w, n), Billing.Refund);
    } else {
      assert SettleSteps(w, n) + [] == SettleSteps(w, n);
    }
  }

  /** Reserve, try the channels, and ask for a refund if that failed or panicked. */
  method Relay(w: World, session: BillingSession, free: bool, quota: nat, trusted: bool, io: ReserveIo)
    returns (reserved: bool, r: Outcome, due: bool, ghost start: State)
    requires session.Value() == Fresh && session.db.record == Missing
    requires session.db.funds.charged == 0 && session.db.token.charged == 0
    requires trusted ==> !session.cfg.subscription
    requires session.cfg.subscription ==> quota > 0
    modifies session
    ensures !reserved ==> !free && !due && r.error.Some? && r.attempts == 0 && session.db.funds.charged == 0
    ensures free ==> reserved && !due && session.Value() == Fresh && session.db == old(session.db)
    ensures reserved ==> r == Looped(w, Begin, 0)
    ensures reserved ==> (!Failed(r) <==> w.routes.retryTimes < 0 || Succeeded(w, r.attempts))
    ensures reserved && !free ==>
              var run := RelayRun(w, r.attempts, Failed(r));
              && Initial(session.cfg, start) && IsRun(session.cfg, start, run)
              && After(session.cfg, start, run).s == session.Value() && After(session.cfg, start, run).db == session.db
    ensures reserved && !free ==>
              (due <==> Failed(r) &&
                        NeedsRefund(session.cfg, SettledThrough(session.cfg, (start.s, start.db), w, r.attempts).0))
  {
    due, reserved := false, true;
    if !free {
      reserved := session.PreConsume(quota, trusted, io);
      if !reserved { return false, Outcome(Some(Refused), false, 0, Begin, NoRoute), false, Started(session); }
    }
    start := Started(session);
    r := TryChannels(w, session, free);
    LoopIsJustified(w, Begin, 0);
    if free { return; }
    RelayRunEnds(session.cfg, start, w, r.attempts, Failed(r));
    if Failed(r) { due := session.Refund(); }
  }

  // ----- what is charged in the end

  lemma {:induction false} AfterConcat(cfg: Config, st: State, a: seq<Step>, b: seq<Step>)
    requires IsRun(cfg, st, a + b)
    ensures IsRun(cfg, st, a) && IsRun(cfg, After(cfg, st, a), b)
    ensures After(cfg, st, a + b) == After(cfg, After(cfg, st, a), b)
    decreases |b|
  {
    if b == [] {
      assert a + b == a;
    } else {
      assert (a + b)[..|a + b| - 1] == a + b[..|b| - 1];
      AfterConcat(cfg, st, a, b[..|b| - 1]);
    }
  }

  predicate AllSettles(run: seq<Step>) { forall i :: 0 <= i < |run| ==> run[i].Settle? }

  /** What goes on after the relay returned: the work of its refund, and other requests. */
  predicate Background(run: seq<Step>) {
    forall i :: 0 <= i < |run| ==> run[i].RefundWork? || run[i].RefundMark? || run[i].Others?
  }

  lemma {:induction false} SettleStepsSettle(w: World, n: nat)
    ensures AllSettles(SettleSteps(w, n))
  {
    if n > 0 { SettleStepsSettle(w, n - 1); }
  }

  lemma {:induction false} SettlingBeginsNoRefund(cfg: Config, st: State, run: seq<Step>)
    requires Initial(cfg, st) && IsRun(cfg, st, run) && AllSettles(run)
    ensures var mid := After(cfg, st, run);
            && mid.due == mid.marks == 0 && !mid.s.refunded && !mid.returned && !mid.tokenReturned
            && mid.s.preConsumed == st.s.preConsumed == mid.s.tokenConsumed == mid.s.fundingConsumed
            && (cfg.strict ==> mid.s.settlementStarted == (run != []))
  {
    if run != [] {
      SettlingBeginsNoRefund(cfg, st, run[..|run| - 1]);
      if cfg.strict { StrictChargesFollowLedger(cfg, st, run[..|run| - 1]); }
      assert run[|run| - 1].Settle?;
    }
  }

  /** In the background, a due refund is carried out and nothing else. */
  lemma {:induction false} BackgroundRefunds(cfg: Config, mid: State, run: seq<Step>)
    requires !cfg.strict && NormalInv(cfg, mid) && !mid.returned && !mid.tokenReturned
    requires IsRun(cfg, mid, run) && Background(run) && RefundsSucceed(run)
    ensures var end := After(cfg, mid, run);
            && NormalInv(cfg, end) && end.s == mid.s && end.paid == mid.paid && end.tokenPaid == mid.tokenPaid
            && (end.returned == end.tokenReturned == (end.due < mid.due)) && end.due <= mid.due
  {
    if run != [] {
      var before, last := After(cfg, mid, run[..|run| - 1]), run[|run| - 1];
      BackgroundRefunds(cfg, mid, run[..|run| - 1]);
      KeepNormalInv(cfg, before, last);
      assert last.RefundWork? || last.RefundMark? || last.Others?;
    }
  }

  /** For every relay with normal billing and every background run that lets its refund through: a settled
      request pays the actual quota, a failed one that never settled pays nothing, and a successful
      one that never settled keeps paying its reservation. */
  lemma RelayChargesOnce(cfg: Config, st: State, w: World, n: nat, failed: bool, rest: seq<Step>)
    requires !cfg.strict && Initial(cfg, st) && IsRun(cfg, st, RelayRun(w, n, failed) + rest)
    requires Background(rest) && RefundsSucceed(rest) && After(cfg, st, RelayRun(w, n, failed) + rest).due == 0
    ensures var end := After(cfg, st, RelayRun(w, n, failed) + rest);
            && !(end.s.settled && end.s.refunded) && (!failed ==> !end.s.refunded)
            && (if end.s.settled then end.paid == Some(end.db.funds.charged)
                else end.db.funds.charged == if failed then 0 else st.s.preConsumed)
            && (!end.s.settled && !cfg.playground ==> end.db.token.charged == end.db.funds.charged)
  {
    var calls := RelayRun(w, n, failed);
    AfterConcat(cfg, st, calls, rest);
    AfterConcat(cfg, st, SettleSteps(w, n), if failed then [Billing.Refund] else []);
    SettleStepsSettle(w, n);
    var mid := After(cfg, st, SettleSteps(w, n));
    SettlingBeginsNoRefund(cfg, st, SettleSteps(w, n));
    NormalChargesAddUp(cfg, st, SettleSteps(w, n));
    var asked := After(cfg, st, calls);
    if failed {
      assert [Billing.Refund][..0] == [];
      assert asked == Next(cfg, After(cfg, mid, []), Billing.Refund);
      KeepNormalInv(cfg, mid, Billing.Refund);
    }
    BackgroundRefunds(cfg, asked, rest);
  }

  /** This call settles an open session: it has nothing to adjust, or the funding write goes through. */
  predicate Effective(step: Step, quota: nat) {
    step.Settle? && (step.actual == quota || step.io.funding)
  }

  /** One of the first n attempts makes such a call. */
  predicate Settles(w: World, n: nat, quota: nat) {
    exists i :: 0 <= i < |SettleSteps(w, n)| && Effective(SettleSteps(w, n)[i], quota)
  }

  lemma {:induction false} SettledIffEffective(cfg: Config, st: State, run: seq<Step>)
    requires !cfg.strict && Initial(cfg, st) && IsRun(cfg, st, run) && AllSettles(run)
    ensures After(cfg, st, run).s.settled <==> exists i :: 0 <= i < |run| && Effective(run[i], st.s.preConsumed)
  {
    if run != [] {
      var init, last := run[..|run| - 1], run[|run| - 1];
      SettledIffEffective(cfg, st, init);
      SettlingBeginsNoRefund(cfg, st, init);
      NormalChargesAddUp(cfg, st, init);
      assert forall i :: 0 <= i < |init| ==> init[i] == run[i];
      assert last.Settle?;
    }
  }

  /** For every relay, and every background run that lets its refund through: the session is settled exactly when
      some attempt made an effective settlement call, and a reservation is resolved (settled, or given back)
      exactly when the relay failed or one did. Reporting success does not resolve it. */
  lemma ReservationResolvedIff(cfg: Config, st: State, w: World, n: nat, failed: bool, rest: seq<Step>)
    requires !cfg.strict && Initial(cfg, st) && st.s.preConsumed > 0 && IsRun(cfg, st, RelayRun(w, n, failed) + rest)
    requires Background(rest) && RefundsSucceed(rest) && After(cfg, st, RelayRun(w, n, failed) + rest).due == 0
    ensures var end := After(cfg, st, RelayRun(w, n, failed) + rest);
            && (end.s.settled <==> Settles(w, n, st.s.preConsumed))
            && (end.s.settled || end.db.funds.charged == 0 <==> failed || Settles(w, n, st.s.preConsumed))
  {
    RelayChargesOnce(cfg, st, w, n, failed, rest);
    var calls, steps := RelayRun(w, n, failed), SettleSteps(w, n);
    var asks := if failed then [Billing.Refund] else [];
    AfterConcat(cfg, st, calls, rest);
    AfterConcat(cfg, st, steps, asks);
    SettleStepsSettle(w, n);
    SettledIffEffective(cfg, st, steps);
    NormalChargesAddUp(cfg, st, calls);
    NotReturnedYet(cfg, st, w, n, failed);
    BackgroundRefunds(cfg, After(cfg, st, calls), rest);
    RelayRunEnds(cfg, st, w, n, failed);
    SettledThroughIsRun(cfg, st, w, n);
  }

  lemma NotReturnedYet(cfg: Config, st: State, w: World, n: nat, failed: bool)
    requires Initial(cfg, st) && IsRun(cfg, st, RelayRun(w, n, failed))
    ensures !After(cfg, st, RelayRun(w, n, failed)).returned && !After(cfg, st, RelayRun(w, n, failed)).tokenReturned
  {
    var asks := if failed then [Billing.Refund] else [];
    AfterConcat(cfg, st, SettleSteps(w, n), asks);
    SettleStepsSettle(w, n);
    SettlingBeginsNoRefund(cfg, st, SettleSteps(w, n));
    if failed { assert [Billing.Refund][..0] == []; }
  }

  /** What is charged at the end of a relay that succeeded without an effective call. */
  lemma UnsettledSuccessKeepsReservation(cfg: Config, st: State, w: World, n: nat)
    requires !cfg.strict && Initial(cfg, st) && !Settles(w, n, st.s.preConsumed)
    ensures IsRun(cfg, st, RelayRun(w, n, false))
    ensures var end := After(cfg, st, RelayRun(w, n, false));
            && !end.s.settled && !end.s.refunded
            && end.db.funds.charged == st.s.preConsumed
  {
    RelayRunEnds(cfg, st, w, n, false);
    var run := RelayRun(w, n, false);
    assert run == SettleSteps(w, n) && run + [] == run;
    SettleStepsSettle(w, n);
    SettledIffEffective(cfg, st, run);
    SettlingBeginsNoRefund(cfg, st, run);
    NormalChargesAddUp(cfg, st, run);
  }

  /** A successful first attempt that asks for no settlement, as realtime relays do. */
  lemma RealtimeKeepsReservation(cfg: Config, st: State, w: World)
    requires !cfg.strict && Initial(cfg, st) && Succeeded(w, 1) && w.attempt(0).settles == []
    ensures IsRun(cfg, st, RelayRun(w, 1, false))
    ensures var end := After(cfg, st, RelayRun(w, 1, false)); !end.s.settled && end.db.funds.charged == st.s.preConsumed
  {
    assert SettleSteps(w, 0) == [] && SettleSteps(w, 1) == [];
    UnsettledSuccessKeepsReservation(cfg, st, w, 1);
  }

  /** A successful first attempt whose settlement the database refuses: the error is only logged. */
  lemma RefusedSettlementKeepsReservation(cfg: Config, st: State, w: World, actual: int, io: SettleIo)
    requires !cfg.strict && Initial(cfg, st) && Succeeded(w, 1) && w.attempt(0).settles == [SettleCall(actual, io)]
    requires actual != st.s.preConsumed && !io.funding
    ensures IsRun(cfg, st, RelayRun(w, 1, false))
    ensures var end := After(cfg, st, RelayRun(w, 1, false)); !end.s.settled && end.db.funds.charged == st.s.preConsumed
  {
    assert SettleSteps(w, 0) == [];
    assert SettleSteps(w, 1) == Steps([SettleCall(actual, io)]);
    assert |SettleSteps(w, 1)| == 1 && SettleSteps(w, 1)[0] == Settle(actual, io);
    UnsettledSuccessKeepsReservation(cfg, st, w, 1);
  }

  /** A negative number of retries: no attempt, no error, and the reservation stays charged. */
  lemma NegativeRetriesKeepReservation(cfg: Config, st: State, w: World, r: Outcome)
    requires !cfg.strict && Initial(cfg, st) && w.routes.retryTimes < 0 && r.attempts == 0
    requires !Failed(r) <==> w.routes.retryTimes < 0 || Succeeded(w, r.attempts)
    ensures IsRun(cfg, st, RelayRun(w, r.attempts, Failed(r)))
    ensures var end := After(cfg, st, RelayRun(w, r.attempts, Failed(r)));
            !end.s.settled && end.db.funds.charged == st.s.preConsumed
  {
    assert SettleSteps(w, 0) == [];
    UnsettledSuccessKeepsReservation(cfg, st, w, 0);
  }

  // ----- strict billing

  /** This call settles an open strict reservation: one of its attempts reaches the database, and what it adds is
      covered or may be overdrawn. */
  predicate StrictEffective(cfg: Config, db: Db, step: Step, quota: nat) {
    && step.Settle? && step.actual >= 0
    && (exists j :: 0 <= j < MaxAttempts && j < |step.io.attempts| && step.io.attempts[j])
    && (step.actual <= quota || cfg.overdraft || Covered(cfg, db, step.actual - quota))
  }

  lemma {:induction false} RetriedSucceedsIff(cfg: Config, db: Db, actual: int, oks: seq<bool>, attempt: nat)
    requires attempt <= MaxAttempts && db.record.Consumed? && db.record.quota > 0
    ensures SettleRetried(cfg, db, actual, oks, attempt).1 <==>
            && actual >= 0 && (exists j :: attempt <= j < MaxAttempts && j < |oks| && oks[j])
            && (actual <= db.record.quota || cfg.overdraft || Covered(cfg, db, actual - db.record.quota))
    ensures !SettleRetried(cfg, db, actual, oks, attempt).1 ==> SettleRetried(cfg, db, actual, oks, attempt).0 == db
    decreases MaxAttempts - attempt
  {
    if attempt < MaxAttempts {
      var (db', ok) := SettleTx(cfg, db, actual, attempt < |oks| && oks[attempt]);
      if !ok { RetriedSucceedsIff(cfg, db, actual, oks, attempt + 1); }
    }
  }

  lemma StrictSettleStep(cfg: Config, st: State, mid: State, step: Step)
    requires cfg.strict && Initial(cfg, st) && step.Settle? && !mid.s.settled && mid.db == st.db
    ensures var end := Next(cfg, mid, step);
            && (end.s.settled <==> StrictEffective(cfg, st.db, step, st.s.preConsumed))
            && (end.db.record.Settled? <==> end.s.settled) && (!end.s.settled ==> end.db == st.db)
  {
    RetriedSucceedsIff(cfg, st.db, step.actual, step.io.attempts, 0);
    RetriedKeepsLedger(cfg, st.db, step.actual, step.io.attempts, 0);
  }

  /** Until a call is effective, none changes anything. */
  lemma {:induction false} StrictSettledIff(cfg: Config, st: State, run: seq<Step>)
    requires cfg.strict && Initial(cfg, st) && IsRun(cfg, st, run) && AllSettles(run)
    ensures var end := After(cfg, st, run);
            && (end.s.settled <==> exists i :: 0 <= i < |run| && StrictEffective(cfg, st.db, run[i], st.s.preConsumed))
            && (end.db.record.Settled? <==> end.s.settled) && (!end.s.settled ==> end.db == st.db)
  {
    if run != [] {
      var init, last := run[..|run| - 1], run[|run| - 1];
      StrictSettledIff(cfg, st, init);
      assert forall i :: 0 <= i < |init| ==> init[i] == run[i];
      assert last.Settle?;
      var mid := After(cfg, st, init);
      if !mid.s.settled { StrictSettleStep(cfg, st, mid, last); } else { assert Next(cfg, mid, last).db == mid.db; }
    }
  }

  predicate StrictSettles(cfg: Config, db: Db, w: World, n: nat, quota: nat) {
    exists i :: 0 <= i < |SettleSteps(w, n)| && StrictEffective(cfg, db, SettleSteps(w, n)[i], quota)
  }

  lemma {:induction false} StrictBackground(cfg: Config, mid: State, run: seq<Step>)
    requires cfg.strict && StrictInv(cfg, mid) && mid.due <= 1 && mid.marks == 0
    requires mid.due == 1 ==> mid.db.record.Consumed?
    requires IsRun(cfg, mid, run) && Background(run) && RefundsSucceed(run)
    ensures var end := After(cfg, mid, run);
            && StrictInv(cfg, end) && end.due <= mid.due
            && end.db.record == if end.due < mid.due then Refunded else mid.db.record
  {
    if run != [] {
      var before, last := After(cfg, mid, run[..|run| - 1]), run[|run| - 1];
      StrictBackground(cfg, mid, run[..|run| - 1]);
      KeepStrictInv(cfg, before, last);
      assert last.RefundWork? || last.RefundMark? || last.Others?;
    }
  }

  /** The same for strict billing: the ledger ends refunded exactly when the relay failed and asked for no settlement,
      and settled exactly when it made an effective call. Otherwise it stays charged for reconciliation. */
  lemma StrictRelayChargesOnce(cfg: Config, st: State, w: World, n: nat, failed: bool, rest: seq<Step>)
    requires cfg.strict && Initial(cfg, st) && IsRun(cfg, st, RelayRun(w, n, failed) + rest)
    requires Background(rest) && RefundsSucceed(rest) && After(cfg, st, RelayRun(w, n, failed) + rest).due == 0
    ensures var end := After(cfg, st, RelayRun(w, n, failed) + rest);
            && StrictInv(cfg, end)
            && (end.db.record == Refunded <==> failed && SettleSteps(w, n) == [])
            && (end.db.record.Settled? <==> StrictSettles(cfg, st.db, w, n, st.s.preConsumed))
            && (end.db.record.Consumed? ==> end.db.record == st.db.record)
  {
    var calls := RelayRun(w, n, failed);
    AfterConcat(cfg, st, calls, rest);
    AfterConcat(cfg, st, SettleSteps(w, n), if failed then [Billing.Refund] else []);
    SettleStepsSettle(w, n);
    var mid := After(cfg, st, SettleSteps(w, n));
    SettlingBeginsNoRefund(cfg, st, SettleSteps(w, n));
    StrictChargesFollowLedger(cfg, st, SettleSteps(w, n));
    StrictSettledIff(cfg, st, SettleSteps(w, n));
    var asked := After(cfg, st, calls);
    if failed {
      assert [Billing.Refund][..0] == [];
      assert asked == Next(cfg, After(cfg, mid, []), Billing.Refund);
      KeepStrictInv(cfg, mid, Billing.Refund);
    }
    StrictBackground(cfg, asked, rest);
  }
}
