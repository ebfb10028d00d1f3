/** The relay of a task submission: the same retry loop around submissions that reserve at most once, and
    settlement or refund at its end. */
module TaskRelay {

  import opened Routing
  import opened Wrappers

  datatype TaskError = TaskError(status: int, local: bool, alwaysSkip: bool)

  /** One submission: it may fail before billing, reserve (unless an earlier one has), and then panic, fail or
      give a quota. */
  datatype Submission = Submission(billed: bool, reserves: bool, before: Option<TaskError>, reserveError: TaskError,
                                   panics: bool, after: Option<TaskError>, quota: int)

  /** Everything the relay does not decide itself; functions give the n-th outcome. A locked channel is that
      of the submission that this one continues. */
  datatype World = World(routes: Routes, body: nat -> bool, submission: nat -> Submission,
                         specificChannel: bool, locked: Option<int>, lockedSetup: bool)

  predicate ShouldRetry(w: World, e: TaskError, retryTimes: int) {
    if w.routes.affinitySkip then false
    else if retryTimes <= 0 then false
    else if w.specificChannel then false
    else if e.status == 429 then true
    else if e.status == 307 then true
    else if e.status / 100 == 5 then !e.alwaysSkip
    else if e.status == 400 then false
    else if e.status == 408 then false
    else if e.local then false
    else e.status / 100 != 2
  }

  // ----- submissions

  predicate Panics(s: Submission, reservedBefore: bool) {
    s.before.None? && (s.billed && !reservedBefore ==> s.reserves) && s.panics
  }

  function SubmitError(s: Submission, reservedBefore: bool): Option<TaskError> {
    if s.before.Some? then s.before
    else if s.billed && !reservedBefore && !s.reserves then Some(s.reserveError)
    else s.after
  }

  predicate ReservedAfter(s: Submission, reservedBefore: bool) {
    reservedBefore || (s.before.None? && s.billed && s.reserves)
  }

  /** Whether one of the first n submissions reserved. */
  predicate Reserved(w: World, n: nat) {
    n > 0 && ReservedAfter(w.submission(n - 1), Reserved(w, n - 1))
  }

  function ErrorOf(w: World, i: nat): Option<TaskError> {
    SubmitError(w.submission(i), Reserved(w, i))
  }

  predicate PanicsAt(w: World, i: nat) { Panics(w.submission(i), Reserved(w, i)) }

  // ----- the loop

  /** What became of the request; Unwound is a panic, Crashed the missing result dereferenced. */
  datatype Ending = Submitted(quota: int) | Reported(error: TaskError) | Unwound | Crashed

  datatype Why = Done | NoRoute | NoBody | NoSetup | Final

  /** The ending and its reason, the submissions made, and how often the billing session was asked for what. */
  datatype Outcome = Outcome(ending: Ending, why: Why, submits: nat, at: At,
                             reservations: nat, settlements: nat, refunds: nat)

  const Refused := TaskError(500, true, false)

  function Held(w: World, n: nat): nat { if Reserved(w, n) then 1 else 0 }

  /** The end of a request without a panic: settlement on success, refund on an error. */
  function Closed(w: World, ending: Ending, why: Why, n: nat, at: At): Outcome {
    Outcome(ending, why, n, at, Held(w, n), if ending.Submitted? then Held(w, n) else 0,
            if ending.Reported? then Held(w, n) else 0)
  }

  /** Nothing recovers from a panic: the deferred refund sees the error of the submission before, if any. */
  function PanicEnd(w: World, n: nat, at: At): Outcome {
    Outcome(Unwound, Done, n, at, Held(w, n), 0, if n > 1 then Held(w, n) else 0)
  }

  /** The channel of a submission: the locked one, set up again on a retry, or a selected one. */
  function TaskChannel(w: World, c: At): (Option<int>, At)
    requires c.retry <= w.routes.retryTimes
  {
    if w.locked.None? then Selected(w.routes, c)
    else if c.retry > 0 && !w.lockedSetup then (None, c)
    else (w.locked, c)
  }

  datatype Iteration = Stop(outcome: Outcome) | GoOn(at: At)

  function Iterated(w: World, c: At, n: nat): Iteration
    requires Ready(w.routes, c)
  {
    var (channel, at) := TaskChannel(w, c);
    if channel.None? then Stop(Closed(w, Reported(Refused), if w.locked.Some? then NoSetup else NoRoute, n, at))
    else
      var chosen := at.(used := at.used + [channel.value]);
      var error := ErrorOf(w, n);
      if !w.body(n) then Stop(Closed(w, Reported(Refused), NoBody, n, chosen))
      else if PanicsAt(w, n) then Stop(PanicEnd(w, n + 1, chosen))
      else if error.None? then Stop(Closed(w, Submitted(w.submission(n).quota), Done, n + 1, chosen))
      else if w.locked.Some? || !ShouldRetry(w, error.value, w.routes.retryTimes - at.retry) then
        Stop(Closed(w, Reported(error.value), Final, n + 1, chosen))
      else GoOn(chosen.(retry := at.retry + 1))
  }

  lemma IterationGoesOn(w: World, c: At, n: nat)
    requires Ready(w.routes, c) && Iterated(w, c, n).GoOn?
    ensures var c' := Iterated(w, c, n).at; c.retry < |c'.used| == c'.retry <= w.routes.retryTimes
  {
    if w.locked.None? { SelectionIsJustified(w.routes, c); }
    var (channel, at) := TaskChannel(w, c);
    assert |at.used + [channel.value]| == at.retry + 1;
  }

  /** The loop from its head, with n submissions made. It is left by its guard only if it is not entered. */
  function Looped(w: World, c: At, n: nat): Outcome
    requires |c.used| == c.retry
    decreases w.routes.retryTimes - c.retry
  {
    if c.retry > w.routes.retryTimes then Closed(w, Crashed, Done, n, c)
    else
      match Iterated(w, c, n)
      case Stop(r) => r
      case GoOn(c') =>
        IterationGoesOn(w, c, n);
        Looped(w, c', n + 1)
  }

  // ----- what holds of every run

  predicate AllRetried(w: World, n: int) {
    forall i :: 0 <= i < n ==> !PanicsAt(w, i) && ErrorOf(w, i).Some? && ShouldRetry(w, ErrorOf(w, i).value, 1)
  }

  predicate Justified(w: World, r: Outcome) {
    match r.why
    case NoRoute => r.ending == Reported(Refused) && w.locked.None? && NoRouteAt(w.routes, r.at)
    case NoSetup => r.ending == Reported(Refused) && w.locked.Some? && r.at.retry > 0 && !w.lockedSetup
    case NoBody => r.ending == Reported(Refused) && !w.body(r.submits)
    case Final =>
      && r.submits > 0 && ErrorOf(w, r.submits - 1).Some? && r.ending == Reported(ErrorOf(w, r.submits - 1).value)
      && (w.locked.Some? || !ShouldRetry(w, r.ending.error, w.routes.retryTimes - (|r.at.used| - 1)))
    case Done =>
      match r.ending
      case Submitted(quota) =>
        r.submits > 0 && ErrorOf(w, r.submits - 1).None? && quota == w.submission(r.submits - 1).quota
      case Unwound => r.submits > 0 && PanicsAt(w, r.submits - 1)
      case _ => r.ending == Crashed && w.routes.retryTimes < 0
  }

  function Limit(w: World): nat { if w.routes.retryTimes >= 0 then w.routes.retryTimes + 1 else 0 }

  predicate Sound(w: World, r: Outcome) {
    && r.submits <= |r.at.used| <= Limit(w) && (w.locked.Some? ==> r.submits <= 1)
    && AllRetried(w, r.submits - 1) && Justified(w, r)
    && r.reservations == Held(w, r.submits)
    && r.settlements == (if r.ending.Submitted? then r.reservations else 0)
    && r.refunds == if r.ending.Reported? || (r.ending == Unwound && r.submits > 1) then r.reservations else 0
  }

  predicate AtHead(w: World, c: At, n: nat) {
    && n <= |c.used| == c.retry && (w.routes.retryTimes >= 0 ==> c.retry <= w.routes.retryTimes)
    && (w.routes.retryTimes < 0 ==> c.retry == 0)
    && AllRetried(w, n) && (c.retry > 0 ==> n > 0) && (w.locked.Some? ==> n == 0)
  }

  lemma IterationIsSound(w: World, c: At, n: nat)
    requires AtHead(w, c, n) && c.retry <= w.routes.retryTimes
    ensures match Iterated(w, c, n) case Stop(r) => Sound(w, r) case GoOn(c') => AtHead(w, c', n + 1)
  {
    if w.locked.None? { SelectionIsJustified(w.routes, c); }
    var (channel, at) := TaskChannel(w, c);
    assert channel.Some? ==> |at.used + [channel.value]| == at.retry + 1;
  }

  /** For every world: at most one reservation, settled exactly on success, refunded exactly on a reported error or on
      a panic after an earlier one, never both; a locked channel submits at most once; at most one more channel
      than retries is used; and the loop stops only for a reason. */
  lemma {:induction false} LoopIsJustified(w: World, c: At, n: nat)
    requires AtHead(w, c, n)
    ensures Sound(w, Looped(w, c, n))
    decreases w.routes.retryTimes - c.retry
  {
    if c.retry <= w.routes.retryTimes {
      IterationIsSound(w, c, n);
      if Iterated(w, c, n).GoOn? {
        IterationGoesOn(w, c, n);
        LoopIsJustified(w, Iterated(w, c, n).at, n + 1);
      }
    }
  }

  // ----- the reservation that nobody closes

  predicate Stranded(r: Outcome) { r.reservations == 1 && r.settlements == 0 && r.refunds == 0 }

  /** The first submission is reached: there is a channel and a body for it. */
  predicate Reaches(w: World) {
    w.routes.retryTimes >= 0 && (w.locked.Some? || Selected(w.routes, Begin).0.Some?) && w.body(0)
  }

  lemma {:induction false} SubmitsGrow(w: World, c: At, n: nat)
    requires |c.used| == c.retry
    ensures Looped(w, c, n).submits >= n
    decreases w.routes.retryTimes - c.retry
  {
    if c.retry <= w.routes.retryTimes && Iterated(w, c, n).GoOn? {
      IterationGoesOn(w, c, n);
      SubmitsGrow(w, Iterated(w, c, n).at, n + 1);
    }
  }

  /** A reservation is neither settled nor refunded exactly when the first submission is reached, reserves and
      panics. */
  lemma StrandedIff(w: World)
    ensures Stranded(Looped(w, Begin, 0)) <==>
            Reaches(w) && ReservedAfter(w.submission(0), false) && Panics(w.submission(0), false)
  {
    var r := Looped(w, Begin, 0);
    LoopIsJustified(w, Begin, 0);
    assert !Reserved(w, 0) && (Reserved(w, 1) <==> ReservedAfter(w.submission(0), false));
    if w.routes.retryTimes >= 0 && Iterated(w, Begin, 0).GoOn? {
      IterationGoesOn(w, Begin, 0);
      SubmitsGrow(w, Iterated(w, Begin, 0).at, 1);
    }
  }

  // ----- the method

  /** After the loop: a submitted task settles its session, an error makes the deferred refund. */
  method Close(ghost w: World, ending: Ending, why: Why, n: nat, at: At, reserved: bool) returns (r: Outcome)
    requires reserved == Reserved(w, n)
    ensures r == Closed(w, ending, why, n, at)
  {
    var settlements, refunds := 0, 0;
    if reserved {
      if ending.Submitted? { settlements := settlements + 1; }
      if ending.Reported? { refunds := refunds + 1; }
    }
    r := Outcome(ending, why, n, at, if reserved then 1 else 0, settlements, refunds);
  }

  /** One iteration: find the channel, submit, and stop or go on. error is that of the submission before. */
  method SubmitOnce(w: World, ctx: RetryContext, n: nat, error: Option<TaskError>, reserved: bool)
    returns (it: Iteration, error': Option<TaskError>, reserved': bool)
    requires Ready(w.routes, ctx.Value())
    requires (error.Some? <==> n > 0) && reserved == Reserved(w, n)
    modifies ctx
    ensures it == Iterated(w, old(ctx.Value()), n) && ctx.Value() == if it.Stop? then it.outcome.at else it.at
    ensures it.GoOn? ==> error'.Some? && reserved' == Reserved(w, n + 1)
  {
    error', reserved' := error, reserved;
    var r: Outcome;
    var channel := w.locked;
    if w.locked.Some? {
      if ctx.retry > 0 && !w.lockedSetup {
        r := Close(w, Reported(Refused), NoSetup, n, ctx.Value(), reserved);
        return Stop(r), error', reserved';
      }
    } else {
      channel := ctx.GetChannel(w.routes);
      if channel.None? {
        r := Close(w, Reported(Refused), NoRoute, n, ctx.Value(), reserved);
        return Stop(r), error', reserved';
      }
    }
    ctx.AddUsedChannel(channel.value);
    if !w.body(n) {
      r := Close(w, Reported(Refused), NoBody, n, ctx.Value(), reserved);
      return Stop(r), error', reserved';
    }
    var s := w.submission(n);
    reserved' := ReservedAfter(s, reserved);
    if Panics(s, reserved) {
      var held := if reserved' then 1 else 0;
      r := Outcome(Unwound, Done, n + 1, ctx.Value(), held, 0, if error.Some? then held else 0);
      return Stop(r), error', reserved';
    }
    error' := SubmitError(s, reserved);
    if error'.None? {
      r := Close(w, Submitted(s.quota), Done, n + 1, ctx.Value(), reserved');
      return Stop(r), error', reserved';
    }
    if w.locked.Some? || !ShouldRetry(w, error'.value, w.routes.retryTimes - ctx.retry) {
      r := Close(w, Reported(error'.value), Final, n + 1, ctx.Value(), reserved');
      return Stop(r), error', reserved';
    }
    ctx.retry := ctx.retry + 1;
    return GoOn(ctx.Value()), error', reserved';
  }

  /** The whole request. */
  method RelayTask(w: World) returns (r: Outcome)
    ensures r == Looped(w, Begin, 0) && Sound(w, r)
    ensures Stranded(r) <==> Reaches(w) && ReservedAfter(w.submission(0), false) && Panics(w.submission(0), false)
  {
    StrandedIff(w);
    LoopIsJustified(w, Begin, 0);
    var ctx := new RetryContext();
    var error: Option<TaskError> := None;
    var n, reserved := 0, false;
    while ctx.retry <= w.routes.retryTimes
      invariant fresh(ctx) && 0 <= |ctx.used| == ctx.retry
      invariant Looped(w, Begin, 0) == Looped(w, ctx.Value(), n)
      invariant (error.Some? <==> n > 0) && reserved == Reserved(w, n)
      decreases w.routes.retryTimes - ctx.retry
    {
      ghost var c := ctx.Value();
      var it;
      it, error, reserved := SubmitOnce(w, ctx, n, error, reserved);
      if it.Stop? { return it.outcome; }
      IterationGoesOn(w, c, n);
      n := n + 1;
    }
    r := Close(w, Crashed, Done, n, ctx.Value(), reserved);
  }

  /** No retries, the request's own channel priced, the body there, and a first submission that reserves and then
      panics: the reservation is stranded. */
  method StrandedAtInput() returns (r: Outcome)
    ensures r.ending == Unwound && r.submits == 1 && r.reservations == 1 && r.settlements == 0 && r.refunds == 0
  {
    var routes := Routes(0, 1, _ => true, _ => true, _ => NoChannel, false, false);
    var s := Submission(true, true, None, Refused, true, None, 0);
    var w := World(routes, _ => true, _ => s, false, None, false);
    r := RelayTask(w);
  }
}
