/** Choosing a channel for one attempt: the request's own channel first, then selected ones, each of
    which may be rejected on its price. Rejected channels are recorded and cost a retry. */
module Routing {

  import opened Wrappers

  /** The outcome of selecting and pricing one channel. */
  datatype Pick = NoChannel | SetupFailed | PriceRejected(channel: int) | Priced(channel: int)

  /** What routing does not decide itself; functions give the outcome of the n-th call. */
  datatype Routes = Routes(
    retryTimes: int,
    contextChannel: int, contextPriced: nat -> bool, metaMissing: nat -> bool, pick: nat -> Pick,
    affinitySkip: bool, tokenChannel: bool)

  /** The retry counter, the used channels, and how many selections and calls were made. */
  datatype At = At(retry: int, used: seq<int>, picks: nat, calls: nat)

  const Begin := At(0, [], 0, 0)

  /** The state at the head of both loops. */
  predicate Ready(w: Routes, c: At) { 0 <= |c.used| == c.retry <= w.retryTimes }

  /** Selecting until a price is accepted, nothing can be selected or the retries are used up. */
  function Selecting(w: Routes, c: At): (Option<int>, At)
    requires c.retry <= w.retryTimes
    decreases w.retryTimes - c.retry
  {
    var next := c.(picks := c.picks + 1);
    match w.pick(c.picks)
    case NoChannel => (None, next)
    case SetupFailed => (None, next)
    case Priced(id) => (Some(id), next)
    case PriceRejected(id) =>
      var rejected := next.(used := c.used + [id]);
      if c.retry >= w.retryTimes then (None, rejected) else Selecting(w, rejected.(retry := c.retry + 1))
  }

  /** One call: the request's own channel while no other is set up, then the selection. */
  function Selected(w: Routes, c: At): (Option<int>, At)
    requires c.retry <= w.retryTimes
  {
    var next := c.(calls := c.calls + 1);
    if !w.metaMissing(c.calls) then Selecting(w, next)
    else if w.contextPriced(c.calls) then (Some(w.contextChannel), next)
    else if w.tokenChannel || w.affinitySkip || c.retry >= w.retryTimes then (None, next)
    else Selecting(w, next.(used := c.used + [w.contextChannel], retry := c.retry + 1))
  }

  /** Why a call that ended here returned no channel. */
  predicate NoRouteAt(w: Routes, c: At) {
    || (c.picks > 0 && w.pick(c.picks - 1) in {NoChannel, SetupFailed})
    || (c.picks > 0 && w.pick(c.picks - 1).PriceRejected? && |c.used| == w.retryTimes + 1)
    || (&& c.calls > 0 && w.metaMissing(c.calls - 1) && !w.contextPriced(c.calls - 1)
        && (w.tokenChannel || w.affinitySkip || |c.used| == w.retryTimes))
  }

  lemma {:induction false} SelectingIsJustified(w: Routes, c: At)
    requires Ready(w, c)
    ensures var (channel, end) := Selecting(w, c);
            && c.used <= end.used && c.retry <= end.retry <= w.retryTimes
            && end.calls == c.calls && end.picks > c.picks
            && (forall k :: c.picks <= k < end.picks - 1 ==> w.pick(k).PriceRejected?)
            && (if channel.Some? then |end.used| == end.retry && w.pick(end.picks - 1) == Priced(channel.value)
                else end.retry <= |end.used| <= end.retry + 1 && !w.pick(end.picks - 1).Priced? && NoRouteAt(w, end))
    decreases w.retryTimes - c.retry
  {
    if w.pick(c.picks).PriceRejected? && c.retry < w.retryTimes {
      SelectingIsJustified(w, At(c.retry + 1, c.used + [w.pick(c.picks).channel], c.picks + 1, c.calls));
    }
  }

  /** For every world: the number of recorded channels equals the retry counter again when a channel is returned
      and exceeds it by at most one otherwise; all selections before the last were rejected on price; the channel
      is the request's own or the last selected; and none is returned only for one of three reasons. */
  lemma SelectionIsJustified(w: Routes, c: At)
    requires Ready(w, c)
    ensures var (channel, end) := Selected(w, c);
            && c.used <= end.used && c.retry <= end.retry <= w.retryTimes
            && end.calls == c.calls + 1 && end.picks >= c.picks
            && (forall k :: c.picks <= k < end.picks - 1 ==> w.pick(k).PriceRejected?)
            && (channel.Some? ==>
                  && |end.used| == end.retry
                  && if end.picks == c.picks
                     then w.metaMissing(c.calls) && w.contextPriced(c.calls) && channel.value == w.contextChannel
                     else w.pick(end.picks - 1) == Priced(channel.value))
            && (channel.None? ==> end.retry <= |end.used| <= end.retry + 1 && NoRouteAt(w, end))
  {
    var next := c.(calls := c.calls + 1);
    if !w.metaMissing(c.calls) {
      SelectingIsJustified(w, next);
    } else if !w.contextPriced(c.calls) && !(w.tokenChannel || w.affinitySkip || c.retry >= w.retryTimes) {
      SelectingIsJustified(w, next.(used := c.used + [w.contextChannel], retry := c.retry + 1));
    }
  }

  /** The retry counter and the list of used channels, shared by both loops. */
  class RetryContext {
    var retry: int
    var used: seq<int>
    var picks: nat
    var calls: nat

    function Value(): At
      reads this
    {
      At(retry, used, picks, calls)
    }

    constructor ()
      ensures Value() == Begin
    {
      retry, used, picks, calls := 0, [], 0, 0;
    }

    method AddUsedChannel(channel: int)
      modifies this`used
      ensures used == old(used) + [channel]
    {
      used := used + [channel];
    }

    method GetChannel(w: Routes) returns (channel: Option<int>)
      requires Ready(w, Value())
      modifies this
      ensures (channel, Value()) == Selected(w, old(Value()))
    {
      var call := calls;
      calls := calls + 1;
      if w.metaMissing(call) {
        if w.contextPriced(call) { return Some(w.contextChannel); }
        if w.tokenChannel || w.affinitySkip || retry >= w.retryTimes { return None; }
        AddUsedChannel(w.contextChannel);
        retry := retry + 1;
      }
      while true
        invariant retry <= w.retryTimes && Selected(w, old(Value())) == Selecting(w, Value())
        decreases w.retryTimes - retry
      {
        var pick := w.pick(picks);
        picks := picks + 1;
        match pick
        case NoChannel => return None;
        case SetupFailed => return None;
        case Priced(id) => return Some(id);
        case PriceRejected(id) =>
          AddUsedChannel(id);
          if retry >= w.retryTimes { return None; }
          retry := retry + 1;
      }
    }
  }
}
