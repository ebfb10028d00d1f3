/** The billing session of one request: reserve, then settle or refund. Settlement and the
    steps of a refund may come from several goroutines, and other requests move the same
    balances meanwhile. Database failures are inputs of each step. */
module Billing {

  import opened Wrappers

  /** A balance, and how much of it this request has taken, net. */
  datatype Account = Account(balance: int, charged: int)

  function Debit(account: Account, amount: int): Account {
    Account(account.balance - amount, account.charged + amount)
  }

  /** The ledger row of the request, kept in strict billing only. */
  datatype Record = Missing | Consumed(quota: nat) | Settled(actual: nat) | Refunded

  datatype Db = Db(funds: Account, token: Account, record: Record)

  /** unlimitedFunds is a subscription without a total. */
  datatype Config = Config(strict: bool, subscription: bool, playground: bool, overdraft: bool,
                           unlimitedFunds: bool, unlimitedToken: bool)

  datatype Session = Session(preConsumed: nat, tokenConsumed: nat, fundingConsumed: nat, fundingSettled: bool,
                             settled: bool, settlementStarted: bool, refunded: bool)

  const Fresh := Session(0, 0, 0, false, false, false, false)

  // ----- the ledger transactions of strict billing

  function Move(cfg: Config, db: Db, amount: int, record: Record): Db {
    Db(Debit(db.funds, amount), if cfg.playground then db.token else Debit(db.token, amount), record)
  }

  predicate Covered(cfg: Config, db: Db, amount: int) {
    && (cfg.unlimitedFunds || db.funds.balance >= amount)
    && (cfg.playground || cfg.unlimitedToken || db.token.balance >= amount)
  }

  function ReserveTx(cfg: Config, db: Db, quota: int, ok: bool): (Db, bool) {
    if !ok || quota <= 0 then (db, false)
    else if db.record != Missing then (db, db.record == Consumed(quota))
    else if !Covered(cfg, db, quota) then (db, false)
    else (Move(cfg, db, quota, Consumed(quota)), true)
  }

  function SettleTx(cfg: Config, db: Db, actual: int, ok: bool): (Db, bool) {
    if !ok || actual < 0 then (db, false)
    else match db.record
      case Settled(a) => (db, a == actual)
      case Consumed(quota) =>
        var delta := actual - quota;
        if quota == 0 || (delta > 0 && !cfg.overdraft && !Covered(cfg, db, delta)) then (db, false)
        else (Move(cfg, db, delta, Settled(actual)), true)
      case _ => (db, false)
  }

  function RefundTx(cfg: Config, db: Db, ok: bool): (Db, bool) {
    if !ok then (db, false)
    else match db.record
      case Refunded => (db, true)
      case Consumed(quota) => if quota == 0 then (db, false) else (Move(cfg, db, 0 - quota, Refunded), true)
      case _ => (db, false)
  }

  const MaxAttempts := 3

  /** Up to three attempts at settling; oks says which reach the database. */
  function SettleRetried(cfg: Config, db: Db, actual: int, oks: seq<bool>, attempt: nat): (Db, bool)
    requires attempt <= MaxAttempts
    decreases MaxAttempts - attempt
  {
    if attempt == MaxAttempts then (db, false)
    else
      var (db', ok) := SettleTx(cfg, db, actual, attempt < |oks| && oks[attempt]);
      if ok then (db', true) else SettleRetried(cfg, db', actual, oks, attempt + 1)
  }

  // ----- what the session does

  predicate NeedsRefund(cfg: Config, s: Session) {
    && !s.settled && !s.refunded && !s.fundingSettled && !s.settlementStarted
    && (s.tokenConsumed > 0 || (cfg.subscription && s.fundingConsumed > 0))
  }

  /** Which database calls of a settlement succeed. */
  datatype SettleIo = SettleIo(attempts: seq<bool>, funding: bool, token: bool)

  class BillingSession {
    const cfg: Config
    var preConsumedQuota: nat
    var tokenConsumed: nat
    var fundingConsumed: nat
    var fundingSettled: bool
    var settled: bool
    var settlementStarted: bool
    var refunded: bool
    var db: Db

    function Value(): Session
      reads this
    {
      Session(preConsumedQuota, tokenConsumed, fundingConsumed, fundingSettled, settled, settlementStarted, refunded)
    }

    constructor (cfg: Config, db: Db)
      ensures this.cfg == cfg && Value() == Fresh && this.db == db
    {
      this.cfg, this.db := cfg, db;
      preConsumedQuota, tokenConsumed, fundingConsumed := 0, 0, 0;
      fundingSettled, settled, settlementStarted, refunded := false, false, false, false;
    }

    /** Reserve a quota, or nothing for a trusted wallet. A failure charges nothing, unless giving
        the token back fails too. */
    method PreConsume(quota: nat, trusted: bool, io: ReserveIo) returns (ok: bool)
      requires Value() == Fresh && db.record == Missing
      requires db.funds.charged == 0 && db.token.charged == 0
      requires trusted ==> !cfg.subscription
      requires cfg.subscription ==> quota > 0
      modifies this
      ensures ok ==> ReservedState(cfg, Value(), db)
      ensures ok ==> preConsumedQuota == if trusted && !cfg.strict then 0 else quota
      ensures !ok ==> db.funds.charged == 0
      ensures !ok ==> (db.token.charged == 0 <==>
                       !(&& !cfg.strict && !cfg.playground && !trusted && quota > 0
                         && io.token && !io.funding && !io.rollback))
    {
      if cfg.strict {
        var (db', done) := ReserveTx(cfg, db, quota, io.funding);
        db := db';
        if !done { return false; }
        preConsumedQuota, tokenConsumed, fundingConsumed := quota, quota, quota;
        return true;
      }
      var effective := if trusted then 0 else quota;
      if effective > 0 {
        if !cfg.playground {
          if !io.token { return false; }
          db := db.(token := Debit(db.token, effective));
        }
        tokenConsumed := effective;
      }
      if effective > 0 && !io.funding {
        if tokenConsumed > 0 && !cfg.playground {
          if io.rollback { db := db.(token := Debit(db.token, 0 - tokenConsumed)); }
          tokenConsumed := 0;
        }
        return false;
      }
      db := db.(funds := Debit(db.funds, effective));
      fundingConsumed, preConsumedQuota := effective, effective;
      return true;
    }

    method Settle(actual: int, io: SettleIo) returns (ok: bool)
      modifies this
      ensures (Value(), db, ok) == Settlement(cfg, old(Value()), old(db), actual, io)
    {
      if settled { return true; }
      var delta := actual - preConsumedQuota;
      if cfg.strict {
        settlementStarted := true;
        var done := SettleStrictBillingWithRetry(actual, io.attempts);
        if !done { return false; }
        fundingSettled, settled := true, true;
        return true;
      }
      if delta == 0 {
        settled := true;
        return true;
      }
      if !fundingSettled {
        if !io.funding { return false; }
        db := db.(funds := Debit(db.funds, delta));
        fundingSettled := true;
      }
      ok := true;
      if !cfg.playground {
        if io.token { db := db.(token := Debit(db.token, delta)); } else { ok := false; }
      }
      settled := true;
    }

    method SettleStrictBillingWithRetry(actual: int, oks: seq<bool>) returns (ok: bool)
      modifies this`db
      ensures (db, ok) == SettleRetried(cfg, old(db), actual, oks, 0)
    {
      var attempt := 0;
      while attempt < MaxAttempts
        invariant 0 <= attempt <= MaxAttempts
        invariant SettleRetried(cfg, old(db), actual, oks, 0) == SettleRetried(cfg, db, actual, oks, attempt)
      {
        var (db', done) := SettleTx(cfg, db, actual, attempt < |oks| && oks[attempt]);
        db := db';
        if done { return true; }
        attempt := attempt + 1;
      }
      return false;
    }

    /** The part of a refund under the session's lock: whether there is refund work to do. */
    method Refund() returns (due: bool)
      modifies this`refunded
      ensures due == NeedsRefund(cfg, old(Value()))
      ensures Value() == if due && !cfg.strict then old(Value()).(refunded := true) else old(Value())
    {
      due := false;
      if settled || refunded || !NeedsRefund(cfg, Value()) { return; }
      if !cfg.strict { refunded := true; }
      due := true;
    }

    /** The database part of a due refund. */
    method RefundWork(fundingOk: bool, tokenOk: bool) returns (ok: bool)
      modifies this`db
      ensures (db, ok) == RefundDone(cfg, Value(), old(db), fundingOk, tokenOk)
    {
      if cfg.strict {
        var (db', done) := RefundTx(cfg, db, fundingOk);
        db := db';
        return done;
      }
      if fundingOk { db := db.(funds := Debit(db.funds, 0 - fundingConsumed)); }
      if tokenConsumed > 0 && !cfg.playground {
        if tokenOk { db := db.(token := Debit(db.token, 0 - tokenConsumed)); }
      }
      return false;
    }
  }

  datatype ReserveIo = ReserveIo(token: bool, funding: bool, rollback: bool)

  /** A reservation that is neither settled nor refunded. */
  predicate ReservedState(cfg: Config, s: Session, db: Db) {
    && s == Session(s.preConsumed, s.preConsumed, s.preConsumed, false, false, false, false)
    && db.funds.charged == s.preConsumed
    && db.token.charged == (if cfg.playground then 0 else s.preConsumed)
    && (cfg.strict ==> s.preConsumed > 0 && db.record == Consumed(s.preConsumed))
  }

  function Settlement(cfg: Config, s: Session, db: Db, actual: int, io: SettleIo): (Session, Db, bool) {
    if s.settled then (s, db, true)
    else if cfg.strict then
      var (db', ok) := SettleRetried(cfg, db, actual, io.attempts, 0);
      (s.(settlementStarted := true, fundingSettled := ok || s.fundingSettled, settled := ok), db', ok)
    else
      var delta := actual - s.preConsumed;
      if delta == 0 then (s.(settled := true), db, true)
      else if !s.fundingSettled && !io.funding then (s, db, false)
      else
        var funds := if s.fundingSettled then db.funds else Debit(db.funds, delta);
        var token := if !cfg.playground && io.token then Debit(db.token, delta) else db.token;
        (s.(fundingSettled := true, settled := true), Db(funds, token, db.record), cfg.playground || io.token)
  }

  function RefundDone(cfg: Config, s: Session, db: Db, fundingOk: bool, tokenOk: bool): (Db, bool) {
    if cfg.strict then RefundTx(cfg, db, fundingOk)
    else
      (Db(if fundingOk then Debit(db.funds, 0 - s.fundingConsumed) else db.funds,
          if tokenOk && s.tokenConsumed > 0 && !cfg.playground then Debit(db.token, 0 - s.tokenConsumed) else db.token,
          db.record), false)
  }

  // ----- runs

  /** A session, its database rows, the refunds whose work is due, those whose mark is due,
      and what has been paid and given back. */
  datatype State = State(s: Session, db: Db, due: nat, marks: nat,
                         paid: Option<int>, tokenPaid: bool, returned: bool, tokenReturned: bool)

  datatype Step = Settle(actual: int, io: SettleIo) | Refund | RefundWork(fundingOk: bool, tokenOk: bool) | RefundMark
                | Others(funds: int, token: int)

  predicate Enabled(st: State, step: Step) {
    match step
    case RefundWork(_, _) => st.due > 0
    case RefundMark => st.marks > 0
    case _ => true
  }

  function Next(cfg: Config, st: State, step: Step): State
    requires Enabled(st, step)
  {
    match step
    case Settle(actual, io) =>
      var (s, db, ok) := Settlement(cfg, st.s, st.db, actual, io);
      var now := s.settled && !st.s.settled;
      st.(s := s, db := db,
          paid := if now then Some(actual) else st.paid,
          tokenPaid := if now then ok else st.tokenPaid)
    case Refund =>
      if !NeedsRefund(cfg, st.s) then st
      else st.(s := if cfg.strict then st.s else st.s.(refunded := true), due := st.due + 1)
    case RefundWork(fundingOk, tokenOk) =>
      var (db, ok) := RefundDone(cfg, st.s, st.db, fundingOk, tokenOk);
      st.(db := db, due := st.due - 1, marks := if ok then st.marks + 1 else st.marks,
          returned := st.returned || fundingOk, tokenReturned := st.tokenReturned || tokenOk)
    case RefundMark => st.(s := st.s.(refunded := true), marks := st.marks - 1)
    case Others(funds, token) =>
      st.(db := st.db.(funds := st.db.funds.(balance := funds), token := st.db.token.(balance := token)))
  }

  predicate IsRun(cfg: Config, st: State, run: seq<Step>)
    decreases |run|, 0
  {
    run == [] || (IsRun(cfg, st, run[..|run| - 1]) && Enabled(After(cfg, st, run[..|run| - 1]), run[|run| - 1]))
  }

  function After(cfg: Config, st: State, run: seq<Step>): State
    requires IsRun(cfg, st, run)
    decreases |run|, 1
  {
    if run == [] then st else Next(cfg, After(cfg, st, run[..|run| - 1]), run[|run| - 1])
  }

  predicate Initial(cfg: Config, st: State) {
    ReservedState(cfg, st.s, st.db) && st.due == st.marks == 0 && st.paid == None
    && !st.tokenPaid && !st.returned && !st.tokenReturned
  }

  /** The database lets every refund through. */
  predicate RefundsSucceed(run: seq<Step>) {
    forall i :: 0 <= i < |run| ==> run[i].RefundWork? ==> run[i].fundingOk && run[i].tokenOk
  }

  // ----- strict billing: the ledger decides

  function Owed(record: Record): nat {
    match record
    case Missing => 0
    case Consumed(quota) => quota
    case Settled(actual) => actual
    case Refunded => 0
  }

  /** Both accounts are charged what the ledger says, and the flags follow the ledger. */
  predicate StrictInv(cfg: Config, st: State) {
    && st.db.record != Missing && (st.db.record.Consumed? ==> st.db.record.quota == st.s.preConsumed > 0)
    && st.db.funds.charged == Owed(st.db.record)
    && st.db.token.charged == (if cfg.playground then 0 else Owed(st.db.record))
    && (st.s.settled ==> st.db.record.Settled? && st.s.settlementStarted)
    && (st.s.fundingSettled ==> st.s.settled)
    && (st.s.refunded || st.marks > 0 ==> st.db.record == Refunded)
  }

  lemma {:induction false} RetriedKeepsLedger(cfg: Config, db: Db, actual: int, oks: seq<bool>, attempt: nat)
    requires attempt <= MaxAttempts && (db.record.Consumed? ==> db.record.quota > 0)
    requires db.funds.charged == Owed(db.record)
    requires db.token.charged == (if cfg.playground then 0 else Owed(db.record))
    ensures var (db', ok) := SettleRetried(cfg, db, actual, oks, attempt);
            && db'.funds.charged == Owed(db'.record)
            && db'.token.charged == (if cfg.playground then 0 else Owed(db'.record))
            && (if ok then actual >= 0 && db'.record == Settled(actual) else db' == db)
            && (!db.record.Consumed? ==> db' == db)
    decreases MaxAttempts - attempt
  {
    if attempt < MaxAttempts {
      var (db', ok) := SettleTx(cfg, db, actual, attempt < |oks| && oks[attempt]);
      if !ok { RetriedKeepsLedger(cfg, db', actual, oks, attempt + 1); }
    }
  }

  lemma KeepStrictInv(cfg: Config, st: State, step: Step)
    requires cfg.strict && StrictInv(cfg, st) && Enabled(st, step)
    ensures StrictInv(cfg, Next(cfg, st, step))
    ensures !st.db.record.Consumed? ==> Next(cfg, st, step).db.record == st.db.record
  {
    match step
    case Settle(actual, io) => RetriedKeepsLedger(cfg, st.db, actual, io.attempts, 0);
    case _ =>
  }

  /** In every run of strict billing, whatever fails and however settlements and refunds overlap,
      both accounts are charged exactly what the ledger row says (the reservation, the actual quota
      or nothing), and the session is never both settled and refunded. */
  lemma {:induction false} StrictChargesFollowLedger(cfg: Config, st: State, run: seq<Step>)
    requires cfg.strict && Initial(cfg, st) && IsRun(cfg, st, run)
    ensures StrictInv(cfg, After(cfg, st, run))
    ensures !(After(cfg, st, run).s.settled && After(cfg, st, run).s.refunded)
  {
    if run != [] {
      StrictChargesFollowLedger(cfg, st, run[..|run| - 1]);
      KeepStrictInv(cfg, After(cfg, st, run[..|run| - 1]), run[|run| - 1]);
    }
  }

  /** Once the ledger row is settled or refunded, no later step of any run changes it, nor what is charged. */
  lemma {:induction false} StrictOutcomeIsFinal(cfg: Config, st: State, run: seq<Step>)
    requires cfg.strict && StrictInv(cfg, st) && !st.db.record.Consumed? && IsRun(cfg, st, run)
    ensures var end := After(cfg, st, run);
            && StrictInv(cfg, end) && end.db.record == st.db.record
            && end.db.funds.charged == st.db.funds.charged && end.db.token.charged == st.db.token.charged
  {
    if run != [] {
      StrictOutcomeIsFinal(cfg, st, run[..|run| - 1]);
      KeepStrictInv(cfg, After(cfg, st, run[..|run| - 1]), run[|run| - 1]);
    }
  }

  /** After a strict settlement started and failed no new refund begins. Until someone settles again, only a refund
      that was already due can release the reservation. */
  lemma {:induction false} FailedSettlementStaysCharged(cfg: Config, st: State, run: seq<Step>)
    requires cfg.strict && StrictInv(cfg, st) && st.db.record.Consumed? && st.s.settlementStarted
    requires IsRun(cfg, st, run) && forall i :: 0 <= i < |run| ==> !run[i].Settle?
    ensures var end := After(cfg, st, run);
            && StrictInv(cfg, end) && end.due <= st.due
            && end.s.settlementStarted && end.s.preConsumed == st.s.preConsumed
            && end.db.record in {st.db.record, Refunded}
            && (end.due == st.due ==> end.db.record == st.db.record && end.db.funds.charged == st.s.preConsumed)
  {
    if run != [] {
      FailedSettlementStaysCharged(cfg, st, run[..|run| - 1]);
      KeepStrictInv(cfg, After(cfg, st, run[..|run| - 1]), run[|run| - 1]);
      assert !run[|run| - 1].Settle?;
    }
  }

  /** If that work goes through: once it is done, the reservation is still charged exactly if none was due. */
  lemma {:induction false} FailedSettlementStaysChargedIff(cfg: Config, st: State, run: seq<Step>)
    requires cfg.strict && StrictInv(cfg, st) && st.db.record.Consumed? && st.s.settlementStarted
    requires IsRun(cfg, st, run) && RefundsSucceed(run) && forall i :: 0 <= i < |run| ==> !run[i].Settle?
    ensures var end := After(cfg, st, run);
            && StrictInv(cfg, end) && end.due <= st.due && end.s.settlementStarted && !end.s.settled
            && end.db.record == (if end.due < st.due then Refunded else st.db.record)
            && (end.due == 0 ==> (end.db.record.Consumed? <==> st.due == 0))
  {
    if run != [] {
      FailedSettlementStaysChargedIff(cfg, st, run[..|run| - 1]);
      KeepStrictInv(cfg, After(cfg, st, run[..|run| - 1]), run[|run| - 1]);
      assert !run[|run| - 1].Settle?;
    }
  }

  lemma RunSnoc(cfg: Config, st: State, run: seq<Step>, step: Step)
    requires IsRun(cfg, st, run) && Enabled(After(cfg, st, run), step)
    ensures IsRun(cfg, st, run + [step]) && After(cfg, st, run + [step]) == Next(cfg, After(cfg, st, run), step)
  {
    assert (run + [step])[..|run|] == run;
  }

  lemma RunOfOne(cfg: Config, st: State, a: Step, s1: State)
    requires Enabled(st, a) && s1 == Next(cfg, st, a)
    ensures IsRun(cfg, st, [a]) && After(cfg, st, [a]) == s1
  {
    var none: seq<Step> := [];
    RunSnoc(cfg, st, none, a);
    assert none + [a] == [a];
  }

  lemma RunOfTwo(cfg: Config, st: State, a: Step, b: Step, s1: State, s2: State)
    requires Enabled(st, a) && s1 == Next(cfg, st, a) && Enabled(s1, b) && s2 == Next(cfg, s1, b)
    ensures IsRun(cfg, st, [a, b]) && After(cfg, st, [a, b]) == s2
  {
    RunOfOne(cfg, st, a, s1);
    RunSnoc(cfg, st, [a], b);
    assert [a] + [b] == [a, b];
  }

  lemma RunOfThree(cfg: Config, st: State, a: Step, b: Step, c: Step, s1: State, s2: State)
    requires Enabled(st, a) && s1 == Next(cfg, st, a) && Enabled(s1, b) && s2 == Next(cfg, s1, b) && Enabled(s2, c)
    ensures IsRun(cfg, st, [a, b, c]) && After(cfg, st, [a, b, c]) == Next(cfg, s2, c)
  {
    RunOfTwo(cfg, st, a, b, s1, s2);
    RunSnoc(cfg, st, [a, b], c);
    assert [a, b] + [c] == [a, b, c];
  }

  /** A refund asked for before a failing settlement, and carried out after it: the settlement started, and the
      reservation is released all the same. */
  lemma DueRefundReleasesFailedSettlement(cfg: Config, st: State)
    requires cfg.strict && Initial(cfg, st)
    ensures var run := [Refund, Settle(10, SettleIo([], false, false)), RefundWork(true, true)];
            && IsRun(cfg, st, run)
            && var end := After(cfg, st, run);
               end.s.settlementStarted && end.db.record == Refunded && end.db.funds.charged == 0
  {
    var s1 := Next(cfg, st, Refund);
    var s2 := Next(cfg, s1, Settle(10, SettleIo([], false, false)));
    RunOfThree(cfg, st, Refund, Settle(10, SettleIo([], false, false)), RefundWork(true, true), s1, s2);
    NoAttemptSettles(cfg, st.db, 10, 0);
  }

  lemma {:induction false} NoAttemptSettles(cfg: Config, db: Db, actual: int, attempt: nat)
    requires attempt <= MaxAttempts
    ensures SettleRetried(cfg, db, actual, [], attempt) == (db, false)
    decreases MaxAttempts - attempt
  {
    if attempt < MaxAttempts { NoAttemptSettles(cfg, db, actual, attempt + 1); }
  }

  /** Without overdraft, a strict step of this request never takes more than a balance holds. */
  lemma {:induction false} RetriedStaysCovered(cfg: Config, db: Db, actual: int, oks: seq<bool>, attempt: nat)
    requires attempt <= MaxAttempts && !cfg.overdraft
    ensures var db' := SettleRetried(cfg, db, actual, oks, attempt).0;
            && (cfg.unlimitedFunds || db'.funds.balance >= db.funds.balance || db'.funds.balance >= 0)
            && (cfg.unlimitedToken || db'.token.balance >= db.token.balance || db'.token.balance >= 0)
    decreases MaxAttempts - attempt
  {
    if attempt < MaxAttempts {
      var (db', ok) := SettleTx(cfg, db, actual, attempt < |oks| && oks[attempt]);
      if !ok { RetriedStaysCovered(cfg, db', actual, oks, attempt + 1); }
    }
  }

  lemma StrictStepIsCovered(cfg: Config, st: State, step: Step)
    requires cfg.strict && !cfg.overdraft && Enabled(st, step) && !step.Others?
    ensures var st' := Next(cfg, st, step);
            && (cfg.unlimitedFunds || st'.db.funds.balance >= st.db.funds.balance || st'.db.funds.balance >= 0)
            && (cfg.unlimitedToken || st'.db.token.balance >= st.db.token.balance || st'.db.token.balance >= 0)
  {
    match step
    case Settle(actual, io) => RetriedStaysCovered(cfg, st.db, actual, io.attempts, 0);
    case _ =>
  }

  predicate Solvent(cfg: Config, db: Db) {
    (cfg.unlimitedFunds || db.funds.balance >= 0) && (cfg.unlimitedToken || db.token.balance >= 0)
  }

  /** Without overdraft, no run of strict billing overdraws a limited balance that other requests do not. */
  lemma {:induction false} StrictNeverOverdraws(cfg: Config, st: State, run: seq<Step>)
    requires cfg.strict && !cfg.overdraft && Solvent(cfg, st.db) && IsRun(cfg, st, run)
    requires forall i :: 0 <= i < |run| && run[i].Others? ==> run[i].funds >= 0 && run[i].token >= 0
    ensures Solvent(cfg, After(cfg, st, run).db)
  {
    if run != [] {
      StrictNeverOverdraws(cfg, st, run[..|run| - 1]);
      if !run[|run| - 1].Others? { StrictStepIsCovered(cfg, After(cfg, st, run[..|run| - 1]), run[|run| - 1]); }
    }
  }

  // ----- normal billing: the session's flags decide

  /** What the request should have been charged: the reservation until it is paid, the actual quota then. */
  function Due(paid: Option<int>, quota: nat): int {
    if paid.Some? then paid.value else quota
  }

  predicate NormalInv(cfg: Config, st: State) {
    var quota := st.s.preConsumed;
    && st.s.tokenConsumed == st.s.fundingConsumed == quota
    && !st.s.settlementStarted && st.marks == 0
    && (st.s.fundingSettled ==> st.s.settled) && (st.s.settled <==> st.paid.Some?)
    && st.db.funds.charged == Due(st.paid, quota) - (if st.returned then quota else 0)
    && st.db.token.charged == (if cfg.playground then 0
         else Due(if st.tokenPaid then st.paid else None, quota) - (if st.tokenReturned then quota else 0))
    && (st.due > 0 ==> st.due == 1 && !st.returned && !st.tokenReturned)
    && (st.due > 0 || st.returned || st.tokenReturned ==> st.s.refunded)
  }

  lemma KeepNormalInv(cfg: Config, st: State, step: Step)
    requires !cfg.strict && NormalInv(cfg, st) && Enabled(st, step)
    ensures NormalInv(cfg, Next(cfg, st, step))
    ensures st.s.settled && !st.s.refunded ==> !Next(cfg, st, step).s.refunded
    ensures st.s.settled ==> Next(cfg, st, step).s.settled && Next(cfg, st, step).paid == st.paid
  {
  }

  /** In every run of normal billing: what is charged is the reservation or the actual quota, less the
      reservation if it was given back, at most once. */
  lemma {:induction false} NormalChargesAddUp(cfg: Config, st: State, run: seq<Step>)
    requires !cfg.strict && Initial(cfg, st) && IsRun(cfg, st, run)
    ensures NormalInv(cfg, After(cfg, st, run))
  {
    if run != [] {
      NormalChargesAddUp(cfg, st, run[..|run| - 1]);
      KeepNormalInv(cfg, After(cfg, st, run[..|run| - 1]), run[|run| - 1]);
    }
  }

  /** No settlement is asked for once a refund has been. */
  predicate SettlesFirst(run: seq<Step>) {
    forall i, j :: 0 <= i < j < |run| && run[i] == Refund ==> !run[j].Settle?
  }

  /** If settlements come first, a session is never both settled and refunded: a settled one keeps the
      actual quota, and a refunded one gives everything back that the database lets it. */
  lemma {:induction false} SettledXorRefunded(cfg: Config, st: State, run: seq<Step>)
    requires !cfg.strict && Initial(cfg, st) && IsRun(cfg, st, run) && SettlesFirst(run)
    ensures var end := After(cfg, st, run);
            && !(end.s.settled && end.s.refunded)
            && (end.s.settled ==> end.paid == Some(end.db.funds.charged))
            && (end.s.refunded && end.returned ==> end.db.funds.charged == 0)
            && (end.s.refunded ==> exists i :: 0 <= i < |run| && run[i] == Refund)
  {
    NormalChargesAddUp(cfg, st, run);
    if run != [] {
      var prefix, last := run[..|run| - 1], run[|run| - 1];
      assert SettlesFirst(prefix);
      SettledXorRefunded(cfg, st, prefix);
      NormalChargesAddUp(cfg, st, prefix);
      var before := After(cfg, st, prefix);
      KeepNormalInv(cfg, before, last);
      if before.s.refunded {
        var i :| 0 <= i < |prefix| && prefix[i] == Refund;
        assert run[i] == Refund;
        assert !run[|run| - 1].Settle?;
      } else if last == Refund {
        assert run[|run| - 1] == Refund;
      }
    }
  }

  /** Once settled, later steps only carry out a refund that was due. */
  lemma {:induction false} SettledRun(cfg: Config, mid: State, run: seq<Step>)
    requires !cfg.strict && NormalInv(cfg, mid) && mid.s.settled && IsRun(cfg, mid, run) && RefundsSucceed(run)
    ensures var end := After(cfg, mid, run);
            && NormalInv(cfg, end) && end.s.settled && end.paid == mid.paid && end.s.preConsumed == mid.s.preConsumed
            && end.due <= mid.due && end.returned == (mid.returned || end.due < mid.due)
  {
    if run != [] {
      SettledRun(cfg, mid, run[..|run| - 1]);
      KeepNormalInv(cfg, After(cfg, mid, run[..|run| - 1]), run[|run| - 1]);
    }
  }

  /** A normal settlement does not look at the refund flag. Once all refund work is done, whatever else happened
      after it, it has charged the actual quota exactly when the reservation neither was given back before it
      nor was about to be, or was nothing. */
  lemma SettlementIsExactIff(cfg: Config, st: State, actual: int, io: SettleIo, rest: seq<Step>)
    requires !cfg.strict && NormalInv(cfg, st) && !st.s.settled && Next(cfg, st, Settle(actual, io)).s.settled
    requires IsRun(cfg, Next(cfg, st, Settle(actual, io)), rest) && RefundsSucceed(rest)
    requires After(cfg, Next(cfg, st, Settle(actual, io)), rest).due == 0
    ensures After(cfg, Next(cfg, st, Settle(actual, io)), rest).db.funds.charged == actual <==>
            (!st.returned && st.due == 0) || st.s.preConsumed == 0
  {
    KeepNormalInv(cfg, st, Settle(actual, io));
    SettledRun(cfg, Next(cfg, st, Settle(actual, io)), rest);
  }

  /** As long as no refund fails, the flag says whether one was given back or is about to be. */
  lemma {:induction false} RefundFlagTells(cfg: Config, st: State, run: seq<Step>)
    requires !cfg.strict && Initial(cfg, st) && IsRun(cfg, st, run) && RefundsSucceed(run)
    ensures var end := After(cfg, st, run);
            && NormalInv(cfg, end) && end.s.preConsumed == st.s.preConsumed
            && (end.s.refunded <==> end.returned || end.due > 0)
  {
    NormalChargesAddUp(cfg, st, run);
    if run != [] { RefundFlagTells(cfg, st, run[..|run| - 1]); }
  }

  /** So testing the refund flag would be enough: over every run in which no refund fails, a settlement charges
      the actual quota in the end exactly when the flag was not set, or nothing was reserved. */
  lemma FlagWouldBeEnough(cfg: Config, st: State, run: seq<Step>, actual: int, io: SettleIo, rest: seq<Step>)
    requires !cfg.strict && Initial(cfg, st) && IsRun(cfg, st, run) && RefundsSucceed(run)
    requires var before := After(cfg, st, run);
             var mid := Next(cfg, before, Settle(actual, io));
             && !before.s.settled && mid.s.settled
             && IsRun(cfg, mid, rest) && RefundsSucceed(rest) && After(cfg, mid, rest).due == 0
    ensures var before := After(cfg, st, run);
            After(cfg, Next(cfg, before, Settle(actual, io)), rest).db.funds.charged == actual <==>
            !before.s.refunded || st.s.preConsumed == 0
  {
    RefundFlagTells(cfg, st, run);
    SettlementIsExactIff(cfg, After(cfg, st, run), actual, io, rest);
  }

  /** A refund given back and a settlement after it: the request that cost 10 is charged 3. */
  lemma LateSettlementUndercharges(cfg: Config, st: State, io: SettleIo)
    requires !cfg.strict && Initial(cfg, st) && st.s.preConsumed == 7 && io.funding
    ensures var run := [Refund, RefundWork(true, true), Settle(10, io)];
            && IsRun(cfg, st, run) && After(cfg, st, run).s.settled && After(cfg, st, run).s.refunded
            && After(cfg, st, run).db.funds.charged == 3
  {
    var s1 := Next(cfg, st, Refund);
    var s2 := Next(cfg, s1, RefundWork(true, true));
    RunOfThree(cfg, st, Refund, RefundWork(true, true), Settle(10, io), s1, s2);
  }

  /** The same if the refund was only asked for, and is carried out after the settlement. */
  lemma PendingRefundUndercharges(cfg: Config, st: State, io: SettleIo)
    requires !cfg.strict && Initial(cfg, st) && st.s.preConsumed == 7 && io.funding
    ensures var run := [Refund, Settle(10, io), RefundWork(true, true)];
            && IsRun(cfg, st, run) && After(cfg, st, run).s.settled && After(cfg, st, run).s.refunded
            && After(cfg, st, run).db.funds.charged == 3
  {
    var s1 := Next(cfg, st, Refund);
    var s2 := Next(cfg, s1, Settle(10, io));
    RunOfThree(cfg, st, Refund, Settle(10, io), RefundWork(true, true), s1, s2);
  }

  /** A settlement whose token write fails is marked settled all the same: with no refund about, the funding is
      charged the actual quota, and the token exactly when there was nothing to adjust or the write went
      through. */
  lemma TokenIsChargedIff(cfg: Config, st: State, actual: int, io: SettleIo)
    requires !cfg.strict && !cfg.playground && NormalInv(cfg, st) && !st.s.settled && !st.s.refunded
    requires Next(cfg, st, Settle(actual, io)).s.settled
    ensures var db := Next(cfg, st, Settle(actual, io)).db;
            && db.funds.charged == actual
            && (db.token.charged == actual <==> actual == st.s.preConsumed || io.token)
            && (db.token.charged != actual ==> db.token.charged == st.s.preConsumed)
  {
    KeepNormalInv(cfg, st, Settle(actual, io));
  }

  /** A cost of 10 on a reservation of 7, and the token keeps being charged 7. */
  lemma TokenStaysCharged(cfg: Config, st: State)
    requires !cfg.strict && !cfg.playground && Initial(cfg, st) && st.s.preConsumed == 7
    ensures var end := Next(cfg, st, Settle(10, SettleIo([], true, false)));
            end.s.settled && end.db.funds.charged == 10 && end.db.token.charged == 7
  {
    TokenIsChargedIff(cfg, st, 10, SettleIo([], true, false));
  }
}
