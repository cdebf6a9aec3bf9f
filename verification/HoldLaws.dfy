/**
 * Received money stays claimable: when a balance covers its holds, and when a
 * reversal is guaranteed by it.
 */
module HoldLaws {
  import opened Money
  import opened Ledger
  import opened Sums
  import opened LedgerLaws
  import opened Conservation
  import opened History

  /** Every spend of `u` in the history began no later than `limit`. */
  ghost predicate SpendsBy(log: seq<Entry>, u: UserId, limit: Time) {
    forall i :: 0 <= i < |log| && log[i].job.Pay? && log[i].job.req.sender == u ==> log[i].clock <= limit
  }

  ghost predicate Covered(c: Config, db: Db, u: UserId, clock: Time) {
    u in db.wallets ==> db.wallets[u] >= Held(c, db.transfers, u, clock)
  }

  /**
   * The balance of `u` covers the transfers still on hold at any clock that is
   * not before the wallet's latest spend.
   */
  ghost predicate HoldLaw(c: Config, log: seq<Entry>, u: UserId) {
    forall clock {:trigger Covered(c, Replay(c, log), u, clock)} ::
      SpendsBy(log, u, clock) ==> Covered(c, Replay(c, log), u, clock)
  }

  /** The last clock at which row `t` is still claimable. */
  function LastClaim(c: Config, t: Transfer): Time { t.createdAt + c.window - 1 }

  /**
   * If `e` is a claim: no spend by the recipient that is already committed
   * began after the claimed row's window had closed.
   */
  ghost predicate OnTime(c: Config, log: seq<Entry>, e: Entry) {
    e.job.Reclaim? ==>
      var ts := Replay(c, log).transfers;
      var k := IdIndex(ts, e.job.id);
      k < |ts| ==> SpendsBy(log, ts[k].recipient, LastClaim(c, ts[k]))
  }

  /** After `log`, entry `e` claims back money that `u` received. */
  ghost predicate Against(c: Config, log: seq<Entry>, e: Entry, u: UserId) {
    && e.job.Reclaim?
    && var ts := Replay(c, log).transfers;
    && var k := IdIndex(ts, e.job.id);
    && k < |ts| && ts[k].recipient == u
  }

  /** Every claim of the history against `u` is on time. */
  ghost predicate AllOnTime(c: Config, log: seq<Entry>, u: UserId) {
    log == [] ||
    (var front, e := log[..|log| - 1], log[|log| - 1];
     AllOnTime(c, front, u) && (Against(c, front, e, u) ==> OnTime(c, front, e)))
  }

  // ------------------------------------------------- the law, entry by entry

  lemma PayKeepsCover(c: Config, db: Db, e: Entry, u: UserId, clock: Time)
    requires ValidConfig(c) && Sound(c, db) && e.job.Pay? && Takes(c, db, e)
    requires e.job.req.sender == u ==> e.clock <= clock
    requires Covered(c, db, u, clock)
    ensures Covered(c, Apply(c, db, e).0, u, clock)
  {
    var r := e.job.req;
    SoundNonNegative(c, db);
    MoveApplied(c, db, r, e.clock, e.pid);
    var t := NewTransfer(c, r, e.clock, e.pid, BothOpen(c, db, r).wallets[r.sender] - r.amount);
    SumAppend(db.transfers, t, HoldOn(c, u, clock));
    if u == r.sender {
      HeldShrinks(c, db, u, e.clock, clock);
    }
    if u !in db.wallets {
      Stranger(c, db, u, clock);
    }
  }

  lemma OpenKeepsCover(c: Config, db: Db, e: Entry, u: UserId, clock: Time)
    requires ValidConfig(c) && Sound(c, db) && e.job.Open?
    requires Covered(c, db, u, clock)
    ensures Covered(c, Apply(c, db, e).0, u, clock)
  {
    if u !in db.wallets {
      Stranger(c, db, u, clock);
    }
  }

  /** Past the window of row `k`, the row's amount is free on top of all other holds. */
  lemma ExpiredRowIsFree(c: Config, db: Db, k: nat, clock: Time)
    requires ValidConfig(c) && Sound(c, db) && k < |db.transfers| && db.transfers[k].status.Completed?
    requires clock > LastClaim(c, db.transfers[k])
    ensures Held(c, db.transfers, db.transfers[k].recipient, clock) + db.transfers[k].amount <=
            Held(c, db.transfers, db.transfers[k].recipient, LastClaim(c, db.transfers[k]))
  {
    var t := db.transfers[k];
    var f, g := HoldOn(c, t.recipient, clock), HoldOn(c, t.recipient, LastClaim(c, t));
    forall i | 0 <= i < |db.transfers| ensures f(db.transfers[i]) <= g(db.transfers[i]) {
      assert RowSound(c, db.wallets, db.transfers[i]);
    }
    SumGains(db.transfers, f, g, k);
  }

  lemma ReverseKeepsCover(c: Config, db: Db, k: nat, now: Time, u: UserId, clock: Time)
    requires ValidConfig(c) && Sound(c, db) && k < |db.transfers|
    requires RowSound(c, db.wallets, db.transfers[k]) && db.transfers[k].status.Completed?
    requires Reverse(c, db, k, now).1.Returned?
    requires Covered(c, db, u, clock)
    requires u == db.transfers[k].recipient ==> Covered(c, db, u, LastClaim(c, db.transfers[k]))
    ensures Covered(c, Reverse(c, db, k, now).0, u, clock)
  {
    var t := db.transfers[k];
    SoundNonNegative(c, db);
    ReverseApplied(c, db, k, now);
    SumUpdate(db.transfers, k, Reverse(c, db, k, now).0.transfers[k], HoldOn(c, u, clock));
    if u == t.recipient && clock > LastClaim(c, t) {
      ExpiredRowIsFree(c, db, k, clock);
    }
  }

  lemma ClaimKeepsCover(c: Config, log: seq<Entry>, e: Entry, u: UserId, clock: Time)
    requires ValidConfig(c) && HoldLaw(c, log, u) && (Against(c, log, e, u) ==> OnTime(c, log, e))
    requires e.job.Reclaim? && Takes(c, Replay(c, log), e)
    requires SpendsBy(log, u, clock)
    ensures Covered(c, Apply(c, Replay(c, log), e).0, u, clock)
  {
    var db := Replay(c, log);
    var k := IdIndex(db.transfers, e.job.id);
    var t := db.transfers[k];
    ReplaySound(c, log);
    assert RowSound(c, db.wallets, t);
    assert Covered(c, db, u, clock);
    if u == t.recipient {
      assert Covered(c, db, u, LastClaim(c, t));
    }
    ReverseKeepsCover(c, db, k, e.clock, u, clock);
  }

  lemma SpendsByFront(log: seq<Entry>, u: UserId, limit: Time)
    requires log != [] && SpendsBy(log, u, limit)
    ensures SpendsBy(log[..|log| - 1], u, limit)
    ensures log[|log| - 1].job.Pay? && log[|log| - 1].job.req.sender == u ==> log[|log| - 1].clock <= limit
  {
  }

  lemma EntryKeepsCover(c: Config, log: seq<Entry>, e: Entry, u: UserId, clock: Time)
    requires ValidConfig(c) && HoldLaw(c, log, u) && (Against(c, log, e, u) ==> OnTime(c, log, e))
    requires Takes(c, Replay(c, log), e)
    requires SpendsBy(log, u, clock) && (e.job.Pay? && e.job.req.sender == u ==> e.clock <= clock)
    ensures Covered(c, Apply(c, Replay(c, log), e).0, u, clock)
  {
    var db := Replay(c, log);
    ReplaySound(c, log);
    assert Covered(c, db, u, clock);
    match e.job
    case Pay(_) => PayKeepsCover(c, db, e, u, clock);
    case Reclaim(_, _) => ClaimKeepsCover(c, log, e, u, clock);
    case Open(_) => OpenKeepsCover(c, db, e, u, clock);
  }

  /** If the claims against `u` are on time, the balance of `u` covers its holds, whoever else does what. */
  lemma {:induction false} HoldsCovered(c: Config, log: seq<Entry>, u: UserId)
    requires ValidConfig(c) && Effective(c, log) && AllOnTime(c, log, u)
    ensures HoldLaw(c, log, u)
  {
    if log != [] {
      var front, e := log[..|log| - 1], log[|log| - 1];
      HoldsCovered(c, front, u);
      forall clock | SpendsBy(log, u, clock) ensures Covered(c, Replay(c, log), u, clock) {
        SpendsByFront(log, u, clock);
        EntryKeepsCover(c, front, e, u, clock);
      }
    }
  }

  // ------------------------------------------------------ guaranteed reversal

  /** The row is the caller's, not yet reversed, and inside its window at `clock`. */
  ghost predicate Claimable(c: Config, db: Db, caller: UserId, id: TransferId, clock: Time) {
    var k := IdIndex(db.transfers, id);
    && k < |db.transfers|
    && db.transfers[k].sender == caller
    && db.transfers[k].status.Completed?
    && InWindow(c, db.transfers[k].createdAt, clock)
  }

  /** A balance that covers its holds at the row's last claimable moment covers the row. */
  lemma CoverIncludesRow(c: Config, db: Db, k: nat)
    requires ValidConfig(c) && Sound(c, db) && k < |db.transfers| && db.transfers[k].status.Completed?
    requires Covered(c, db, db.transfers[k].recipient, LastClaim(c, db.transfers[k]))
    ensures db.transfers[k].recipient in db.wallets
    ensures db.transfers[k].amount <= db.wallets[db.transfers[k].recipient]
  {
    var t := db.transfers[k];
    assert RowSound(c, db.wallets, db.transfers[k]);
    ExpiredRowIsFree(c, db, k, LastClaim(c, t) + 1);
    HeldNonNegative(c, db, t.recipient, LastClaim(c, t) + 1);
  }

  /**
   * A claimable row's amount is still in the recipient's balance, if the claim
   * and the earlier claims against that recipient are on time.
   */
  lemma {:induction false} RecipientStillHas(c: Config, log: seq<Entry>, e: Entry, u: UserId)
    requires ValidConfig(c) && Effective(c, log) && Against(c, log, e, u)
    requires AllOnTime(c, log, u) && OnTime(c, log, e)
    requires Claimable(c, Replay(c, log), e.job.caller, e.job.id, e.clock)
    ensures var db := Replay(c, log);
            u in db.wallets && db.transfers[IdIndex(db.transfers, e.job.id)].amount <= db.wallets[u]
  {
    var db := Replay(c, log);
    var k := IdIndex(db.transfers, e.job.id);
    ReplaySound(c, log);
    HoldsCovered(c, log, u);
    assert Covered(c, db, u, LastClaim(c, db.transfers[k]));
    CoverIncludesRow(c, db, k);
  }

  /** Then its reversal succeeds, if the seeds fit in 64 bits. */
  lemma {:induction false} ReversalGuaranteed(c: Config, log: seq<Entry>, e: Entry, u: UserId)
    requires ValidConfig(c) && Effective(c, log) && Against(c, log, e, u)
    requires AllOnTime(c, log, u) && OnTime(c, log, e)
    requires Claimable(c, Replay(c, log), e.job.caller, e.job.id, e.clock)
    requires |Replay(c, log).wallets| * c.seed <= MAX64
    ensures FirstSuccess(Apply(c, Replay(c, log), e).1)
  {
    var db := Replay(c, log);
    var k := IdIndex(db.transfers, e.job.id);
    ReplaySound(c, log);
    assert RowSound(c, db.wallets, db.transfers[k]);
    RecipientStillHas(c, log, e, u);
    ReversalRefusedOnlyForFunds(c, db, k, e.clock);
  }

  /** If `e` is a claim, it began no earlier than any spend by the recipient that is already committed. */
  ghost predicate InOrder(c: Config, log: seq<Entry>, e: Entry) {
    e.job.Reclaim? ==>
      var ts := Replay(c, log).transfers;
      var k := IdIndex(ts, e.job.id);
      k < |ts| ==> SpendsBy(log, ts[k].recipient, e.clock)
  }

  ghost predicate AllInOrder(c: Config, log: seq<Entry>, u: UserId) {
    log == [] ||
    (var front, e := log[..|log| - 1], log[|log| - 1];
     AllInOrder(c, front, u) && (Against(c, front, e, u) ==> InOrder(c, front, e)))
  }

  /** Claims that never begin before a committed spend of their recipient are all on time. */
  lemma {:induction false} InOrderIsOnTime(c: Config, log: seq<Entry>, u: UserId)
    requires Effective(c, log) && AllInOrder(c, log, u)
    ensures AllOnTime(c, log, u)
  {
    if log != [] {
      var front, e := log[..|log| - 1], log[|log| - 1];
      InOrderIsOnTime(c, front, u);
      assert Takes(c, Replay(c, front), e);
      assert Against(c, front, e, u) ==> OnTime(c, front, e);
    }
  }

  /** Under the same condition what is available is never negative, from the last spend on. */
  lemma AvailableNonNegative(c: Config, log: seq<Entry>, u: UserId, clock: Time)
    requires ValidConfig(c) && Effective(c, log) && AllOnTime(c, log, u)
    requires u in Replay(c, log).wallets && SpendsBy(log, u, clock)
    ensures 0 <= GetBalances(c, Replay(c, log), u, clock).available
  {
    HoldsCovered(c, log, u);
    assert Covered(c, Replay(c, log), u, clock);
  }

  // ------------------------------------------------------ the exact conditions

  /** The row that `e` claims was created at `created`, and the spends of its recipient `u` began by `limit`. */
  ghost predicate Timed(c: Config, log: seq<Entry>, e: Entry, u: UserId, created: Time, limit: Time) {
    && Against(c, log, e, u)
    && var ts := Replay(c, log).transfers;
    && ts[IdIndex(ts, e.job.id)].createdAt == created
    && SpendsBy(log, u, limit)
  }

  lemma TimedLater(c: Config, log: seq<Entry>, e: Entry, u: UserId, created: Time, limit: Time, later: Time)
    requires Timed(c, log, e, u, created, limit) && limit <= later
    ensures Timed(c, log, e, u, created, later)
  {
  }

  /** Spends from before the window closed make a claim on time; spends from before it began, in order. */
  lemma TimedIsOnTime(c: Config, log: seq<Entry>, e: Entry, u: UserId, created: Time, limit: Time)
    requires Timed(c, log, e, u, created, limit)
    ensures limit < created + c.window ==> OnTime(c, log, e)
    ensures limit <= e.clock ==> InOrder(c, log, e)
  {
  }

  /** Whatever operations committed, in whatever order of their clocks, as long as the seeds fit in 64 bits. */
  ghost predicate GoodHistory(c: Config, log: seq<Entry>) {
    Effective(c, log) && |Replay(c, log).wallets| * c.seed <= MAX64
  }

  ghost predicate Refuses(c: Config, log: seq<Entry>, e: Entry) {
    Apply(c, Replay(c, log), e).1 == Rejected(CheckViolated)
  }

  /** No claim with these clocks is ever refused for lack of the recipient's funds. */
  ghost predicate Guaranteed(c: Config, created: Time, claimed: Time, limit: Time) {
    forall log: seq<Entry>, e: Entry, u {:trigger Timed(c, log, e, u, created, limit)} ::
      GoodHistory(c, log) && e.clock == claimed && Timed(c, log, e, u, created, limit) ==> !Refuses(c, log, e)
  }

  /** Nor is one after earlier claims against the same recipient that were all on time. */
  ghost predicate GuaranteedAfterOnTime(c: Config, created: Time, claimed: Time, limit: Time) {
    forall log: seq<Entry>, e: Entry, u {:trigger Timed(c, log, e, u, created, limit)} ::
      GoodHistory(c, log) && AllOnTime(c, log, u) && e.clock == claimed && Timed(c, log, e, u, created, limit) ==>
        !Refuses(c, log, e)
  }

  lemma GuaranteedInTime(c: Config, log: seq<Entry>, e: Entry, u: UserId, created: Time, limit: Time)
    requires ValidConfig(c) && GoodHistory(c, log) && AllOnTime(c, log, u)
    requires Timed(c, log, e, u, created, limit)
    requires !(e.clock < created + c.window <= limit)
    ensures !Refuses(c, log, e)
  {
    if Claimable(c, Replay(c, log), e.job.caller, e.job.id, e.clock) {
      assert OnTime(c, log, e);
      ReversalGuaranteed(c, log, e, u);
    }
  }

  lemma RefusedOnlyInWindow(c: Config, log: seq<Entry>, e: Entry, u: UserId, created: Time, limit: Time)
    requires Timed(c, log, e, u, created, limit) && created + c.window <= e.clock
    ensures !Refuses(c, log, e)
  {
  }
}
