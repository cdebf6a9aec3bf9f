/** The guarantees of `HoldLaws` fail for every other order of the clocks. */
module HoldsWitness {
  import Body
  import opened Money
  import opened Ledger
  import opened Sums
  import opened History
  import opened HoldLaws

  /** Two users, and seeds small enough for 64 bits not to matter. */
  ghost predicate TwoUsers(c: Config, a: string, b: string) {
    && ValidConfig(c) && 0 < c.seed && 2 * c.seed <= MAX64
    && a in c.users && b in c.users && c.users[a] != c.users[b]
  }

  /** `a` pays 1 to `b` at `created`. */
  ghost function Gift(c: Config, a: string, b: string, created: Time): Entry
    requires TwoUsers(c, a, b)
  {
    Entry(0, Pay(Request(c.users[a], b, 1, "first")), created)
  }

  /** `b` pays everything to `a` at `spent`. */
  ghost function Spree(c: Config, a: string, b: string, spent: Time): Entry
    requires TwoUsers(c, a, b)
  {
    Entry(2, Pay(Request(c.users[b], a, c.seed + 1, "first")), spent)
  }

  ghost function GiftRow(c: Config, a: string, b: string, created: Time): Transfer
    requires TwoUsers(c, a, b)
  {
    Transfer(0, c.users[a], c.users[b], 1, "first", Body.Encode(b, 1), c.seed - 1, created, Completed)
  }

  ghost function SpreeRow(c: Config, a: string, b: string, spent: Time): Transfer
    requires TwoUsers(c, a, b)
  {
    Transfer(2, c.users[b], c.users[a], c.seed + 1, "first", Body.Encode(a, c.seed + 1), 0, spent, Completed)
  }

  /** The tables when `a` has `x`, `b` has `y` and the rows are `ts`. */
  ghost function Tables(c: Config, a: string, b: string, x: int64, y: int64, ts: seq<Transfer>): Db
    requires TwoUsers(c, a, b)
  {
    Db(map[c.users[a] := x, c.users[b] := y], ts)
  }

  lemma AfterGift(c: Config, a: string, b: string, created: Time)
    requires TwoUsers(c, a, b)
    ensures Effective(c, [Gift(c, a, b, created)])
    ensures Replay(c, [Gift(c, a, b, created)]) == Tables(c, a, b, c.seed - 1, c.seed + 1, [GiftRow(c, a, b, created)])
  {
    var e := Gift(c, a, b, created);
    var db := Db(map[], []);
    assert Validate(c, e.job.req).Fine?;
    assert Held(c, db.transfers, c.users[a], created) == 0;
    SubIsExact(c.seed, 1);
    WrapIsNegative(c.seed, 1);
    assert Replay(c, []) == db;
    assert [e] == [] + [e];
    ReplayAppend(c, [], e);
    assert Apply(c, db, e).0.transfers == [GiftRow(c, a, b, created)];
  }

  lemma SpreeApplies(c: Config, a: string, b: string, created: Time, spent: Time)
    requires TwoUsers(c, a, b) && created + c.window <= spent
    ensures var db := Tables(c, a, b, c.seed - 1, c.seed + 1, [GiftRow(c, a, b, created)]);
            && Takes(c, db, Spree(c, a, b, spent))
            && Apply(c, db, Spree(c, a, b, spent)).0 == SpentTables(c, a, b, created, spent)
  {
    var db := Tables(c, a, b, c.seed - 1, c.seed + 1, [GiftRow(c, a, b, created)]);
    var e := Spree(c, a, b, spent);
    var f := HoldOn(c, c.users[b], spent);
    assert f(db.transfers[0]) == 0;
    SumZero(db.transfers, f);
    SubIsExact(c.seed + 1, c.seed + 1);
    WrapIsNegative(c.seed - 1, c.seed + 1);
    assert Validate(c, e.job.req).Fine?;
  }

  ghost function SpentHistory(c: Config, a: string, b: string, created: Time, spent: Time): seq<Entry>
    requires TwoUsers(c, a, b)
  {
    [Gift(c, a, b, created), Spree(c, a, b, spent)]
  }

  ghost function SpentTables(c: Config, a: string, b: string, created: Time, spent: Time): Db
    requires TwoUsers(c, a, b)
  {
    Tables(c, a, b, 2 * c.seed, 0, [GiftRow(c, a, b, created), SpreeRow(c, a, b, spent)])
  }

  lemma AfterSpree(c: Config, a: string, b: string, created: Time, spent: Time)
    requires TwoUsers(c, a, b) && created + c.window <= spent
    ensures Effective(c, SpentHistory(c, a, b, created, spent))
    ensures Replay(c, SpentHistory(c, a, b, created, spent)) == SpentTables(c, a, b, created, spent)
  {
    AfterGift(c, a, b, created);
    SpreeApplies(c, a, b, created, spent);
    var first := [Gift(c, a, b, created)];
    assert SpentHistory(c, a, b, created, spent) == first + [Spree(c, a, b, spent)];
    ReplayAppend(c, first, Spree(c, a, b, spent));
  }

  /** Claim `e` is of a row that it may claim, and is refused for lack of the recipient's funds. */
  ghost predicate FailsFor(c: Config, log: seq<Entry>, e: Entry, u: UserId, created: Time, limit: Time) {
    && GoodHistory(c, log)
    && Timed(c, log, e, u, created, limit)
    && Claimable(c, Replay(c, log), e.job.caller, e.job.id, e.clock)
    && Refuses(c, log, e)
  }

  /** Row `k` is a payment of 1 to `u`, which has nothing left. */
  ghost predicate Broke(c: Config, db: Db, k: nat, u: UserId) {
    && |db.wallets| * c.seed <= MAX64
    && k < |db.transfers| && k == IdIndex(db.transfers, db.transfers[k].id)
    && var t := db.transfers[k];
    && t.status.Completed? && t.amount == 1 && t.recipient == u
    && t.sender in db.wallets && u in db.wallets && db.wallets[u] == 0
  }

  /** A claim of that row inside its window is refused. */
  lemma BrokeRefuses(c: Config, log: seq<Entry>, db: Db, k: nat, u: UserId, limit: Time, e: Entry)
    requires Effective(c, log) && db == Replay(c, log) && SpendsBy(log, u, limit) && Broke(c, db, k, u)
    requires e.job == Reclaim(db.transfers[k].sender, db.transfers[k].id)
    requires InWindow(c, db.transfers[k].createdAt, e.clock)
    ensures FailsFor(c, log, e, u, db.transfers[k].createdAt, limit)
  {
    SubIsExact(0, 1);
  }

  lemma SpentBy(c: Config, a: string, b: string, created: Time, spent: Time)
    requires TwoUsers(c, a, b)
    ensures SpendsBy(SpentHistory(c, a, b, created, spent), c.users[b], spent)
  {
  }

  /** There is no other claim in it. */
  lemma SpentOnTime(c: Config, a: string, b: string, created: Time, spent: Time)
    requires TwoUsers(c, a, b)
    ensures AllOnTime(c, SpentHistory(c, a, b, created, spent), c.users[b])
  {
    var log := SpentHistory(c, a, b, created, spent);
    assert log[..1] == [Gift(c, a, b, created)];
    assert AllOnTime(c, log[..1][..0], c.users[b]);
    assert AllOnTime(c, log[..1], c.users[b]);
  }

  lemma SpentBroke(c: Config, a: string, b: string, created: Time, spent: Time)
    requires TwoUsers(c, a, b)
    ensures Broke(c, SpentTables(c, a, b, created, spent), 0, c.users[b])
  {
  }

  /**
   * A history without any other claim after which a claim that begins inside
   * the window at `claimed` is refused by the CHECK constraint, because `b`'s
   * spend began at `spent`, past the window, and committed first.
   */
  lemma SpentRefuses(c: Config, a: string, b: string, created: Time, claimed: Time, spent: Time)
    requires TwoUsers(c, a, b) && claimed < created + c.window <= spent
    ensures FailsFor(c, SpentHistory(c, a, b, created, spent), Entry(1, Reclaim(c.users[a], 0), claimed),
                     c.users[b], created, spent)
  {
    AfterSpree(c, a, b, created, spent);
    SpentBy(c, a, b, created, spent);
    SpentBroke(c, a, b, created, spent);
    BrokeRefuses(c, SpentHistory(c, a, b, created, spent), SpentTables(c, a, b, created, spent), 0, c.users[b], spent,
                 Entry(1, Reclaim(c.users[a], 0), claimed));
  }

  // --------------------------------------------------- after an earlier late claim

  /** `a` pays 1 to `b` again at `created`. */
  ghost function Again(c: Config, a: string, b: string, created: Time): Entry
    requires TwoUsers(c, a, b)
  {
    Entry(3, Pay(Request(c.users[a], b, 1, "second")), created)
  }

  ghost function AgainRow(c: Config, a: string, b: string, created: Time): Transfer
    requires TwoUsers(c, a, b)
  {
    Transfer(3, c.users[a], c.users[b], 1, "second", Body.Encode(b, 1), 2 * c.seed - 1, created, Completed)
  }

  ghost function TwiceTables(c: Config, a: string, b: string, first: Time, spent: Time, created: Time): Db
    requires TwoUsers(c, a, b)
  {
    Tables(c, a, b, 2 * c.seed - 1, 1,
           [GiftRow(c, a, b, first), SpreeRow(c, a, b, spent), AgainRow(c, a, b, created)])
  }

  lemma AgainApplies(c: Config, a: string, b: string, first: Time, spent: Time, created: Time)
    requires TwoUsers(c, a, b) && spent + c.window <= created
    ensures Takes(c, SpentTables(c, a, b, first, spent), Again(c, a, b, created))
    ensures Apply(c, SpentTables(c, a, b, first, spent), Again(c, a, b, created)).0 ==
            TwiceTables(c, a, b, first, spent, created)
  {
    var db := SpentTables(c, a, b, first, spent);
    var e := Again(c, a, b, created);
    var f := HoldOn(c, c.users[a], created);
    assert f(db.transfers[0]) == 0 && f(db.transfers[1]) == 0;
    SumZero(db.transfers, f);
    SubIsExact(2 * c.seed, 1);
    WrapIsNegative(0, 1);
    assert Validate(c, e.job.req).Fine?;
  }

  /** The claim of the first payment, begun when it was made. */
  ghost function LateClaim(c: Config, a: string, b: string, first: Time): Entry
    requires TwoUsers(c, a, b)
  {
    Entry(1, Reclaim(c.users[a], 0), first)
  }

  ghost function LateTables(c: Config, a: string, b: string, first: Time, spent: Time, created: Time): Db
    requires TwoUsers(c, a, b)
  {
    Tables(c, a, b, 2 * c.seed, 0, [GiftRow(c, a, b, first).(status := Reversed(first, 2 * c.seed)),
                                    SpreeRow(c, a, b, spent), AgainRow(c, a, b, created)])
  }

  lemma LateClaimApplies(c: Config, a: string, b: string, first: Time, spent: Time, created: Time)
    requires TwoUsers(c, a, b)
    ensures Takes(c, TwiceTables(c, a, b, first, spent, created), LateClaim(c, a, b, first))
    ensures Apply(c, TwiceTables(c, a, b, first, spent, created), LateClaim(c, a, b, first)).0 ==
            LateTables(c, a, b, first, spent, created)
  {
    SubIsExact(1, 1);
    WrapIsNegative(2 * c.seed - 1, 1);
  }

  ghost function PaidTwice(c: Config, a: string, b: string, first: Time, spent: Time, created: Time): seq<Entry>
    requires TwoUsers(c, a, b)
  {
    SpentHistory(c, a, b, first, spent) + [Again(c, a, b, created)]
  }

  ghost function LateHistory(c: Config, a: string, b: string, first: Time, spent: Time, created: Time): seq<Entry>
    requires TwoUsers(c, a, b)
  {
    PaidTwice(c, a, b, first, spent, created) + [LateClaim(c, a, b, first)]
  }

  lemma AfterAgain(c: Config, a: string, b: string, first: Time, spent: Time, created: Time)
    requires TwoUsers(c, a, b) && first + c.window <= spent && spent + c.window <= created
    ensures Effective(c, PaidTwice(c, a, b, first, spent, created))
    ensures Replay(c, PaidTwice(c, a, b, first, spent, created)) == TwiceTables(c, a, b, first, spent, created)
  {
    AfterSpree(c, a, b, first, spent);
    AgainApplies(c, a, b, first, spent, created);
    ReplayAppend(c, SpentHistory(c, a, b, first, spent), Again(c, a, b, created));
  }

  lemma AfterLateClaim(c: Config, a: string, b: string, first: Time, spent: Time, created: Time)
    requires TwoUsers(c, a, b) && first + c.window <= spent && spent + c.window <= created
    ensures Effective(c, LateHistory(c, a, b, first, spent, created))
    ensures Replay(c, LateHistory(c, a, b, first, spent, created)) == LateTables(c, a, b, first, spent, created)
  {
    AfterAgain(c, a, b, first, spent, created);
    LateClaimApplies(c, a, b, first, spent, created);
    ReplayAppend(c, PaidTwice(c, a, b, first, spent, created), LateClaim(c, a, b, first));
  }

  lemma LateSpentBy(c: Config, a: string, b: string, first: Time, spent: Time, created: Time)
    requires TwoUsers(c, a, b)
    ensures SpendsBy(LateHistory(c, a, b, first, spent, created), c.users[b], spent)
  {
  }

  lemma LateBroke(c: Config, a: string, b: string, first: Time, spent: Time, created: Time)
    requires TwoUsers(c, a, b)
    ensures Broke(c, LateTables(c, a, b, first, spent, created), 2, c.users[b])
    ensures LateTables(c, a, b, first, spent, created).transfers[2] == AgainRow(c, a, b, created)
  {
    var ts := LateTables(c, a, b, first, spent, created).transfers;
    assert ts[2].id == 3;
    assert IdIndex(ts, 3) == 2;
  }

  /**
   * For every claim inside its window, a history after which it is refused by
   * the CHECK constraint although it is itself on time: an earlier late claim
   * took the money that covered the row's hold.
   */
  lemma {:induction false} LateClaimRefuses(c: Config, a: string, b: string,
                                            first: Time, spent: Time, created: Time, claimed: Time)
    requires TwoUsers(c, a, b) && first + c.window <= spent && spent + c.window <= created
    requires claimed < created + c.window
    ensures FailsFor(c, LateHistory(c, a, b, first, spent, created), Entry(4, Reclaim(c.users[a], 3), claimed),
                     c.users[b], created, spent)
  {
    AfterLateClaim(c, a, b, first, spent, created);
    LateSpentBy(c, a, b, first, spent, created);
    LateBroke(c, a, b, first, spent, created);
    BrokeRefuses(c, LateHistory(c, a, b, first, spent, created), LateTables(c, a, b, first, spent, created), 2,
                 c.users[b], spent, Entry(4, Reclaim(c.users[a], 3), claimed));
  }

  // ------------------------------------------------------- the exact conditions

  /** One failure is enough. */
  lemma FailureRules(c: Config, log: seq<Entry>, e: Entry, u: UserId, created: Time, limit: Time, later: Time)
    requires FailsFor(c, log, e, u, created, limit) && limit <= later
    ensures !Guaranteed(c, created, e.clock, later)
    ensures AllOnTime(c, log, u) ==> !GuaranteedAfterOnTime(c, created, e.clock, later)
  {
    TimedLater(c, log, e, u, created, limit, later);
  }

  lemma BrokeRules(c: Config, log: seq<Entry>, db: Db, k: nat, u: UserId, limit: Time, e: Entry, later: Time)
    requires Effective(c, log) && db == Replay(c, log) && SpendsBy(log, u, limit) && Broke(c, db, k, u)
    requires e.job == Reclaim(db.transfers[k].sender, db.transfers[k].id)
    requires InWindow(c, db.transfers[k].createdAt, e.clock) && limit <= later
    ensures !Guaranteed(c, db.transfers[k].createdAt, e.clock, later)
    ensures AllOnTime(c, log, u) ==> !GuaranteedAfterOnTime(c, db.transfers[k].createdAt, e.clock, later)
  {
    BrokeRefuses(c, log, db, k, u, limit, e);
    FailureRules(c, log, e, u, db.transfers[k].createdAt, limit, later);
  }

  /** Whatever the clocks, if the claim is inside its window. */
  lemma NotGuaranteed(c: Config, a: string, b: string, created: Time, claimed: Time, limit: Time)
    requires TwoUsers(c, a, b) && claimed < created + c.window
    ensures !Guaranteed(c, created, claimed, limit)
  {
    var spent := (if limit <= created then limit else created) - c.window;
    var first := spent - c.window;
    AfterLateClaim(c, a, b, first, spent, created);
    LateSpentBy(c, a, b, first, spent, created);
    LateBroke(c, a, b, first, spent, created);
    BrokeRules(c, LateHistory(c, a, b, first, spent, created), LateTables(c, a, b, first, spent, created), 2,
               c.users[b], spent, Entry(4, Reclaim(c.users[a], 3), claimed), limit);
  }

  /**
   * Inside the window no clocks guarantee a reversal: claims on rows created at
   * `created`, begun at `claimed`, whose recipient's spends began by `limit`,
   * are never short of funds exactly when they are too late for any refund.
   */
  lemma GuaranteeIsExact(c: Config, a: string, b: string, created: Time, claimed: Time, limit: Time)
    requires TwoUsers(c, a, b)
    ensures Guaranteed(c, created, claimed, limit) <==> created + c.window <= claimed
  {
    if claimed < created + c.window {
      NotGuaranteed(c, a, b, created, claimed, limit);
    } else {
      forall log: seq<Entry>, e: Entry, u |
        GoodHistory(c, log) && e.clock == claimed && Timed(c, log, e, u, created, limit)
        ensures !Refuses(c, log, e)
      {
        RefusedOnlyInWindow(c, log, e, u, created, limit);
      }
    }
  }

  /** Nor after on-time claims, if the window closes after the claim began but before a spend. */
  lemma NotGuaranteedAfterOnTime(c: Config, a: string, b: string, created: Time, claimed: Time, limit: Time)
    requires TwoUsers(c, a, b) && claimed < created + c.window <= limit
    ensures !GuaranteedAfterOnTime(c, created, claimed, limit)
  {
    AfterSpree(c, a, b, created, limit);
    SpentBy(c, a, b, created, limit);
    SpentBroke(c, a, b, created, limit);
    SpentOnTime(c, a, b, created, limit);
    BrokeRules(c, SpentHistory(c, a, b, created, limit), SpentTables(c, a, b, created, limit), 0,
               c.users[b], limit, Entry(1, Reclaim(c.users[a], 0), claimed), limit);
  }

  /**
   * When the earlier claims against the same recipient were on time, they are
   * never short of funds exactly when the window does not close after the claim
   * began but by the time a spend of the recipient began.
   */
  lemma {:induction false} GuaranteeAfterOnTimeIsExact(c: Config, a: string, b: string,
                                                       created: Time, claimed: Time, limit: Time)
    requires TwoUsers(c, a, b)
    ensures GuaranteedAfterOnTime(c, created, claimed, limit) <==> !(claimed < created + c.window <= limit)
  {
    if claimed < created + c.window <= limit {
      NotGuaranteedAfterOnTime(c, a, b, created, claimed, limit);
    } else {
      forall log: seq<Entry>, e: Entry, u |
        GoodHistory(c, log) && AllOnTime(c, log, u) && e.clock == claimed && Timed(c, log, e, u, created, limit)
        ensures !Refuses(c, log, e)
      {
        GuaranteedInTime(c, log, e, u, created, limit);
      }
    }
  }
}
