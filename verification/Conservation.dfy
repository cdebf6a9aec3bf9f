/** No money appears or disappears, so no committed sum can exceed what was seeded. */
module Conservation {
  import opened Money
  import opened Ledger
  import opened LedgerLaws

  ghost function SumOver(us: set<UserId>, f: UserId -> int): int {
    if us == {} then 0 else
      var u :| u in us;
      f(u) + SumOver(us - {u}, f)
  }

  /** The order in which the users are visited does not matter. */
  lemma {:induction false} SumOverRemove(us: set<UserId>, f: UserId -> int, u: UserId)
    requires u in us
    ensures SumOver(us, f) == f(u) + SumOver(us - {u}, f)
    decreases us
  {
    var v :| v in us && SumOver(us, f) == f(v) + SumOver(us - {v}, f);
    if v != u {
      SumOverRemove(us - {v}, f, u);
      SumOverRemove(us - {u}, f, v);
      assert us - {v} - {u} == us - {u} - {v};
    }
  }

  lemma {:induction false} SumOverEqual(us: set<UserId>, f: UserId -> int, g: UserId -> int, h: UserId -> int)
    requires forall u :: u in us ==> f(u) == g(u) + h(u)
    ensures SumOver(us, f) == SumOver(us, g) + SumOver(us, h)
    decreases us
  {
    if us != {} {
      var u :| u in us;
      SumOverRemove(us, f, u);
      SumOverRemove(us, g, u);
      SumOverRemove(us, h, u);
      SumOverEqual(us - {u}, f, g, h);
    }
  }

  lemma {:induction false} SumOverConstant(us: set<UserId>, f: UserId -> int, x: int)
    requires forall u :: u in us ==> f(u) == x
    ensures SumOver(us, f) == |us| * x
    decreases us
  {
    if us != {} {
      var u :| u in us;
      SumOverRemove(us, f, u);
      SumOverConstant(us - {u}, f, x);
      assert |us| == |us - {u}| + 1;
    }
  }

  /** Only `u` counts. */
  lemma SumOverPoint(us: set<UserId>, f: UserId -> int, u: UserId)
    requires u in us
    requires forall v :: v in us && v != u ==> f(v) == 0
    ensures SumOver(us, f) == f(u)
  {
    SumOverRemove(us, f, u);
    SumOverConstant(us - {u}, f, 0);
  }

  // ------------------------------------------------------------ net position

  function BalanceIn(w: map<UserId, int64>): UserId -> int { (u: UserId) => if u in w then w[u] else 0 }

  function SeedOf(c: Config): UserId -> int { (u: UserId) => c.seed }

  function NetIn(ts: seq<Transfer>): UserId -> int { (u: UserId) => Received(ts, u) - Paid(ts, u) }

  function CreditBy(t: Transfer): UserId -> int {
    (u: UserId) => if u == t.recipient && t.status.Completed? then t.amount as int else 0
  }

  function DebitBy(t: Transfer): UserId -> int {
    (u: UserId) => if u == t.sender && t.status.Completed? then -(t.amount as int) else 0
  }

  function ChangeBy(t: Transfer): UserId -> int {
    (u: UserId) => var credit := CreditBy(t); var debit := DebitBy(t); credit(u) + debit(u)
  }

  /** A transfer between two users of the set moves nothing in or out of it. */
  lemma TransferNetsOut(us: set<UserId>, t: Transfer)
    requires t.sender in us && t.recipient in us
    ensures SumOver(us, ChangeBy(t)) == 0
  {
    SumOverEqual(us, ChangeBy(t), CreditBy(t), DebitBy(t));
    SumOverPoint(us, CreditBy(t), t.recipient);
    SumOverPoint(us, DebitBy(t), t.sender);
  }

  lemma {:induction false} NetsOut(us: set<UserId>, ts: seq<Transfer>)
    requires forall i :: 0 <= i < |ts| ==> ts[i].sender in us && ts[i].recipient in us
    ensures SumOver(us, NetIn(ts)) == 0
  {
    if ts == [] {
      SumOverConstant(us, NetIn(ts), 0);
    } else {
      var n := |ts| - 1;
      NetsOut(us, ts[..n]);
      TransferNetsOut(us, ts[n]);
      forall u | u in us ensures NetIn(ts)(u) == NetIn(ts[..n])(u) + ChangeBy(ts[n])(u) {
        var f, g := CreditTo(u), DebitFrom(u);
        assert f(ts[n]) - g(ts[n]) == CreditBy(ts[n])(u) + DebitBy(ts[n])(u);
      }
      SumOverEqual(us, NetIn(ts), NetIn(ts[..n]), ChangeBy(ts[n]));
    }
  }

  ghost function Total(db: Db): int { SumOver(db.wallets.Keys, BalanceIn(db.wallets)) }

  /** The sum of all balances is the number of wallets times the seed. */
  lemma Conserved(c: Config, db: Db)
    requires Sound(c, db)
    ensures Total(db) == |db.wallets| * c.seed
  {
    var us := db.wallets.Keys;
    forall u | u in us ensures BalanceIn(db.wallets)(u) == SeedOf(c)(u) + NetIn(db.transfers)(u) {
      assert Balanced(c, db, u);
    }
    forall i | 0 <= i < |db.transfers| ensures db.transfers[i].sender in us && db.transfers[i].recipient in us {
      assert RowSound(c, db.wallets, db.transfers[i]);
    }
    SumOverEqual(us, BalanceIn(db.wallets), SeedOf(c), NetIn(db.transfers));
    SumOverConstant(us, SeedOf(c), c.seed);
    NetsOut(us, db.transfers);
  }

  // ---------------------------------------------------------- 64-bit safety

  lemma {:induction false} SumOverNonNegative(us: set<UserId>, f: UserId -> int)
    requires forall u :: u in us ==> 0 <= f(u)
    ensures 0 <= SumOver(us, f)
    decreases us
  {
    if us != {} {
      var u :| u in us;
      SumOverRemove(us, f, u);
      SumOverNonNegative(us - {u}, f);
    }
  }

  /** Two wallets together never hold more than everything ever seeded. */
  lemma TwoWalletsFit(c: Config, db: Db, a: UserId, b: UserId)
    requires Sound(c, db) && a in db.wallets && b in db.wallets && a != b
    ensures db.wallets[a] + db.wallets[b] <= |db.wallets| * c.seed
  {
    Conserved(c, db);
    SoundNonNegative(c, db);
    var f := BalanceIn(db.wallets);
    SumOverRemove(db.wallets.Keys, f, a);
    SumOverRemove(db.wallets.Keys - {a}, f, b);
    SumOverNonNegative(db.wallets.Keys - {a} - {b}, f);
  }

  /**
   * If the seeds of all wallets, the ones this transfer opens included, fit in
   * 64 bits, the CHECK constraint never refuses a transfer.
   */
  lemma TransferNeverWraps(c: Config, db: Db, r: Request, clock: Time, id: TransferId)
    requires ValidConfig(c) && Sound(c, db) && Validate(c, r).Fine?
    requires |BothOpen(c, db, r).wallets| * c.seed <= MAX64
    ensures Execute(c, db, r, clock, id).1 != Rejected(CheckViolated)
  {
    var db1 := BothOpen(c, db, r);
    OpenBothSound(c, db, r);
    SoundNonNegative(c, db1);
    HeldNonNegative(c, db, r.sender, clock);
    TwoWalletsFit(c, db1, r.sender, c.users[r.to]);
    SubIsExact(db1.wallets[r.sender], r.amount);
    WrapIsNegative(db1.wallets[c.users[r.to]], r.amount);
  }

  /**
   * If the seeds of all wallets fit in 64 bits, the CHECK constraint refuses a
   * reversal exactly when the recipient no longer has the money.
   */
  lemma ReversalRefusedOnlyForFunds(c: Config, db: Db, k: nat, clock: Time)
    requires Sound(c, db) && k < |db.transfers| && RowSound(c, db.wallets, db.transfers[k])
    requires |db.wallets| * c.seed <= MAX64
    ensures Reverse(c, db, k, clock).1 == Rejected(CheckViolated) <==>
            db.wallets[db.transfers[k].recipient] < db.transfers[k].amount
  {
    var t := db.transfers[k];
    SoundNonNegative(c, db);
    TwoWalletsFit(c, db, t.sender, t.recipient);
    SubIsExact(db.wallets[t.recipient], t.amount);
    WrapIsNegative(db.wallets[t.sender], t.amount);
  }
}
