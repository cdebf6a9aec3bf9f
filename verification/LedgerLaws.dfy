/** What every operation keeps, whatever the clocks: the books balance. */
module LedgerLaws {
  import Body
  import opened Money
  import opened Ledger
  import opened Sums

  // -------------------------------------------------------------- invariant

  /** The row was written for some user name that denotes its recipient. */
  ghost predicate BodyMatches(c: Config, t: Transfer) {
    exists name :: name in c.users && c.users[name] == t.recipient && t.body == Body.Encode(name, t.amount)
  }

  ghost predicate RowSound(c: Config, w: map<UserId, int64>, t: Transfer) {
    && t.amount > 0
    && t.sender != t.recipient
    && t.sender in w && t.recipient in w
    && BodyMatches(c, t)
  }

  /** Primary key and UNIQUE (sender_id, idempotency_key). */
  ghost predicate Unique(ts: seq<Transfer>) {
    forall i, j :: 0 <= i < j < |ts| ==>
      ts[i].id != ts[j].id && !(ts[i].sender == ts[j].sender && ts[i].key == ts[j].key)
  }

  ghost predicate RowsSound(c: Config, db: Db) {
    && Unique(db.transfers)
    && (forall i {:trigger RowSound(c, db.wallets, db.transfers[i])} ::
          0 <= i < |db.transfers| ==> RowSound(c, db.wallets, db.transfers[i]))
  }

  /** The balance is seed plus completed received minus completed sent, and not negative. */
  ghost predicate Balanced(c: Config, db: Db, u: UserId)
    requires u in db.wallets
  {
    0 <= db.wallets[u] == c.seed + Received(db.transfers, u) - Paid(db.transfers, u)
  }

  ghost predicate BooksBalance(c: Config, db: Db) {
    forall u {:trigger Balanced(c, db, u)} :: u in db.wallets ==> Balanced(c, db, u)
  }

  ghost predicate Sound(c: Config, db: Db) {
    RowsSound(c, db) && BooksBalance(c, db)
  }

  /** CHECK (balance_paise >= 0). */
  ghost predicate NonNegative(w: map<UserId, int64>) {
    forall u :: u in w ==> 0 <= w[u]
  }

  lemma SoundNonNegative(c: Config, db: Db)
    requires BooksBalance(c, db)
    ensures NonNegative(db.wallets)
  {
    forall u | u in db.wallets ensures 0 <= db.wallets[u] { assert Balanced(c, db, u); }
  }

  // ----------------------------------------------------------- preservation

  /** A user without a wallet has no rows, so every sum over their rows is zero. */
  lemma Stranger(c: Config, db: Db, u: UserId, clock: Time)
    requires RowsSound(c, db) && u !in db.wallets
    ensures Received(db.transfers, u) == 0 && Paid(db.transfers, u) == 0 && Held(c, db.transfers, u, clock) == 0
  {
    forall i | 0 <= i < |db.transfers|
      ensures db.transfers[i].sender != u && db.transfers[i].recipient != u
    {
      assert RowSound(c, db.wallets, db.transfers[i]);
    }
    SumZero(db.transfers, CreditTo(u));
    SumZero(db.transfers, DebitFrom(u));
    SumZero(db.transfers, HoldOn(c, u, clock));
  }

  lemma HeldNonNegative(c: Config, db: Db, u: UserId, clock: Time)
    requires RowsSound(c, db)
    ensures 0 <= Held(c, db.transfers, u, clock)
  {
    assert forall i :: 0 <= i < |db.transfers| ==> RowSound(c, db.wallets, db.transfers[i]);
    SumNonNegative(db.transfers, HoldOn(c, u, clock));
  }

  /** Opening a wallet keeps the books: the seed is its whole history. */
  lemma OpenSound(c: Config, db: Db, u: UserId)
    requires ValidConfig(c) && Sound(c, db)
    ensures Sound(c, db.(wallets := OpenWallet(c, db.wallets, u)))
  {
    var db' := db.(wallets := OpenWallet(c, db.wallets, u));
    if u !in db.wallets {
      Stranger(c, db, u, 0);
      forall v | v in db'.wallets ensures Balanced(c, db', v) {
        if v != u { assert Balanced(c, db, v); }
      }
      forall i | 0 <= i < |db'.transfers| ensures RowSound(c, db'.wallets, db'.transfers[i]) {
        assert RowSound(c, db.wallets, db.transfers[i]);
      }
    }
  }

  lemma OpenBothSound(c: Config, db: Db, r: Request)
    requires ValidConfig(c) && Sound(c, db) && r.to in c.users
    ensures Sound(c, BothOpen(c, db, r))
  {
    OpenSound(c, db, r.sender);
    OpenSound(c, db.(wallets := OpenWallet(c, db.wallets, r.sender)), c.users[r.to]);
  }

  /** The tables after `t` is recorded and its parties' balances are set. */
  ghost function Posted(db: Db, t: Transfer, debit: int64, credit: int64): Db {
    Db(db.wallets[t.sender := debit][t.recipient := credit], db.transfers + [t])
  }

  lemma PostRows(c: Config, db: Db, t: Transfer, debit: int64, credit: int64)
    requires RowsSound(c, db) && RowSound(c, db.wallets, t)
    requires IdIndex(db.transfers, t.id) == |db.transfers|
    requires KeyIndex(db.transfers, t.sender, t.key) == |db.transfers|
    ensures RowsSound(c, Posted(db, t, debit, credit))
  {
    var db' := Posted(db, t, debit, credit);
    assert db'.wallets.Keys == db.wallets.Keys;
    forall i | 0 <= i < |db'.transfers| ensures RowSound(c, db'.wallets, db'.transfers[i]) {
      if i < |db.transfers| { assert RowSound(c, db.wallets, db.transfers[i]); }
    }
  }

  /** Moving `amount` and recording it keeps the books. */
  lemma PostBooks(c: Config, db: Db, t: Transfer, debit: int64, credit: int64)
    requires BooksBalance(c, db) && t.status.Completed? && t.sender != t.recipient
    requires t.sender in db.wallets && t.recipient in db.wallets
    requires 0 <= debit == db.wallets[t.sender] - t.amount
    requires 0 <= credit == db.wallets[t.recipient] + t.amount
    ensures BooksBalance(c, Posted(db, t, debit, credit))
  {
    var db' := Posted(db, t, debit, credit);
    forall u | u in db'.wallets
      ensures Balanced(c, db', u)
    {
      SumAppend(db.transfers, t, CreditTo(u));
      SumAppend(db.transfers, t, DebitFrom(u));
      assert Balanced(c, db, u);
    }
  }

  /** The transfer can be recorded, both wallets being open, without any wrap-around. */
  ghost predicate Postable(c: Config, db: Db, r: Request, id: TransferId) {
    && Validate(c, r).Fine?
    && r.sender in db.wallets && c.users[r.to] in db.wallets
    && KeyIndex(db.transfers, r.sender, r.key) == |db.transfers|
    && IdIndex(db.transfers, id) == |db.transfers|
    && 0 <= db.wallets[r.sender] - r.amount <= MAX64
    && 0 <= db.wallets[c.users[r.to]] + r.amount <= MAX64
  }

  ghost function Post(c: Config, db: Db, r: Request, clock: Time, id: TransferId): Db
    requires Postable(c, db, r, id)
  {
    var debit := db.wallets[r.sender] - r.amount;
    Posted(db, NewTransfer(c, r, clock, id, debit), debit, db.wallets[c.users[r.to]] + r.amount)
  }

  lemma PostSound(c: Config, db: Db, r: Request, clock: Time, id: TransferId)
    requires Sound(c, db) && Postable(c, db, r, id)
    ensures Sound(c, Post(c, db, r, clock, id))
  {
    var debit := db.wallets[r.sender] - r.amount;
    var credit := db.wallets[c.users[r.to]] + r.amount;
    var t := NewTransfer(c, r, clock, id, debit);
    assert RowsSound(c, Posted(db, t, debit, credit)) by {
      assert BodyMatches(c, t);
      PostRows(c, db, t, debit, credit);
    }
    assert BooksBalance(c, Posted(db, t, debit, credit)) by {
      PostBooks(c, db, t, debit, credit);
    }
  }

  ghost function BothOpen(c: Config, db: Db, r: Request): Db
    requires r.to in c.users
  {
    db.(wallets := OpenBoth(c, db.wallets, r))
  }

  /** What an applied transfer does, with no wrap-around left in it. */
  lemma MoveApplied(c: Config, db: Db, r: Request, clock: Time, id: TransferId)
    requires ValidConfig(c) && NonNegative(db.wallets) && Validate(c, r).Fine?
    requires FirstSuccess(Move(c, db, r, clock, id).1)
    ensures Postable(c, BothOpen(c, db, r), r, id)
    ensures Held(c, db.transfers, r.sender, clock) <= BothOpen(c, db, r).wallets[r.sender] - r.amount
    ensures Move(c, db, r, clock, id) ==
            (Post(c, BothOpen(c, db, r), r, clock, id),
             Sent(id, BothOpen(c, db, r).wallets[r.sender] - r.amount, false))
  {
    var w := OpenBoth(c, db.wallets, r);
    SubIsExact(w[r.sender], r.amount);
    WrapIsNegative(w[c.users[r.to]], r.amount);
  }

  lemma MoveSound(c: Config, db: Db, r: Request, clock: Time, id: TransferId)
    requires ValidConfig(c) && Sound(c, db) && Validate(c, r).Fine?
    requires FirstSuccess(Move(c, db, r, clock, id).1)
    ensures Sound(c, Move(c, db, r, clock, id).0)
  {
    SoundNonNegative(c, db);
    MoveApplied(c, db, r, clock, id);
    OpenBothSound(c, db, r);
    PostSound(c, BothOpen(c, db, r), r, clock, id);
  }

  lemma ExecuteSound(c: Config, db: Db, r: Request, clock: Time, id: TransferId)
    requires ValidConfig(c) && Sound(c, db)
    ensures Sound(c, Execute(c, db, r, clock, id).0)
  {
    if Validate(c, r).Fine? && FirstSuccess(Move(c, db, r, clock, id).1) {
      MoveSound(c, db, r, clock, id);
    } else {
      assert Execute(c, db, r, clock, id).0 == db;
    }
  }

  /** What an applied reversal does, with no wrap-around left in it. */
  lemma ReverseApplied(c: Config, db: Db, k: nat, clock: Time)
    requires NonNegative(db.wallets) && k < |db.transfers|
    requires RowSound(c, db.wallets, db.transfers[k])
    requires Reverse(c, db, k, clock).1.Returned?
    ensures var t := db.transfers[k];
            var debit := db.wallets[t.recipient] - t.amount;
            var credit := db.wallets[t.sender] + t.amount;
            && 0 <= debit <= MAX64 && 0 <= credit <= MAX64
            && Reverse(c, db, k, clock).0 == Db(db.wallets[t.recipient := debit][t.sender := credit],
                                                db.transfers[k := t.(status := Reversed(clock, credit))])
            && Reverse(c, db, k, clock).1 == Returned(t.id, credit, clock, false)
  {
    var t := db.transfers[k];
    SubIsExact(db.wallets[t.recipient], t.amount);
    WrapIsNegative(db.wallets[t.sender], t.amount);
  }

  /** The tables after row `k` is marked reversed and its parties' balances are set. */
  ghost function Unposted(db: Db, k: nat, clock: Time, debit: int64, credit: int64): Db
    requires k < |db.transfers|
  {
    var t := db.transfers[k];
    Db(db.wallets[t.recipient := debit][t.sender := credit],
       db.transfers[k := t.(status := Reversed(clock, credit))])
  }

  lemma UnpostRows(c: Config, db: Db, k: nat, clock: Time, debit: int64, credit: int64)
    requires RowsSound(c, db) && k < |db.transfers|
    ensures RowsSound(c, Unposted(db, k, clock, debit, credit))
  {
    var db' := Unposted(db, k, clock, debit, credit);
    forall i | 0 <= i < |db'.transfers| ensures RowSound(c, db'.wallets, db'.transfers[i]) {
      assert RowSound(c, db.wallets, db.transfers[i]);
    }
  }

  lemma UnpostBooks(c: Config, db: Db, k: nat, clock: Time, debit: int64, credit: int64)
    requires BooksBalance(c, db) && k < |db.transfers|
    requires db.transfers[k].status.Completed? && db.transfers[k].sender != db.transfers[k].recipient
    requires db.transfers[k].sender in db.wallets && db.transfers[k].recipient in db.wallets
    requires 0 <= debit == db.wallets[db.transfers[k].recipient] - db.transfers[k].amount
    requires 0 <= credit == db.wallets[db.transfers[k].sender] + db.transfers[k].amount
    ensures BooksBalance(c, Unposted(db, k, clock, debit, credit))
  {
    var db' := Unposted(db, k, clock, debit, credit);
    forall u | u in db'.wallets
      ensures Balanced(c, db', u)
    {
      SumUpdate(db.transfers, k, db'.transfers[k], CreditTo(u));
      SumUpdate(db.transfers, k, db'.transfers[k], DebitFrom(u));
      assert Balanced(c, db, u);
    }
  }

  lemma ReverseSound(c: Config, db: Db, k: nat, clock: Time)
    requires Sound(c, db) && k < |db.transfers|
    requires RowSound(c, db.wallets, db.transfers[k]) && db.transfers[k].status.Completed?
    ensures Sound(c, Reverse(c, db, k, clock).0)
  {
    if Reverse(c, db, k, clock).1.Returned? {
      SoundNonNegative(c, db);
      ReverseApplied(c, db, k, clock);
      var t := db.transfers[k];
      var debit := db.wallets[t.recipient] - t.amount;
      var credit := db.wallets[t.sender] + t.amount;
      UnpostRows(c, db, k, clock, debit, credit);
      UnpostBooks(c, db, k, clock, debit, credit);
    }
  }

  lemma ClaimSound(c: Config, db: Db, caller: UserId, id: TransferId, clock: Time)
    requires Sound(c, db)
    ensures Sound(c, ClaimBack(c, db, caller, id, clock).0)
    ensures ClaimBack(c, db, caller, id, clock).1 != Rejected(NoWallet)
  {
    var k := IdIndex(db.transfers, id);
    if k < |db.transfers| {
      assert RowSound(c, db.wallets, db.transfers[k]);
      if db.transfers[k].status.Completed? { ReverseSound(c, db, k, clock); }
    }
  }

  // ------------------------------------------------------------ idempotency

  /**
   * The key exists if and only if the money moved: every answer but a first
   * success leaves the tables exactly as they were (wallets included), and a
   * first success is exactly what makes the key present.
   */
  lemma KeyIffApplied(c: Config, db: Db, r: Request, clock: Time, id: TransferId)
    requires Validate(c, r).Fine?
    ensures var (db', resp) := Execute(c, db, r, clock, id);
            && (db' != db <==> FirstSuccess(resp))
            && (KeyIndex(db'.transfers, r.sender, r.key) < |db'.transfers| <==>
                resp.Sent? || resp == Rejected(KeyConflict))
            && (FirstSuccess(resp) ==> resp.id == id && KeyIndex(db.transfers, r.sender, r.key) == |db.transfers|)
  {
    var (db', resp) := Execute(c, db, r, clock, id);
    if FirstSuccess(resp) {
      var n := |db.transfers|;
      assert db'.transfers[n].sender == r.sender && db'.transfers[n].key == r.key;
      assert |db'.transfers| == n + 1;
    }
  }

  /**
   * On a claimed key the answer is replay or conflict, never a funds refusal,
   * whatever the balances are now; it is a conflict exactly when the recipient
   * or the amount differs from the row that claimed the key.
   */
  lemma ClaimedKeyAnswer(c: Config, db: Db, r: Request, clock: Time, id: TransferId)
    requires ValidConfig(c) && Sound(c, db) && Validate(c, r).Fine?
    requires KeyIndex(db.transfers, r.sender, r.key) < |db.transfers|
    ensures var t := db.transfers[KeyIndex(db.transfers, r.sender, r.key)];
            Execute(c, db, r, clock, id) ==
            (db, if t.recipient == c.users[r.to] && t.amount == r.amount
                 then Sent(t.id, t.senderAfter, true) else Rejected(KeyConflict))
  {
    var t := db.transfers[KeyIndex(db.transfers, r.sender, r.key)];
    assert RowSound(c, db.wallets, t);
    var name :| name in c.users && c.users[name] == t.recipient && t.body == Body.Encode(name, t.amount);
    Body.EncodeInjective(name, t.amount, r.to, r.amount);
  }

  // -------------------------------------------------------------- available

  /** The longer one waits, the fewer transfers are still on hold. */
  lemma HeldShrinks(c: Config, db: Db, u: UserId, clock: Time, later: Time)
    requires RowsSound(c, db) && clock <= later
    ensures Held(c, db.transfers, u, later) <= Held(c, db.transfers, u, clock)
  {
    assert forall i :: 0 <= i < |db.transfers| ==> RowSound(c, db.wallets, db.transfers[i]);
    SumMonotone(db.transfers, HoldOn(c, u, later), HoldOn(c, u, clock));
  }

  /** The balance of `u`, counting a wallet not yet opened as its seed. */
  ghost function BalanceOf(c: Config, db: Db, u: UserId): int64 {
    if u in db.wallets then db.wallets[u] else c.seed
  }

  ghost function Available(c: Config, db: Db, u: UserId, clock: Time): int {
    BalanceOf(c, db, u) - Held(c, db.transfers, u, clock)
  }

  /**
   * A transfer on a fresh key is refused for funds exactly when its amount
   * exceeds what is available: the figure the balance query reports at the same
   * clock or, for a sender without a wallet, the seed.
   */
  lemma AvailableIsSpendable(c: Config, db: Db, r: Request, clock: Time, id: TransferId)
    requires ValidConfig(c) && Sound(c, db) && Validate(c, r).Fine?
    requires KeyIndex(db.transfers, r.sender, r.key) == |db.transfers|
    requires IdIndex(db.transfers, id) == |db.transfers|
    ensures Execute(c, db, r, clock, id).1 == Rejected(InsufficientFunds) <==>
            r.amount > Available(c, db, r.sender, clock)
    ensures Available(c, db, r.sender, clock) ==
            if r.sender in db.wallets then GetBalances(c, db, r.sender, clock).available else c.seed
  {
    SoundNonNegative(c, db);
    SubIsExact(BalanceOf(c, db, r.sender), r.amount);
    if r.sender !in db.wallets { Stranger(c, db, r.sender, clock); }
  }

  lemma PostAvailable(c: Config, db: Db, r: Request, clock: Time, id: TransferId, u: UserId)
    requires ValidConfig(c) && r.to in c.users && Postable(c, BothOpen(c, db, r), r, id)
    ensures Available(c, Post(c, BothOpen(c, db, r), r, clock, id), u, clock) ==
            Available(c, db, u, clock) - (if u == r.sender then r.amount else 0)
  {
    var debit := BothOpen(c, db, r).wallets[r.sender] - r.amount;
    SumAppend(db.transfers, NewTransfer(c, r, clock, id, debit), HoldOn(c, u, clock));
  }

  /**
   * At its own clock an applied transfer lowers the sender's available by
   * exactly the amount and leaves everyone else's unchanged, the recipient's
   * included: what arrives is on hold.
   */
  lemma TransferEffect(c: Config, db: Db, r: Request, clock: Time, id: TransferId, u: UserId)
    requires ValidConfig(c) && Sound(c, db)
    requires FirstSuccess(Execute(c, db, r, clock, id).1)
    ensures Available(c, Execute(c, db, r, clock, id).0, u, clock) ==
            Available(c, db, u, clock) - (if u == r.sender then r.amount else 0)
  {
    SoundNonNegative(c, db);
    MoveApplied(c, db, r, clock, id);
    PostAvailable(c, db, r, clock, id, u);
  }

  /**
   * At its own clock an applied claim raises the sender's available by exactly
   * the amount (returned money carries no hold) and leaves everyone else's
   * unchanged, the recipient's included: only held money is taken.
   */
  lemma ClaimEffect(c: Config, db: Db, caller: UserId, id: TransferId, clock: Time, u: UserId)
    requires Sound(c, db)
    requires FirstSuccess(ClaimBack(c, db, caller, id, clock).1)
    ensures Available(c, ClaimBack(c, db, caller, id, clock).0, u, clock) ==
            Available(c, db, u, clock)
            + (if u == caller then db.transfers[IdIndex(db.transfers, id)].amount else 0)
  {
    var k := IdIndex(db.transfers, id);
    assert RowSound(c, db.wallets, db.transfers[k]);
    SoundNonNegative(c, db);
    ReverseApplied(c, db, k, clock);
    SumUpdate(db.transfers, k, Reverse(c, db, k, clock).0.transfers[k], HoldOn(c, u, clock));
  }
}
