/**
 * Every answer of every operation, in terms of the rows and balances alone:
 * who is given it, and when.
 */
module Outcomes {
  import Body
  import opened Money
  import opened Ledger
  import opened LedgerLaws
  import opened History

  // --------------------------------------------------------------- transfers

  /** A request that does not pass validation is refused for the first thing wrong with it, and changes nothing. */
  lemma InvalidOutcome(c: Config, db: Db, r: Request, clock: Time, id: TransferId)
    requires !(r.amount > 0 && 1 <= |r.key| <= 128 && r.to in c.users && c.users[r.to] != r.sender)
    ensures Execute(c, db, r, clock, id) ==
            (db, Rejected(if r.amount <= 0 then BadAmount
                          else if !(1 <= |r.key| <= 128) then BadKey
                          else if r.to !in c.users then UnknownRecipient
                          else SelfTransfer))
  {
  }

  /** Row `t` claimed the sender's key. */
  predicate Claims(db: Db, sender: UserId, key: string, t: Transfer) {
    t in db.transfers && t.sender == sender && t.key == key
  }

  ghost predicate Unclaimed(db: Db, sender: UserId, key: string) {
    forall t :: !Claims(db, sender, key, t)
  }

  /** No row has this id. */
  predicate Unused(db: Db, id: TransferId) {
    forall t :: t in db.transfers ==> t.id != id
  }

  /** The row that claimed a key decides: the same transfer again is a replay, another one a conflict. */
  lemma ClaimedOutcome(c: Config, db: Db, r: Request, clock: Time, id: TransferId, t: Transfer)
    requires ValidConfig(c) && Sound(c, db) && Validate(c, r).Fine? && Claims(db, r.sender, r.key, t)
    ensures Execute(c, db, r, clock, id) ==
            (db, if t.recipient == c.users[r.to] && t.amount == r.amount
                 then Sent(t.id, t.senderAfter, true) else Rejected(KeyConflict))
  {
    var i :| 0 <= i < |db.transfers| && db.transfers[i] == t;
    assert KeyIndex(db.transfers, r.sender, r.key) == i;
    ClaimedKeyAnswer(c, db, r, clock, id);
  }

  lemma FreshIndices(db: Db, r: Request, id: TransferId)
    requires Unclaimed(db, r.sender, r.key) && Unused(db, id)
    ensures KeyIndex(db.transfers, r.sender, r.key) == |db.transfers| && IdIndex(db.transfers, id) == |db.transfers|
  {
    var ts := db.transfers;
    var k := KeyIndex(ts, r.sender, r.key);
    assert k < |ts| ==> Claims(db, r.sender, r.key, ts[k]);
  }

  /**
   * On a fresh key, whether or not the wallets are open yet: short of spendable
   * funds, refused; else, if the credit does not fit in 64 bits, refused by the
   * CHECK constraint; else applied.
   */
  lemma FreshOutcome(c: Config, db: Db, r: Request, clock: Time, id: TransferId)
    requires ValidConfig(c) && Sound(c, db) && Validate(c, r).Fine? && Unclaimed(db, r.sender, r.key) && Unused(db, id)
    ensures var resp := Execute(c, db, r, clock, id).1;
            if r.amount > Available(c, db, r.sender, clock) then resp == Rejected(InsufficientFunds)
            else if BalanceOf(c, db, c.users[r.to]) + r.amount > MAX64 then resp == Rejected(CheckViolated)
            else FirstSuccess(resp) && resp.Sent? && resp.id == id
                 && resp.newBalance == BalanceOf(c, db, r.sender) - r.amount
  {
    FreshIndices(db, r, id);
    SoundNonNegative(c, db);
    HeldNonNegative(c, db, r.sender, clock);
    SubIsExact(BalanceOf(c, db, r.sender), r.amount);
    WrapIsNegative(BalanceOf(c, db, c.users[r.to]), r.amount);
  }

  /** What an applied transfer leaves behind: both balances, and one row more. */
  lemma AppliedTables(c: Config, db: Db, r: Request, clock: Time, id: TransferId)
    requires ValidConfig(c) && Sound(c, db) && Validate(c, r).Fine? && Unclaimed(db, r.sender, r.key) && Unused(db, id)
    requires r.amount <= Available(c, db, r.sender, clock)
    requires BalanceOf(c, db, c.users[r.to]) + r.amount <= MAX64
    ensures var debit, credit := BalanceOf(c, db, r.sender) - r.amount, BalanceOf(c, db, c.users[r.to]) + r.amount;
            && -MAX64 <= debit <= MAX64 && -MAX64 <= credit <= MAX64
            && Execute(c, db, r, clock, id).0 ==
               Db(db.wallets[r.sender := debit][c.users[r.to] := credit],
                  db.transfers + [Transfer(id, r.sender, c.users[r.to], r.amount, r.key,
                                           Body.Encode(r.to, r.amount), debit, clock, Completed)])
  {
    FreshIndices(db, r, id);
    SoundNonNegative(c, db);
    HeldNonNegative(c, db, r.sender, clock);
    SubIsExact(BalanceOf(c, db, r.sender), r.amount);
    WrapIsNegative(BalanceOf(c, db, c.users[r.to]), r.amount);
    var debit, credit := BalanceOf(c, db, r.sender) - r.amount, BalanceOf(c, db, c.users[r.to]) + r.amount;
    assert Execute(c, db, r, clock, id).0.wallets == db.wallets[r.sender := debit][c.users[r.to] := credit];
  }

  /** A valid transfer's answer, each exactly when: conflict, replay, short of funds, refused by the CHECK, applied. */
  ghost predicate TransferOutcome(c: Config, db: Db, r: Request, clock: Time, resp: Response)
    requires Validate(c, r).Fine?
  {
    var funded := r.amount <= Available(c, db, r.sender, clock);
    var fits := BalanceOf(c, db, c.users[r.to]) + r.amount <= MAX64;
    && (resp == Rejected(KeyConflict) <==>
        exists t :: Claims(db, r.sender, r.key, t) && !(t.recipient == c.users[r.to] && t.amount == r.amount))
    && (resp.Sent? && resp.replayed <==>
        exists t :: Claims(db, r.sender, r.key, t) && t.recipient == c.users[r.to] && t.amount == r.amount)
    && (resp == Rejected(InsufficientFunds) <==> Unclaimed(db, r.sender, r.key) && !funded)
    && (resp == Rejected(CheckViolated) <==> Unclaimed(db, r.sender, r.key) && funded && !fits)
    && (FirstSuccess(resp) <==> Unclaimed(db, r.sender, r.key) && funded && fits)
  }

  lemma TransferOutcomes(c: Config, db: Db, r: Request, clock: Time, id: TransferId)
    requires ValidConfig(c) && Sound(c, db) && Validate(c, r).Fine? && Unused(db, id)
    ensures TransferOutcome(c, db, r, clock, Execute(c, db, r, clock, id).1)
  {
    if t :| Claims(db, r.sender, r.key, t) {
      OnlyClaim(c, db, r, t);
      ClaimedOutcome(c, db, r, clock, id, t);
    } else {
      FreshOutcome(c, db, r, clock, id);
    }
  }

  lemma OnlyClaim(c: Config, db: Db, r: Request, t: Transfer)
    requires Sound(c, db) && Claims(db, r.sender, r.key, t)
    ensures forall t' :: Claims(db, r.sender, r.key, t') ==> t' == t
  {
  }

  // --------------------------------------------------------------- reversals

  /** Row `t` has this id and this sender. */
  predicate Owns(db: Db, caller: UserId, id: TransferId, t: Transfer) {
    t in db.transfers && t.id == id && t.sender == caller
  }

  /** Both balances of the reversal of row `t` are in range. */
  predicate Returnable(db: Db, t: Transfer) {
    && t.sender in db.wallets && t.recipient in db.wallets
    && t.amount <= db.wallets[t.recipient] && db.wallets[t.sender] + t.amount <= MAX64
  }

  /** Whoever does not own a row of that id is told that there is none, whatever rows there are. */
  lemma StrangerOutcome(c: Config, db: Db, caller: UserId, id: TransferId, clock: Time)
    requires forall t :: !Owns(db, caller, id, t)
    ensures ClaimBack(c, db, caller, id, clock) == (db, Rejected(NotFound))
  {
    var k := IdIndex(db.transfers, id);
    assert k < |db.transfers| && db.transfers[k].sender == caller ==> Owns(db, caller, id, db.transfers[k]);
  }

  /** The owner's answer, from the row, the clock and the two balances. */
  lemma OwnerOutcome(c: Config, db: Db, caller: UserId, id: TransferId, clock: Time, t: Transfer)
    requires ValidConfig(c) && Sound(c, db) && Owns(db, caller, id, t)
    ensures var resp := ClaimBack(c, db, caller, id, clock).1;
            if t.status.Reversed? then resp == Returned(id, t.status.senderAfter, t.status.at, true)
            else if t.createdAt + c.window <= clock then resp == Rejected(WindowExpired)
            else if !Returnable(db, t) then resp == Rejected(CheckViolated)
            else FirstSuccess(resp) && resp.Returned? && resp.id == id && resp.reversedAt == clock
                 && resp.newBalance == db.wallets[caller] + t.amount
    ensures !FirstSuccess(ClaimBack(c, db, caller, id, clock).1) ==> ClaimBack(c, db, caller, id, clock).0 == db
  {
    var i :| 0 <= i < |db.transfers| && db.transfers[i] == t;
    assert IdIndex(db.transfers, id) == i;
    assert RowSound(c, db.wallets, db.transfers[i]);
    SoundNonNegative(c, db);
    SubIsExact(db.wallets[t.recipient], t.amount);
    WrapIsNegative(db.wallets[t.sender], t.amount);
  }

  /** What a reversal leaves behind: the amount is back, and that row says so. */
  lemma ReturnedTables(c: Config, db: Db, caller: UserId, id: TransferId, clock: Time, t: Transfer)
    requires ValidConfig(c) && Sound(c, db) && Owns(db, caller, id, t)
    requires t.status.Completed? && clock < t.createdAt + c.window && Returnable(db, t)
    ensures var (db', resp) := ClaimBack(c, db, caller, id, clock);
            && db'.wallets.Keys == db.wallets.Keys
            && (forall u :: u in db.wallets ==>
                  db'.wallets[u] == db.wallets[u] + (if u == caller then t.amount else 0)
                                    - (if u == t.recipient then t.amount else 0))
            && |db'.transfers| == |db.transfers|
            && resp.Returned?
            && (forall j :: 0 <= j < |db.transfers| ==>
                  db'.transfers[j] == if db.transfers[j].id == id then t.(status := Reversed(clock, resp.newBalance))
                                      else db.transfers[j])
  {
    OwnerOutcome(c, db, caller, id, clock, t);
    var i :| 0 <= i < |db.transfers| && db.transfers[i] == t;
    assert IdIndex(db.transfers, id) == i;
    assert RowSound(c, db.wallets, db.transfers[i]);
    SoundNonNegative(c, db);
    ReverseApplied(c, db, i, clock);
  }

  /** A claim's answer, each exactly when: not found, replayed, expired, refused by the CHECK constraint, applied. */
  ghost predicate ClaimOutcome(c: Config, db: Db, caller: UserId, id: TransferId, clock: Time, resp: Response) {
    && (resp == Rejected(NotFound) <==> forall t :: !Owns(db, caller, id, t))
    && (resp.Returned? ==> resp.id == id)
    && (resp.Returned? && resp.replayed <==>
        exists t :: Owns(db, caller, id, t) && t.status.Reversed?)
    && (resp.Returned? && resp.replayed ==>
        exists t :: Owns(db, caller, id, t) && t.status == Reversed(resp.reversedAt, resp.newBalance))
    && (resp == Rejected(WindowExpired) <==>
        exists t :: Owns(db, caller, id, t) && t.status.Completed? && t.createdAt + c.window <= clock)
    && (resp == Rejected(CheckViolated) <==>
        exists t :: Owns(db, caller, id, t) && t.status.Completed? && clock < t.createdAt + c.window
                    && !Returnable(db, t))
    && (FirstSuccess(resp) <==>
        exists t :: Owns(db, caller, id, t) && t.status.Completed? && clock < t.createdAt + c.window
                    && Returnable(db, t))
  }

  lemma ClaimOutcomes(c: Config, db: Db, caller: UserId, id: TransferId, clock: Time)
    requires ValidConfig(c) && Sound(c, db)
    ensures ClaimOutcome(c, db, caller, id, clock, ClaimBack(c, db, caller, id, clock).1)
  {
    if t :| Owns(db, caller, id, t) {
      OnlyRow(c, db, caller, id, t);
      OwnerOutcome(c, db, caller, id, clock, t);
    } else {
      StrangerOutcome(c, db, caller, id, clock);
    }
  }

  lemma OnlyRow(c: Config, db: Db, caller: UserId, id: TransferId, t: Transfer)
    requires Sound(c, db) && Owns(db, caller, id, t)
    ensures forall t' :: Owns(db, caller, id, t') ==> t' == t
  {
  }

  // ----------------------------------------------------------------- queries

  /** A user without a wallet, and nobody else, is unknown; the figures are those of the user's rows. */
  lemma BalanceOutcome(c: Config, db: Db, u: UserId, clock: Time)
    requires Sound(c, db)
    ensures GetBalances(c, db, u, clock) == Unknown <==> u !in db.wallets
    ensures u in db.wallets ==>
              && GetBalances(c, db, u, clock).balance == c.seed + Received(db.transfers, u) - Paid(db.transfers, u)
              && GetBalances(c, db, u, clock).available ==
                 GetBalances(c, db, u, clock).balance - Held(c, db.transfers, u, clock)
  {
    if u in db.wallets { assert Balanced(c, db, u); }
  }

  // --------------------------------------------------------- storage failures

  /** No operation answers a storage failure: only a statement that fails can. */
  lemma NeverStorageFailure(c: Config, db: Db, e: Entry)
    ensures Apply(c, db, e).1 != Rejected(StorageFailure)
  {
  }
}
