/**
 * `Execute` and `ClaimBack` as the service runs them: each follows the program
 * of `Protocol`, so each answers and commits what its one-step operation in
 * `Ledger` does on the tables at one moment of the call.
 */
module TransferService {
  import opened Money
  import opened Ledger
  import opened LedgerLaws
  import opened History
  import opened Interference
  import opened Outcomes
  import opened Protocol
  import opened LocalState
  import opened OwnStep
  import opened Repository
  import opened Conform

  /** `tx` is where the request `p` of the protocol is. */
  ghost predicate Tracks(tx: Tx, p: Proc)
    reads tx
  {
    && tx.clock == p.clock
    && tx.inserted == Seeded(tx.store.c, p.inserted)
    && tx.locked == p.locked
    && tx.pending == p.pending
    && tx.writes == p.writes
  }

  ghost predicate Follows(tx: Tx, p: Proc)
    reads tx, tx.store
  {
    && tx.store.Live()
    && Tracks(tx, p)
    && DrawnFor(p, tx.id, tx.drawn)
    && InStep(tx.store.c, tx.store.Tables(), tx.id, p)
    && !p.job.Open?
  }

  /** The requests of the protocol that `tx` follows: its place in the program, and what it knows there. */
  ghost function Followed(tx: Tx): iset<Proc>
    reads tx, tx.store
  {
    iset p | Follows(tx, p)
  }

  ghost predicate Sync(tx: Tx, p: Proc)
    reads tx, tx.store
  {
    p in Followed(tx)
  }

  /** sort.Slice on two ids */
  method SortIds(ids: array<UserId>)
    requires ids.Length == 2
    modifies ids
    ensures ids[0] <= ids[1]
    ensures (ids[0] == old(ids[0]) && ids[1] == old(ids[1])) || (ids[0] == old(ids[1]) && ids[1] == old(ids[0]))
  {
    if ids[1] < ids[0] {
      ids[0], ids[1] := ids[1], ids[0];
    }
  }

  ghost predicate InOrder(ids: array<UserId>, p: Proc)
    reads ids
  {
    ids.Length == 2 && ids[0] == Id(p, 0) && ids[1] == Id(p, 1)
  }

  /** The two parties' ids, sorted. */
  method SortedIds(a: UserId, b: UserId, ghost p: Proc) returns (ids: array<UserId>)
    requires (a == p.payer && b == p.payee) || (a == p.payee && b == p.payer)
    ensures fresh(ids) && InOrder(ids, p)
  {
    ids := new UserId[2];
    ids[0], ids[1] := a, b;
    SortIds(ids);
  }

  ghost predicate SameRequest(p: Proc, p': Proc) {
    p'.job == p.job && p'.clock == p.clock && p'.payer == p.payer && p'.payee == p.payee && p'.amount == p.amount
  }

  /** What an elapsed wait leaves is a later state of the tables. */
  lemma Later(c: Config, db: Db, db': Db, mine: set<UserId>, drawn: set<TransferId>)
    requires Elapsed(c, db, db', mine, drawn)
    ensures Grows(db, db')
  {
    RelyWeaken(db, db', mine, {});
  }

  lemma MineIsHeld(tx: Tx, p: Proc)
    requires Tracks(tx, p)
    ensures tx.Mine() == Holds(p)
  {
  }

  /** One wallet's existence check. */
  method CheckWallet(tx: Tx, u: UserId, ghost p0: Proc) returns (r: Result<bool>, ghost p: Proc)
    requires Sync(tx, p0) && p0.pc.Exists? && u == Id(p0, p0.pc.k)
    modifies tx.store
    ensures tx.store.Live() && Grows(old(tx.store.Tables()), tx.store.Tables())
    ensures tx.store.Tells(old(tx.store.executed), r)
    ensures r.Ok? ==> Sync(tx, p) && p.pc == (if r.value then AfterInsert(p0.pc.k) else Insert(p0.pc.k))
    ensures r.Ok? ==> SameRequest(p0, p) && p.seen == map[]
    ensures r.Err? ==> r.error == STORAGE
  {
    p := p0;
    ghost var db := tx.store.Tables();
    assert u !in p.inserted;
    r := tx.WalletExists(u);
    Later(tx.store.c, db, tx.store.Tables(), tx.Mine(), tx.drawn);
    if r.Ok? {
      p := Advance(tx.store.c, db, tx.store.Tables(), tx.id, p, tx.drawn);
    }
  }

  /** The protocol's insert of one wallet, after a wait. */
  lemma InsertsWallet(c: Config, db: Db, db': Db, i: nat, p: Proc, drawn: set<TransferId>) returns (p': Proc)
    requires InStep(c, db, i, p) && DrawnFor(p, i, drawn) && Elapsed(c, db, db', Holds(p), drawn) && p.pc.Insert?
    ensures InStep(c, db', i, p') && p.seen == map[] && Id(p, p.pc.k) !in p.inserted
    ensures var u := Id(p, p.pc.k);
            p' == p.(inserted := if u in db'.wallets then p.inserted else p.inserted + {u}, pc := AfterInsert(p.pc.k))
  {
    p' := Advance(c, db, db', i, p, drawn);
  }

  /** One wallet's insert; whether this transaction or another created it makes no difference. */
  method CreateWallet(tx: Tx, u: UserId, ghost p0: Proc) returns (r: Result<bool>, ghost p: Proc)
    requires Sync(tx, p0) && p0.pc.Insert? && u == Id(p0, p0.pc.k)
    modifies tx.store, tx`inserted
    ensures tx.store.Live() && Grows(old(tx.store.Tables()), tx.store.Tables())
    ensures tx.store.Tells(old(tx.store.executed), r)
    ensures r.Ok? ==> Sync(tx, p) && p.pc == AfterInsert(p0.pc.k) && SameRequest(p0, p) && p.seen == map[]
    ensures r.Err? ==> r.error == STORAGE
  {
    ghost var db := tx.store.Tables();
    ghost var mine := tx.Mine();
    MineIsHeld(tx, p0);
    r := tx.InsertWallet(u, tx.store.c.seed);
    Later(tx.store.c, db, tx.store.Tables(), mine, tx.drawn);
    p := InsertsWallet(tx.store.c, db, tx.store.Tables(), tx.id, p0, tx.drawn);
  }

  /** Get-or-create one wallet. */
  method OpenOne(tx: Tx, u: UserId, ghost p0: Proc) returns (r: Result<()>, ghost p: Proc)
    requires Sync(tx, p0) && p0.pc.Exists? && u == Id(p0, p0.pc.k)
    modifies tx.store, tx`inserted
    ensures tx.store.Live() && Grows(old(tx.store.Tables()), tx.store.Tables())
    ensures tx.store.Tells(old(tx.store.executed), r)
    ensures r.Ok? ==> Sync(tx, p) && p.pc == AfterInsert(p0.pc.k) && SameRequest(p0, p) && p.seen == map[]
    ensures r.Err? ==> r.error == STORAGE
  {
    var found: Result<bool>;
    found, p := CheckWallet(tx, u, p0);
    if found.Err? { return Err(found.error), p; }
    if !found.value {
      ghost var db := tx.store.Tables();
      var created: Result<bool>;
      created, p := CreateWallet(tx, u, p);
      RelyTransitive(old(tx.store.Tables()), db, tx.store.Tables(), {});
      if created.Err? { return Err(created.error), p; }
    }
    r := Ok(());
  }

  /** Get-or-create both wallets, in ascending user id order. */
  method OpenWallets(tx: Tx, ids: array<UserId>, ghost p0: Proc) returns (r: Result<()>, ghost p: Proc)
    requires Sync(tx, p0) && p0.pc == Exists(0) && InOrder(ids, p0)
    modifies tx.store, tx`inserted
    ensures tx.store.Live() && Grows(old(tx.store.Tables()), tx.store.Tables())
    ensures tx.store.Tells(old(tx.store.executed), r)
    ensures r.Ok? ==> Sync(tx, p) && p.pc == Lock(0) && SameRequest(p0, p) && p.seen == map[]
    ensures r.Err? ==> r.error == STORAGE
  {
    r, p := Ok(()), p0;
    RelyReflexive(tx.store.Tables(), {});
    for k := 0 to 2
      invariant Sync(tx, p) && p.pc == (if k < 2 then Exists(k) else Lock(0))
      invariant r.Ok? && SameRequest(p0, p) && p.seen == map[]
      invariant Grows(old(tx.store.Tables()), tx.store.Tables())
      invariant tx.store.Tells(old(tx.store.executed), r)
    {
      ghost var db := tx.store.Tables();
      r, p := OpenOne(tx, ids[k], p);
      RelyTransitive(old(tx.store.Tables()), db, tx.store.Tables(), {});
      if r.Err? { return; }
    }
  }

  /** The protocol's lock of one wallet, after a wait. */
  lemma LocksRow(c: Config, db: Db, db': Db, i: nat, p: Proc, drawn: set<TransferId>) returns (p': Proc)
    requires InStep(c, db, i, p) && DrawnFor(p, i, drawn) && Elapsed(c, db, db', Holds(p), drawn) && p.pc.Lock?
    ensures InStep(c, db', i, p')
    ensures var u := Id(p, p.pc.k);
            && Visible(db', p, u)
            && p' == p.(locked := p.locked + {u}, seen := p.seen[u := CurrentBalance(c, db', p, u)],
                        pc := AfterLock(p, p.pc.k))
  {
    p' := Advance(c, db, db', i, p, drawn);
    OwnLock(c, db', i, p, p.pc.k, 0);
  }

  /** One wallet's lock. Both wallets exist by now, so it is always found. */
  method LockOne(tx: Tx, u: UserId, ghost p0: Proc) returns (r: Result<int64>, ghost p: Proc)
    requires Sync(tx, p0) && p0.pc.Lock? && u == Id(p0, p0.pc.k)
    modifies tx.store, tx`locked
    ensures tx.store.Live() && Grows(old(tx.store.Tables()), tx.store.Tables())
    ensures tx.store.Tells(old(tx.store.executed), r)
    ensures r.Ok? ==> Sync(tx, p) && p.pc == AfterLock(p0, p0.pc.k) && SameRequest(p0, p)
    ensures r.Ok? ==> p.seen == p0.seen[u := r.value] && p.seen.Keys == p0.seen.Keys + {u}
    ensures r.Err? ==> r.error == STORAGE
  {
    ghost var db := tx.store.Tables();
    ghost var mine := tx.Mine();
    MineIsHeld(tx, p0);
    r := tx.LockWallet(u);
    Later(tx.store.c, db, tx.store.Tables(), mine, tx.drawn);
    p := LocksRow(tx.store.c, db, tx.store.Tables(), tx.id, p0, tx.drawn);
  }

  /** The request `p0` has become `p` by locking its first `k` wallets, whose balances are `balances`. */
  ghost predicate LockedSo(p0: Proc, p: Proc, k: nat, balances: map<UserId, int64>) {
    && SameRequest(p0, p)
    && p.pc == (if k < 2 then Lock(k) else AfterLock(p0, 1))
    && p.seen == balances && balances.Keys == Ids(p0, k)
  }

  lemma LockedNext(p0: Proc, p: Proc, p': Proc, k: nat, balances: map<UserId, int64>, balances': map<UserId, int64>)
    requires k < 2 && LockedSo(p0, p, k, balances)
    requires SameRequest(p, p') && p'.pc == AfterLock(p, k)
    requires p'.seen == balances' && balances'.Keys == balances.Keys + {Id(p, k)}
    ensures LockedSo(p0, p', k + 1, balances')
  {
  }

  /** The lock of wallet `k`, in a call that began at tables `first` after `from` statements. */
  method LockNext(tx: Tx, u: UserId, ghost k: nat, balances: map<UserId, int64>, ghost p0: Proc, ghost p1: Proc,
                  ghost first: Db, ghost from: nat)
    returns (r: Result<map<UserId, int64>>, ghost p: Proc)
    requires k < 2 && Sync(tx, p1) && LockedSo(p0, p1, k, balances) && u == Id(p0, k)
    requires Grows(first, tx.store.Tables()) && tx.store.Tells(from, Ok(balances))
    modifies tx.store, tx`locked
    ensures tx.store.Live() && Grows(first, tx.store.Tables()) && tx.store.Tells(from, r)
    ensures r.Ok? ==> Sync(tx, p) && LockedSo(p0, p, k + 1, r.value)
    ensures r.Err? ==> r.error == STORAGE
  {
    ghost var db := tx.store.Tables();
    var balance: Result<int64>;
    balance, p := LockOne(tx, u, p1);
    RelyTransitive(first, db, tx.store.Tables(), {});
    if balance.Err? { return Err(balance.error), p; }
    r := Ok(balances[u := balance.value]);
    LockedNext(p0, p1, p, k, balances, r.value);
  }

  /** Lock both wallets, in ascending user id order, keeping the balances found. */
  method LockWallets(tx: Tx, ids: array<UserId>, ghost p0: Proc)
    returns (r: Result<map<UserId, int64>>, ghost p: Proc)
    requires Sync(tx, p0) && p0.pc == Lock(0) && p0.seen == map[] && InOrder(ids, p0)
    modifies tx.store, tx`locked
    ensures tx.store.Live() && Grows(old(tx.store.Tables()), tx.store.Tables())
    ensures tx.store.Tells(old(tx.store.executed), r)
    ensures r.Ok? ==> Sync(tx, p) && p.pc == AfterLock(p0, 1) && SameRequest(p0, p)
    ensures r.Ok? ==> p.seen == r.value && r.value.Keys == {p0.payer, p0.payee}
    ensures r.Err? ==> r.error == STORAGE
  {
    r, p := Ok(map[]), p0;
    RelyReflexive(tx.store.Tables(), {});
    for k := 0 to 2
      invariant r.Ok? && Sync(tx, p) && LockedSo(p0, p, k, r.value)
      invariant Grows(old(tx.store.Tables()), tx.store.Tables())
      invariant tx.store.Tells(old(tx.store.executed), r)
    {
      r, p := LockNext(tx, ids[k], k, r.value, p0, p, old(tx.store.Tables()), old(tx.store.executed));
      if r.Err? { return; }
    }
  }

  /** The two balance updates, taking from the payer and then giving to the payee. */
  method UpdateBalances(tx: Tx, payer: UserId, debit: int64, payee: UserId, credit: int64, ghost p0: Proc)
    returns (r: Result<()>, ghost p: Proc)
    requires Sync(tx, p0) && p0.pc.Debit? && (p0.job.Pay? ==> p0.held <= DebitOf(p0))
    requires payer == p0.payer && debit == DebitOf(p0) && payee == p0.payee && credit == CreditOf(p0)
    modifies tx.store, tx`writes
    ensures tx.store.Live() && Grows(old(tx.store.Tables()), tx.store.Tables())
    ensures tx.store.Tells(old(tx.store.executed), r)
    ensures r.Ok? ==> Sync(tx, p) && p.pc.Commit? && SuccessOf(tx.id, p) == SuccessOf(tx.id, p0) && SameRequest(p0, p)
    ensures r.Err? ==> r.error == STORAGE ||
                       (r.error == Because(CheckViolated) &&
                        Apply(tx.store.c, tx.store.Tables(), EntryOf(tx.id, p0)).1 == Rejected(CheckViolated))
  {
    ghost var db := tx.store.Tables();
    r, p := UpdatePayer(tx, payer, debit, p0);
    if r.Err? { return; }
    db := tx.store.Tables();
    r, p := UpdatePayee(tx, payee, credit, p);
    RelyTransitive(old(tx.store.Tables()), db, tx.store.Tables(), {});
  }

  /** The protocol's debit, the funds having been checked. */
  lemma DebitsPayer(c: Config, db: Db, db': Db, i: nat, p: Proc, drawn: set<TransferId>) returns (p': Proc)
    requires InStep(c, db, i, p) && DrawnFor(p, i, drawn) && Elapsed(c, db, db', Holds(p), drawn)
    requires p.pc.Debit? && (p.job.Pay? ==> p.held <= DebitOf(p))
    ensures InStep(c, db', i, p') && Visible(db', p, p.payer)
    ensures 0 <= DebitOf(p) ==> p' == p.(writes := p.writes[p.payer := DebitOf(p)], pc := Credit)
    ensures DebitOf(p) < 0 ==> Apply(c, db', EntryOf(i, p)).1 == Rejected(CheckViolated)
  {
    p' := Advance(c, db, db', i, p, drawn);
    if DebitOf(p) < 0 { DebitAnswers(c, db', i, p, 0); }
  }

  lemma CreditsPayee(c: Config, db: Db, db': Db, i: nat, p: Proc, drawn: set<TransferId>) returns (p': Proc)
    requires InStep(c, db, i, p) && DrawnFor(p, i, drawn) && Elapsed(c, db, db', Holds(p), drawn) && p.pc.Credit?
    ensures InStep(c, db', i, p') && Visible(db', p, p.payee)
    ensures 0 <= CreditOf(p) ==> p' == p.(writes := p.writes[p.payee := CreditOf(p)], pc := Commit)
    ensures CreditOf(p) < 0 ==> Apply(c, db', EntryOf(i, p)).1 == Rejected(CheckViolated)
  {
    p' := Advance(c, db, db', i, p, drawn);
    if CreditOf(p) < 0 { CreditAnswers(c, db', i, p, 0); }
  }

  method UpdatePayer(tx: Tx, payer: UserId, debit: int64, ghost p0: Proc) returns (r: Result<()>, ghost p: Proc)
    requires Sync(tx, p0) && p0.pc.Debit? && (p0.job.Pay? ==> p0.held <= DebitOf(p0))
    requires payer == p0.payer && debit == DebitOf(p0)
    modifies tx.store, tx`writes
    ensures tx.store.Live() && Grows(old(tx.store.Tables()), tx.store.Tables())
    ensures tx.store.Tells(old(tx.store.executed), r)
    ensures r.Ok? ==> Sync(tx, p) && p.pc.Credit? && SameRequest(p0, p) && p.seen == p0.seen
    ensures r.Err? ==> r.error == STORAGE ||
                       (r.error == Because(CheckViolated) &&
                        Apply(tx.store.c, tx.store.Tables(), EntryOf(tx.id, p0)).1 == Rejected(CheckViolated))
  {
    ghost var db := tx.store.Tables();
    MineIsHeld(tx, p0);
    r := tx.UpdateWalletBalance(payer, debit);
    Later(tx.store.c, db, tx.store.Tables(), tx.Mine(), tx.drawn);
    p := DebitsPayer(tx.store.c, db, tx.store.Tables(), tx.id, p0, tx.drawn);
  }

  method UpdatePayee(tx: Tx, payee: UserId, credit: int64, ghost p0: Proc) returns (r: Result<()>, ghost p: Proc)
    requires Sync(tx, p0) && p0.pc.Credit?
    requires payee == p0.payee && credit == CreditOf(p0)
    modifies tx.store, tx`writes
    ensures tx.store.Live() && Grows(old(tx.store.Tables()), tx.store.Tables())
    ensures tx.store.Tells(old(tx.store.executed), r)
    ensures r.Ok? ==> Sync(tx, p) && p.pc.Commit? && SameRequest(p0, p) && p.seen == p0.seen
    ensures r.Err? ==> r.error == STORAGE ||
                       (r.error == Because(CheckViolated) &&
                        Apply(tx.store.c, tx.store.Tables(), EntryOf(tx.id, p0)).1 == Rejected(CheckViolated))
  {
    ghost var db := tx.store.Tables();
    MineIsHeld(tx, p0);
    r := tx.UpdateWalletBalance(payee, credit);
    Later(tx.store.c, db, tx.store.Tables(), tx.Mine(), tx.drawn);
    p := CreditsPayee(tx.store.c, db, tx.store.Tables(), tx.id, p0, tx.drawn);
  }

  /**
   * If the call's last statement worked, the call acts as its one-step operation
   * `e` on the tables `before`. If not, it answers a storage failure and has
   * changed nothing, unless only the acknowledgement of its commit was lost.
   */
  ghost predicate AsOneStep(c: Config, before: Db, e: Entry, after: Db, resp: Response, last: Fate) {
    match last
    case Works => (after, resp) == Apply(c, before, e)
    case Fails => (after, resp) == (before, Rejected(StorageFailure))
    case Lost => resp == Rejected(StorageFailure) && (after == before || after == Apply(c, before, e).0)
  }

  lemma FailsByStatement(c: Config, before: Db, e: Entry, after: Db, resp: Response, last: Fate)
    requires AsOneStep(c, before, e, after, resp, last)
    ensures resp == Rejected(StorageFailure) <==> !last.Works?
  {
    NeverStorageFailure(c, before, e);
  }

  // ------------------------------------------------------------------ transfers

  /** The hold sum, read under the sender's lock. */
  method ReadHolds(tx: Tx, sender: UserId, ghost p0: Proc) returns (r: Result<int>, ghost p: Proc)
    requires Sync(tx, p0) && p0.pc.SumHolds? && sender == p0.payer
    modifies tx.store
    ensures tx.store.Live() && Grows(old(tx.store.Tables()), tx.store.Tables())
    ensures tx.store.Tells(old(tx.store.executed), r)
    ensures r.Ok? ==> Sync(tx, p) && p.pc.InsertTransfer? && SameRequest(p0, p)
                      && p.seen == p0.seen && p.held == r.value
    ensures r.Err? ==> r.error == STORAGE
  {
    ghost var db := tx.store.Tables();
    r := tx.SumActiveHolds(sender);
    Later(tx.store.c, db, tx.store.Tables(), tx.Mine(), tx.drawn);
    p := Advance(tx.store.c, db, tx.store.Tables(), tx.id, p0, tx.drawn);
  }

  /** The protocol's insert of the transfer row. */
  lemma InsertsRow(c: Config, db: Db, db': Db, i: nat, p: Proc, drawn: set<TransferId>, req: Request)
    returns (p': Proc)
    requires InStep(c, db, i, p) && DrawnFor(p, i, drawn) && Elapsed(c, db, db', Holds(p), drawn)
    requires p.pc.InsertTransfer? && p.job == Pay(req)
    ensures InStep(c, db', i, p') && FreshId(db', i)
    ensures KeyIndex(db'.transfers, req.sender, req.key) == |db'.transfers| ==>
              p' == p.(pc := Debit,
                       pending := NewRow(Transfer(i, req.sender, p.payee, req.amount, req.key, BodyOf(req),
                                                  DebitOf(p), p.clock, Completed)))
  {
    p' := Advance(c, db, db', i, p, drawn);
  }

  /** The transfer row, whose insert claims the idempotency key. */
  method ClaimKey(tx: Tx, req: Request, recipient: UserId, newBalance: int64, ghost p0: Proc)
    returns (r: Result<()>, ghost p: Proc)
    requires Sync(tx, p0) && p0.pc.InsertTransfer? && p0.job == Pay(req)
    requires recipient == p0.payee && newBalance == DebitOf(p0)
    modifies tx.store, tx`pending
    ensures tx.store.Live() && Grows(old(tx.store.Tables()), tx.store.Tables())
    ensures tx.store.Tells(old(tx.store.executed), r)
    ensures r.Ok? ==> Sync(tx, p) && p.pc.Debit? && SameRequest(p0, p) && p.seen == p0.seen && p.held == p0.held
    ensures r.Err? ==> r.error == STORAGE || (r.error == KeyExists && KeyClaimed(tx.store.Tables(), req))
  {
    ghost var db := tx.store.Tables();
    MineIsHeld(tx, p0);
    var done := tx.InsertTransfer(req.sender, recipient, req.amount, req.key, BodyOf(req), newBalance);
    Later(tx.store.c, db, tx.store.Tables(), tx.Mine(), tx.drawn);
    p := InsertsRow(tx.store.c, db, tx.store.Tables(), tx.id, p0, tx.drawn, req);
    if done.Err? { return Err(done.error), p; }
    if !done.value { return Err(KeyExists), p; }
    r := Ok(());
  }

  /** The transaction of a transfer, from its first statement to just before its commit. */
  method Transact(tx: Tx, req: Request, recipient: UserId, ghost p0: Proc) returns (r: Result<Response>, ghost p: Proc)
    requires Sync(tx, p0) && p0.pc == Exists(0) && p0.job == Pay(req) && recipient == p0.payee
    modifies tx.store, tx`inserted, tx`locked, tx`pending, tx`writes
    ensures tx.store.Live() && Grows(old(tx.store.Tables()), tx.store.Tables())
    ensures tx.store.Tells(old(tx.store.executed), r)
    ensures r.Ok? ==> Sync(tx, p) && p.pc.Commit? && EntryOf(tx.id, p) == EntryOf(tx.id, p0)
                      && r.value == SuccessOf(tx.id, p)
    ensures r.Err? ==>
              || r.error == STORAGE
              || (r.error == KeyExists && KeyClaimed(tx.store.Tables(), req))
              || (r.error.Because? &&
                  Apply(tx.store.c, tx.store.Tables(), EntryOf(tx.id, p0)).1 == Rejected(r.error.reason))
  {
    var balances: Result<map<UserId, int64>>;
    balances, p := OpenAndLock(tx, req.sender, recipient, p0);
    if balances.Err? { return Err(balances.error), p; }
    ghost var db := tx.store.Tables();
    r, p := PostTransfer(tx, req, recipient, balances.value, p);
    RelyTransitive(old(tx.store.Tables()), db, tx.store.Tables(), {});
  }

  method OpenAndLock(tx: Tx, sender: UserId, recipient: UserId, ghost p0: Proc)
    returns (r: Result<map<UserId, int64>>, ghost p: Proc)
    requires Sync(tx, p0) && p0.pc == Exists(0) && sender == p0.payer && recipient == p0.payee
    modifies tx.store, tx`inserted, tx`locked
    ensures tx.store.Live() && Grows(old(tx.store.Tables()), tx.store.Tables())
    ensures tx.store.Tells(old(tx.store.executed), r)
    ensures r.Ok? ==> Sync(tx, p) && p.pc.SumHolds? && SameRequest(p0, p)
    ensures r.Ok? ==> p.seen == r.value && r.value.Keys == {p0.payer, p0.payee}
    ensures r.Err? ==> r.error == STORAGE
  {
    var ids := SortedIds(sender, recipient, p0);
    var ready: Result<()>;
    ready, p := OpenWallets(tx, ids, p0);
    if ready.Err? { return Err(ready.error), p; }
    ghost var db := tx.store.Tables();
    r, p := LockWallets(tx, ids, p);
    RelyTransitive(old(tx.store.Tables()), db, tx.store.Tables(), {});
  }

  /** The hold sum, and then the key: claimed before the funds are looked at. */
  method HoldsAndKey(tx: Tx, req: Request, recipient: UserId, newBalance: int64, ghost p0: Proc)
    returns (r: Result<int>, ghost p: Proc)
    requires Sync(tx, p0) && p0.pc.SumHolds? && p0.job == Pay(req)
    requires req.sender == p0.payer && recipient == p0.payee && newBalance == DebitOf(p0)
    modifies tx.store, tx`pending
    ensures tx.store.Live() && Grows(old(tx.store.Tables()), tx.store.Tables())
    ensures tx.store.Tells(old(tx.store.executed), r)
    ensures r.Ok? ==> Sync(tx, p) && p.pc.Debit? && SameRequest(p0, p) && p.seen == p0.seen && p.held == r.value
    ensures r.Err? ==> r.error == STORAGE || (r.error == KeyExists && KeyClaimed(tx.store.Tables(), req))
  {
    r, p := ReadHolds(tx, req.sender, p0);
    if r.Err? { return; }
    ghost var db := tx.store.Tables();
    var claimed: Result<()>;
    claimed, p := ClaimKey(tx, req, recipient, newBalance, p);
    RelyTransitive(old(tx.store.Tables()), db, tx.store.Tables(), {});
    if claimed.Err? { r := Err(claimed.error); }
  }

  /** Holds, key, funds check and balances, under both locks. */
  method PostTransfer(tx: Tx, req: Request, recipient: UserId, balances: map<UserId, int64>, ghost p0: Proc)
    returns (r: Result<Response>, ghost p: Proc)
    requires Sync(tx, p0) && p0.pc.SumHolds? && p0.job == Pay(req)
    requires recipient == p0.payee && p0.seen == balances && balances.Keys == {p0.payer, p0.payee}
    modifies tx.store, tx`pending, tx`writes
    ensures tx.store.Live() && Grows(old(tx.store.Tables()), tx.store.Tables())
    ensures tx.store.Tells(old(tx.store.executed), r)
    ensures r.Ok? ==> Sync(tx, p) && p.pc.Commit? && EntryOf(tx.id, p) == EntryOf(tx.id, p0)
                      && r.value == SuccessOf(tx.id, p)
    ensures r.Err? ==>
              || r.error == STORAGE
              || (r.error == KeyExists && KeyClaimed(tx.store.Tables(), req))
              || (r.error.Because? &&
                  Apply(tx.store.c, tx.store.Tables(), EntryOf(tx.id, p0)).1 == Rejected(r.error.reason))
  {
    assert req.sender == p0.payer && req.amount == p0.amount;
    var newBalance := Sub64(balances[req.sender], req.amount);
    var held: Result<int>;
    held, p := HoldsAndKey(tx, req, recipient, newBalance, p0);
    if held.Err? { return Err(held.error), p; }
    if newBalance < held.value {
      DebitAnswers(tx.store.c, tx.store.Tables(), tx.id, p, 0);
      return Err(Because(InsufficientFunds)), p;
    }
    ghost var db := tx.store.Tables();
    var updated: Result<()>;
    updated, p := UpdateBalances(tx, req.sender, newBalance, recipient, Add64(balances[recipient], req.amount), p);
    RelyTransitive(old(tx.store.Tables()), db, tx.store.Tables(), {});
    if updated.Err? { return Err(updated.error), p; }
    r := Ok(Sent(tx.id, newBalance, false));
  }

  /** The writes `p` has buffered in `tx` install what the protocol commits. */
  lemma InstallsCommit(tx: Tx, p: Proc, db: Db)
    requires Tracks(tx, p)
    ensures tx.Installed(db) == CommitDb(tx.store.c, db, p)
  {
  }

  /** COMMIT, and what the caller learns of it. */
  method Finish(tx: Tx, ghost p0: Proc) returns (acknowledged: bool, ghost before: Db)
    requires Sync(tx, p0) && p0.pc.Commit?
    modifies tx.store
    ensures tx.store.Live() && Grows(old(tx.store.Tables()), before)
    ensures tx.store.executed == old(tx.store.executed) + 1
    ensures acknowledged <==> tx.store.Outcome(old(tx.store.executed)).Works?
    ensures var (db, resp) := Apply(tx.store.c, before, EntryOf(tx.id, p0));
            && resp == SuccessOf(tx.id, p0)
            && tx.store.Tables() == if tx.store.Outcome(old(tx.store.executed)).Fails? then before else db
  {
    ghost var db := tx.store.Tables();
    MineIsHeld(tx, p0);
    tx.Wait();
    before := tx.store.Tables();
    Later(tx.store.c, db, before, tx.Mine(), tx.drawn);
    Waited(tx.store.c, db, before, tx.id, p0, tx.drawn);
    CommitIsApply(tx.store.c, before, tx.id, p0);
    InstallsCommit(tx, p0, before);
    ApplySound(tx.store.c, before, EntryOf(tx.id, p0));
    acknowledged := tx.Commit();
  }

  /** Outside the transaction, after its rollback: same body, replay; different body, conflict. */
  method ResolveExistingKey(store: Store, req: Request, clock: Time, id: TransferId) returns (resp: Response)
    requires store.Live() && Validate(store.c, req).Fine? && KeyClaimed(store.Tables(), req)
    modifies store
    ensures store.Live() && Grows(old(store.Tables()), store.Tables())
    ensures old(store.executed) < store.executed
    ensures AsOneStep(store.c, store.Tables(), Entry(id, Pay(req), clock), store.Tables(), resp,
                      store.Outcome(old(store.executed)))
  {
    ghost var db := store.Tables();
    var found := store.GetTransferBySenderKey(req.sender, req.key, {});
    KeyIndexKept(db.transfers, store.transfers, req.sender, req.key);
    if found.Err? { return Rejected(StorageFailure); }
    var existing := found.value;
    if existing.body != BodyOf(req) { return Rejected(KeyConflict); }
    resp := Sent(existing.id, existing.senderAfter, true);
  }

  /** The request of the protocol whose transaction has just begun. */
  ghost function Begun(c: Config, req: Request, clock: Time): Proc {
    Act(c, Db(map[], []), clock, 0, 0, Newcomer(c, 0, Pay(req))).p
  }

  lemma BegunLocal(c: Config, db: Db, id: TransferId, req: Request, clock: Time)
    requires Validate(c, req).Fine?
    ensures InProgram(c, Newcomer(c, 0, Pay(req))) && Newcomer(c, 0, Pay(req)).pc.Begin?
    ensures Local(c, db, id, Begun(c, req, clock)) && Begun(c, req, clock).pc == Exists(0)
  {
    OwnBegin(c, db, id, Newcomer(c, 0, Pay(req)), clock, 0);
  }

  /**
   * Execute moves `amount` from `sender` to the user named `toUsername`. Its
   * transaction begins at `clock` and draws the row id `id`. Whatever others
   * commit meanwhile, it acts as the one-step operation on the tables `before`.
   */
  method Execute(store: Store, sender: UserId, toUsername: string, amount: int64, key: string,
                 clock: Time, id: TransferId)
    returns (resp: Response, ghost before: Db)
    requires store.Live() && FreshId(store.Tables(), id)
    modifies store
    ensures store.Live() && Grows(old(store.Tables()), before)
    ensures AsOneStep(store.c, before, Entry(id, Pay(Request(sender, toUsername, amount, key)), clock),
                      store.Tables(), resp, store.Outcome(old(store.executed)))
  {
    var req := Request(sender, toUsername, amount, key);
    before := store.Tables();
    RelyReflexive(before, {});
    if amount <= 0 { return Rejected(BadAmount), before; }
    if key == "" || |key| > 128 { return Rejected(BadKey), before; }
    var found := store.GetUserByUsername(toUsername);
    if found == Err(Because(NotFound)) { return Rejected(UnknownRecipient), before; }
    if found.Err? { return Rejected(StorageFailure), before; }
    var recipient := found.value;
    if recipient == sender { return Rejected(SelfTransfer), before; }
    resp, before := ExecuteValid(store, req, recipient, clock, id);
  }

  method ExecuteValid(store: Store, req: Request, recipient: UserId, clock: Time, id: TransferId)
    returns (resp: Response, ghost before: Db)
    requires store.Live() && FreshId(store.Tables(), id)
    requires Validate(store.c, req).Fine? && recipient == store.c.users[req.to]
    modifies store
    ensures store.Live() && Grows(old(store.Tables()), before)
    ensures old(store.executed) < store.executed
    ensures AsOneStep(store.c, before, Entry(id, Pay(req), clock), store.Tables(), resp,
                      store.Outcome(old(store.executed)))
  {
    before := store.Tables();
    RelyReflexive(before, {});
    var begun := store.BeginTx(clock, id, {id});
    if begun.Err? { return Rejected(StorageFailure), before; }
    var tx := begun.value;
    BegunLocal(store.c, store.Tables(), id, req, clock);
    var r: Result<Response>;
    ghost var p: Proc;
    ghost var db := store.Tables();
    r, p := Transact(tx, req, recipient, Begun(store.c, req, clock));
    before := store.Tables();
    match r
    case Ok(success) =>
      ghost var mid := before;
      var acknowledged: bool;
      acknowledged, before := Finish(tx, p);
      RelyTransitive(db, mid, before, {});
      resp := if acknowledged then success else Rejected(StorageFailure);
    case Err(KeyExists) =>
      resp := ResolveExistingKey(store, req, clock, id);
      RelyTransitive(db, before, store.Tables(), {});
      before := store.Tables();
    case Err(NotApplied) =>
      assert false;
    case Err(Because(reason)) =>
      resp := Rejected(reason);
  }

  // ------------------------------------------------------------------ reversals

  method LockParties(tx: Tx, a: UserId, b: UserId, ghost p0: Proc)
    returns (r: Result<map<UserId, int64>>, ghost p: Proc)
    requires Sync(tx, p0) && p0.pc == Lock(0) && p0.seen == map[] && a == p0.payee && b == p0.payer
    modifies tx.store, tx`locked
    ensures tx.store.Live() && Grows(old(tx.store.Tables()), tx.store.Tables())
    ensures tx.store.Tells(old(tx.store.executed), r)
    ensures r.Ok? ==> Sync(tx, p) && p.pc == AfterLock(p0, 1) && SameRequest(p0, p)
    ensures r.Ok? ==> p.seen == r.value && r.value.Keys == {p0.payer, p0.payee}
    ensures r.Err? ==> r.error == STORAGE
  {
    var ids := SortedIds(a, b, p0);
    r, p := LockWallets(tx, ids, p0);
  }

  /** The protocol's conditional reversal. */
  lemma MarksRow(c: Config, db: Db, db': Db, i: nat, p: Proc, drawn: set<TransferId>) returns (p': Proc)
    requires InStep(c, db, i, p) && DrawnFor(p, i, drawn) && Elapsed(c, db, db', Holds(p), drawn) && p.pc.Mark?
    ensures InStep(c, db', i, p') && p.job.Reclaim?
    ensures Flippable(c, db', p) ==> p' == p.(pc := Debit, pending := Flip(p.job.id, p.clock, CreditOf(p)))
    ensures !Flippable(c, db', p) ==> Claiming(db', p) && Unapplied(c, db', p)
  {
    p' := Advance(c, db, db', i, p, drawn);
  }

  /** The conditional reversal, under both locks. */
  method Mark(tx: Tx, transfer: TransferId, senderAfter: int64, ghost p0: Proc) returns (r: Result<()>, ghost p: Proc)
    requires Sync(tx, p0) && p0.pc.Mark? && p0.job.id == transfer && senderAfter == CreditOf(p0)
    modifies tx.store, tx`pending
    ensures tx.store.Live() && Grows(old(tx.store.Tables()), tx.store.Tables())
    ensures tx.store.Tells(old(tx.store.executed), r)
    ensures r.Ok? ==> Sync(tx, p) && p.pc.Debit? && SameRequest(p0, p) && p.seen == p0.seen
    ensures r.Err? ==> r.error == STORAGE ||
                       (r.error == NotApplied && Claiming(tx.store.Tables(), p0)
                        && Unapplied(tx.store.c, tx.store.Tables(), p0))
  {
    ghost var db := tx.store.Tables();
    MineIsHeld(tx, p0);
    var marked := tx.MarkReversed(transfer, senderAfter);
    Later(tx.store.c, db, tx.store.Tables(), tx.Mine(), tx.drawn);
    p := MarksRow(tx.store.c, db, tx.store.Tables(), tx.id, p0, tx.drawn);
    if marked.Err? { return Err(marked.error), p; }
    if !marked.value { return Err(NotApplied), p; }
    r := Ok(());
  }

  /** The transaction of a claim, from its first lock to just before its commit. */
  method TransactClaim(tx: Tx, tr: Transfer, ghost p0: Proc) returns (r: Result<Response>, ghost p: Proc)
    requires Sync(tx, p0) && p0.pc == Lock(0) && p0.seen == map[]
    requires p0.job == Reclaim(tr.sender, tr.id)
    requires p0.payee == tr.sender && p0.payer == tr.recipient && p0.amount == tr.amount
    modifies tx.store, tx`locked, tx`pending, tx`writes
    ensures tx.store.Live() && Grows(old(tx.store.Tables()), tx.store.Tables())
    ensures tx.store.Tells(old(tx.store.executed), r)
    ensures r.Ok? ==> Sync(tx, p) && p.pc.Commit? && EntryOf(tx.id, p) == EntryOf(tx.id, p0)
                      && r.value == SuccessOf(tx.id, p)
    ensures r.Err? ==>
              || r.error == STORAGE
              || (r.error == NotApplied && Claiming(tx.store.Tables(), p0)
                  && Unapplied(tx.store.c, tx.store.Tables(), p0))
              || (r.error.Because? &&
                  Apply(tx.store.c, tx.store.Tables(), EntryOf(tx.id, p0)).1 == Rejected(r.error.reason))
  {
    var balances: Result<map<UserId, int64>>;
    balances, p := LockParties(tx, tr.sender, tr.recipient, p0);
    if balances.Err? { return Err(balances.error), p; }
    ghost var db := tx.store.Tables();
    r, p := ReverseUnderLocks(tx, tr, balances.value, p);
    RelyTransitive(old(tx.store.Tables()), db, tx.store.Tables(), {});
  }

  method ReverseUnderLocks(tx: Tx, tr: Transfer, balances: map<UserId, int64>, ghost p0: Proc)
    returns (r: Result<Response>, ghost p: Proc)
    requires Sync(tx, p0) && p0.pc.Mark? && p0.job == Reclaim(tr.sender, tr.id)
    requires p0.payee == tr.sender && p0.payer == tr.recipient && p0.amount == tr.amount
    requires p0.seen == balances && balances.Keys == {p0.payer, p0.payee}
    modifies tx.store, tx`pending, tx`writes
    ensures tx.store.Live() && Grows(old(tx.store.Tables()), tx.store.Tables())
    ensures tx.store.Tells(old(tx.store.executed), r)
    ensures r.Ok? ==> Sync(tx, p) && p.pc.Commit? && EntryOf(tx.id, p) == EntryOf(tx.id, p0)
                      && r.value == SuccessOf(tx.id, p)
    ensures r.Err? ==>
              || r.error == STORAGE
              || (r.error == NotApplied && Claiming(tx.store.Tables(), p0)
                  && Unapplied(tx.store.c, tx.store.Tables(), p0))
              || (r.error.Because? &&
                  Apply(tx.store.c, tx.store.Tables(), EntryOf(tx.id, p0)).1 == Rejected(r.error.reason))
  {
    var senderAfter := Add64(balances[tr.sender], tr.amount);
    var marked: Result<()>;
    marked, p := Mark(tx, tr.id, senderAfter, p0);
    if marked.Err? { return Err(marked.error), p; }
    ghost var db := tx.store.Tables();
    var updated: Result<()>;
    updated, p := UpdateBalances(tx, tr.recipient, Sub64(balances[tr.recipient], tr.amount), tr.sender, senderAfter, p);
    RelyTransitive(old(tx.store.Tables()), db, tx.store.Tables(), {});
    if updated.Err? { return Err(updated.error), p; }
    r := Ok(Returned(tr.id, senderAfter, tx.clock, false));
  }

  /** The request of the protocol whose claim of the row `tr` has just begun its transaction. */
  ghost function ClaimBegun(tr: Transfer, clock: Time): Proc {
    Proc(Reclaim(tr.sender, tr.id), Lock(0), clock, tr.recipient, tr.sender, tr.amount,
         {}, {}, map[], 0, Nothing, map[], 0, 0, 0)
  }

  lemma ClaimBegunLocal(c: Config, db: Db, id: nat, k: nat, clock: Time)
    requires Sound(c, db) && k < |db.transfers| && k == IdIndex(db.transfers, db.transfers[k].id)
    ensures Local(c, db, id, ClaimBegun(db.transfers[k], clock))
  {
    assert RowSound(c, db.wallets, db.transfers[k]);
  }

  /** Outside the transaction, after its rollback: a claim has won, or the window has expired. */
  method ResolveUnappliedClaim(store: Store, transfer: TransferId, clock: Time, ghost p: Proc) returns (resp: Response)
    requires store.Live() && Claiming(store.Tables(), p) && Unapplied(store.c, store.Tables(), p)
    requires p.job.id == transfer && p.clock == clock
    modifies store
    ensures store.Live() && Grows(old(store.Tables()), store.Tables())
    ensures old(store.executed) < store.executed
    ensures AsOneStep(store.c, store.Tables(), EntryOf(0, p), store.Tables(), resp, store.Outcome(old(store.executed)))
  {
    ghost var db := store.Tables();
    var found := store.GetTransferByID(transfer, {});
    ClaimingStable(db, store.Tables(), p);
    UnappliedStable(store.c, db, store.Tables(), p);
    assert RowSound(store.c, store.wallets, store.transfers[IdIndex(store.transfers, transfer)]);
    if found.Err? { return Rejected(StorageFailure); }
    if found.value.status.Reversed? { return ReplayClaim(found.value); }
    resp := Rejected(WindowExpired);
  }

  /**
   * ClaimBack reverses the transfer `id` for its sender; its transaction begins
   * at `clock`. It too acts as the one-step operation on the tables `before`.
   */
  method ClaimBack(store: Store, caller: UserId, id: TransferId, clock: Time)
    returns (resp: Response, ghost before: Db)
    requires store.Live()
    modifies store
    ensures store.Live() && Grows(old(store.Tables()), before)
    ensures AsOneStep(store.c, before, Entry(0, Reclaim(caller, id), clock), store.Tables(), resp,
                      store.Outcome(old(store.executed)))
  {
    ghost var db := store.Tables();
    var found := store.GetTransferByID(id, {});
    before := store.Tables();
    if found == Err(Because(NotFound)) { return Rejected(NotFound), before; }
    if found.Err? { return Rejected(StorageFailure), before; }
    var tr := found.value;
    if tr.sender != caller { return Rejected(NotFound), before; }
    if tr.status.Reversed? { return ReplayClaim(tr), before; }
    ghost var mid := before;
    resp, before := ClaimFound(store, tr, clock);
    RelyTransitive(db, mid, before, {});
  }

  method ClaimFound(store: Store, tr: Transfer, clock: Time) returns (resp: Response, ghost before: Db)
    requires store.Live()
    requires var k := IdIndex(store.transfers, tr.id); k < |store.transfers| && tr == store.transfers[k]
    modifies store
    ensures store.Live() && Grows(old(store.Tables()), before)
    ensures old(store.executed) < store.executed
    ensures AsOneStep(store.c, before, Entry(0, Reclaim(tr.sender, tr.id), clock), store.Tables(), resp,
                      store.Outcome(old(store.executed)))
  {
    before := store.Tables();
    RelyReflexive(before, {});
    var begun := store.BeginTx(clock, 0, {});
    if begun.Err? { return Rejected(StorageFailure), before; }
    var tx := begun.value;
    ClaimBegunLocal(store.c, store.Tables(), 0, IdIndex(store.transfers, tr.id), clock);
    ghost var p0 := ClaimBegun(tr, clock);
    ghost var db := store.Tables();
    var r: Result<Response>;
    ghost var p: Proc;
    r, p := TransactClaim(tx, tr, p0);
    before := store.Tables();
    match r
    case Ok(success) =>
      ghost var mid := before;
      var acknowledged: bool;
      acknowledged, before := Finish(tx, p);
      RelyTransitive(db, mid, before, {});
      resp := if acknowledged then success else Rejected(StorageFailure);
    case Err(NotApplied) =>
      resp := ResolveUnappliedClaim(store, tr.id, clock, p0);
      RelyTransitive(db, before, store.Tables(), {});
      before := store.Tables();
    case Err(KeyExists) =>
      assert false;
    case Err(Because(reason)) =>
      resp := Rejected(reason);
  }
}
