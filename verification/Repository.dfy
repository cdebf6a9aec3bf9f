/**
 * The store and the statements of one database transaction, over mutable
 * tables that other requests keep changing: before every statement any number
 * of operations of others may commit, as long as they leave alone the rows this
 * transaction holds (`Guarantees.WaitingIsRely` shows that they do).
 */
module Repository {
  import opened Money
  import opened Ledger
  import opened LedgerLaws
  import opened History
  import opened Interference
  import opened Protocol
  import opened Serial

  /** Why a transaction's function ended with an error. */
  datatype TxError = KeyExists | NotApplied | Because(reason: Reason)

  datatype Result<+T> = Ok(value: T) | Err(error: TxError) {
    predicate IsFailure() { Err? }
    function PropagateFailure<U>(): Result<U>
      requires Err?
    {
      Err(error)
    }
    function Extract(): T
      requires Ok?
    {
      value
    }
  }

  /** What get-or-create answers. */
  datatype Wallet = Wallet(balance: int64, created: bool, raceLost: bool)

  /** What becomes of a statement: it works, it fails, or it takes effect and only its acknowledgement is lost. */
  datatype Fate = Works | Fails | Lost

  const STORAGE: TxError := Because(StorageFailure)

  predicate FreshId(db: Db, id: TransferId) { IdIndex(db.transfers, id) == |db.transfers| }

  /**
   * What may have happened to the tables while a transaction that holds the rows
   * of `mine`, and drew the random row ids in `drawn`, waited.
   */
  ghost predicate Elapsed(c: Config, db: Db, db': Db, mine: set<UserId>, drawn: set<TransferId>) {
    && Rely(db, db', mine)
    && Sound(c, db')
    && (forall id :: id in drawn && FreshId(db, id) ==> FreshId(db', id))
  }

  lemma ElapsedStep(c: Config, db: Db, db': Db, mine: set<UserId>, drawn: set<TransferId>, e: Entry)
    requires ValidConfig(c) && Sound(c, db') && Elapsed(c, db, db', mine, drawn)
    requires Parties(c, db', e.job) !! mine && e.pid !in drawn
    ensures Elapsed(c, db, Apply(c, db', e).0, mine, drawn)
  {
    ApplyRely(c, db', e, mine);
    ApplySound(c, db', e);
    RelyTransitive(db, db', Apply(c, db', e).0, mine);
    forall id | id in drawn && FreshId(db, id) ensures FreshId(Apply(c, db', e).0, id) {
      ApplyIds(c, db', e, id);
    }
  }

  /** `fate` says of each statement that the service executes, counted from 0, what becomes of it. */
  class Store {
    const c: Config
    const fate: nat -> Fate
    var executed: nat
    var wallets: map<UserId, int64>
    var transfers: seq<Transfer>

    constructor (c: Config, fate: nat -> Fate)
      requires ValidConfig(c)
      ensures this.c == c && this.fate == fate && executed == 0
      ensures Tables() == Db(map[], []) && Live()
    {
      this.c, this.fate, executed, wallets, transfers := c, fate, 0, map[], [];
    }

    function Tables(): Db
      reads `wallets, `transfers
    {
      Db(wallets, transfers)
    }

    ghost predicate Live()
      reads `wallets, `transfers
    {
      ValidConfig(c) && Sound(c, Tables())
    }

    function FateOf(n: nat): Fate { fate(n) }

    /** What became of the last statement executed since `from`; it works to execute none. */
    function Outcome(from: nat): Fate
      reads `executed
    {
      if from < executed then FateOf(executed - 1) else Works
    }

    /** `r` is a storage error exactly if the last statement executed since `from` did not work. */
    ghost predicate Tells<T>(from: nat, r: Result<T>)
      reads `executed
    {
      from <= executed && (r.Err? && r.error == STORAGE <==> !Outcome(from).Works?)
    }

    method Statement() returns (f: Fate)
      modifies `executed
      ensures executed == old(executed) + 1 && f == FateOf(old(executed)) == Outcome(old(executed))
    {
      f := FateOf(executed);
      executed := executed + 1;
    }

    /** Other requests commit any operations that do not touch the users in `mine` or reuse a drawn id. */
    method Others(mine: set<UserId>, drawn: set<TransferId>)
      requires Live()
      modifies `wallets, `transfers
      ensures Live() && Elapsed(c, old(Tables()), Tables(), mine, drawn)
    {
      ghost var before := Tables();
      RelyReflexive(before, mine);
      var n: nat := *;
      while n > 0
        invariant Live() && Elapsed(c, before, Tables(), mine, drawn)
        decreases n
      {
        var e: Entry := *;
        if Parties(c, Tables(), e.job) !! mine && e.pid !in drawn {
          var db := Apply(c, Tables(), e).0;
          ElapsedStep(c, before, Tables(), mine, drawn, e);
          wallets, transfers := db.wallets, db.transfers;
        }
        n := n - 1;
      }
    }

    /** GetUserByUsername: the users table does not change. */
    method GetUserByUsername(name: string) returns (r: Result<UserId>)
      modifies `executed
      ensures executed == old(executed) + 1 && Tells(old(executed), r)
      ensures r.Ok? ==> name in c.users && r.value == c.users[name]
      ensures r.Err? && r.error != STORAGE ==> r.error == Because(NotFound) && name !in c.users
    {
      var f := Statement();
      if !f.Works? { return Err(STORAGE); }
      if name !in c.users { return Err(Because(NotFound)); }
      r := Ok(c.users[name]);
    }

    /** GetTransferByID: one read outside any transaction. */
    method GetTransferByID(id: TransferId, drawn: set<TransferId>) returns (r: Result<Transfer>)
      requires Live()
      modifies this
      ensures Live() && Elapsed(c, old(Tables()), Tables(), {}, drawn)
      ensures executed == old(executed) + 1 && Tells(old(executed), r)
      ensures r.Ok? ==> IdIndex(transfers, id) < |transfers| && r.value == transfers[IdIndex(transfers, id)]
      ensures r.Err? && r.error != STORAGE ==>
                r.error == Because(NotFound) && IdIndex(transfers, id) == |transfers|
    {
      Others({}, drawn);
      var f := Statement();
      if !f.Works? { return Err(STORAGE); }
      var k := IdIndex(transfers, id);
      if k == |transfers| { return Err(Because(NotFound)); }
      r := Ok(transfers[k]);
    }

    /** GetTransferBySenderKey: likewise. */
    method GetTransferBySenderKey(sender: UserId, key: string, drawn: set<TransferId>) returns (r: Result<Transfer>)
      requires Live()
      modifies this
      ensures Live() && Elapsed(c, old(Tables()), Tables(), {}, drawn)
      ensures executed == old(executed) + 1 && Tells(old(executed), r)
      ensures r.Ok? ==>
                KeyIndex(transfers, sender, key) < |transfers| && r.value == transfers[KeyIndex(transfers, sender, key)]
      ensures r.Err? && r.error != STORAGE ==>
                r.error == Because(NotFound) && KeyIndex(transfers, sender, key) == |transfers|
    {
      Others({}, drawn);
      var f := Statement();
      if !f.Works? { return Err(STORAGE); }
      var k := KeyIndex(transfers, sender, key);
      if k == |transfers| { return Err(Because(NotFound)); }
      r := Ok(transfers[k]);
    }

    /**
     * GetOrCreateWallet: three statements, each its own transaction. `looked`,
     * `resolved` and the final tables are those the three statements saw.
     */
    method GetOrCreateWallet(u: UserId) returns (r: Result<Wallet>, ghost looked: Db, ghost resolved: Db)
      requires Live()
      modifies this
      ensures Live() && Grows(old(Tables()), looked) && Grows(looked, resolved) && Grows(resolved, Tables())
      ensures Tells(old(executed), r)
      ensures r.Ok? ==>
                && executed == old(executed) + (if u in looked.wallets then 2 else 3)
                && (r.value.created <==> u !in looked.wallets && u !in resolved.wallets)
                && (r.value.raceLost <==> u !in looked.wallets && u in resolved.wallets)
                && Grows(resolved.(wallets := OpenWallet(c, resolved.wallets, u)), Tables())
                && u in wallets && r.value.balance == wallets[u]
      ensures r.Err? ==> r.error == STORAGE
    {
      Others({}, {});
      looked, resolved := Tables(), Tables();
      RelyReflexive(looked, {});
      var f := Statement();
      if !f.Works? { return Err(STORAGE), looked, resolved; }
      var created, raceLost := false, false;
      if u !in wallets {
        Others({}, {});
        resolved := Tables();
        RelyReflexive(resolved, {});
        f := Statement();
        if f.Fails? { return Err(STORAGE), looked, resolved; }
        created := u !in wallets;
        raceLost := !created;
        OpenSound(c, resolved, u);
        wallets := OpenWallet(c, wallets, u);
        if f.Lost? { return Err(STORAGE), looked, resolved; }
      }
      ghost var opening := Tables();
      Others({}, {});
      RelyTransitive(resolved, opening, Tables(), {});
      f := Statement();
      if !f.Works? { return Err(STORAGE), looked, resolved; }
      r := Ok(Wallet(wallets[u], created, raceLost));
    }

    /** GetWalletBalances: one statement, so both figures are from one snapshot. */
    method GetWalletBalances(u: UserId, clock: Time) returns (r: Result<Balances>)
      requires Live()
      modifies this
      ensures Live() && Elapsed(c, old(Tables()), Tables(), {}, {})
      ensures executed == old(executed) + 1 && Tells(old(executed), r)
      ensures r.Ok? ==> r.value == GetBalances(c, Tables(), u, clock) && (r.value.Unknown? <==> u !in wallets)
      ensures r.Ok? && u in wallets ==>
                r.value.balance == wallets[u] && r.value.available == wallets[u] - Held(c, transfers, u, clock)
      ensures r.Err? ==> r.error == STORAGE
    {
      Others({}, {});
      var f := Statement();
      if !f.Works? { return Err(STORAGE); }
      r := Ok(GetBalances(c, Tables(), u, clock));
    }

    /** BEGIN: a transaction of its own, with nothing in it yet. */
    method BeginTx(clock: Time, id: TransferId, drawn: set<TransferId>) returns (r: Result<Tx>)
      modifies `executed
      ensures executed == old(executed) + 1 && Tells(old(executed), r)
      ensures r.Ok? ==>
                && fresh(r.value) && r.value.store == this
                && r.value.clock == clock && r.value.id == id && r.value.drawn == drawn
                && r.value.inserted == map[] && r.value.locked == {}
                && r.value.pending == Nothing && r.value.writes == map[]
      ensures r.Err? ==> r.error == STORAGE
    {
      var f := Statement();
      if !f.Works? { return Err(STORAGE); }
      var tx := new Tx(this, clock, id, drawn);
      r := Ok(tx);
    }
  }

  /**
   * One transaction: begun at `clock`, its writes buffered. A row it inserts gets
   * the random `id`; `drawn` is {id} if it inserts one, and no one else draws it.
   */
  class Tx {
    const store: Store
    const clock: Time
    const id: TransferId
    const drawn: set<TransferId>
    var inserted: map<UserId, int64>
    var locked: set<UserId>
    var pending: Pending
    var writes: map<UserId, int64>

    constructor (store: Store, clock: Time, id: TransferId, drawn: set<TransferId>)
      ensures this.store == store && this.clock == clock && this.id == id && this.drawn == drawn
      ensures inserted == map[] && locked == {} && pending == Nothing && writes == map[]
    {
      this.store, this.clock, this.id, this.drawn := store, clock, id, drawn;
      inserted, locked, pending, writes := map[], {}, Nothing, map[];
    }

    function Mine(): set<UserId>
      reads this
    {
      inserted.Keys + locked
    }

    /** SELECT EXISTS (...) */
    method WalletExists(u: UserId) returns (r: Result<bool>)
      requires store.Live()
      modifies store
      ensures store.Live() && Elapsed(store.c, old(store.Tables()), store.Tables(), Mine(), drawn)
      ensures store.executed == old(store.executed) + 1 && store.Tells(old(store.executed), r)
      ensures r.Ok? ==> r.value == Sees(u)
      ensures r.Err? ==> r.error == STORAGE
    {
      store.Others(Mine(), drawn);
      var f := store.Statement();
      if !f.Works? { return Err(STORAGE); }
      r := Ok(Sees(u));
    }

    /** INSERT INTO wallets ... ON CONFLICT (user_id) DO NOTHING; true if a row was inserted. */
    method InsertWallet(u: UserId, seedPaise: int64) returns (r: Result<bool>)
      requires store.Live() && 0 <= seedPaise
      modifies store, `inserted
      ensures store.Live() && Elapsed(store.c, old(store.Tables()), store.Tables(), old(Mine()), drawn)
      ensures store.executed == old(store.executed) + 1 && store.Tells(old(store.executed), r)
      ensures r.Ok? ==> r.value == (u !in old(inserted) && u !in store.wallets)
      ensures inserted == if r.Ok? && r.value then old(inserted)[u := seedPaise] else old(inserted)
      ensures r.Err? ==> r.error == STORAGE
    {
      store.Others(Mine(), drawn);
      var f := store.Statement();
      if !f.Works? { return Err(STORAGE); }
      var created := u !in inserted && u !in store.wallets;
      if created { inserted := inserted[u := seedPaise]; }
      r := Ok(created);
    }

    /** SELECT balance_paise ... FOR UPDATE: the current balance, frozen from now on. */
    method LockWallet(u: UserId) returns (r: Result<int64>)
      requires store.Live()
      modifies store, `locked
      ensures store.Live() && Elapsed(store.c, old(store.Tables()), store.Tables(), old(Mine()), drawn)
      ensures store.executed == old(store.executed) + 1 && store.Tells(old(store.executed), r)
      ensures r.Ok? ==>
                && (u in inserted || u in store.wallets)
                && r.value == (if u in inserted then inserted[u] else store.wallets[u])
      ensures locked == if r.Ok? then old(locked) + {u} else old(locked)
      ensures r.Err? ==>
                r.error == STORAGE || (r.error == Because(NoWallet) && u !in inserted && u !in store.wallets)
    {
      store.Others(Mine(), drawn);
      var f := store.Statement();
      if !f.Works? { return Err(STORAGE); }
      if u !in inserted && u !in store.wallets { return Err(Because(NoWallet)); }
      locked := locked + {u};
      r := Ok(if u in inserted then inserted[u] else store.wallets[u]);
    }

    /** The sum of the incoming transfers to `u` that are still claimable at the transaction's clock. */
    method SumActiveHolds(u: UserId) returns (r: Result<int>)
      requires store.Live()
      modifies store
      ensures store.Live() && Elapsed(store.c, old(store.Tables()), store.Tables(), Mine(), drawn)
      ensures store.executed == old(store.executed) + 1 && store.Tells(old(store.executed), r)
      ensures r.Ok? ==> r.value == Held(store.c, store.transfers, u, clock)
      ensures r.Err? ==> r.error == STORAGE
    {
      store.Others(Mine(), drawn);
      var f := store.Statement();
      if !f.Works? { return Err(STORAGE); }
      r := Ok(Held(store.c, store.transfers, u, clock));
    }

    /**
     * INSERT INTO transfers ... ON CONFLICT (sender_id, idempotency_key) DO
     * NOTHING; true if the row was inserted, which claims the key.
     */
    method InsertTransfer(sender: UserId, recipient: UserId, amount: int64, key: string, body: string,
                          senderAfter: int64)
      returns (r: Result<bool>)
      requires store.Live() && pending == Nothing
      modifies store, `pending
      ensures store.Live() && Elapsed(store.c, old(store.Tables()), store.Tables(), Mine(), drawn)
      ensures store.executed == old(store.executed) + 1 && store.Tells(old(store.executed), r)
      ensures r.Ok? ==> (r.value <==> KeyIndex(store.transfers, sender, key) == |store.transfers|)
      ensures r.Ok? && r.value ==> FreshId(store.Tables(), id) && 0 < amount
      ensures pending == if r.Ok? && r.value
                then NewRow(Transfer(id, sender, recipient, amount, key, body, senderAfter, clock, Completed))
                else Nothing
      ensures r.Err? ==>
                || r.error == STORAGE
                || (KeyIndex(store.transfers, sender, key) == |store.transfers| &&
                    ((r.error == Because(DuplicateId) && !FreshId(store.Tables(), id)) ||
                     (r.error == Because(CheckViolated) && amount <= 0)))
    {
      store.Others(Mine(), drawn);
      var f := store.Statement();
      if !f.Works? { return Err(STORAGE); }
      if KeyIndex(store.transfers, sender, key) < |store.transfers| { return Ok(false); }
      if !FreshId(store.Tables(), id) { return Err(Because(DuplicateId)); }
      if amount <= 0 { return Err(Because(CheckViolated)); }
      pending := NewRow(Transfer(id, sender, recipient, amount, key, body, senderAfter, clock, Completed));
      r := Ok(true);
    }

    /** UPDATE ... WHERE id = $1 AND status = 'completed' AND created_at > now() - window */
    method MarkReversed(transfer: TransferId, senderAfter: int64) returns (r: Result<bool>)
      requires store.Live() && pending == Nothing
      modifies store, `pending
      ensures store.Live() && Elapsed(store.c, old(store.Tables()), store.Tables(), Mine(), drawn)
      ensures store.executed == old(store.executed) + 1 && store.Tells(old(store.executed), r)
      ensures r.Ok? ==>
                var k := IdIndex(store.transfers, transfer);
                r.value <==> k < |store.transfers| && store.transfers[k].status.Completed?
                             && InWindow(store.c, store.transfers[k].createdAt, clock)
      ensures pending == if r.Ok? && r.value then Flip(transfer, clock, senderAfter) else Nothing
      ensures r.Err? ==> r.error == STORAGE
    {
      store.Others(Mine(), drawn);
      var f := store.Statement();
      if !f.Works? { return Err(STORAGE); }
      var k := IdIndex(store.transfers, transfer);
      var reversed := k < |store.transfers| && store.transfers[k].status.Completed?
                      && InWindow(store.c, store.transfers[k].createdAt, clock);
      if reversed { pending := Flip(transfer, clock, senderAfter); }
      r := Ok(reversed);
    }

    /** The row of `u` is committed or the transaction's own. */
    predicate Sees(u: UserId)
      reads this, store
    {
      u in inserted || u in store.wallets
    }

    /**
     * UPDATE wallets SET balance_paise = $2, subject to CHECK (balance_paise >=
     * 0); without a row to update it does nothing, and does not say so.
     */
    method UpdateWalletBalance(u: UserId, balance: int64) returns (r: Result<()>)
      requires store.Live()
      modifies store, `writes
      ensures store.Live() && Elapsed(store.c, old(store.Tables()), store.Tables(), Mine(), drawn)
      ensures store.executed == old(store.executed) + 1 && store.Tells(old(store.executed), r)
      ensures r.Ok? ==> 0 <= balance || !Sees(u)
      ensures writes == if r.Ok? && Sees(u) then old(writes)[u := balance] else old(writes)
      ensures r.Err? ==> r.error == STORAGE || (r.error == Because(CheckViolated) && balance < 0 && Sees(u))
    {
      store.Others(Mine(), drawn);
      var f := store.Statement();
      if !f.Works? { return Err(STORAGE); }
      if Sees(u) {
        if balance < 0 { return Err(Because(CheckViolated)); }
        writes := writes[u := balance];
      }
      r := Ok(());
    }

    /** The tables with this transaction's writes installed. */
    function Installed(db: Db): Db
      reads this
    {
      Db(db.wallets + inserted + writes,
         match pending
         case Nothing => db.transfers
         case NewRow(t) => db.transfers + [t]
         case Flip(transfer, at, senderAfter) =>
           var k := IdIndex(db.transfers, transfer);
           if k < |db.transfers|
           then db.transfers[k := db.transfers[k].(status := Reversed(at, senderAfter))]
           else db.transfers)
    }

    /** What else commits before this transaction ends. */
    method Wait()
      requires store.Live()
      modifies store`wallets, store`transfers
      ensures store.Live() && Elapsed(store.c, old(store.Tables()), store.Tables(), Mine(), drawn)
    {
      store.Others(Mine(), drawn);
    }

    /**
     * COMMIT. Without an acknowledgement the caller cannot tell whether the
     * writes were installed.
     */
    method Commit() returns (acknowledged: bool)
      modifies store
      ensures store.executed == old(store.executed) + 1
      ensures acknowledged <==> store.Outcome(old(store.executed)).Works?
      ensures store.Tables() ==
              if store.Outcome(old(store.executed)).Fails? then old(store.Tables()) else Installed(old(store.Tables()))
    {
      var f := store.Statement();
      if !f.Fails? {
        var db := Installed(store.Tables());
        store.wallets, store.transfers := db.wallets, db.transfers;
      }
      acknowledged := f.Works?;
    }
  }
}
