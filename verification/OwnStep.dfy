/**
 * One statement of a request, seen from that request: it knows what it needs
 * for the next one, and what it commits or answers is what the whole operation,
 * applied at that moment as one step, would.
 */
module OwnStep {
  import opened Money
  import opened Ledger
  import opened LedgerLaws
  import opened History
  import opened Protocol
  import opened LocalState

  function EntryOf(i: nat, p: Proc): Entry { Entry(i, p.job, p.clock) }

  // ------------------------------------------------------- opening and locking

  lemma OwnBegin(c: Config, db: Db, i: nat, p: Proc, now: Time, n: nat)
    requires Local(c, db, i, p) && p.pc.Begin? && InProgram(c, p)
    ensures Local(c, db, i, Act(c, db, now, n, i, p).p)
  {
    var p' := Act(c, db, now, n, i, p).p;
    assert Ready(c, db, p');
    assert p.job.Reclaim? ==> Placed(db, p', 2);
  }

  lemma OwnOpening(c: Config, db: Db, i: nat, p: Proc, k: nat)
    requires Local(c, db, i, p) && (p.pc == Exists(k) || p.pc == Insert(k))
    ensures p.pc.Exists? ==> Local(c, db, i, ActExists(db, p, k))
    ensures p.pc.Insert? ==> Local(c, db, i, ActInsert(db, p, k))
  {
    var p' := if p.pc.Exists? then ActExists(db, p, k) else ActInsert(db, p, k);
    assert Ready(c, db, p');
    assert {Id(p, 0), Id(p, 1)} == {p.payer, p.payee};
    assert p'.pc != Insert(k) ==> Placed(db, p', k + 1);
  }

  lemma OwnLock(c: Config, db: Db, i: nat, p: Proc, k: nat, n: nat)
    requires Local(c, db, i, p) && p.pc == Lock(k)
    ensures Local(c, db, i, ActLock(c, db, n, p, k))
    ensures !ActLock(c, db, n, p, k).pc.Done?
  {
    var p' := ActLock(c, db, n, p, k);
    assert {Id(p, 0), Id(p, 1)} == {p.payer, p.payee};
    assert Id(p, k) in Ids(p, 2);
    assert Ready(c, db, p') && Placed(db, p', 2);
    forall u | u in p'.locked ensures SeenRight(c, db, p', u) {
      if u != Id(p, k) { assert SeenRight(c, db, p, u); }
    }
    assert Locked(c, db, p', k + 1);
  }

  // --------------------------------------------------------------- under locks

  /** Under its locks a request reads the balances the tables hold. */
  lemma SeenIsCurrent(c: Config, db: Db, p: Proc)
    requires Holding(c, db, p)
    ensures SeenBalance(p, p.payer) == CurrentBalance(c, db, p, p.payer)
    ensures SeenBalance(p, p.payee) == CurrentBalance(c, db, p, p.payee)
  {
    assert SeenRight(c, db, p, p.payer);
    assert SeenRight(c, db, p, p.payee);
  }

  lemma LockedBalances(c: Config, db: Db, p: Proc)
    requires Holding(c, db, p) && p.job.Pay?
    ensures Paying(c, p)
    ensures OpenBoth(c, db.wallets, p.job.req)[p.payer] == SeenBalance(p, p.payer)
    ensures OpenBoth(c, db.wallets, p.job.req)[p.payee] == SeenBalance(p, p.payee)
    ensures OpenBoth(c, db.wallets, p.job.req) == db.wallets + Seeded(c, p.inserted)
  {
    SeenIsCurrent(c, db, p);
    var w := OpenBoth(c, db.wallets, p.job.req);
    var w' := db.wallets + Seeded(c, p.inserted);
    assert p.payer in db.wallets || p.payer in p.inserted;
    assert p.payee in db.wallets || p.payee in p.inserted;
    assert w.Keys == w'.Keys;
    assert forall u :: u in w ==> w[u] == w'[u];
  }

  lemma OwnInsertTransfer(c: Config, db: Db, i: nat, p: Proc, n: nat)
    requires Local(c, db, i, p) && p.pc.InsertTransfer? && InProgram(c, p)
    requires IdIndex(db.transfers, i) == |db.transfers|
    ensures Local(c, db, i, ActInsertTransfer(c, db, n, i, p))
    ensures !ActInsertTransfer(c, db, n, i, p).pc.Done?
  {
    var p' := ActInsertTransfer(c, db, n, i, p);
    if p'.pc.Debit? {
      SameHolding(c, db, p, p');
      assert Staged(c, db, i, p');
    }
  }

  /** Buffering a write does not change what is held. */
  lemma SameHolding(c: Config, db: Db, p: Proc, p': Proc)
    requires Holding(c, db, p)
    requires p' == p.(pc := p'.pc, pending := p'.pending, writes := p'.writes, held := p'.held)
    ensures Holding(c, db, p')
    ensures DebitOf(p') == DebitOf(p) && CreditOf(p') == CreditOf(p)
  {
    forall u | u in p'.locked ensures SeenRight(c, db, p', u) {
      assert SeenRight(c, db, p, u);
    }
  }

  lemma OwnMark(c: Config, db: Db, i: nat, p: Proc)
    requires Local(c, db, i, p) && p.pc.Mark?
    ensures Local(c, db, i, ActMark(c, db, p))
    ensures !ActMark(c, db, p).pc.Done?
  {
    var p' := ActMark(c, db, p);
    if p'.pc.Debit? { SameHolding(c, db, p, p'); }
  }

  lemma OwnSumHolds(c: Config, db: Db, i: nat, p: Proc, now: Time, n: nat)
    requires Local(c, db, i, p) && p.pc.SumHolds? && InProgram(c, p)
    ensures Local(c, db, i, Act(c, db, now, n, i, p).p)
  {
    SameHolding(c, db, p, Act(c, db, now, n, i, p).p);
  }

  lemma OwnDebit(c: Config, db: Db, i: nat, p: Proc, n: nat)
    requires Local(c, db, i, p) && p.pc.Debit?
    ensures Local(c, db, i, ActDebit(p, n))
  {
    var p' := ActDebit(p, n);
    if p'.pc.Credit? { SameHolding(c, db, p, p'); }
  }

  lemma OwnCredit(c: Config, db: Db, i: nat, p: Proc, n: nat)
    requires Local(c, db, i, p) && p.pc.Credit?
    ensures Local(c, db, i, ActCredit(p, n))
  {
    var p' := ActCredit(p, n);
    if p'.pc.Commit? { SameHolding(c, db, p, p'); }
  }

  lemma OwnRead(c: Config, db: Db, i: nat, p: Proc, n: nat)
    requires RowsSound(c, db) && Local(c, db, i, p) && p.pc.Read?
    ensures Local(c, db, i, ActRead(db, n, p))
  {
    var k := IdIndex(db.transfers, p.job.id);
    if k < |db.transfers| {
      assert RowSound(c, db.wallets, db.transfers[k]);
    }
  }

  lemma OwnStepOpening(c: Config, db: Db, i: nat, p: Proc, now: Time, n: nat)
    requires Local(c, db, i, p) && InProgram(c, p) && (p.pc.Begin? || p.pc.Exists? || p.pc.Insert? || p.pc.Lock?)
    ensures Act(c, db, now, n, i, p).db == db && Local(c, db, i, Act(c, db, now, n, i, p).p)
  {
    match p.pc
    case Begin => OwnBegin(c, db, i, p, now, n);
    case Exists(k) => OwnOpening(c, db, i, p, k);
    case Insert(k) => OwnOpening(c, db, i, p, k);
    case Lock(k) => OwnLock(c, db, i, p, k, n);
  }

  lemma OwnStepUnderLocks(c: Config, db: Db, i: nat, p: Proc, now: Time, n: nat)
    requires Local(c, db, i, p) && InProgram(c, p)
    requires p.pc.SumHolds? || p.pc.InsertTransfer? || p.pc.Mark? || p.pc.Debit? || p.pc.Credit?
    requires p.job.Pay? ==> IdIndex(db.transfers, i) == |db.transfers|
    ensures Act(c, db, now, n, i, p).db == db && Local(c, db, i, Act(c, db, now, n, i, p).p)
  {
    match p.pc
    case SumHolds => OwnSumHolds(c, db, i, p, now, n);
    case InsertTransfer => OwnInsertTransfer(c, db, i, p, n);
    case Mark => OwnMark(c, db, i, p);
    case Debit => OwnDebit(c, db, i, p, n);
    case Credit => OwnCredit(c, db, i, p, n);
  }

  lemma OwnStepEnding(c: Config, db: Db, i: nat, p: Proc, now: Time, n: nat)
    requires RowsSound(c, db) && Local(c, db, i, p) && InProgram(c, p)
    requires p.pc.Commit? || p.pc.Resolve? || p.pc.Read? || p.pc.Reread?
    ensures Local(c, Act(c, db, now, n, i, p).db, i, Act(c, db, now, n, i, p).p)
  {
    if p.pc.Read? { OwnRead(c, db, i, p, n); }
  }

  lemma OwnStepWallet(c: Config, db: Db, i: nat, p: Proc, now: Time, n: nat)
    requires Local(c, db, i, p) && InProgram(c, p) && (p.pc.Look? || p.pc.Create? || p.pc.Fetch? || p.pc.Done?)
    ensures Local(c, Act(c, db, now, n, i, p).db, i, Act(c, db, now, n, i, p).p)
  {
  }

  predicate InTransaction(p: Proc) {
    || p.pc.Begin? || p.pc.Exists? || p.pc.Insert? || p.pc.Lock?
    || p.pc.SumHolds? || p.pc.InsertTransfer? || p.pc.Mark? || p.pc.Debit? || p.pc.Credit?
  }

  lemma OwnStepInside(c: Config, db: Db, i: nat, p: Proc, now: Time, n: nat)
    requires Local(c, db, i, p) && InProgram(c, p) && InTransaction(p)
    requires p.job.Pay? ==> IdIndex(db.transfers, i) == |db.transfers|
    ensures Act(c, db, now, n, i, p).db == db && Local(c, db, i, Act(c, db, now, n, i, p).p)
  {
    if p.pc.Begin? || p.pc.Exists? || p.pc.Insert? || p.pc.Lock? {
      OwnStepOpening(c, db, i, p, now, n);
    } else {
      OwnStepUnderLocks(c, db, i, p, now, n);
    }
  }

  lemma OwnStepOutside(c: Config, db: Db, i: nat, p: Proc, now: Time, n: nat)
    requires RowsSound(c, db) && Local(c, db, i, p) && InProgram(c, p) && !InTransaction(p)
    ensures Local(c, Act(c, db, now, n, i, p).db, i, Act(c, db, now, n, i, p).p)
  {
    if p.pc.Commit? || p.pc.Resolve? || p.pc.Read? || p.pc.Reread? {
      OwnStepEnding(c, db, i, p, now, n);
    } else {
      OwnStepWallet(c, db, i, p, now, n);
    }
  }

  /** Every statement leaves its request knowing what the next one relies on. */
  lemma OwnStepLocal(c: Config, db: Db, i: nat, p: Proc, now: Time, n: nat)
    requires RowsSound(c, db) && Local(c, db, i, p) && InProgram(c, p)
    requires p.job.Pay? && !p.pc.Done? ==> IdIndex(db.transfers, i) == |db.transfers|
    ensures Local(c, Act(c, db, now, n, i, p).db, i, Act(c, db, now, n, i, p).p)
  {
    if InTransaction(p) {
      OwnStepInside(c, db, i, p, now, n);
    } else {
      OwnStepOutside(c, db, i, p, now, n);
    }
  }

  // ------------------------------------------------------------ atomic answers

  /** `p` is settled with the answer the whole operation gives on the tables `db`. */
  ghost predicate Settled(c: Config, db: Db, i: nat, p: Proc, n: nat) {
    p.pc == Done(Apply(c, db, EntryOf(i, p)).1, n)
  }

  lemma DebitAnswers(c: Config, db: Db, i: nat, p: Proc, n: nat)
    requires Local(c, db, i, p) && p.pc.Debit? && ActDebit(p, n).pc.Done?
    requires p.job.Pay? ==> IdIndex(db.transfers, i) == |db.transfers|
    ensures Settled(c, db, i, ActDebit(p, n), n)
  {
    if p.job.Pay? {
      LockedBalances(c, db, p);
    } else {
      SeenIsCurrent(c, db, p);
    }
  }

  lemma CreditAnswers(c: Config, db: Db, i: nat, p: Proc, n: nat)
    requires Local(c, db, i, p) && p.pc.Credit? && ActCredit(p, n).pc.Done?
    requires p.job.Pay? ==> IdIndex(db.transfers, i) == |db.transfers|
    ensures Settled(c, db, i, ActCredit(p, n), n)
  {
    if p.job.Pay? {
      LockedBalances(c, db, p);
    } else {
      SeenIsCurrent(c, db, p);
    }
  }

  lemma CommitPay(c: Config, db: Db, i: nat, p: Proc)
    requires Local(c, db, i, p) && p.pc.Commit? && p.job.Pay?
    requires IdIndex(db.transfers, i) == |db.transfers|
    ensures Apply(c, db, EntryOf(i, p)) == (CommitDb(c, db, p), SuccessOf(i, p))
  {
    LockedBalances(c, db, p);
    var w := OpenBoth(c, db.wallets, p.job.req);
    var debited: map<UserId, int64> := w[p.payer := DebitOf(p)];
    assert debited[p.payee := CreditOf(p)] == w + p.writes;
  }

  lemma CommitReclaim(c: Config, db: Db, i: nat, p: Proc)
    requires Local(c, db, i, p) && p.pc.Commit? && p.job.Reclaim?
    ensures Apply(c, db, EntryOf(i, p)) == (CommitDb(c, db, p), SuccessOf(i, p))
  {
    SeenIsCurrent(c, db, p);
    assert p.inserted == {};
    assert db.wallets + Seeded(c, p.inserted) == db.wallets;
    var debited: map<UserId, int64> := db.wallets[p.payer := DebitOf(p)];
    assert debited[p.payee := CreditOf(p)] == db.wallets + p.writes;
  }

  /** A commit installs exactly what the whole operation does to the tables at that moment. */
  lemma CommitIsApply(c: Config, db: Db, i: nat, p: Proc)
    requires Local(c, db, i, p) && p.pc.Commit?
    requires p.job.Pay? ==> IdIndex(db.transfers, i) == |db.transfers|
    ensures Apply(c, db, EntryOf(i, p)) == (CommitDb(c, db, p), SuccessOf(i, p))
    ensures FirstSuccess(SuccessOf(i, p))
  {
    assert p.job.Pay? || p.job.Reclaim?;
    if p.job.Pay? {
      CommitPay(c, db, i, p);
    } else {
      CommitReclaim(c, db, i, p);
    }
  }

  lemma ResolveAnswers(c: Config, db: Db, i: nat, p: Proc, n: nat)
    requires Local(c, db, i, p) && p.pc.Resolve?
    ensures Settled(c, db, i, ActResolve(db, n, p), n)
  {
  }

  lemma ReadAnswers(c: Config, db: Db, i: nat, p: Proc, n: nat)
    requires Local(c, db, i, p) && p.pc.Read? && ActRead(db, n, p).pc.Done?
    ensures Settled(c, db, i, ActRead(db, n, p), n)
  {
  }

  lemma RereadAnswers(c: Config, db: Db, i: nat, p: Proc, n: nat)
    requires RowsSound(c, db) && Local(c, db, i, p) && p.pc.Reread?
    ensures Settled(c, db, i, ActReread(db, n, p), n)
  {
    assert RowSound(c, db.wallets, db.transfers[IdIndex(db.transfers, p.job.id)]);
  }

  lemma UnderLocksAnswers(c: Config, db: Db, i: nat, p: Proc, now: Time, n: nat)
    requires Local(c, db, i, p) && InProgram(c, p)
    requires p.pc.Debit? || p.pc.Credit? || p.pc.Commit?
    requires IdIndex(db.transfers, i) == |db.transfers|
    requires Act(c, db, now, n, i, p).p.pc.Done?
    ensures Settled(c, db, i, Act(c, db, now, n, i, p).p, n)
    ensures FirstSuccess(Act(c, db, now, n, i, p).p.pc.resp) <==> Act(c, db, now, n, i, p).commits
  {
    match p.pc
    case Debit => DebitAnswers(c, db, i, p, n);
    case Credit => CreditAnswers(c, db, i, p, n);
    case Commit => CommitIsApply(c, db, i, p);
  }

  lemma OutsideAnswers(c: Config, db: Db, i: nat, p: Proc, now: Time, n: nat)
    requires RowsSound(c, db) && Local(c, db, i, p) && InProgram(c, p)
    requires p.pc.Resolve? || p.pc.Read? || p.pc.Reread?
    requires Act(c, db, now, n, i, p).p.pc.Done?
    ensures Settled(c, db, i, Act(c, db, now, n, i, p).p, n)
    ensures !FirstSuccess(Act(c, db, now, n, i, p).p.pc.resp) && !Act(c, db, now, n, i, p).commits
  {
    match p.pc
    case Resolve => ResolveAnswers(c, db, i, p, n);
    case Read => ReadAnswers(c, db, i, p, n);
    case Reread => RereadAnswers(c, db, i, p, n);
  }

  /** The other statements answer nothing. */
  lemma NoAnswer(c: Config, db: Db, i: nat, p: Proc, now: Time, n: nat)
    requires Local(c, db, i, p) && InProgram(c, p) && !p.job.Open?
    requires IdIndex(db.transfers, i) == |db.transfers|
    requires || p.pc.Begin? || p.pc.Exists? || p.pc.Insert? || p.pc.Lock?
             || p.pc.SumHolds? || p.pc.InsertTransfer? || p.pc.Mark?
    ensures !Act(c, db, now, n, i, p).p.pc.Done?
  {
    match p.pc
    case Lock(k) => OwnLock(c, db, i, p, k, n);
    case InsertTransfer => OwnInsertTransfer(c, db, i, p, n);
    case Mark => OwnMark(c, db, i, p);
    case _ =>
  }

  /**
   * Whenever a transfer or a claim is answered (and did not fail), the answer
   * is the one the whole operation gives on the tables at that moment, and it is
   * a first success exactly when the statement committed.
   */
  lemma OwnStepAnswers(c: Config, db: Db, i: nat, p: Proc, now: Time, n: nat)
    requires RowsSound(c, db) && Local(c, db, i, p) && InProgram(c, p) && !p.job.Open?
    requires IdIndex(db.transfers, i) == |db.transfers|
    requires !p.pc.Done? && Act(c, db, now, n, i, p).p.pc.Done?
    ensures Settled(c, db, i, Act(c, db, now, n, i, p).p, n)
    ensures FirstSuccess(Act(c, db, now, n, i, p).p.pc.resp) <==> Act(c, db, now, n, i, p).commits
  {
    match p.pc
    case Debit | Credit | Commit => UnderLocksAnswers(c, db, i, p, now, n);
    case Resolve | Read | Reread => OutsideAnswers(c, db, i, p, now, n);
    case _ => NoAnswer(c, db, i, p, now, n);
  }
}
