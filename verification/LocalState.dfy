/**
 * What a request knows at each statement, and that no other request can make
 * it stale: each fact is stable under `Rely` on the rows the request holds.
 */
module LocalState {
  import opened Ledger
  import opened Interference
  import opened Protocol

  ghost predicate Clean(p: Proc) { p.pending == Nothing && p.writes == map[] }

  ghost predicate Idle(p: Proc) { Clean(p) && p.inserted == {} && p.locked == {} && p.seen == map[] }

  ghost predicate Paying(c: Config, p: Proc) {
    && p.job.Pay?
    && Validate(c, p.job.req).Fine?
    && p.payer == p.job.req.sender
    && p.payee == c.users[p.job.req.to]
    && p.amount == p.job.req.amount
  }

  /** The columns of the claimed row that were read before the transaction. */
  ghost predicate Claiming(db: Db, p: Proc) {
    && p.job.Reclaim?
    && var k := IdIndex(db.transfers, p.job.id);
    && k < |db.transfers|
    && db.transfers[k].sender == p.job.caller == p.payee
    && db.transfers[k].recipient == p.payer
    && db.transfers[k].amount == p.amount
  }

  ghost predicate Ready(c: Config, db: Db, p: Proc) {
    && p.payer != p.payee
    && p.amount > 0
    && (Paying(c, p) || (Claiming(db, p) && p.payer in db.wallets && p.payee in db.wallets))
  }

  ghost function Ids(p: Proc, n: nat): set<UserId> {
    if n == 0 then {} else if n == 1 then {Id(p, 0)} else {p.payer, p.payee}
  }

  /** The first `n` wallets exist or are inserted; nothing inserted is also committed. */
  ghost predicate Placed(db: Db, p: Proc, n: nat) {
    && p.inserted !! db.wallets.Keys
    && p.inserted <= Ids(p, n)
    && Ids(p, n) <= db.wallets.Keys + p.inserted
  }

  ghost predicate SeenRight(c: Config, db: Db, p: Proc, u: UserId) {
    u in p.seen && p.seen[u] == CurrentBalance(c, db, p, u)
  }

  /** The first `n` wallets are locked and their balances still are what was read. */
  ghost predicate Locked(c: Config, db: Db, p: Proc, n: nat) {
    && p.locked == Ids(p, n)
    && (forall u {:trigger SeenRight(c, db, p, u)} :: u in p.locked ==> SeenRight(c, db, p, u))
  }

  ghost predicate Holding(c: Config, db: Db, p: Proc) {
    Ready(c, db, p) && Placed(db, p, 2) && Locked(c, db, p, 2)
  }

  ghost predicate HeldRight(c: Config, db: Db, p: Proc) {
    p.held == Held(c, db.transfers, p.payer, p.clock)
  }

  /** The transfers write is buffered, and the condition it was made under still holds. */
  ghost predicate Staged(c: Config, db: Db, i: nat, p: Proc) {
    if p.job.Pay? then
      && HeldRight(c, db, p)
      && p.job.req.to in c.users
      && KeyIndex(db.transfers, p.job.req.sender, p.job.req.key) == |db.transfers|
      && p.pending == NewRow(NewTransfer(c, p.job.req, p.clock, i, DebitOf(p)))
    else
      && p.job.Reclaim?
      && p.pending == Flip(p.job.id, p.clock, CreditOf(p))
      && Flippable(c, db, p)
  }

  ghost predicate Flippable(c: Config, db: Db, p: Proc)
    requires p.job.Reclaim?
  {
    var k := IdIndex(db.transfers, p.job.id);
    && k < |db.transfers|
    && db.transfers[k].status.Completed?
    && InWindow(c, db.transfers[k].createdAt, p.clock)
  }

  /** The conditional reversal found nothing, for one of the two reasons it can. */
  ghost predicate Unapplied(c: Config, db: Db, p: Proc)
    requires p.job.Reclaim?
  {
    var k := IdIndex(db.transfers, p.job.id);
    k < |db.transfers| && (db.transfers[k].status.Reversed? || !InWindow(c, db.transfers[k].createdAt, p.clock))
  }

  ghost predicate KeyClaimed(db: Db, r: Request) {
    KeyIndex(db.transfers, r.sender, r.key) < |db.transfers|
  }

  ghost predicate Debited(p: Proc) {
    0 <= DebitOf(p) && (p.job.Pay? ==> p.held <= DebitOf(p))
  }

  ghost predicate Local(c: Config, db: Db, i: nat, p: Proc) {
    match p.pc
    case Begin => Idle(p) && Ready(c, db, p)
    case Exists(k) => k < 2 && p.job.Pay? && Opening(c, db, p, k)
    case Insert(k) => k < 2 && p.job.Pay? && Opening(c, db, p, k)
    case Lock(k) => k < 2 && Ready(c, db, p) && Placed(db, p, 2) && Locked(c, db, p, k) && Clean(p)
    case SumHolds => p.job.Pay? && Holding(c, db, p) && Clean(p)
    case InsertTransfer => p.job.Pay? && Holding(c, db, p) && Clean(p) && HeldRight(c, db, p)
    case Mark => p.job.Reclaim? && Holding(c, db, p) && Clean(p)
    case Debit => Holding(c, db, p) && Staged(c, db, i, p) && p.writes == map[]
    case Credit => Holding(c, db, p) && Staged(c, db, i, p) && p.writes == map[p.payer := DebitOf(p)] && Debited(p)
    case Commit =>
      && Holding(c, db, p) && Staged(c, db, i, p) && Debited(p) && 0 <= CreditOf(p)
      && p.writes == map[p.payer := DebitOf(p), p.payee := CreditOf(p)]
    case Resolve => Idle(p) && Paying(c, p) && KeyClaimed(db, p.job.req)
    case Read => Idle(p) && p.job.Reclaim?
    case Reread => Idle(p) && Claiming(db, p) && Unapplied(c, db, p)
    case Look => Idle(p) && p.job.Open?
    case Create => Idle(p) && p.job.Open?
    case Fetch(_, _) => Idle(p) && p.job.Open? && p.job.user in db.wallets
    case Done(_, _) => Idle(p)
  }

  ghost predicate Opening(c: Config, db: Db, p: Proc, k: nat) {
    Ready(c, db, p) && Placed(db, p, k) && p.locked == {} && p.seen == map[] && Clean(p)
  }

  /** Every row a request holds is visible to it. */
  lemma HoldsVisible(c: Config, db: Db, i: nat, p: Proc)
    requires Local(c, db, i, p)
    ensures Holds(p) <= db.wallets.Keys + p.inserted
    ensures p.inserted !! db.wallets.Keys
  {
  }

  /** There are two wallets to open and lock. */
  predicate TwoWallets(p: Proc) {
    match p.pc
    case Exists(k) => k < 2
    case Insert(k) => k < 2
    case Lock(k) => k < 2
    case _ => true
  }

  lemma LocalTwoWallets(c: Config, db: Db, i: nat, p: Proc)
    requires Local(c, db, i, p)
    ensures TwoWallets(p) && InProgram(c, p)
  {
  }

  // --------------------------------------------------------------- stability

  lemma ReadyStable(c: Config, db: Db, db': Db, p: Proc)
    requires Ready(c, db, p) && Grows(db, db')
    ensures Ready(c, db', p)
  {
    if !Paying(c, p) { ClaimingStable(db, db', p); }
  }

  lemma ClaimingStable(db: Db, db': Db, p: Proc)
    requires Claiming(db, p) && Grows(db, db')
    ensures Claiming(db', p)
    ensures IdIndex(db'.transfers, p.job.id) == IdIndex(db.transfers, p.job.id)
  {
    IdIndexKept(db.transfers, db'.transfers, p.job.id);
    var k := IdIndex(db.transfers, p.job.id);
    assert RowKept(db.transfers[k], db'.transfers[k]);
  }

  lemma PlacedStable(db: Db, db': Db, p: Proc, n: nat)
    requires Placed(db, p, n) && WalletsRely(db.wallets, db'.wallets, Holds(p))
    ensures Placed(db', p, n)
  {
    forall u | u in p.inserted ensures u !in db'.wallets {
      assert u in Holds(p);
    }
  }

  lemma LockedStable(c: Config, db: Db, db': Db, p: Proc, n: nat)
    requires Locked(c, db, p, n) && Holds(p) <= db.wallets.Keys + p.inserted
    requires WalletsRely(db.wallets, db'.wallets, Holds(p))
    ensures Locked(c, db', p, n)
  {
    forall u | u in p.locked ensures SeenRight(c, db', p, u) {
      assert SeenRight(c, db, p, u);
      assert u in Holds(p);
    }
  }

  lemma HoldingStable(c: Config, db: Db, db': Db, p: Proc)
    requires Holding(c, db, p) && Rely(db, db', Holds(p))
    ensures Holding(c, db', p)
  {
    RelyWeaken(db, db', Holds(p), {});
    ReadyStable(c, db, db', p);
    PlacedStable(db, db', p, 2);
    LockedStable(c, db, db', p, 2);
  }

  lemma HeldRightStable(c: Config, db: Db, db': Db, p: Proc)
    requires HeldRight(c, db, p) && p.payer in Holds(p) && Rely(db, db', Holds(p))
    ensures HeldRight(c, db', p)
  {
    HeldKept(c, db.transfers, db'.transfers, Holds(p), p.payer, p.clock);
  }

  lemma StagedStable(c: Config, db: Db, db': Db, i: nat, p: Proc)
    requires Holding(c, db, p) && Staged(c, db, i, p) && Rely(db, db', Holds(p))
    ensures Staged(c, db', i, p)
  {
    assert p.payer in Holds(p) && p.payee in Holds(p);
    if p.job.Pay? {
      HeldRightStable(c, db, db', p);
      KeyStaysFree(db.transfers, db'.transfers, Holds(p), p.job.req.sender, p.job.req.key);
    } else {
      var k := IdIndex(db.transfers, p.job.id);
      RelyWeaken(db, db', Holds(p), {});
      ClaimingStable(db, db', p);
      assert Touches(db.transfers[k], Holds(p));
      assert db'.transfers[k] == db.transfers[k];
    }
  }

  lemma UnappliedStable(c: Config, db: Db, db': Db, p: Proc)
    requires Claiming(db, p) && Unapplied(c, db, p) && Grows(db, db')
    ensures Unapplied(c, db', p)
  {
    ClaimingStable(db, db', p);
    var k := IdIndex(db.transfers, p.job.id);
    assert RowKept(db.transfers[k], db'.transfers[k]);
  }

  /** Nothing the other requests may do makes what a request knows stale. */
  lemma LocalStable(c: Config, db: Db, db': Db, i: nat, p: Proc)
    requires Local(c, db, i, p) && Rely(db, db', Holds(p))
    ensures Local(c, db', i, p)
  {
    RelyWeaken(db, db', Holds(p), {});
    match p.pc
    case Begin => ReadyStable(c, db, db', p);
    case Exists(k) => ReadyStable(c, db, db', p); PlacedStable(db, db', p, k);
    case Insert(k) => ReadyStable(c, db, db', p); PlacedStable(db, db', p, k);
    case Lock(k) =>
      HoldsVisible(c, db, i, p);
      ReadyStable(c, db, db', p);
      PlacedStable(db, db', p, 2);
      LockedStable(c, db, db', p, k);
    case SumHolds => HoldingStable(c, db, db', p);
    case InsertTransfer => HoldingStable(c, db, db', p); HeldRightStable(c, db, db', p);
    case Mark => HoldingStable(c, db, db', p);
    case Debit => HoldingStable(c, db, db', p); StagedStable(c, db, db', i, p);
    case Credit => HoldingStable(c, db, db', p); StagedStable(c, db, db', i, p);
    case Commit => HoldingStable(c, db, db', p); StagedStable(c, db, db', i, p);
    case Resolve => KeyIndexKept(db.transfers, db'.transfers, p.job.req.sender, p.job.req.key);
    case Reread => ClaimingStable(db, db', p); UnappliedStable(c, db, db', p);
    case Read | Look | Create | Fetch(_, _) | Done(_, _) =>
  }
}
