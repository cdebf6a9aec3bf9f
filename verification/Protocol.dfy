/**
 * The service as it runs: any number of requests at once, each executing its
 * statements one at a time against the shared tables.
 *
 * A statement sees the committed tables and the transaction's own writes (READ
 * COMMITTED, PostgreSQL 16 documentation, section 13.2.1). A row a transaction
 * inserted or selected FOR UPDATE is its own until it ends (section 13.3.2).
 * `now()` is the time its transaction began (section 9.9.5).
 */
module Protocol {
  import opened Money
  import opened Ledger
  import opened History

  /** The write to the transfers table that a transaction has buffered. */
  datatype Pending =
    | Nothing
    | NewRow(row: Transfer)
    | Flip(id: TransferId, at: Time, senderAfter: int64)

  /** The statement a request executes next. */
  datatype Pc =
    | Begin | Exists(k: nat) | Insert(k: nat) | Lock(k: nat)
    | SumHolds | InsertTransfer | Mark | Debit | Credit | Commit
    | Resolve | Read | Reread
    | Look | Create | Fetch(created: bool, raceLost: bool)
    | Done(resp: Response, at: nat)

  /**
   * One request. `payer` and `payee` are the wallets its transaction takes from
   * and gives to. `since`, `lookedAt`, `insertedAt` and the `at` of `Done` count
   * the commits that had happened when it arrived, when it looked for its
   * wallet, when its insert resolved, and when its answer was settled.
   */
  datatype Proc = Proc(
    job: Job, pc: Pc, clock: Time, payer: UserId, payee: UserId, amount: int64,
    inserted: set<UserId>, locked: set<UserId>, seen: map<UserId, int64>, held: int,
    pending: Pending, writes: map<UserId, int64>,
    since: nat, lookedAt: nat, insertedAt: nat)

  datatype Sys = Sys(now: Time, db: Db, procs: seq<Proc>, log: seq<Entry>)

  /** The service before its first request. */
  function StartAt(now: Time): Sys { Sys(now, Db(map[], []), [], []) }

  /** The wallet rows a transaction has made its own. */
  function Holds(p: Proc): set<UserId> { p.inserted + p.locked }

  /** The two wallets in ascending order of user id. */
  function Id(p: Proc, k: nat): UserId {
    if (k == 0) == (p.payer < p.payee) then p.payer else p.payee
  }

  function SeenBalance(p: Proc, u: UserId): int64 { if u in p.seen then p.seen[u] else 0 }

  function DebitOf(p: Proc): int64 { Sub64(SeenBalance(p, p.payer), p.amount) }

  function CreditOf(p: Proc): int64 { Add64(SeenBalance(p, p.payee), p.amount) }

  /** The transaction ends without effect: its rows are released, its writes dropped. */
  function Rollback(p: Proc, pc: Pc): Proc {
    p.(pc := pc, inserted := {}, locked := {}, seen := map[], pending := Nothing, writes := map[])
  }

  function Answer(p: Proc, resp: Response, n: nat): Proc { Rollback(p, Done(resp, n)) }

  // ------------------------------------------------------------- the program

  /** A statement's effect: new tables, new local state, and whether it committed a transaction. */
  datatype Effect = Effect(db: Db, p: Proc, commits: bool)

  function AfterInsert(k: nat): Pc { if k == 0 then Exists(1) else Lock(0) }

  function AfterLock(p: Proc, k: nat): Pc {
    if k == 0 then Lock(1) else if p.job.Pay? then SumHolds else Mark
  }

  function ActExists(db: Db, p: Proc, k: nat): Proc {
    p.(pc := if Id(p, k) in db.wallets then AfterInsert(k) else Insert(k))
  }

  /** INSERT ... ON CONFLICT (user_id) DO NOTHING */
  function ActInsert(db: Db, p: Proc, k: nat): Proc {
    if Id(p, k) in db.wallets then p.(pc := AfterInsert(k))
    else p.(inserted := p.inserted + {Id(p, k)}, pc := AfterInsert(k))
  }

  /** A wallet row is visible once committed, or if it is the transaction's own. */
  predicate Visible(db: Db, p: Proc, u: UserId) { u in p.inserted || u in db.wallets }

  function CurrentBalance(c: Config, db: Db, p: Proc, u: UserId): int64 {
    if u in p.inserted then c.seed else if u in db.wallets then db.wallets[u] else 0
  }

  /** SELECT ... FOR UPDATE */
  function ActLock(c: Config, db: Db, n: nat, p: Proc, k: nat): Proc {
    var u := Id(p, k);
    if !Visible(db, p, u) then Answer(p, Rejected(NoWallet), n)
    else p.(locked := p.locked + {u}, seen := p.seen[u := CurrentBalance(c, db, p, u)], pc := AfterLock(p, k))
  }

  /** INSERT ... ON CONFLICT (sender_id, idempotency_key) DO NOTHING */
  function ActInsertTransfer(c: Config, db: Db, n: nat, i: nat, p: Proc): Proc
    requires p.job.Pay? && p.job.req.to in c.users
  {
    var r := p.job.req;
    if KeyIndex(db.transfers, r.sender, r.key) < |db.transfers| then Rollback(p, Resolve)
    else if IdIndex(db.transfers, i) < |db.transfers| then Answer(p, Rejected(DuplicateId), n)
    else p.(pending := NewRow(NewTransfer(c, r, p.clock, i, DebitOf(p))), pc := Debit)
  }

  /** UPDATE ... WHERE id = $1 AND status = 'completed' AND created_at > now() - window */
  function ActMark(c: Config, db: Db, p: Proc): Proc
    requires p.job.Reclaim?
  {
    var k := IdIndex(db.transfers, p.job.id);
    if k < |db.transfers| && db.transfers[k].status.Completed? && InWindow(c, db.transfers[k].createdAt, p.clock)
    then p.(pending := Flip(p.job.id, p.clock, CreditOf(p)), pc := Debit)
    else Rollback(p, Reread)
  }

  function ActDebit(p: Proc, n: nat): Proc {
    var v := DebitOf(p);
    if p.job.Pay? && v < p.held then Answer(p, Rejected(InsufficientFunds), n)
    else if v < 0 then Answer(p, Rejected(CheckViolated), n)
    else p.(writes := p.writes[p.payer := v], pc := Credit)
  }

  function ActCredit(p: Proc, n: nat): Proc {
    var v := CreditOf(p);
    if v < 0 then Answer(p, Rejected(CheckViolated), n)
    else p.(writes := p.writes[p.payee := v], pc := Commit)
  }

  /** The rows of the wallets inserted by a transaction. */
  function Seeded(c: Config, us: set<UserId>): map<UserId, int64> { map u | u in us :: c.seed }

  /** The tables once a transaction's buffered writes are committed. */
  function CommitDb(c: Config, db: Db, p: Proc): Db {
    Db(db.wallets + Seeded(c, p.inserted) + p.writes,
       match p.pending
       case Nothing => db.transfers
       case NewRow(t) => db.transfers + [t]
       case Flip(id, at, senderAfter) =>
         var k := IdIndex(db.transfers, id);
         if k < |db.transfers|
         then db.transfers[k := db.transfers[k].(status := Reversed(at, senderAfter))]
         else db.transfers)
  }

  function SuccessOf(i: nat, p: Proc): Response {
    match p.job
    case Pay(_) => Sent(i, DebitOf(p), false)
    case Reclaim(_, id) => Returned(id, CreditOf(p), p.clock, false)
    case Open(_) => Rejected(StorageFailure)
  }

  function ActResolve(db: Db, n: nat, p: Proc): Proc
    requires p.job.Pay?
  {
    var r := p.job.req;
    var k := KeyIndex(db.transfers, r.sender, r.key);
    if k < |db.transfers| then Answer(p, ResolveKey(db.transfers[k], BodyOf(r)), n)
    else Answer(p, Rejected(StorageFailure), n)
  }

  /** The read before the claim's transaction; what it finds is used without being read again. */
  function ActRead(db: Db, n: nat, p: Proc): Proc
    requires p.job.Reclaim?
  {
    var k := IdIndex(db.transfers, p.job.id);
    if k == |db.transfers| || db.transfers[k].sender != p.job.caller then Answer(p, Rejected(NotFound), n)
    else
      var t := db.transfers[k];
      if t.status.Reversed? then Answer(p, ReplayClaim(t), n)
      else p.(payer := t.recipient, payee := t.sender, amount := t.amount, pc := Begin)
  }

  function ActReread(db: Db, n: nat, p: Proc): Proc
    requires p.job.Reclaim?
  {
    var k := IdIndex(db.transfers, p.job.id);
    if k == |db.transfers| then Answer(p, Rejected(StorageFailure), n)
    else if db.transfers[k].status.Reversed? then Answer(p, ReplayClaim(db.transfers[k]), n)
    else Answer(p, Rejected(WindowExpired), n)
  }

  function ActLook(db: Db, n: nat, p: Proc): Proc
    requires p.job.Open?
  {
    p.(lookedAt := n, insertedAt := n, pc := if p.job.user in db.wallets then Fetch(false, false) else Create)
  }

  function ActCreate(c: Config, db: Db, n: nat, p: Proc): Effect
    requires p.job.Open?
  {
    if p.job.user in db.wallets then Effect(db, p.(insertedAt := n, pc := Fetch(false, true)), false)
    else Effect(db.(wallets := db.wallets[p.job.user := c.seed]), p.(insertedAt := n, pc := Fetch(true, false)), true)
  }

  function ActFetch(db: Db, n: nat, p: Proc): Proc
    requires p.job.Open? && p.pc.Fetch?
  {
    if p.job.user in db.wallets
    then Answer(p, Account(db.wallets[p.job.user], p.pc.created, p.pc.raceLost), n)
    else Answer(p, Rejected(NoWallet), n)
  }

  /** Each statement belongs to the program of one kind of request. */
  predicate InProgram(c: Config, p: Proc) {
    match p.pc
    case Begin | Lock(_) | Debit | Credit | Commit => !p.job.Open?
    case Exists(_) | Insert(_) | SumHolds | InsertTransfer | Resolve => p.job.Pay? && p.job.req.to in c.users
    case Read | Mark | Reread => p.job.Reclaim?
    case Look | Create | Fetch(_, _) => p.job.Open?
    case Done(_, _) => true
  }

  /** The next statement of request `i`, `n` commits having happened. */
  function Act(c: Config, db: Db, now: Time, n: nat, i: nat, p: Proc): Effect
    requires InProgram(c, p)
  {
    match p.pc
    case Begin => Effect(db, p.(clock := now, pc := if p.job.Pay? then Exists(0) else Lock(0)), false)
    case Exists(k) => Effect(db, ActExists(db, p, k), false)
    case Insert(k) => Effect(db, ActInsert(db, p, k), false)
    case Lock(k) => Effect(db, ActLock(c, db, n, p, k), false)
    case SumHolds =>
      Effect(db, p.(held := Held(c, db.transfers, p.payer, p.clock), pc := InsertTransfer), false)
    case InsertTransfer => Effect(db, ActInsertTransfer(c, db, n, i, p), false)
    case Mark => Effect(db, ActMark(c, db, p), false)
    case Debit => Effect(db, ActDebit(p, n), false)
    case Credit => Effect(db, ActCredit(p, n), false)
    case Commit => Effect(CommitDb(c, db, p), Answer(p, SuccessOf(i, p), n), true)
    case Resolve => Effect(db, ActResolve(db, n, p), false)
    case Read => Effect(db, ActRead(db, n, p), false)
    case Reread => Effect(db, ActReread(db, n, p), false)
    case Look => Effect(db, ActLook(db, n, p), false)
    case Create => ActCreate(c, db, n, p)
    case Fetch(_, _) => Effect(db, ActFetch(db, n, p), false)
    case Done(_, _) => Effect(db, p, false)
  }

  // ----------------------------------------------------------------- waiting

  predicate SameKey(pending: Pending, r: Request) {
    pending.NewRow? && pending.row.sender == r.sender && pending.row.key == r.key
  }

  /** The next statement of `p` has to wait for the transaction of `q` to end. */
  predicate WaitsFor(db: Db, p: Proc, q: Proc) {
    match p.pc
    case Insert(k) => Id(p, k) in q.inserted
    case Create => p.job.Open? && p.job.user in q.inserted
    case Lock(k) => Visible(db, p, Id(p, k)) && Id(p, k) in Holds(q)
    case InsertTransfer => p.job.Pay? && SameKey(q.pending, p.job.req)
    case Mark => p.job.Reclaim? && q.pending.Flip? && q.pending.id == p.job.id
    case Debit => p.payer in Holds(q)
    case Credit => p.payee in Holds(q)
    case _ => false
  }

  ghost predicate Waits(s: Sys, i: nat, j: nat)
    requires i < |s.procs| && j < |s.procs|
  {
    i != j && WaitsFor(s.db, s.procs[i], s.procs[j])
  }

  ghost predicate Blocked(s: Sys, i: nat)
    requires i < |s.procs|
  {
    exists j :: 0 <= j < |s.procs| && Waits(s, i, j)
  }

  // ------------------------------------------------------------------- steps

  datatype Action =
    | Arrive(job: Job)     // a request arrives
    | Tick(now: Time)      // time passes
    | Run(i: nat)          // request i executes its next statement
    | Fail(i: nat)         // request i fails there: its transaction is rolled back
    | LoseAck(i: nat)      // its commit takes effect, but request i sees an error

  predicate Moves(a: Action) { a.Run? || a.Fail? || a.LoseAck? }

  ghost predicate Enabled(c: Config, s: Sys, a: Action) {
    match a
    case Arrive(_) => true
    case Tick(now) => s.now <= now
    case Run(i) => i < |s.procs| && !s.procs[i].pc.Done? && InProgram(c, s.procs[i]) && !Blocked(s, i)
    case Fail(i) => i < |s.procs| && !s.procs[i].pc.Done?
    case LoseAck(i) =>
      && i < |s.procs| && InProgram(c, s.procs[i]) && !Blocked(s, i)
      && Act(c, s.db, s.now, |s.log|, i, s.procs[i]).commits
  }

  function Newcomer(c: Config, n: nat, job: Job): Proc {
    var p := Proc(job, Look, 0, 0, 0, 0, {}, {}, map[], 0, Nothing, map[], n, n, n);
    match job
    case Pay(r) =>
      (match Validate(c, r)
       case Refused(why) => p.(pc := Done(Rejected(why), n))
       case Fine => p.(pc := Begin, payer := r.sender, payee := c.users[r.to], amount := r.amount))
    case Reclaim(_, _) => p.(pc := Read)
    case Open(_) => p
  }

  ghost function Step(c: Config, s: Sys, a: Action): Sys
    requires Enabled(c, s, a)
  {
    var n := |s.log|;
    match a
    case Arrive(job) => s.(procs := s.procs + [Newcomer(c, n, job)])
    case Tick(now) => s.(now := now)
    case Run(i) =>
      var e := Act(c, s.db, s.now, n, i, s.procs[i]);
      var log := if e.commits then s.log + [Entry(i, s.procs[i].job, s.procs[i].clock)] else s.log;
      s.(db := e.db, procs := s.procs[i := e.p], log := log)
    case Fail(i) => s.(procs := s.procs[i := Answer(s.procs[i], Rejected(StorageFailure), n)])
    case LoseAck(i) =>
      var e := Act(c, s.db, s.now, n, i, s.procs[i]);
      s.(db := e.db, procs := s.procs[i := Answer(s.procs[i], Rejected(StorageFailure), n)],
         log := s.log + [Entry(i, s.procs[i].job, s.procs[i].clock)])
  }

  ghost predicate Next(c: Config, s: Sys, s': Sys) {
    exists a :: Enabled(c, s, a) && s' == Step(c, s, a)
  }

  ghost predicate StepAt(c: Config, run: seq<Sys>, i: nat)
    requires i + 1 < |run|
  {
    Next(c, run[i], run[i + 1])
  }

  ghost predicate IsRun(c: Config, run: seq<Sys>) {
    run != [] && forall i {:trigger StepAt(c, run, i)} :: 0 <= i < |run| - 1 ==> StepAt(c, run, i)
  }

  /** Some sequence of steps, of any kind and of any requests, goes from `s` to `s'`. */
  ghost predicate Leads(c: Config, s: Sys, s': Sys) {
    exists run: seq<Sys> :: IsRun(c, run) && run[0] == s && run[|run| - 1] == s'
  }

  ghost predicate Reachable(c: Config, s: Sys) {
    exists now :: Leads(c, StartAt(now), s)
  }
}
