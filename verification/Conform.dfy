/** How the service's code is followed, statement by statement, by a request of `Protocol`. */
module Conform {
  import opened Ledger
  import opened Protocol
  import opened LocalState
  import opened OwnStep
  import opened Repository

  /** The request's statement has been executed on the tables `db`. */
  function After(c: Config, db: Db, i: nat, p: Proc): Proc
    requires InProgram(c, p)
  {
    Act(c, db, p.clock, 0, i, p).p
  }

  /** Nothing that elapses makes what the request knows stale. */
  lemma Waited(c: Config, db: Db, db': Db, i: nat, p: Proc, drawn: set<TransferId>)
    requires Local(c, db, i, p) && Elapsed(c, db, db', Holds(p), drawn)
    ensures Local(c, db', i, p)
  {
    LocalStable(c, db, db', i, p);
  }

  predicate DrawnFor(p: Proc, i: nat, drawn: set<TransferId>) { p.job.Pay? ==> i in drawn }

  /** What the request knows holds, and the row id it drew is unused. */
  ghost predicate InStep(c: Config, db: Db, i: nat, p: Proc) {
    Local(c, db, i, p) && (p.job.Pay? ==> FreshId(db, i))
  }

  predicate BeforeLocks(p: Proc) { p.pc.Exists? || p.pc.Insert? || p.pc.Lock? }

  predicate UnderLocks(p: Proc) { p.pc.SumHolds? || p.pc.InsertTransfer? || p.pc.Mark? || p.pc.Debit? || p.pc.Credit? }

  /** A statement: the request waits, then executes. */
  lemma Advance(c: Config, db: Db, db': Db, i: nat, p: Proc, drawn: set<TransferId>) returns (p': Proc)
    requires InStep(c, db, i, p) && DrawnFor(p, i, drawn) && (BeforeLocks(p) || UnderLocks(p))
    requires Elapsed(c, db, db', Holds(p), drawn)
    ensures Local(c, db', i, p) && InProgram(c, p) && p' == After(c, db', i, p)
    ensures InStep(c, db', i, p') && p'.job == p.job
  {
    Waited(c, db, db', i, p, drawn);
    LocalTwoWallets(c, db', i, p);
    p' := After(c, db', i, p);
    if BeforeLocks(p) {
      OwnStepOpening(c, db', i, p, p.clock, 0);
    } else {
      OwnStepUnderLocks(c, db', i, p, p.clock, 0);
    }
    KeepsJob(c, db', i, p);
  }

  lemma KeepsJob(c: Config, db: Db, i: nat, p: Proc)
    requires InProgram(c, p)
    ensures After(c, db, i, p).job == p.job
  {
  }
}
