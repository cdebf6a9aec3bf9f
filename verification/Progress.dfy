/**
 * No deadlock, although a transaction may hold the higher wallet (by inserting
 * it) while it waits for the lower: a request waits only for one that is
 * further ahead, in its insert phase or in its lock phase.
 */
module Progress {
  import opened Ledger
  import opened Protocol
  import opened LocalState
  import opened Serial
  import opened Steps

  // -------------------------------------------------- the order of the waiting

  /** 0 and 1: waiting to insert; 2: waiting to lock; 3: past every wait. */
  function Phase(p: Proc): nat {
    match p.pc
    case Create => 0
    case Insert(_) => 1
    case Lock(_) => 2
    case _ => 3
  }

  /** The wallet the request is at in its phase. */
  function At(p: Proc): nat {
    match p.pc
    case Insert(k) => Id(p, k)
    case Lock(k) => Id(p, k)
    case _ => 0
  }

  predicate Ahead(p: Proc, q: Proc) {
    Phase(p) < Phase(q) || (Phase(p) == Phase(q) && At(p) < At(q))
  }

  lemma AheadTransitive(p: Proc, q: Proc, r: Proc)
    requires Ahead(p, q) && Ahead(q, r)
    ensures Ahead(p, r)
  {
  }

  /** A request that has inserted wallet `u` and inserts another is past `u`. */
  lemma InsertedAhead(c: Config, db: Db, j: nat, q: Proc, u: UserId)
    requires Local(c, db, j, q) && u in q.inserted
    ensures Phase(q) > 1 || (Phase(q) == 1 && u < At(q))
  {
    assert q.payer != q.payee;
    assert q.pc.Insert? ==> q.pc.k == 1 && u == Id(q, 0);
  }

  /** A request that has locked wallet `u` and locks another is past `u`. */
  lemma LockedAhead(c: Config, db: Db, j: nat, q: Proc, u: UserId)
    requires Local(c, db, j, q) && u in q.locked
    ensures Phase(q) == 3 || (Phase(q) == 2 && u < At(q))
  {
    assert q.payer != q.payee;
    assert q.pc.Lock? ==> q.pc.k == 1 && u == Id(q, 0);
  }

  /** An uncommitted insert is invisible, so a lock waits only for a lock. */
  lemma LockWaitsForLock(c: Config, s: Sys, i: nat, j: nat)
    requires Inv(c, s) && i < |s.procs| && j < |s.procs| && Waits(s, i, j) && s.procs[i].pc.Lock?
    ensures Id(s.procs[i], s.procs[i].pc.k) in s.procs[j].locked
  {
    Neighbours(c, s, i, j);
  }

  /** The key that a request is about to insert is not being inserted by another. */
  lemma NoKeyWait(c: Config, s: Sys, i: nat, j: nat)
    requires Inv(c, s) && i < |s.procs| && j < |s.procs| && i != j && s.procs[i].pc.InsertTransfer?
    ensures !WaitsFor(s.db, s.procs[i], s.procs[j])
  {
    Neighbours(c, s, i, j);
    var p, q := s.procs[i], s.procs[j];
    assert p.payer in Holds(p) && p.payer == p.job.req.sender;
    assert q.pending.NewRow? ==> q.payer in Holds(q) && q.pending.row.sender == q.payer;
  }

  /** The row that a claim is about to mark is not being marked by another. */
  lemma NoMarkWait(c: Config, s: Sys, i: nat, j: nat)
    requires Inv(c, s) && i < |s.procs| && j < |s.procs| && i != j && s.procs[i].pc.Mark?
    ensures !WaitsFor(s.db, s.procs[i], s.procs[j])
  {
    Neighbours(c, s, i, j);
    var p, q := s.procs[i], s.procs[j];
    assert p.payer in Holds(p) && Claiming(s.db, p);
    assert q.pending.Flip? ==> q.payer in Holds(q) && Claiming(s.db, q) && q.job.id == q.pending.id;
  }

  /**
   * Once both wallets are locked a transaction never waits again: neither for
   * the idempotency key, nor for the transfer row, nor for a balance.
   */
  lemma NoWaitAfterLocks(c: Config, s: Sys, i: nat)
    requires Inv(c, s) && i < |s.procs|
    requires s.procs[i].pc in {SumHolds, InsertTransfer, Mark, Debit, Credit, Commit}
    ensures !Blocked(s, i)
  {
    forall j | 0 <= j < |s.procs| ensures !Waits(s, i, j) {
      if i != j {
        Neighbours(c, s, i, j);
        match s.procs[i].pc
        case InsertTransfer => NoKeyWait(c, s, i, j);
        case Mark => NoMarkWait(c, s, i, j);
        case _ =>
      }
    }
  }

  /** Whoever is waited for is further ahead, and still running. */
  lemma WaitsForAhead(c: Config, s: Sys, i: nat, j: nat)
    requires Inv(c, s) && i < |s.procs| && j < |s.procs| && Waits(s, i, j)
    ensures Ahead(s.procs[i], s.procs[j])
    ensures !s.procs[j].pc.Done?
  {
    Neighbours(c, s, i, j);
    var p, q := s.procs[i], s.procs[j];
    match p.pc
    case Insert(k) => InsertedAhead(c, s.db, j, q, Id(p, k));
    case Create => InsertedAhead(c, s.db, j, q, p.job.user);
    case Lock(k) =>
      LockWaitsForLock(c, s, i, j);
      LockedAhead(c, s.db, j, q, Id(p, k));
    case _ => NoWaitAfterLocks(c, s, i);
  }

  ghost predicate WaitChain(s: Sys, path: seq<nat>) {
    && (forall k :: 0 <= k < |path| ==> path[k] < |s.procs|)
    && (forall k :: 0 <= k < |path| - 1 ==> Waits(s, path[k], path[k + 1]))
  }

  lemma {:induction false} ChainAhead(c: Config, s: Sys, path: seq<nat>)
    requires Inv(c, s) && 2 <= |path| && WaitChain(s, path)
    ensures Ahead(s.procs[path[0]], s.procs[path[|path| - 1]])
  {
    var n := |path| - 1;
    WaitsForAhead(c, s, path[n - 1], path[n]);
    if n > 1 {
      ChainAhead(c, s, path[..n]);
      AheadTransitive(s.procs[path[0]], s.procs[path[n - 1]], s.procs[path[n]]);
    }
  }

  /** No chain of waiting requests, however long, comes back to where it started. */
  lemma NoDeadlock(c: Config, s: Sys, path: seq<nat>)
    requires ValidConfig(c) && Reachable(c, s) && 2 <= |path| && WaitChain(s, path)
    ensures path[0] != path[|path| - 1]
  {
    ReachableInv(c, s);
    ChainAhead(c, s, path);
  }

  // ------------------------------------------------------------------ progress

  /** Among the first `n` requests, an unfinished one that no other unfinished one is ahead of. */
  lemma {:induction false} Foremost(s: Sys, n: nat, i: nat) returns (m: nat)
    requires i < n <= |s.procs| && !s.procs[i].pc.Done?
    ensures m < n && !s.procs[m].pc.Done?
    ensures forall j :: 0 <= j < n && !s.procs[j].pc.Done? ==> !Ahead(s.procs[m], s.procs[j])
  {
    if i == n - 1 && forall j :: 0 <= j < i ==> s.procs[j].pc.Done? {
      m := i;
    } else {
      var i' :| 0 <= i' < n - 1 && !s.procs[i'].pc.Done?;
      m := Foremost(s, n - 1, i');
      if !s.procs[n - 1].pc.Done? && Ahead(s.procs[m], s.procs[n - 1]) {
        m := n - 1;
      }
    }
  }

  /** While a request is unfinished, some request can execute its next statement. */
  lemma SomeoneCanStep(c: Config, s: Sys, i: nat) returns (m: nat)
    requires Inv(c, s) && i < |s.procs| && !s.procs[i].pc.Done?
    ensures Enabled(c, s, Run(m))
  {
    m := Foremost(s, |s.procs|, i);
    assert ProcInv(c, s.db, s.log, m, s.procs[m]);
    LocalTwoWallets(c, s.db, m, s.procs[m]);
    forall j | 0 <= j < |s.procs| ensures !Waits(s, m, j) {
      if Waits(s, m, j) { WaitsForAhead(c, s, m, j); }
    }
  }

  /** An upper bound on the statements a request still has to execute. */
  function Remaining(pc: Pc): nat {
    match pc
    case Read => 13
    case Begin => 12
    case Exists(k) => if k == 0 then 11 else 9
    case Insert(k) => if k == 0 then 10 else 8
    case Lock(k) => if k == 0 then 7 else 6
    case SumHolds => 5
    case InsertTransfer | Mark => 4
    case Debit | Look => 3
    case Credit | Create => 2
    case Commit | Resolve | Reread | Fetch(_, _) => 1
    case Done(_, _) => 0
  }

  function Work(procs: seq<Proc>): nat {
    if procs == [] then 0 else Work(procs[..|procs| - 1]) + Remaining(procs[|procs| - 1].pc)
  }

  lemma {:induction false} WorkUpdate(procs: seq<Proc>, i: nat, p: Proc)
    requires i < |procs|
    ensures Work(procs[i := p]) == Work(procs) - Remaining(procs[i].pc) + Remaining(p.pc)
  {
    var n := |procs| - 1;
    if i == n {
      assert procs[i := p][..n] == procs[..n];
    } else {
      assert procs[i := p][..n] == procs[..n][i := p];
      WorkUpdate(procs[..n], i, p);
    }
  }

  lemma ActShortensOpening(c: Config, db: Db, now: Time, n: nat, i: nat, p: Proc)
    requires TwoWallets(p) && InProgram(c, p) && (p.pc.Exists? || p.pc.Insert? || p.pc.Lock? || p.pc.InsertTransfer?)
    ensures Remaining(Act(c, db, now, n, i, p).p.pc) < Remaining(p.pc)
  {
  }

  lemma ActShortens(c: Config, db: Db, now: Time, n: nat, i: nat, p: Proc)
    requires TwoWallets(p) && InProgram(c, p) && !p.pc.Done?
    ensures Remaining(Act(c, db, now, n, i, p).p.pc) < Remaining(p.pc)
  {
    if p.pc.Exists? || p.pc.Insert? || p.pc.Lock? || p.pc.InsertTransfer? {
      ActShortensOpening(c, db, now, n, i, p);
    }
  }

  lemma {:induction false} RunShortens(c: Config, s: Sys, i: nat)
    requires Inv(c, s) && i < |s.procs| && InProgram(c, s.procs[i]) && !s.procs[i].pc.Done?
    ensures Remaining(Act(c, s.db, s.now, |s.log|, i, s.procs[i]).p.pc) < Remaining(s.procs[i].pc)
  {
    assert ProcInv(c, s.db, s.log, i, s.procs[i]);
    LocalTwoWallets(c, s.db, i, s.procs[i]);
    ActShortens(c, s.db, s.now, |s.log|, i, s.procs[i]);
  }

  lemma AnswerShortens(procs: seq<Proc>, i: nat, resp: Response, n: nat)
    requires i < |procs| && !procs[i].pc.Done?
    ensures Work(procs[i := Answer(procs[i], resp, n)]) < Work(procs)
  {
    WorkUpdate(procs, i, Answer(procs[i], resp, n));
  }

  /** Every statement executed, failed or unacknowledged, leaves less work. */
  lemma StepShortens(c: Config, s: Sys, a: Action)
    requires Inv(c, s) && Enabled(c, s, a) && Moves(a)
    ensures Work(Step(c, s, a).procs) < Work(s.procs)
  {
    match a
    case Run(i) =>
      RunShortens(c, s, i);
      WorkUpdate(s.procs, i, Act(c, s.db, s.now, |s.log|, i, s.procs[i]).p);
    case Fail(i) => AnswerShortens(s.procs, i, Rejected(StorageFailure), |s.log|);
    case LoseAck(i) => AnswerShortens(s.procs, i, Rejected(StorageFailure), |s.log|);
  }

  ghost predicate AllDone(s: Sys) {
    forall i :: 0 <= i < |s.procs| ==> s.procs[i].pc.Done?
  }

  ghost predicate Runs(c: Config, s: Sys, s': Sys) {
    exists i :: Enabled(c, s, Run(i)) && s' == Step(c, s, Run(i))
  }

  /** From `s`, statements of the requests already there, one after the other. */
  ghost predicate Trail(c: Config, s: Sys, trail: seq<Sys>) {
    && trail != [] && trail[0] == s
    && (forall k :: 0 < k < |trail| ==> Runs(c, trail[k - 1], trail[k]))
  }

  lemma TrailCons(c: Config, s: Sys, s': Sys, rest: seq<Sys>)
    requires Runs(c, s, s') && Trail(c, s', rest)
    ensures Trail(c, s, [s] + rest)
  {
    var trail := [s] + rest;
    forall k | 0 < k < |trail| ensures Runs(c, trail[k - 1], trail[k]) {
      if k > 1 {
        assert trail[k] == rest[k - 1] && trail[k - 1] == rest[k - 2];
        assert Runs(c, rest[(k - 1) - 1], rest[k - 1]);
      }
    }
  }

  lemma {:induction false} NextStatement(c: Config, s: Sys) returns (s': Sys)
    requires ValidConfig(c) && Inv(c, s) && !AllDone(s)
    ensures Runs(c, s, s') && Inv(c, s') && Work(s'.procs) < Work(s.procs)
  {
    var i :| 0 <= i < |s.procs| && !s.procs[i].pc.Done?;
    var m := SomeoneCanStep(c, s, i);
    s' := Step(c, s, Run(m));
    StepInv(c, s, Run(m));
    StepShortens(c, s, Run(m));
  }

  /**
   * From every reachable state the requests there can all be brought to an
   * answer, by no more statements than the work that remains.
   */
  lemma {:induction false} BurstFinishes(c: Config, s: Sys) returns (trail: seq<Sys>)
    requires ValidConfig(c) && Inv(c, s)
    ensures Trail(c, s, trail) && AllDone(trail[|trail| - 1]) && |trail| - 1 <= Work(s.procs)
    decreases Work(s.procs)
  {
    if AllDone(s) {
      trail := [s];
    } else {
      var s' := NextStatement(c, s);
      var rest := BurstFinishes(c, s');
      TrailCons(c, s, s', rest);
      trail := [s] + rest;
    }
  }

  ghost predicate MovesTo(c: Config, s: Sys, s': Sys) {
    exists a :: Moves(a) && Enabled(c, s, a) && s' == Step(c, s, a)
  }

  /** And however they are scheduled, and whatever fails, they execute no more than that. */
  lemma {:induction false} BurstIsFinite(c: Config, trail: seq<Sys>)
    requires ValidConfig(c) && trail != [] && Inv(c, trail[0])
    requires forall k :: 0 < k < |trail| ==> MovesTo(c, trail[k - 1], trail[k])
    ensures |trail| - 1 + Work(trail[|trail| - 1].procs) <= Work(trail[0].procs)
    ensures Inv(c, trail[|trail| - 1])
  {
    var n := |trail| - 1;
    if n > 0 {
      BurstIsFinite(c, trail[..n]);
      assert MovesTo(c, trail[n - 1], trail[n]);
      var a :| Moves(a) && Enabled(c, trail[n - 1], a) && trail[n] == Step(c, trail[n - 1], a);
      StepInv(c, trail[n - 1], a);
      StepShortens(c, trail[n - 1], a);
    }
  }
}
