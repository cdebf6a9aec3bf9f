/** Every step of the system keeps the invariant. */
module Steps {
  import opened Ledger
  import opened LedgerLaws
  import opened History
  import opened Interference
  import opened Protocol
  import opened LocalState
  import opened OwnStep
  import opened Serial

  /** One request moves to `p`; the tables and the history move to `db` and `log`. */
  ghost function Moved(s: Sys, i: nat, p: Proc, db: Db, log: seq<Entry>): Sys
    requires i < |s.procs|
  {
    s.(db := db, procs := s.procs[i := p], log := log)
  }

  /** The new entries belong to request `i`, which keeps the history serial. */
  ghost predicate Extends(c: Config, s: Sys, i: nat, p: Proc, db: Db, log: seq<Entry>) {
    || (log == s.log && db == s.db)
    || (log == s.log + [EntryOf(i, p)] && Takes(c, s.db, EntryOf(i, p))
        && db == Apply(c, s.db, EntryOf(i, p)).0 && HasCommitted(p)
        && (p.pc.Done? && !p.job.Open? ==> p.pc.resp == Rejected(StorageFailure) || p.pc.at == |s.log|))
  }

  lemma ExtendsHistory(c: Config, s: Sys, i: nat, p: Proc, db: Db, log: seq<Entry>)
    requires Inv(c, s) && Extends(c, s, i, p, db, log)
    ensures Effective(c, log) && db == Replay(c, log) && s.log <= log
  {
    if log != s.log { ReplayAppend(c, s.log, EntryOf(i, p)); }
  }

  ghost predicate OthersUndisturbed(s: Sys, i: nat, p: Proc, db: Db) {
    forall j :: 0 <= j < |s.procs| && j != i ==>
      Rely(s.db, db, Holds(s.procs[j])) && Holds(p) !! Holds(s.procs[j])
  }

  lemma MovedProcs(c: Config, s: Sys, i: nat, p: Proc, db: Db, log: seq<Entry>)
    requires AllProcs(c, s) && i < |s.procs| && s.log <= log
    requires ProcInv(c, db, log, i, p) && OthersUndisturbed(s, i, p, db)
    ensures AllProcs(c, Moved(s, i, p, db, log))
  {
    var s' := Moved(s, i, p, db, log);
    forall j | 0 <= j < |s'.procs| ensures ProcInv(c, s'.db, s'.log, j, s'.procs[j]) {
      if j != i {
        assert ProcInv(c, s.db, s.log, j, s.procs[j]);
        ProcInvStable(c, s.db, db, s.log, log, j, s.procs[j]);
      }
    }
  }

  lemma MovedApart(s: Sys, i: nat, p: Proc, db: Db)
    requires Apart(s.procs) && i < |s.procs| && OthersUndisturbed(s, i, p, db)
    ensures Apart(s.procs[i := p])
  {
  }

  /** Only a wallet request goes on after it committed, and it stays the same request. */
  ghost predicate KeepsCommitted(i: nat, p: Proc, p': Proc) {
    HasCommitted(p) ==> HasCommitted(p') && p'.job.Open? && EntryOf(i, p') == EntryOf(i, p)
  }

  lemma MovedOwned(c: Config, s: Sys, i: nat, p: Proc, db: Db, log: seq<Entry>)
    requires Owned(s.procs, s.log) && i < |s.procs| && Extends(c, s, i, p, db, log)
    requires KeepsCommitted(i, s.procs[i], p)
    ensures Owned(s.procs[i := p], log)
  {
    var procs := s.procs[i := p];
    forall m | 0 <= m < |log| ensures OwnEntry(procs, log, m) {
      if m < |s.log| { assert OwnEntry(s.procs, s.log, m); }
    }
  }

  /** The frame of every step: one request moves, the others are left alone. */
  lemma MovedInv(c: Config, s: Sys, i: nat, p: Proc, db: Db, log: seq<Entry>)
    requires Inv(c, s) && i < |s.procs|
    requires Extends(c, s, i, p, db, log) && OthersUndisturbed(s, i, p, db)
    requires KeepsCommitted(i, s.procs[i], p)
    requires ProcInv(c, db, log, i, p)
    ensures Inv(c, Moved(s, i, p, db, log))
  {
    ExtendsHistory(c, s, i, p, db, log);
    MovedProcs(c, s, i, p, db, log);
    MovedApart(s, i, p, db);
    MovedOwned(c, s, i, p, db, log);
  }

  // --------------------------------------------------- nobody else is disturbed

  lemma Neighbours(c: Config, s: Sys, i: nat, j: nat)
    requires Inv(c, s) && i < |s.procs| && j < |s.procs| && i != j
    ensures Local(c, s.db, i, s.procs[i]) && Local(c, s.db, j, s.procs[j])
    ensures Holds(s.procs[i]) !! Holds(s.procs[j])
    ensures Holds(s.procs[j]) <= s.db.wallets.Keys + s.procs[j].inserted
    ensures s.procs[j].inserted !! s.db.wallets.Keys
  {
    assert ProcInv(c, s.db, s.log, i, s.procs[i]);
    assert ProcInv(c, s.db, s.log, j, s.procs[j]);
    HoldsVisible(c, s.db, j, s.procs[j]);
  }

  /** Only an insert and a lock take a row, the one they wait for. */
  lemma TakesOneRow(c: Config, db: Db, now: Time, n: nat, i: nat, p: Proc)
    requires InProgram(c, p)
    ensures var took := Holds(Act(c, db, now, n, i, p).p) - Holds(p);
            match p.pc
            case Insert(k) => took <= {Id(p, k)} - db.wallets.Keys
            case Lock(k) => took <= if Visible(db, p, Id(p, k)) then {Id(p, k)} else {}
            case _ => took == {}
  {
  }

  /** A request takes a row only when no other request holds it. */
  lemma TakesFreeRows(c: Config, s: Sys, i: nat, j: nat)
    requires Inv(c, s) && i < |s.procs| && j < |s.procs| && i != j
    requires InProgram(c, s.procs[i]) && !WaitsFor(s.db, s.procs[i], s.procs[j])
    ensures Holds(Act(c, s.db, s.now, |s.log|, i, s.procs[i]).p) !! Holds(s.procs[j])
  {
    Neighbours(c, s, i, j);
    TakesOneRow(c, s.db, s.now, |s.log|, i, s.procs[i]);
    forall u | u in Holds(Act(c, s.db, s.now, |s.log|, i, s.procs[i]).p) ensures u !in Holds(s.procs[j]) {
      assert u !in Holds(s.procs[i]) ==> u in Holds(Act(c, s.db, s.now, |s.log|, i, s.procs[i]).p) - Holds(s.procs[i]);
    }
  }

  /** A commit touches only the wallets and rows of users whose rows the request holds. */
  lemma CommitRely(c: Config, s: Sys, i: nat, j: nat)
    requires Inv(c, s) && i < |s.procs| && j < |s.procs| && i != j && s.procs[i].pc.Commit?
    ensures Rely(s.db, Apply(c, s.db, EntryOf(i, s.procs[i])).0, Holds(s.procs[j]))
  {
    Neighbours(c, s, i, j);
    assert Parties(c, s.db, s.procs[i].job) <= Holds(s.procs[i]);
    ApplyRely(c, s.db, EntryOf(i, s.procs[i]), Holds(s.procs[j]));
  }

  lemma CreateRely(c: Config, s: Sys, i: nat, j: nat)
    requires Inv(c, s) && i < |s.procs| && j < |s.procs| && i != j && s.procs[i].pc.Create?
    requires s.procs[i].job.Open? && s.procs[i].job.user !in s.db.wallets
    requires !WaitsFor(s.db, s.procs[i], s.procs[j])
    ensures Rely(s.db, Apply(c, s.db, EntryOf(i, s.procs[i])).0, Holds(s.procs[j]))
  {
    Neighbours(c, s, i, j);
    ApplyRely(c, s.db, EntryOf(i, s.procs[i]), Holds(s.procs[j]));
  }

  // ----------------------------------------------------------------- the steps

  lemma CommitExtends(c: Config, s: Sys, i: nat)
    requires Inv(c, s) && i < |s.procs| && InProgram(c, s.procs[i])
    requires Act(c, s.db, s.now, |s.log|, i, s.procs[i]).commits
    ensures var e := Act(c, s.db, s.now, |s.log|, i, s.procs[i]);
            && HasCommitted(e.p) && EntryOf(i, e.p) == EntryOf(i, s.procs[i])
            && Takes(c, s.db, EntryOf(i, s.procs[i]))
            && e.db == Apply(c, s.db, EntryOf(i, s.procs[i])).0
            && (s.procs[i].pc.Commit? || (s.procs[i].pc.Create? && s.procs[i].job.Open?
                                          && s.procs[i].job.user !in s.db.wallets))
  {
    assert ProcInv(c, s.db, s.log, i, s.procs[i]);
    FreshRow(c, s, i);
    if s.procs[i].pc.Commit? {
      CommitIsApply(c, s.db, i, s.procs[i]);
    }
  }

  lemma CommitUndisturbed(c: Config, s: Sys, i: nat, p: Proc)
    requires Inv(c, s) && i < |s.procs| && InProgram(c, s.procs[i]) && !Blocked(s, i)
    requires Act(c, s.db, s.now, |s.log|, i, s.procs[i]).commits
    requires Holds(p) == {}
    ensures OthersUndisturbed(s, i, p, Act(c, s.db, s.now, |s.log|, i, s.procs[i]).db)
  {
    CommitExtends(c, s, i);
    forall j | 0 <= j < |s.procs| && j != i
      ensures Rely(s.db, Apply(c, s.db, EntryOf(i, s.procs[i])).0, Holds(s.procs[j]))
    {
      assert !Waits(s, i, j);
      if s.procs[i].pc.Commit? {
        CommitRely(c, s, i, j);
      } else {
        CreateRely(c, s, i, j);
      }
    }
  }

  lemma QuietUndisturbed(c: Config, s: Sys, i: nat)
    requires Inv(c, s) && i < |s.procs| && InProgram(c, s.procs[i]) && !Blocked(s, i)
    ensures OthersUndisturbed(s, i, Act(c, s.db, s.now, |s.log|, i, s.procs[i]).p, s.db)
  {
    forall j | 0 <= j < |s.procs| && j != i
      ensures Rely(s.db, s.db, Holds(s.procs[j]))
      ensures Holds(Act(c, s.db, s.now, |s.log|, i, s.procs[i]).p) !! Holds(s.procs[j])
    {
      assert !Waits(s, i, j);
      RelyReflexive(s.db, Holds(s.procs[j]));
      TakesFreeRows(c, s, i, j);
    }
  }

  lemma AnswerIsAtomic(c: Config, s: Sys, i: nat, e: Effect, log: seq<Entry>)
    requires s.db == Replay(c, s.log)
    requires e.p.pc.Done? && Settled(c, s.db, i, e.p, |s.log|)
    requires log == if e.commits then s.log + [EntryOf(i, e.p)] else s.log
    requires FirstSuccess(e.p.pc.resp) ==> e.commits
    requires forall m :: 0 <= m < |s.log| ==> s.log[m].pid != i
    ensures Atomic(c, log, i, e.p)
  {
    assert log[..|s.log|] == s.log;
  }

  /** The history after request `i` executes a statement with effect `e`. */
  ghost function LogAfter(s: Sys, i: nat, e: Effect): seq<Entry>
    requires i < |s.procs|
  {
    if e.commits then s.log + [EntryOf(i, s.procs[i])] else s.log
  }

  /** An answered transfer or claim was answered as if executed at one moment. */
  lemma RunAnswered(c: Config, s: Sys, i: nat, e: Effect)
    requires ValidConfig(c) && Inv(c, s) && i < |s.procs| && InProgram(c, s.procs[i])
    requires !s.procs[i].pc.Done? && !s.procs[i].job.Open?
    requires e == Act(c, s.db, s.now, |s.log|, i, s.procs[i]) && e.p.pc.Done?
    ensures Atomic(c, LogAfter(s, i, e), i, e.p)
    ensures e.p.pc.at == |s.log|
  {
    assert ProcInv(c, s.db, s.log, i, s.procs[i]);
    ReplaySound(c, s.log);
    FreshRow(c, s, i);
    OwnStepAnswers(c, s.db, i, s.procs[i], s.now, |s.log|);
    assert EntryOf(i, e.p) == EntryOf(i, s.procs[i]) by { SameRequest(c, s, i, e); }
    AnswerIsAtomic(c, s, i, e, LogAfter(s, i, e));
  }

  /** After its transaction began, a request keeps its job and its clock. */
  lemma SameRequest(c: Config, s: Sys, i: nat, e: Effect)
    requires i < |s.procs| && InProgram(c, s.procs[i])
    requires e == Act(c, s.db, s.now, |s.log|, i, s.procs[i])
    ensures e.p.job == s.procs[i].job && e.p.since == s.procs[i].since
    ensures !s.procs[i].pc.Begin? ==> e.p.clock == s.procs[i].clock
  {
  }

  /** Transfers and claims: each statement keeps what the system knows of its request. */
  lemma RunProcInv(c: Config, s: Sys, i: nat, e: Effect)
    requires ValidConfig(c) && Inv(c, s) && i < |s.procs| && InProgram(c, s.procs[i])
    requires !s.procs[i].pc.Done? && !s.procs[i].job.Open?
    requires e == Act(c, s.db, s.now, |s.log|, i, s.procs[i])
    ensures ProcInv(c, e.db, LogAfter(s, i, e), i, e.p)
  {
    assert ProcInv(c, s.db, s.log, i, s.procs[i]);
    assert RowsSound(c, s.db) by { ReplaySound(c, s.log); }
    FreshRow(c, s, i);
    OwnStepLocal(c, s.db, i, s.procs[i], s.now, |s.log|);
    SameRequest(c, s, i, e);
    if e.p.pc.Done? { RunAnswered(c, s, i, e); }
  }

  // ---------------------------------------------------------- wallet requests

  lemma LookProcInv(c: Config, s: Sys, i: nat)
    requires ValidConfig(c) && Inv(c, s) && i < |s.procs| && s.procs[i].job.Open? && s.procs[i].pc.Look?
    ensures ProcInv(c, s.db, s.log, i, ActLook(s.db, |s.log|, s.procs[i]))
  {
    assert ProcInv(c, s.db, s.log, i, s.procs[i]);
    FreshRow(c, s, i);
    assert s.log[..|s.log|] == s.log;
  }

  lemma CreateProcInv(c: Config, s: Sys, i: nat, e: Effect)
    requires ValidConfig(c) && Inv(c, s) && i < |s.procs| && s.procs[i].job.Open? && s.procs[i].pc.Create?
    requires e == ActCreate(c, s.db, |s.log|, s.procs[i])
    ensures ProcInv(c, e.db, LogAfter(s, i, e), i, e.p)
  {
    assert ProcInv(c, s.db, s.log, i, s.procs[i]);
    FreshRow(c, s, i);
    var log := LogAfter(s, i, e);
    assert s.log[..|s.log|] == s.log;
    PrefixKept(s.log, log, |s.log|);
    PrefixKept(s.log, log, s.procs[i].lookedAt);
    assert Looked(c, log, i, e.p, e.p.pc.created, e.p.pc.raceLost);
  }

  lemma FetchProcInv(c: Config, s: Sys, i: nat)
    requires ValidConfig(c) && Inv(c, s) && i < |s.procs| && s.procs[i].job.Open? && s.procs[i].pc.Fetch?
    ensures ProcInv(c, s.db, s.log, i, ActFetch(s.db, |s.log|, s.procs[i]))
  {
    assert ProcInv(c, s.db, s.log, i, s.procs[i]);
    assert s.log[..|s.log|] == s.log;
  }

  lemma OpenProcInv(c: Config, s: Sys, i: nat, e: Effect)
    requires ValidConfig(c) && Inv(c, s) && i < |s.procs| && InProgram(c, s.procs[i])
    requires !s.procs[i].pc.Done? && s.procs[i].job.Open?
    requires e == Act(c, s.db, s.now, |s.log|, i, s.procs[i])
    ensures ProcInv(c, e.db, LogAfter(s, i, e), i, e.p)
  {
    match s.procs[i].pc
    case Look => LookProcInv(c, s, i);
    case Create => CreateProcInv(c, s, i, e);
    case Fetch(_, _) => FetchProcInv(c, s, i);
    case _ =>
  }

  // --------------------------------------------------------------- all actions

  lemma {:induction false} RunInv(c: Config, s: Sys, i: nat)
    requires ValidConfig(c) && Inv(c, s) && Enabled(c, s, Run(i))
    ensures Inv(c, Step(c, s, Run(i)))
  {
    var e := Act(c, s.db, s.now, |s.log|, i, s.procs[i]);
    if s.procs[i].job.Open? { OpenProcInv(c, s, i, e); } else { RunProcInv(c, s, i, e); }
    if e.commits {
      CommitExtends(c, s, i);
      CommitReleases(c, s, i);
      CommitUndisturbed(c, s, i, e.p);
    } else {
      QuietRun(c, s, i);
    }
    MovedInv(c, s, i, e.p, e.db, LogAfter(s, i, e));
  }

  lemma CommitReleases(c: Config, s: Sys, i: nat)
    requires Inv(c, s) && i < |s.procs| && InProgram(c, s.procs[i])
    requires Act(c, s.db, s.now, |s.log|, i, s.procs[i]).commits
    ensures Holds(Act(c, s.db, s.now, |s.log|, i, s.procs[i]).p) == {}
  {
    assert ProcInv(c, s.db, s.log, i, s.procs[i]);
  }

  lemma QuietRun(c: Config, s: Sys, i: nat)
    requires Inv(c, s) && Enabled(c, s, Run(i))
    requires !Act(c, s.db, s.now, |s.log|, i, s.procs[i]).commits
    ensures var e := Act(c, s.db, s.now, |s.log|, i, s.procs[i]);
            e.db == s.db && OthersUndisturbed(s, i, e.p, e.db) && KeepsCommitted(i, s.procs[i], e.p)
  {
    assert ProcInv(c, s.db, s.log, i, s.procs[i]);
    QuietUndisturbed(c, s, i);
  }

  lemma FailedProcInv(c: Config, db: Db, log: seq<Entry>, i: nat, p: Proc, n: nat)
    requires p.since <= n <= |log|
    ensures ProcInv(c, db, log, i, Answer(p, Rejected(StorageFailure), n))
  {
  }

  lemma FailInv(c: Config, s: Sys, i: nat)
    requires Inv(c, s) && Enabled(c, s, Fail(i))
    ensures Inv(c, Step(c, s, Fail(i)))
  {
    assert ProcInv(c, s.db, s.log, i, s.procs[i]);
    var p := Answer(s.procs[i], Rejected(StorageFailure), |s.log|);
    FailedProcInv(c, s.db, s.log, i, s.procs[i], |s.log|);
    forall j | 0 <= j < |s.procs| && j != i ensures Rely(s.db, s.db, Holds(s.procs[j])) {
      RelyReflexive(s.db, Holds(s.procs[j]));
    }
    MovedInv(c, s, i, p, s.db, s.log);
  }

  lemma LoseAckInv(c: Config, s: Sys, i: nat)
    requires ValidConfig(c) && Inv(c, s) && Enabled(c, s, LoseAck(i))
    ensures Inv(c, Step(c, s, LoseAck(i)))
  {
    assert ProcInv(c, s.db, s.log, i, s.procs[i]);
    var e := Act(c, s.db, s.now, |s.log|, i, s.procs[i]);
    var p := Answer(s.procs[i], Rejected(StorageFailure), |s.log|);
    CommitExtends(c, s, i);
    CommitUndisturbed(c, s, i, p);
    FailedProcInv(c, e.db, LogAfter(s, i, e), i, s.procs[i], |s.log|);
    MovedInv(c, s, i, p, e.db, LogAfter(s, i, e));
  }

  lemma NewcomerProcInv(c: Config, s: Sys, job: Job)
    requires Inv(c, s)
    ensures ProcInv(c, s.db, s.log, |s.procs|, Newcomer(c, |s.log|, job))
    ensures Holds(Newcomer(c, |s.log|, job)) == {}
  {
    forall m | 0 <= m < |s.log| ensures s.log[m].pid != |s.procs| {
      assert OwnEntry(s.procs, s.log, m);
    }
    assert s.log[..|s.log|] == s.log;
  }

  lemma ArriveInv(c: Config, s: Sys, job: Job)
    requires Inv(c, s)
    ensures Inv(c, Step(c, s, Arrive(job)))
  {
    var s' := Step(c, s, Arrive(job));
    NewcomerProcInv(c, s, job);
    forall i | 0 <= i < |s'.procs| ensures ProcInv(c, s'.db, s'.log, i, s'.procs[i]) {
      if i < |s.procs| { assert ProcInv(c, s.db, s.log, i, s.procs[i]); }
    }
    forall m | 0 <= m < |s.log| ensures OwnEntry(s'.procs, s.log, m) {
      assert OwnEntry(s.procs, s.log, m);
    }
  }

  /** The invariant is kept by every step of every kind. */
  lemma StepInv(c: Config, s: Sys, a: Action)
    requires ValidConfig(c) && Inv(c, s) && Enabled(c, s, a)
    ensures Inv(c, Step(c, s, a))
  {
    match a
    case Arrive(job) => ArriveInv(c, s, job);
    case Tick(now) =>
      var s' := Step(c, s, a);
      forall i | 0 <= i < |s'.procs| ensures ProcInv(c, s'.db, s'.log, i, s'.procs[i]) {
        assert ProcInv(c, s.db, s.log, i, s.procs[i]);
      }
    case Run(i) => RunInv(c, s, i);
    case Fail(i) => FailInv(c, s, i);
    case LoseAck(i) => LoseAckInv(c, s, i);
  }

  lemma NextInv(c: Config, s: Sys, s': Sys)
    requires ValidConfig(c) && Inv(c, s) && Next(c, s, s')
    ensures Inv(c, s')
  {
    var a :| Enabled(c, s, a) && s' == Step(c, s, a);
    StepInv(c, s, a);
  }

  lemma {:induction false} RunOfInv(c: Config, run: seq<Sys>, k: nat)
    requires ValidConfig(c) && IsRun(c, run) && Inv(c, run[0]) && k < |run|
    ensures Inv(c, run[k])
  {
    if k > 0 {
      RunOfInv(c, run, k - 1);
      assert StepAt(c, run, k - 1);
      NextInv(c, run[k - 1], run[k]);
    }
  }

  lemma ReachableInv(c: Config, s: Sys)
    requires ValidConfig(c) && Reachable(c, s)
    ensures Inv(c, s)
  {
    var now :| Leads(c, StartAt(now), s);
    var run: seq<Sys> :| IsRun(c, run) && run[0] == StartAt(now) && run[|run| - 1] == s;
    RunOfInv(c, run, |run| - 1);
  }
}
