/**
 * A request that runs while no other holds a row is answered, and as the whole
 * operation would be. With it, runs are built statement by statement.
 */
module Solo {
  import opened Ledger
  import opened LedgerLaws
  import opened History
  import opened Interference
  import opened Protocol
  import opened LocalState
  import opened OwnStep
  import opened Serial
  import opened Steps
  import opened Progress

  lemma LeadsNowhere(c: Config, s: Sys)
    ensures Leads(c, s, s)
  {
    assert IsRun(c, [s]) && [s][0] == s && [s][|[s]| - 1] == s;
  }

  lemma StartReachable(c: Config, now: Time)
    ensures Reachable(c, StartAt(now))
  {
    LeadsNowhere(c, StartAt(now));
  }

  lemma LeadsStep(c: Config, s: Sys, s': Sys, a: Action)
    requires Leads(c, s, s') && Enabled(c, s', a)
    ensures Leads(c, s, Step(c, s', a))
  {
    var run: seq<Sys> :| IsRun(c, run) && run[0] == s && run[|run| - 1] == s';
    var run' := run + [Step(c, s', a)];
    forall i | 0 <= i < |run'| - 1 ensures StepAt(c, run', i) {
      if i < |run| - 1 { assert StepAt(c, run, i); }
    }
    assert IsRun(c, run') && run'[0] == s && run'[|run'| - 1] == Step(c, s', a);
  }

  lemma LeadsOn(c: Config, s: Sys, s': Sys, s'': Sys)
    requires Leads(c, s, s') && Leads(c, s', s'')
    ensures Leads(c, s, s'')
  {
    var run: seq<Sys> :| IsRun(c, run) && run[0] == s && run[|run| - 1] == s';
    var rest: seq<Sys> :| IsRun(c, rest) && rest[0] == s' && rest[|rest| - 1] == s'';
    var n := |run| - 1;
    var run' := run[..n] + rest;
    forall i | 0 <= i < |run'| - 1 ensures StepAt(c, run', i) {
      if i < n { assert StepAt(c, run, i); } else { assert StepAt(c, rest, i - n); }
    }
    assert IsRun(c, run') && run'[0] == s && run'[|run'| - 1] == s'';
  }

  lemma StepReachable(c: Config, s: Sys, a: Action)
    requires Reachable(c, s) && Enabled(c, s, a)
    ensures Reachable(c, Step(c, s, a))
  {
    var now :| Leads(c, StartAt(now), s);
    LeadsStep(c, StartAt(now), s, a);
  }

  lemma LeadsReachable(c: Config, s: Sys, s': Sys)
    requires Reachable(c, s) && Leads(c, s, s')
    ensures Reachable(c, s')
  {
    var now :| Leads(c, StartAt(now), s);
    LeadsOn(c, StartAt(now), s, s');
  }

  lemma ReachableTables(c: Config, s: Sys)
    requires ValidConfig(c) && Reachable(c, s)
    ensures s.db == Replay(c, s.log)
  {
    ReachableInv(c, s);
  }

  /** A request that arrives has seen none of the commits yet to come. */
  lemma ArrivesNow(c: Config, s: Sys, job: Job)
    ensures var p := Step(c, s, Arrive(job)).procs[|s.procs|]; p.job == job && p.since == |s.log|
  {
  }

  lemma StepKeeps(c: Config, s: Sys, a: Action, j: nat)
    requires Enabled(c, s, a) && j < |s.procs|
    ensures var s' := Step(c, s, a);
            && j < |s'.procs| && s'.procs[j].job == s.procs[j].job && s'.procs[j].since == s.procs[j].since
            && s.log <= s'.log
  {
    if a.Run? { SameRequest(c, s, a.i, Act(c, s.db, s.now, |s.log|, a.i, s.procs[a.i])); }
  }

  lemma {:induction false} RunKeeps(c: Config, run: seq<Sys>, k: nat, j: nat)
    requires IsRun(c, run) && k < |run| && j < |run[0].procs|
    ensures j < |run[k].procs| && run[k].procs[j].job == run[0].procs[j].job
    ensures run[k].procs[j].since == run[0].procs[j].since && run[0].log <= run[k].log
  {
    if k > 0 {
      RunKeeps(c, run, k - 1, j);
      assert StepAt(c, run, k - 1);
      var a :| Enabled(c, run[k - 1], a) && run[k] == Step(c, run[k - 1], a);
      StepKeeps(c, run[k - 1], a, j);
    }
  }

  /** Whatever happens next, commits and wallets stay, and requests stay the requests they are. */
  lemma LeadsKeeps(c: Config, s: Sys, s': Sys, j: nat)
    requires ValidConfig(c) && Reachable(c, s) && Leads(c, s, s') && j < |s.procs|
    ensures j < |s'.procs| && s'.procs[j].job == s.procs[j].job && s'.procs[j].since == s.procs[j].since
    ensures s.log <= s'.log && s.db.wallets.Keys <= s'.db.wallets.Keys
  {
    var run: seq<Sys> :| IsRun(c, run) && run[0] == s && run[|run| - 1] == s';
    RunKeeps(c, run, |run| - 1, j);
    LeadsReachable(c, s, s');
    ReachableTables(c, s);
    ReachableTables(c, s');
    assert s'.log[..|s.log|] == s.log;
    ReplayGrows(c, s'.log, |s.log|);
  }

  ghost predicate Quiet(p: Proc) { Holds(p) == {} && p.pending == Nothing }

  ghost predicate AllQuiet(s: Sys) {
    forall j :: 0 <= j < |s.procs| ==> Quiet(s.procs[j])
  }

  lemma StillQuiet(s: Sys, s': Sys)
    requires AllQuiet(s) && |s'.procs| == |s.procs| + 1 && s'.procs[..|s.procs|] == s.procs
    requires Quiet(s'.procs[|s.procs|])
    ensures AllQuiet(s')
  {
    forall j | 0 <= j < |s'.procs| ensures Quiet(s'.procs[j]) {
      if j < |s.procs| { assert s'.procs[j] == s.procs[j]; }
    }
  }

  lemma DoneIsQuiet(c: Config, s: Sys, i: nat)
    requires Inv(c, s) && i < |s.procs| && s.procs[i].pc.Done?
    ensures Quiet(s.procs[i])
  {
    assert ProcInv(c, s.db, s.log, i, s.procs[i]);
  }

  /** No request but `i` is inside a transaction that holds or buffers anything. */
  ghost predicate Alone(s: Sys, i: nat) {
    forall j :: 0 <= j < |s.procs| && j != i ==> Quiet(s.procs[j])
  }

  lemma AloneRuns(c: Config, s: Sys, i: nat)
    requires Inv(c, s) && Alone(s, i) && i < |s.procs| && !s.procs[i].pc.Done?
    ensures Enabled(c, s, Run(i))
  {
    assert ProcInv(c, s.db, s.log, i, s.procs[i]);
    LocalTwoWallets(c, s.db, i, s.procs[i]);
    forall j | 0 <= j < |s.procs| ensures !Waits(s, i, j) {}
  }

  /** One statement of a request that is alone. */
  lemma RunsOn(c: Config, s: Sys, i: nat) returns (s': Sys)
    requires ValidConfig(c) && Reachable(c, s) && i < |s.procs| && Alone(s, i) && !s.procs[i].pc.Done?
    ensures Enabled(c, s, Run(i)) && s' == Step(c, s, Run(i)) && Reachable(c, s') && Leads(c, s, s')
  {
    ReachableInv(c, s);
    AloneRuns(c, s, i);
    StepReachable(c, s, Run(i));
    LeadsNowhere(c, s);
    LeadsStep(c, s, s, Run(i));
    s' := Step(c, s, Run(i));
  }

  /** The time of the transaction: now, if it is about to begin. */
  ghost predicate ClockFrom(s: Sys, p: Proc, p': Proc) {
    && (p.pc.Begin? ==> p'.clock == s.now)
    && (!p.pc.Begin? && !p.pc.Read? ==> p'.clock == p.clock)
  }

  /** The system after request `i` has run alone to its answer. */
  ghost predicate Finished(c: Config, s: Sys, i: nat, s': Sys)
    requires i < |s.procs|
  {
    && i < |s'.procs|
    && var p' := s'.procs[i];
    && s'.procs == s.procs[i := p']
    && s'.now == s.now
    && p'.job == s.procs[i].job
    && p'.pc == Done(Apply(c, s.db, EntryOf(i, p')).1, |s.log|)
    && s'.log == (if FirstSuccess(p'.pc.resp) then s.log + [EntryOf(i, p')] else s.log)
    && ClockFrom(s, s.procs[i], p')
  }

  /** The system after request `i` executed a statement that did not answer it. */
  ghost predicate GoesOn(s: Sys, i: nat, s': Sys)
    requires i < |s.procs|
  {
    && i < |s'.procs|
    && var p' := s'.procs[i];
    && s' == s.(procs := s.procs[i := p'])
    && p'.job == s.procs[i].job
    && ClockFrom(s, s.procs[i], p')
    && !p'.pc.Read? && (p'.pc.Begin? ==> s.procs[i].pc.Read?)
  }

  lemma GoesOnFinishes(c: Config, s: Sys, i: nat, next: Sys, s': Sys)
    requires i < |s.procs| && GoesOn(s, i, next) && Finished(c, next, i, s')
    ensures Finished(c, s, i, s')
  {
  }

  lemma SoloAnswers(c: Config, s: Sys, i: nat)
    requires ValidConfig(c) && Inv(c, s) && Enabled(c, s, Run(i)) && !s.procs[i].job.Open?
    requires Step(c, s, Run(i)).procs[i].pc.Done?
    ensures Finished(c, s, i, Step(c, s, Run(i)))
  {
    var e := Act(c, s.db, s.now, |s.log|, i, s.procs[i]);
    assert ProcInv(c, s.db, s.log, i, s.procs[i]);
    assert RowsSound(c, s.db) by { ReplaySound(c, s.log); }
    FreshRow(c, s, i);
    SameRequest(c, s, i, e);
    OwnStepAnswers(c, s.db, i, s.procs[i], s.now, |s.log|);
  }

  lemma ActGoesOn(c: Config, s: Sys, i: nat, e: Effect)
    requires i < |s.procs| && InProgram(c, s.procs[i])
    requires e == Act(c, s.db, s.now, |s.log|, i, s.procs[i])
    requires !e.p.pc.Done? && !s.procs[i].job.Open?
    ensures e.db == s.db && !e.commits
    ensures e.p.job == s.procs[i].job && ClockFrom(s, s.procs[i], e.p)
    ensures !e.p.pc.Read? && (e.p.pc.Begin? ==> s.procs[i].pc.Read?)
  {
  }

  lemma SoloGoesOn(c: Config, s: Sys, i: nat)
    requires Enabled(c, s, Run(i)) && !s.procs[i].job.Open?
    requires !Step(c, s, Run(i)).procs[i].pc.Done?
    ensures GoesOn(s, i, Step(c, s, Run(i)))
  {
    ActGoesOn(c, s, i, Act(c, s.db, s.now, |s.log|, i, s.procs[i]));
  }

  /** Alone, a transfer or a claim is brought to the answer of the whole operation. */
  lemma {:induction false} RunsAlone(c: Config, s: Sys, i: nat) returns (s': Sys)
    requires ValidConfig(c) && Reachable(c, s) && i < |s.procs|
    requires Alone(s, i) && !s.procs[i].pc.Done? && !s.procs[i].job.Open?
    ensures Leads(c, s, s') && Reachable(c, s') && Finished(c, s, i, s')
    decreases Remaining(s.procs[i].pc)
  {
    s' := RunsOn(c, s, i);
    ReachableInv(c, s);
    if s'.procs[i].pc.Done? {
      SoloAnswers(c, s, i);
    } else {
      var next := s';
      SoloGoesOn(c, s, i);
      RunShortens(c, s, i);
      s' := RunsAlone(c, next, i);
      GoesOnFinishes(c, s, i, next, s');
      LeadsOn(c, s, next, s');
    }
  }

  /** Time passes and a request arrives. */
  lemma Arrives(c: Config, s: Sys, now: Time, job: Job) returns (s': Sys)
    requires Reachable(c, s) && s.now <= now
    ensures s' == Sys(now, s.db, s.procs + [Newcomer(c, |s.log|, job)], s.log)
    ensures Reachable(c, s') && Leads(c, s, s')
  {
    LeadsNowhere(c, s);
    LeadsStep(c, s, s, Tick(now));
    var s1 := Step(c, s, Tick(now));
    LeadsStep(c, s, s1, Arrive(job));
    s' := Step(c, s1, Arrive(job));
    LeadsReachable(c, s, s');
  }

  /** The transfer `e`, which the tables allow, arrives and runs alone to its success. */
  lemma PaysAlone(c: Config, s: Sys, e: Entry) returns (s': Sys)
    requires ValidConfig(c) && Reachable(c, s) && AllQuiet(s)
    requires e.pid == |s.procs| && e.job.Pay? && s.now <= e.clock && Takes(c, s.db, e)
    ensures Reachable(c, s') && s'.now == e.clock && s'.log == s.log + [e]
    ensures |s'.procs| == |s.procs| + 1 && s'.procs[..|s.procs|] == s.procs
    ensures s'.procs[|s.procs|].pc.Done? && AllQuiet(s')
  {
    var i := |s.procs|;
    var s1 := Arrives(c, s, e.clock, e.job);
    assert Validate(c, e.job.req).Fine?;
    s' := RunsAlone(c, s1, i);
    assert EntryOf(i, s'.procs[i]) == e;
    ReachableInv(c, s');
    DoneIsQuiet(c, s', i);
    StillQuiet(s, s');
  }

  /** The claim has begun its transaction at `claimed` and is about to lock its first wallet. */
  ghost predicate AboutToLock(p: Proc, caller: UserId, id: TransferId, claimed: Time) {
    Quiet(p) && p.pc == Lock(0) && p.job == Reclaim(caller, id) && p.clock == claimed
  }

  /** The claim arrives at time `now`, reads the row, and begins its transaction. */
  lemma ClaimBegins(c: Config, s: Sys, now: Time, caller: UserId, id: TransferId) returns (s': Sys)
    requires ValidConfig(c) && Reachable(c, s) && s.now <= now && AllQuiet(s)
    requires var k := IdIndex(s.db.transfers, id);
             k < |s.db.transfers| && s.db.transfers[k].sender == caller && s.db.transfers[k].status.Completed?
    ensures Leads(c, s, s') && Reachable(c, s') && s'.now == now && s'.log == s.log
    ensures |s'.procs| == |s.procs| + 1 && s'.procs[..|s.procs|] == s.procs
    ensures AboutToLock(s'.procs[|s.procs|], caller, id, now) && AllQuiet(s')
  {
    var i := |s.procs|;
    var s1 := Arrives(c, s, now, Reclaim(caller, id));
    var s2 := RunsOn(c, s1, i);
    s' := RunsOn(c, s2, i);
    LeadsOn(c, s, s1, s2);
    LeadsOn(c, s, s2, s');
    StillQuiet(s, s');
  }
}
