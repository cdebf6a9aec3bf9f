/**
 * What the running service answers: who is given which answer, in every
 * reachable state, and that a request which nothing goes wrong for is given one.
 */
module Replies {
  import opened Ledger
  import opened History
  import opened Interference
  import opened Once
  import opened Outcomes
  import opened Protocol
  import opened OwnStep
  import opened Serial
  import opened Steps
  import opened Progress
  import opened Solo
  import opened Guarantees

  // ------------------------------------------------------------- which answer

  /** An invalid transfer is answered on arrival, for the first thing wrong with it. */
  lemma InvalidAnswered(c: Config, s: Sys, r: Request)
    requires !(r.amount > 0 && 1 <= |r.key| <= 128 && r.to in c.users && c.users[r.to] != r.sender)
    ensures Step(c, s, Arrive(Pay(r))).procs[|s.procs|].pc ==
            Done(Rejected(if r.amount <= 0 then BadAmount
                          else if !(1 <= |r.key| <= 128) then BadKey
                          else if r.to !in c.users then UnknownRecipient
                          else SelfTransfer), |s.log|)
  {
  }

  /** A valid transfer's answer is the one that the rows and funds at the moment of its answer call for. */
  lemma TransferAnswered(c: Config, s: Sys, i: nat)
    requires ValidConfig(c) && Reachable(c, s) && Answers(s, i) && s.procs[i].job.Pay?
    requires Validate(c, s.procs[i].job.req).Fine?
    ensures var p := s.procs[i];
            && p.since <= p.pc.at <= |s.log|
            && TransferOutcome(c, Replay(c, s.log[..p.pc.at]), p.job.req, p.clock, p.pc.resp)
  {
    ReachableInv(c, s);
    var p := s.procs[i];
    assert ProcInv(c, s.db, s.log, i, p);
    var log := s.log[..p.pc.at];
    ReplaySound(c, log);
    NoEntryNoRow(c, log, i);
    TransferOutcomes(c, Replay(c, log), p.job.req, p.clock, i);
  }

  /** A claim's answer is the one that the rows, the window and the balances at the moment of its answer call for. */
  lemma ClaimAnswered(c: Config, s: Sys, i: nat)
    requires ValidConfig(c) && Reachable(c, s) && Answers(s, i) && s.procs[i].job.Reclaim?
    ensures var p := s.procs[i];
            && p.since <= p.pc.at <= |s.log|
            && ClaimOutcome(c, Replay(c, s.log[..p.pc.at]), p.job.caller, p.job.id, p.clock, p.pc.resp)
  {
    ReachableInv(c, s);
    var p := s.procs[i];
    assert ProcInv(c, s.db, s.log, i, p);
    ReplaySound(c, s.log[..p.pc.at]);
    ClaimOutcomes(c, Replay(c, s.log[..p.pc.at]), p.job.caller, p.job.id, p.clock);
  }

  /** Nobody but the sender of a row ever gets any other answer about its id than that there is none. */
  lemma StrangersLearnNothing(c: Config, s: Sys, i: nat)
    requires ValidConfig(c) && Reachable(c, s) && Answers(s, i) && s.procs[i].job.Reclaim?
    requires forall t :: !Owns(s.db, s.procs[i].job.caller, s.procs[i].job.id, t)
    ensures s.procs[i].pc.resp == Rejected(NotFound)
  {
    ClaimAnswered(c, s, i);
    var p := s.procs[i];
    ReachableTables(c, s);
    forall t ensures !Owns(Replay(c, s.log[..p.pc.at]), p.job.caller, p.job.id, t) {
      if Owns(Replay(c, s.log[..p.pc.at]), p.job.caller, p.job.id, t) {
        OwnsLater(c, s.log, p.pc.at, p.job.caller, p.job.id, t);
      }
    }
  }

  lemma OwnsLater(c: Config, log: seq<Entry>, n: nat, caller: UserId, id: TransferId, t: Transfer)
    requires n <= |log| && Owns(Replay(c, log[..n]), caller, id, t)
    ensures exists t' :: Owns(Replay(c, log), caller, id, t')
  {
    var ts, ts' := Replay(c, log[..n]).transfers, Replay(c, log).transfers;
    ReplayGrows(c, log, n);
    var k :| 0 <= k < |ts| && ts[k] == t;
    assert RowKept(ts[k], ts'[k]);
    assert Owns(Replay(c, log), caller, id, ts'[k]);
  }

  /**
   * A transfer or a claim that arrives at `s` is answered as the whole operation
   * on tables with everything in them that had been committed by then.
   */
  lemma AnsweredSinceArrival(c: Config, s: Sys, job: Job, s': Sys)
    requires ValidConfig(c) && Reachable(c, s) && Leads(c, Step(c, s, Arrive(job)), s')
    requires Answers(s', |s.procs|) && !job.Open?
    ensures s.log <= s'.log && s'.procs[|s.procs|].job == job
    ensures exists n: nat :: |s.log| <= n <= |s'.log| &&
              s'.procs[|s.procs|].pc.resp ==
              Apply(c, Replay(c, s'.log[..n]), Entry(|s.procs|, job, s'.procs[|s.procs|].clock)).1
  {
    var i := |s.procs|;
    StepReachable(c, s, Arrive(job));
    ArrivesNow(c, s, job);
    LeadsKeeps(c, Step(c, s, Arrive(job)), s', i);
    LeadsReachable(c, Step(c, s, Arrive(job)), s');
    Serialisable(c, s');
    var n := s'.procs[i].pc.at;
    assert s'.procs[i].pc.resp == Apply(c, Replay(c, s'.log[..n]), EntryOf(i, s'.procs[i])).1;
  }

  // ------------------------------------------------------- and that there is one

  /** A statement that is executed does not end in a storage failure. */
  lemma RunNeverFails(c: Config, s: Sys, i: nat)
    requires ValidConfig(c) && Inv(c, s) && Enabled(c, s, Run(i)) && Step(c, s, Run(i)).procs[i].pc.Done?
    ensures Step(c, s, Run(i)).procs[i].pc.resp != Rejected(StorageFailure)
  {
    var e := Act(c, s.db, s.now, |s.log|, i, s.procs[i]);
    if s.procs[i].job.Open? {
      assert ProcInv(c, s.db, s.log, i, s.procs[i]);
    } else {
      RunAnswered(c, s, i, e);
      NeverStorageFailure(c, Replay(c, LogAfter(s, i, e)[..e.p.pc.at]), EntryOf(i, e.p));
    }
  }

  /** A request is settled with a storage failure only by failing, or by losing the acknowledgement of its commit. */
  lemma OnlyFaultsFail(c: Config, s: Sys, a: Action, i: nat)
    requires ValidConfig(c) && Reachable(c, s) && Enabled(c, s, a) && i < |Step(c, s, a).procs|
    requires i < |s.procs| ==> !s.procs[i].pc.Done?
    requires Step(c, s, a).procs[i].pc.Done? && Step(c, s, a).procs[i].pc.resp == Rejected(StorageFailure)
    ensures a == Fail(i) || a == LoseAck(i)
  {
    ReachableInv(c, s);
    if a.Run? && a.i == i { RunNeverFails(c, s, i); }
  }

  /**
   * What may go wrong where a statement could be executed: the request fails and
   * nothing has happened, or its commit has happened and it is told otherwise.
   */
  lemma Faults(c: Config, s: Sys, i: nat)
    requires Enabled(c, s, Run(i))
    ensures Enabled(c, s, Fail(i)) && Step(c, s, Fail(i)).db == s.db && Step(c, s, Fail(i)).log == s.log
    ensures Step(c, s, Fail(i)).procs[i].pc == Done(Rejected(StorageFailure), |s.log|)
    ensures Step(c, s, Run(i)).log != s.log ==>
              && Enabled(c, s, LoseAck(i))
              && Step(c, s, LoseAck(i)).db == Step(c, s, Run(i)).db
              && Step(c, s, LoseAck(i)).log == Step(c, s, Run(i)).log
              && Step(c, s, LoseAck(i)).procs[i].pc == Done(Rejected(StorageFailure), |s.log|)
  {
  }

  /** The system after wallet request `i` has run alone to its answer. */
  ghost predicate Opened(c: Config, s: Sys, i: nat, s': Sys)
    requires i < |s.procs| && s.procs[i].job.Open?
  {
    var u := s.procs[i].job.user;
    && |s'.procs| == |s.procs| && s'.procs == s.procs[i := s'.procs[i]]
    && s'.db == s.db.(wallets := OpenWallet(c, s.db.wallets, u))
    && s'.procs[i].job == s.procs[i].job && s'.procs[i].pc.Done?
    && s'.procs[i].pc.resp.Account? && s'.procs[i].pc.resp.balance == OpenWallet(c, s.db.wallets, u)[u]
    && (s.procs[i].pc.Look? ==> s'.procs[i].pc.resp == Apply(c, s.db, EntryOf(i, s'.procs[i])).1)
    && (s.procs[i].pc.Create? ==>
          && s'.procs[i].pc.resp.created == (u !in s.db.wallets)
          && s'.procs[i].pc.resp.raceLost == (u in s.db.wallets))
    && (s.procs[i].pc.Fetch? ==>
          && s'.procs[i].pc.resp.created == s.procs[i].pc.created
          && s'.procs[i].pc.resp.raceLost == s.procs[i].pc.raceLost)
  }

  /** Alone, a wallet request is answered with an account; from its first statement, as the whole operation. */
  lemma {:induction false} OpenRunsAlone(c: Config, s: Sys, i: nat) returns (s': Sys)
    requires ValidConfig(c) && Reachable(c, s) && i < |s.procs|
    requires Alone(s, i) && !s.procs[i].pc.Done? && s.procs[i].job.Open?
    ensures Leads(c, s, s') && Reachable(c, s') && Opened(c, s, i, s')
    decreases Remaining(s.procs[i].pc)
  {
    ReachableInv(c, s);
    assert ProcInv(c, s.db, s.log, i, s.procs[i]);
    s' := RunsOn(c, s, i);
    if !s'.procs[i].pc.Done? {
      var next := s';
      RunShortens(c, s, i);
      s' := OpenRunsAlone(c, next, i);
      LeadsOn(c, s, next, s');
    }
  }

  lemma CommitAnswer(c: Config, s: Sys, i: nat)
    requires Inv(c, s) && i < |s.procs| && s.procs[i].pc.Commit? && s.procs[i].job.Pay?
    ensures Validate(c, s.procs[i].job.req).Fine?
    ensures Apply(c, Replay(c, s.log), EntryOf(i, s.procs[i])).1 == Sent(i, DebitOf(s.procs[i]), false)
  {
    assert ProcInv(c, s.db, s.log, i, s.procs[i]);
    FreshRow(c, s, i);
    CommitIsApply(c, s.db, i, s.procs[i]);
  }

  /** The commit of request `i` takes effect, but its acknowledgement is lost. */
  lemma LosesAck(c: Config, s: Sys, i: nat) returns (s': Sys)
    requires ValidConfig(c) && Reachable(c, s) && i < |s.procs| && Alone(s, i)
    requires s.procs[i].pc.Commit? && s.procs[i].job.Pay?
    ensures Leads(c, s, s') && Reachable(c, s') && s'.now == s.now
    ensures |s'.procs| == |s.procs| && AllQuiet(s')
    ensures s'.procs[i].pc == Done(Rejected(StorageFailure), |s.log|)
    ensures s'.log == s.log + [EntryOf(i, s.procs[i])]
  {
    ReachableInv(c, s);
    AloneRuns(c, s, i);
    LeadsNowhere(c, s);
    LeadsStep(c, s, s, LoseAck(i));
    s' := Step(c, s, LoseAck(i));
    LeadsReachable(c, s, s');
  }

  /**
   * A client whose transfer was committed without being acknowledged is told of
   * a failure; when it tries again, it is given the id and the balance of that
   * transfer, and no more money moves.
   */
  lemma RetryAfterLostAck(c: Config, s: Sys, i: nat) returns (s': Sys)
    requires ValidConfig(c) && Reachable(c, s) && i < |s.procs| && Alone(s, i)
    requires s.procs[i].pc.Commit? && s.procs[i].job.Pay?
    ensures Leads(c, s, s') && |s'.procs| == |s.procs| + 1
    ensures s'.procs[i].pc.Done? && s'.procs[i].pc.resp == Rejected(StorageFailure)
    ensures s'.procs[|s.procs|].job == s.procs[i].job && s'.procs[|s.procs|].pc.Done?
    ensures s'.procs[|s.procs|].pc.resp == Sent(i, DebitOf(s.procs[i]), true)
    ensures s'.log == s.log + [EntryOf(i, s.procs[i])]
  {
    var n, r := |s.procs|, s.procs[i].job.req;
    ReachableInv(c, s);
    CommitAnswer(c, s, i);
    var s1 := LosesAck(c, s, i);
    ReachableTables(c, s1);
    assert Effective(c, s1.log) by { ReachableInv(c, s1); }
    assert s1.log[..|s.log|] == s.log;
    var s2 := Arrives(c, s1, s1.now, Pay(r));
    s' := RunsAlone(c, s2, n);
    RetryAnswer(c, s1.log, |s.log|, r, s'.procs[n].clock, n);
    LeadsOn(c, s, s1, s2);
    LeadsOn(c, s, s2, s');
  }
}
