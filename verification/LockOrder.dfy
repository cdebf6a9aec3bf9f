/**
 * Wallets are not always acquired in ascending order: a transaction that has
 * to insert the higher one holds it before it locks the lower.
 */
module LockOrder {
  import opened Ledger
  import opened History
  import opened Protocol
  import opened LocalState
  import opened OwnStep
  import opened Serial
  import opened Steps
  import opened Progress
  import opened Solo

  /** The request is about to lock the lower wallet, and has made the higher one its own but not the lower. */
  predicate HigherFirst(p: Proc) {
    p.pc == Lock(0) && Id(p, 1) in Holds(p) && Id(p, 0) !in Holds(p)
  }

  /** Nobody holds or has wallet `u`. */
  ghost predicate Absent(s: Sys, u: UserId) {
    u !in s.db.wallets && forall j :: 0 <= j < |s.procs| ==> u !in s.procs[j].inserted
  }

  /** One statement of request `j` that has nobody to wait for. */
  lemma Statement(c: Config, s: Sys, j: nat) returns (s': Sys)
    requires ValidConfig(c) && Reachable(c, s) && j < |s.procs| && !s.procs[j].pc.Done?
    requires s.procs[j].pc.Insert? ==> Absent(s, Id(s.procs[j], s.procs[j].pc.k))
    requires s.procs[j].pc.Begin? || s.procs[j].pc.Exists? || s.procs[j].pc.Insert?
    ensures Enabled(c, s, Run(j)) && s' == Step(c, s, Run(j)) && Reachable(c, s') && Leads(c, s, s')
  {
    ReachableInv(c, s);
    assert ProcInv(c, s.db, s.log, j, s.procs[j]);
    LocalTwoWallets(c, s.db, j, s.procs[j]);
    forall i | 0 <= i < |s.procs| ensures !Waits(s, j, i) {}
    LeadsNowhere(c, s);
    LeadsStep(c, s, s, Run(j));
    s' := Step(c, s, Run(j));
    LeadsReachable(c, s, s');
  }

  /** Request `j` finds the lower wallet, does not find the higher, and inserts it. */
  lemma InsertsHigher(c: Config, s: Sys, j: nat) returns (s': Sys)
    requires ValidConfig(c) && Reachable(c, s) && j < |s.procs|
    requires s.procs[j].pc == Exists(0) && s.procs[j].inserted == {} && s.procs[j].locked == {}
    requires s.procs[j].payer != s.procs[j].payee
    requires Id(s.procs[j], 0) in s.db.wallets && Absent(s, Id(s.procs[j], 1))
    ensures Leads(c, s, s') && Reachable(c, s')
    ensures s'.db == s.db && |s'.procs| == |s.procs| && HigherFirst(s'.procs[j])
    ensures var p := s.procs[j]; s'.procs == s.procs[j := p.(pc := Lock(0), inserted := p.inserted + {Id(p, 1)})]
  {
    var s1 := Statement(c, s, j);
    var s2 := Statement(c, s1, j);
    s' := Statement(c, s2, j);
    LeadsOn(c, s, s1, s2);
    LeadsOn(c, s, s2, s');
  }

  /**
   * Whenever request `i` has locked wallet `low` and a higher wallet does not
   * exist yet, a transfer between the two comes to hold the higher wallet while
   * it waits for the lower.
   */
  lemma HoldsHigherWaitsForLower(c: Config, s: Sys, i: nat, low: UserId, to: string) returns (s': Sys)
    requires ValidConfig(c) && Reachable(c, s) && i < |s.procs| && to in c.users
    requires low in s.procs[i].locked && low in s.db.wallets
    requires low < c.users[to] && Absent(s, c.users[to])
    ensures Reachable(c, s') && |s'.procs| == |s.procs| + 1
    ensures var j := |s.procs|;
            && s'.procs[j].job.Pay? && Id(s'.procs[j], 0) == low && Id(s'.procs[j], 1) == c.users[to]
            && HigherFirst(s'.procs[j]) && Waits(s', j, i)
  {
    var j := |s.procs|;
    var r := Request(low, to, 1, "k");
    assert Validate(c, r).Fine?;
    var s1 := Arrives(c, s, s.now, Pay(r));
    var s2 := Statement(c, s1, j);
    s' := InsertsHigher(c, s2, j);
  }

  // ------------------------------------------------------- a run in which it does

  predicate BeforeHolds(p: Proc) { p.pc.Begin? || p.pc.Exists? || p.pc.Insert? || p.pc.Lock? }

  /** The system after request `i` has acquired both wallets and nothing else has happened. */
  ghost predicate Acquired(c: Config, s: Sys, i: nat, s': Sys)
    requires i < |s.procs|
  {
    && |s'.procs| == |s.procs| && s' == s.(procs := s.procs[i := s'.procs[i]])
    && s'.procs[i].pc.SumHolds? && s'.procs[i].job == s.procs[i].job
  }

  /** Alone, a transfer acquires both its wallets. */
  lemma {:induction false} AcquiresAlone(c: Config, s: Sys, i: nat) returns (s': Sys)
    requires ValidConfig(c) && Reachable(c, s) && i < |s.procs| && Alone(s, i)
    requires s.procs[i].job.Pay? && BeforeHolds(s.procs[i])
    ensures Reachable(c, s') && Acquired(c, s, i, s')
    decreases Remaining(s.procs[i].pc)
  {
    s' := RunsOn(c, s, i);
    ReachableInv(c, s);
    AcquiresNext(c, s, i);
    if !s'.procs[i].pc.SumHolds? {
      var next := s';
      RunShortens(c, s, i);
      s' := AcquiresAlone(c, next, i);
    }
  }

  lemma AcquiresNext(c: Config, s: Sys, i: nat)
    requires Inv(c, s) && Enabled(c, s, Run(i)) && s.procs[i].job.Pay? && BeforeHolds(s.procs[i])
    ensures var s' := Step(c, s, Run(i));
            && s' == s.(procs := s.procs[i := s'.procs[i]]) && s'.procs[i].job == s.procs[i].job
            && (s'.procs[i].pc.SumHolds? || BeforeHolds(s'.procs[i]))
  {
    var p := s.procs[i];
    assert ProcInv(c, s.db, s.log, i, p);
    if p.pc.Lock? { OwnLock(c, s.db, i, p, p.pc.k, |s.log|); }
  }

  /** The wallet `low` is opened, and a transfer of `low` to `x` locks it. */
  lemma LocksLower(c: Config, now: Time, low: UserId, x: string) returns (s: Sys)
    requires ValidConfig(c) && x in c.users && c.users[x] != low
    ensures Reachable(c, s) && |s.procs| == 2
    ensures low in s.procs[1].locked && s.db.wallets.Keys == {low}
    ensures s.procs[0].inserted == {} && s.procs[1].inserted <= {low, c.users[x]}
  {
    StartReachable(c, now);
    var s1 := Arrives(c, StartAt(now), now, Open(low));
    var s2 := RunsOn(c, s1, 0);
    var s3 := RunsOn(c, s2, 0);
    var r := Request(low, x, 1, "k");
    assert Validate(c, r).Fine?;
    var s4 := Arrives(c, s3, now, Pay(r));
    s := AcquiresAlone(c, s4, 1);
    assert Local(c, s.db, 1, s.procs[1]) by {
      ReachableInv(c, s);
      assert ProcInv(c, s.db, s.log, 1, s.procs[1]);
    }
  }

  /** Such a run exists in every system with a user to pay and one with a higher id than the payer's. */
  lemma HigherFirstHappens(c: Config, now: Time, low: UserId, x: string, to: string) returns (s: Sys)
    requires ValidConfig(c) && x in c.users && to in c.users
    requires low < c.users[to] && c.users[x] !in {low, c.users[to]}
    ensures Reachable(c, s) && |s.procs| == 3
    ensures HigherFirst(s.procs[2]) && Waits(s, 2, 1)
  {
    var s1 := LocksLower(c, now, low, x);
    s := HoldsHigherWaitsForLower(c, s1, 1, low, to);
  }

  // ----------------------------------------------------------- exactly when it can

  /** A claim opens no wallets, so it always locks the lower first. */
  lemma ClaimsAscend(c: Config, s: Sys, j: nat)
    requires ValidConfig(c) && Reachable(c, s) && j < |s.procs| && s.procs[j].job.Reclaim?
    ensures !HigherFirst(s.procs[j])
  {
    ReachableInv(c, s);
    assert ProcInv(c, s.db, s.log, j, s.procs[j]);
  }

  /** A transfer's wallets are those of its job. */
  lemma SameIds(c: Config, s: Sys, s': Sys, j: nat)
    requires ValidConfig(c) && Reachable(c, s) && Reachable(c, s') && j < |s.procs| && j < |s'.procs|
    requires s.procs[j].job.Pay? && s'.procs[j].job == s.procs[j].job
    requires s.procs[j].pc.Begin? && s'.procs[j].pc == Lock(0)
    ensures Id(s'.procs[j], 0) == Id(s.procs[j], 0) && Id(s'.procs[j], 1) == Id(s.procs[j], 1)
    ensures Holds(s'.procs[j]) !! s'.db.wallets.Keys
  {
    ReachableInv(c, s);
    ReachableInv(c, s');
    assert ProcInv(c, s.db, s.log, j, s.procs[j]);
    assert ProcInv(c, s'.db, s'.log, j, s'.procs[j]);
  }

  /** If the higher wallet exists when the transfer begins, the transfer never holds it before the lower. */
  lemma ExistingAscends(c: Config, s: Sys, s': Sys, j: nat)
    requires ValidConfig(c) && Reachable(c, s) && j < |s.procs|
    requires s.procs[j].job.Pay? && s.procs[j].pc.Begin?
    requires Leads(c, s, s') && Id(s.procs[j], 1) in s.db.wallets
    ensures j < |s'.procs| && !HigherFirst(s'.procs[j])
  {
    LeadsKeeps(c, s, s', j);
    LeadsReachable(c, s, s');
    if s'.procs[j].pc == Lock(0) { SameIds(c, s, s', j); }
  }

  /** Every request but `j` fails. */
  lemma {:induction false} OthersFail(c: Config, s: Sys, j: nat, n: nat) returns (s': Sys)
    requires ValidConfig(c) && Reachable(c, s) && j < |s.procs| && n <= |s.procs|
    ensures Leads(c, s, s') && Reachable(c, s') && s'.db == s.db
    ensures |s'.procs| == |s.procs| && s'.procs[j] == s.procs[j]
    ensures forall i :: 0 <= i < n && i != j ==> s'.procs[i].pc.Done?
  {
    if n == 0 {
      LeadsNowhere(c, s);
      s' := s;
    } else {
      s' := OthersFail(c, s, j, n - 1);
      if n - 1 != j && !s'.procs[n - 1].pc.Done? {
        LeadsStep(c, s, s', Fail(n - 1));
        s' := Step(c, s', Fail(n - 1));
        LeadsReachable(c, s, s');
      }
    }
  }

  lemma OthersQuiet(c: Config, s: Sys, j: nat)
    requires ValidConfig(c) && Reachable(c, s) && j < |s.procs| && s.procs[j].pc.Begin?
    requires forall i :: 0 <= i < |s.procs| && i != j ==> s.procs[i].pc.Done?
    ensures AllQuiet(s)
  {
    ReachableInv(c, s);
    forall i | 0 <= i < |s.procs| ensures Quiet(s.procs[i]) {
      assert ProcInv(c, s.db, s.log, i, s.procs[i]);
    }
  }

  /** A request for the wallet of `u` arrives and opens it, if it is not open. */
  lemma OpensAlone(c: Config, s: Sys, u: UserId) returns (s': Sys)
    requires ValidConfig(c) && Reachable(c, s) && AllQuiet(s)
    ensures Leads(c, s, s') && Reachable(c, s') && AllQuiet(s')
    ensures |s.procs| < |s'.procs| && s'.procs[..|s.procs|] == s.procs
    ensures s'.db.wallets.Keys == s.db.wallets.Keys + {u}
  {
    var i := |s.procs|;
    var s1 := Arrives(c, s, s.now, Open(u));
    StillQuiet(s, s1);
    var s2 := RunsOn(c, s1, i);
    StillQuiet(s, s2);
    LeadsOn(c, s, s1, s2);
    s' := s2;
    if s2.procs[i].pc.Create? {
      s' := RunsOn(c, s2, i);
      StillQuiet(s, s');
      LeadsOn(c, s, s2, s');
    }
  }

  /** Request `j` begins while nobody else is running and the lower wallet exists. */
  lemma BeginsAlone(c: Config, s: Sys, j: nat) returns (s': Sys)
    requires ValidConfig(c) && Reachable(c, s) && j < |s.procs|
    requires s.procs[j].job.Pay? && s.procs[j].pc.Begin?
    requires Id(s.procs[j], 0) != Id(s.procs[j], 1) && Id(s.procs[j], 1) !in s.db.wallets
    ensures Leads(c, s, s') && Reachable(c, s') && j < |s'.procs|
    ensures s'.procs[j] == s.procs[j].(pc := Exists(0), clock := s'.procs[j].clock)
    ensures Id(s.procs[j], 0) in s'.db.wallets && Id(s.procs[j], 1) !in s'.db.wallets
    ensures forall i :: 0 <= i < |s'.procs| && i != j ==> Quiet(s'.procs[i])
  {
    var s1 := OthersFail(c, s, j, |s.procs|);
    OthersQuiet(c, s1, j);
    var s2 := OpensAlone(c, s1, Id(s.procs[j], 0));
    assert s2.procs[j] == s.procs[j];
    s' := RunsOn(c, s2, j);
    LeadsOn(c, s, s1, s2);
    LeadsOn(c, s, s2, s');
  }

  /** If the higher wallet does not exist, there is a continuation in which it is taken first. */
  lemma AbsentMayDescend(c: Config, s: Sys, j: nat) returns (s': Sys)
    requires ValidConfig(c) && Reachable(c, s) && j < |s.procs|
    requires s.procs[j].job.Pay? && s.procs[j].pc.Begin?
    requires Id(s.procs[j], 1) !in s.db.wallets
    ensures Leads(c, s, s') && j < |s'.procs| && HigherFirst(s'.procs[j])
  {
    assert Local(c, s.db, j, s.procs[j]) by {
      ReachableInv(c, s);
      assert ProcInv(c, s.db, s.log, j, s.procs[j]);
    }
    var s1 := BeginsAlone(c, s, j);
    s' := InsertsHigher(c, s1, j);
    LeadsOn(c, s, s1, s');
  }

  /**
   * A transfer that begins may come to hold the higher wallet before the lower
   * exactly if the higher wallet has not been committed yet.
   */
  lemma HigherFirstExactly(c: Config, s: Sys, j: nat)
    requires ValidConfig(c) && Reachable(c, s) && j < |s.procs|
    requires s.procs[j].job.Pay? && s.procs[j].pc.Begin?
    ensures (exists s' :: Leads(c, s, s') && j < |s'.procs| && HigherFirst(s'.procs[j])) <==>
            Id(s.procs[j], 1) !in s.db.wallets
  {
    if Id(s.procs[j], 1) in s.db.wallets {
      forall s' | Leads(c, s, s') && j < |s'.procs| ensures !HigherFirst(s'.procs[j]) {
        ExistingAscends(c, s, s', j);
      }
    } else {
      var s' := AbsentMayDescend(c, s, j);
    }
  }
}
