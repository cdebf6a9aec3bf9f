/**
 * The runs, statement by statement, in which a claim that begins inside its
 * window is refused by the CHECK constraint: because the recipient's spend,
 * begun after the window, commits while the claim waits, or because an earlier
 * claim that had waited in that way took the money.
 */
module RefusedClaim {
  import opened Ledger
  import opened History
  import opened HoldLaws
  import opened HoldsWitness
  import opened Protocol
  import opened OwnStep
  import opened Steps
  import opened Solo

  /** Request `i` claimed a row inside its window, which still is not reversed, and was refused. */
  ghost predicate Denied(c: Config, s: Sys, i: nat, caller: UserId, id: TransferId, claimed: Time) {
    && i < |s.procs|
    && s.procs[i].job == Reclaim(caller, id) && s.procs[i].clock == claimed
    && s.procs[i].pc.Done? && s.procs[i].pc.resp == Rejected(CheckViolated)
    && Claimable(c, s.db, caller, id, claimed)
  }

  lemma GiftTakes(c: Config, a: string, b: string, created: Time)
    requires TwoUsers(c, a, b)
    ensures Takes(c, StartAt(created).db, Gift(c, a, b, created))
  {
    AfterGift(c, a, b, created);
    EffectiveAt(c, [Gift(c, a, b, created)], 0);
  }

  /** `a` pays `b`, begins to claim it back, and waits while `b` spends everything. */
  lemma ClaimWaits(c: Config, a: string, b: string, created: Time, claimed: Time, spent: Time) returns (s: Sys)
    requires TwoUsers(c, a, b) && created <= claimed < created + c.window <= spent
    ensures Reachable(c, s) && s.now == spent && |s.procs| == 3 && AllQuiet(s)
    ensures s.procs[0].pc.Done? && s.procs[2].pc.Done? && AboutToLock(s.procs[1], c.users[a], 0, claimed)
    ensures s.log == SpentHistory(c, a, b, created, spent)
  {
    StartReachable(c, created);
    GiftTakes(c, a, b, created);
    var s1 := PaysAlone(c, StartAt(created), Gift(c, a, b, created));
    assert s1.log == [Gift(c, a, b, created)];
    AfterGift(c, a, b, created);
    ReachableTables(c, s1);
    var s2 := ClaimBegins(c, s1, claimed, c.users[a], 0);
    s := SpendsFirst(c, s2, a, b, created, spent);
    assert s.procs[0] == s2.procs[0] == s1.procs[0] && s.procs[1] == s2.procs[1];
  }

  lemma SpendsFirst(c: Config, s: Sys, a: string, b: string, created: Time, spent: Time) returns (s': Sys)
    requires TwoUsers(c, a, b) && created + c.window <= spent
    requires Reachable(c, s) && s.now <= spent && |s.procs| == 2 && AllQuiet(s)
    requires s.log == [Gift(c, a, b, created)]
    ensures Reachable(c, s') && s'.now == spent && |s'.procs| == 3 && AllQuiet(s')
    ensures s'.procs[..2] == s.procs && s'.procs[2].pc.Done?
    ensures s'.log == SpentHistory(c, a, b, created, spent)
  {
    AfterGift(c, a, b, created);
    SpreeApplies(c, a, b, created, spent);
    ReachableTables(c, s);
    s' := PaysAlone(c, s, Spree(c, a, b, spent));
  }

  /** A claim that is about to lock, and that the history makes fail, is refused. */
  lemma DeniedAlone(c: Config, s: Sys, i: nat, id: TransferId, e: Entry, u: UserId, created: Time, limit: Time)
    returns (s': Sys)
    requires ValidConfig(c) && Reachable(c, s) && i < |s.procs| && Alone(s, i)
    requires e.pid == i && e.job.Reclaim? && e.job.id == id && AboutToLock(s.procs[i], e.job.caller, id, e.clock)
    requires FailsFor(c, s.log, e, u, created, limit)
    ensures Leads(c, s, s') && s'.log == s.log
    ensures |s'.procs| == |s.procs| && s'.procs == s.procs[i := s'.procs[i]]
    ensures Denied(c, s', i, e.job.caller, id, e.clock)
  {
    ReachableTables(c, s);
    s' := RunsAlone(c, s, i);
    assert EntryOf(i, s'.procs[i]) == e;
    ReachableTables(c, s');
  }

  /**
   * For every order of the three moments that `GuaranteeAfterOnTimeIsExact`
   * excludes, a reachable state in which a claim begun at `claimed`, inside the
   * window of a row it may claim, and the first claim there ever was, has been
   * refused because the recipient has spent the money.
   */
  lemma ClaimRefused(c: Config, a: string, b: string, created: Time, claimed: Time, spent: Time) returns (s: Sys)
    requires TwoUsers(c, a, b) && created <= claimed < created + c.window <= spent
    ensures Reachable(c, s) && |s.procs| == 3 && s.log == SpentHistory(c, a, b, created, spent)
    ensures Denied(c, s, 1, c.users[a], 0, claimed)
  {
    var s1 := ClaimWaits(c, a, b, created, claimed, spent);
    SpentRefuses(c, a, b, created, claimed, spent);
    s := DeniedAlone(c, s1, 1, 0, Entry(1, Reclaim(c.users[a], 0), claimed), c.users[b], created, spent);
    LeadsReachable(c, s1, s);
  }

  // --------------------------------------------------- after an earlier late claim

  /** The waiting claim goes on after `a` has paid `b` again, and succeeds. */
  lemma LateClaimWins(c: Config, s: Sys, a: string, b: string, first: Time, spent: Time, created: Time)
    returns (s': Sys)
    requires TwoUsers(c, a, b) && first + c.window <= spent && spent + c.window <= created
    requires Reachable(c, s) && |s.procs| == 4 && Alone(s, 1) && AboutToLock(s.procs[1], c.users[a], 0, first)
    requires s.log == PaidTwice(c, a, b, first, spent, created)
    ensures Reachable(c, s') && s'.now == s.now
    ensures |s'.procs| == 4 && s'.procs == s.procs[1 := s'.procs[1]] && s'.procs[1].pc.Done?
    ensures s'.log == LateHistory(c, a, b, first, spent, created)
  {
    AfterAgain(c, a, b, first, spent, created);
    LateClaimApplies(c, a, b, first, spent, created);
    ReachableTables(c, s);
    s' := RunsAlone(c, s, 1);
    assert EntryOf(1, s'.procs[1]) == LateClaim(c, a, b, first);
  }

  lemma PaysAgain(c: Config, s: Sys, a: string, b: string, first: Time, spent: Time, created: Time)
    returns (s': Sys)
    requires TwoUsers(c, a, b) && first + c.window <= spent && spent + c.window <= created
    requires Reachable(c, s) && s.now <= created && |s.procs| == 3 && AllQuiet(s)
    requires s.log == SpentHistory(c, a, b, first, spent)
    ensures Reachable(c, s') && s'.now == created && |s'.procs| == 4 && AllQuiet(s')
    ensures s'.procs[..3] == s.procs && s'.procs[3].pc.Done?
    ensures s'.log == PaidTwice(c, a, b, first, spent, created)
  {
    AfterSpree(c, a, b, first, spent);
    AgainApplies(c, a, b, first, spent, created);
    ReachableTables(c, s);
    s' := PaysAlone(c, s, Again(c, a, b, created));
  }

  /** Every request that has arrived has been answered. */
  ghost predicate Rests(s: Sys) {
    forall j :: 0 <= j < |s.procs| ==> s.procs[j].pc.Done?
  }

  /** A late claim has succeeded, and nobody is running any more. */
  lemma LateClaimRests(c: Config, a: string, b: string, first: Time, spent: Time, created: Time) returns (s: Sys)
    requires TwoUsers(c, a, b) && first + c.window <= spent && spent + c.window <= created
    ensures Reachable(c, s) && s.now == created && |s.procs| == 4 && Rests(s)
    ensures s.log == LateHistory(c, a, b, first, spent, created)
  {
    var s1 := ClaimWaits(c, a, b, first, first, spent);
    var s2 := PaysAgain(c, s1, a, b, first, spent, created);
    assert s2.procs[0] == s1.procs[0] && s2.procs[1] == s1.procs[1] && s2.procs[2] == s1.procs[2];
    s := LateClaimWins(c, s2, a, b, first, spent, created);
  }

  /**
   * For every claim inside its window, a state in which nobody is running, from
   * which the claim, arriving and running alone, is refused: it is on time, no
   * spend began after it, and an earlier late claim has taken the money.
   */
  lemma LaterClaimRefused(c: Config, a: string, b: string, first: Time, spent: Time, created: Time, claimed: Time)
    returns (idle: Sys, s: Sys)
    requires TwoUsers(c, a, b) && first + c.window <= spent && spent + c.window <= created
    requires created <= claimed < created + c.window
    ensures Reachable(c, idle) && Rests(idle) && Leads(c, idle, s) && s.log == idle.log
    ensures |s.procs| == |idle.procs| + 1 && s.procs[..|idle.procs|] == idle.procs
    ensures Denied(c, s, |idle.procs|, c.users[a], 3, claimed)
    ensures var e := EntryOf(|idle.procs|, s.procs[|idle.procs|]); OnTime(c, s.log, e) && InOrder(c, s.log, e)
  {
    idle := LateClaimRests(c, a, b, first, spent, created);
    var e := Entry(4, Reclaim(c.users[a], 3), claimed);
    LateClaimRefuses(c, a, b, first, spent, created, claimed);
    ReachableTables(c, idle);
    RestsQuietly(c, idle);
    var s1 := ClaimBegins(c, idle, claimed, c.users[a], 3);
    s := DeniedAlone(c, s1, 4, 3, e, c.users[b], created, spent);
    LeadsOn(c, idle, s1, s);
    TimedIsOnTime(c, s.log, e, c.users[b], created, spent);
  }

  lemma RestsQuietly(c: Config, s: Sys)
    requires ValidConfig(c) && Reachable(c, s) && Rests(s)
    ensures AllQuiet(s)
  {
    ReachableInv(c, s);
    forall j | 0 <= j < |s.procs| ensures Quiet(s.procs[j]) { DoneIsQuiet(c, s, j); }
  }
}
