/** What clients and operators can rely on, in every reachable state of the running service. */
module Guarantees {
  import Body
  import opened Money
  import opened Ledger
  import opened LedgerLaws
  import opened Conservation
  import opened History
  import opened Interference
  import opened HoldLaws
  import opened Once
  import opened Protocol
  import opened LocalState
  import opened OwnStep
  import opened Serial
  import opened Steps

  // ------------------------------------------------------------- serialisability

  /** Request `i` was answered and did not fail. */
  ghost predicate Answers(s: Sys, i: nat) {
    i < |s.procs| && s.procs[i].pc.Done? && s.procs[i].pc.resp != Rejected(StorageFailure)
  }

  /**
   * Every interleaving leaves exactly the tables of the committed operations
   * applied one at a time in commit order, each at the clock at which its
   * transaction began; every transfer and claim that is answered is answered as
   * the whole operation would be at one moment between its arrival and its answer.
   */
  lemma Serialisable(c: Config, s: Sys)
    requires ValidConfig(c) && Reachable(c, s)
    ensures Effective(c, s.log) && s.db == Replay(c, s.log)
    ensures forall i: nat :: Answers(s, i) && !s.procs[i].job.Open? ==>
              s.procs[i].since <= s.procs[i].pc.at <= |s.log| && Atomic(c, s.log, i, s.procs[i])
  {
    ReachableInv(c, s);
    forall i: nat | Answers(s, i) && !s.procs[i].job.Open?
      ensures s.procs[i].since <= s.procs[i].pc.at <= |s.log| && Atomic(c, s.log, i, s.procs[i])
    {
      assert ProcInv(c, s.db, s.log, i, s.procs[i]);
    }
  }

  /** A transfer or a claim that is refused has no entry in the history: it changed nothing. */
  lemma RefusedLeavesNoTrace(c: Config, s: Sys, i: nat, m: nat)
    requires ValidConfig(c) && Reachable(c, s) && Answers(s, i) && !s.procs[i].job.Open?
    requires m < |s.log| && s.log[m].pid == i
    ensures FirstSuccess(s.procs[i].pc.resp) && s.procs[i].pc.at == m
  {
    ReachableInv(c, s);
    assert ProcInv(c, s.db, s.log, i, s.procs[i]);
    assert OwnEntry(s.procs, s.log, m);
    EffectiveAt(c, s.log, m);
  }

  /** No money appears or disappears, whatever happens, and every balance accounts for its rows. */
  lemma Reconciles(c: Config, s: Sys)
    requires ValidConfig(c) && Reachable(c, s)
    ensures Total(s.db) == |s.db.wallets| * c.seed
    ensures forall u :: u in s.db.wallets ==>
              0 <= s.db.wallets[u] == c.seed + Received(s.db.transfers, u) - Paid(s.db.transfers, u)
  {
    ReachableInv(c, s);
    ReplaySound(c, s.log);
    Conserved(c, s.db);
    forall u | u in s.db.wallets
      ensures 0 <= s.db.wallets[u] == c.seed + Received(s.db.transfers, u) - Paid(s.db.transfers, u)
    {
      assert Balanced(c, s.db, u);
    }
  }

  // -------------------------------------------------------------------- retries

  /** The row that claimed the request's key holds its body and the answer (id, balance). */
  ghost predicate AnswerStored(ts: seq<Transfer>, r: Request, id: TransferId, balance: int64) {
    var k := KeyIndex(ts, r.sender, r.key);
    k < |ts| && ts[k].id == id && ts[k].senderAfter == balance && ts[k].body == BodyOf(r)
  }

  lemma StoredKept(ts: seq<Transfer>, ts': seq<Transfer>, r: Request, id: TransferId, balance: int64)
    requires AnswerStored(ts, r, id, balance) && RowsRely(ts, ts', {})
    ensures AnswerStored(ts', r, id, balance)
  {
    KeyIndexKept(ts, ts', r.sender, r.key);
    var k := KeyIndex(ts, r.sender, r.key);
    assert RowKept(ts[k], ts'[k]);
  }

  /** Every success answer to a transfer, first or repeated, is in the committed row for its key. */
  lemma SuccessIsStored(c: Config, s: Sys, i: nat)
    requires Inv(c, s) && Answers(s, i) && s.procs[i].job.Pay? && s.procs[i].pc.resp.Sent?
    ensures AnswerStored(s.db.transfers, s.procs[i].job.req, s.procs[i].pc.resp.id, s.procs[i].pc.resp.newBalance)
  {
    var p := s.procs[i];
    assert ProcInv(c, s.db, s.log, i, p);
    if p.pc.resp.replayed {
      ReplayGrows(c, s.log, p.pc.at);
      StoredKept(Replay(c, s.log[..p.pc.at]).transfers, s.db.transfers, p.job.req, p.pc.resp.id, p.pc.resp.newBalance);
    } else {
      PaidRow(c, s.log, p.pc.at);
    }
  }

  /**
   * All success answers for one sender and key carry the same transfer id and
   * the same balance, and were given for the same recipient name and amount.
   */
  lemma RetriesAgree(c: Config, s: Sys, i: nat, j: nat)
    requires ValidConfig(c) && Reachable(c, s) && Answers(s, i) && Answers(s, j)
    requires s.procs[i].job.Pay? && s.procs[i].pc.resp.Sent? && s.procs[j].job.Pay? && s.procs[j].pc.resp.Sent?
    requires s.procs[i].job.req.sender == s.procs[j].job.req.sender
    requires s.procs[i].job.req.key == s.procs[j].job.req.key
    ensures s.procs[i].pc.resp.id == s.procs[j].pc.resp.id
    ensures s.procs[i].pc.resp.newBalance == s.procs[j].pc.resp.newBalance
    ensures s.procs[i].job.req == s.procs[j].job.req
  {
    ReachableInv(c, s);
    SuccessIsStored(c, s, i);
    SuccessIsStored(c, s, j);
    var r, r' := s.procs[i].job.req, s.procs[j].job.req;
    Body.EncodeInjective(r.to, r.amount, r'.to, r'.amount);
  }

  /**
   * Over all attempts with one sender and key, whatever failed and whatever
   * acknowledgement was lost, money moves at most once, and one row says so.
   */
  lemma KeyMovesMoneyOnce(c: Config, s: Sys, m: nat, n: nat)
    requires ValidConfig(c) && Reachable(c, s) && m < |s.log| && n < |s.log|
    requires s.log[m].job.Pay? && s.log[n].job.Pay?
    requires s.log[m].job.req.sender == s.log[n].job.req.sender && s.log[m].job.req.key == s.log[n].job.req.key
    ensures m == n
    ensures exists k :: 0 <= k < |s.db.transfers| && s.db.transfers[k].id == s.log[m].pid
                        && s.db.transfers[k].sender == s.log[m].job.req.sender
                        && s.db.transfers[k].key == s.log[m].job.req.key
    ensures Unique(s.db.transfers)
  {
    ReachableInv(c, s);
    ReplaySound(c, s.log);
    KeyPaysOnce(c, s.log, m, n);
    PaidRow(c, s.log, m);
  }

  /** At most one of those attempts is told that it was the one that moved the money. */
  lemma OneFirstSuccess(c: Config, s: Sys, i: nat, j: nat)
    requires ValidConfig(c) && Reachable(c, s) && Answers(s, i) && Answers(s, j)
    requires s.procs[i].job.Pay? && FirstSuccess(s.procs[i].pc.resp)
    requires s.procs[j].job.Pay? && FirstSuccess(s.procs[j].pc.resp)
    requires s.procs[i].job.req.sender == s.procs[j].job.req.sender
    requires s.procs[i].job.req.key == s.procs[j].job.req.key
    ensures i == j
  {
    ReachableInv(c, s);
    assert ProcInv(c, s.db, s.log, i, s.procs[i]);
    assert ProcInv(c, s.db, s.log, j, s.procs[j]);
    KeyPaysOnce(c, s.log, s.procs[i].pc.at, s.procs[j].pc.at);
  }

  /** An attempt answered after its key was claimed is told replay or conflict, never a lack of funds. */
  lemma ClaimedKeyNeverShort(c: Config, s: Sys, i: nat)
    requires ValidConfig(c) && Reachable(c, s) && Answers(s, i) && s.procs[i].job.Pay?
    requires Validate(c, s.procs[i].job.req).Fine?
    requires s.procs[i].pc.at <= |s.log| && KeyClaimed(Replay(c, s.log[..s.procs[i].pc.at]), s.procs[i].job.req)
    ensures s.procs[i].pc.resp == Rejected(KeyConflict) ||
            (s.procs[i].pc.resp.Sent? && s.procs[i].pc.resp.replayed)
  {
    ReachableInv(c, s);
    var p := s.procs[i];
    assert ProcInv(c, s.db, s.log, i, p);
    ReplaySound(c, s.log[..p.pc.at]);
    ClaimedKeyAnswer(c, Replay(c, s.log[..p.pc.at]), p.job.req, p.clock, i);
  }

  // ------------------------------------------------------------------ reversals

  /** The row `id` is reversed, and holds the reversal's balance and time. */
  ghost predicate ReversalStored(ts: seq<Transfer>, id: TransferId, balance: int64, at: Time) {
    var k := IdIndex(ts, id);
    k < |ts| && ts[k].status == Reversed(at, balance)
  }

  lemma ReversalKept(ts: seq<Transfer>, ts': seq<Transfer>, id: TransferId, balance: int64, at: Time)
    requires ReversalStored(ts, id, balance, at) && RowsRely(ts, ts', {})
    ensures ReversalStored(ts', id, balance, at)
  {
    IdIndexKept(ts, ts', id);
    var k := IdIndex(ts, id);
    assert RowKept(ts[k], ts'[k]);
  }

  /** Every success answer to a claim, applied or replayed, is in the committed row. */
  lemma ReversalIsStored(c: Config, s: Sys, i: nat)
    requires Inv(c, s) && Answers(s, i) && s.procs[i].job.Reclaim? && s.procs[i].pc.resp.Returned?
    ensures s.procs[i].pc.resp.id == s.procs[i].job.id
    ensures ReversalStored(s.db.transfers, s.procs[i].job.id,
                           s.procs[i].pc.resp.newBalance, s.procs[i].pc.resp.reversedAt)
  {
    var p := s.procs[i];
    assert ProcInv(c, s.db, s.log, i, p);
    if p.pc.resp.replayed {
      ReplayGrows(c, s.log, p.pc.at);
      ReversalKept(Replay(c, s.log[..p.pc.at]).transfers, s.db.transfers, p.job.id,
                   p.pc.resp.newBalance, p.pc.resp.reversedAt);
    } else {
      ReversedRow(c, s.log, p.pc.at);
    }
  }

  /** All success answers to claims of one transfer carry the same time and balance. */
  lemma ClaimsAgree(c: Config, s: Sys, i: nat, j: nat)
    requires ValidConfig(c) && Reachable(c, s) && Answers(s, i) && Answers(s, j)
    requires s.procs[i].job.Reclaim? && s.procs[i].pc.resp.Returned?
    requires s.procs[j].job.Reclaim? && s.procs[j].pc.resp.Returned?
    requires s.procs[i].job.id == s.procs[j].job.id
    ensures s.procs[i].pc.resp.reversedAt == s.procs[j].pc.resp.reversedAt
    ensures s.procs[i].pc.resp.newBalance == s.procs[j].pc.resp.newBalance
  {
    ReachableInv(c, s);
    ReversalIsStored(c, s, i);
    ReversalIsStored(c, s, j);
  }

  /** At most one claim of a transfer is told that it applied the reversal. */
  lemma ReversalAppliesOnce(c: Config, s: Sys, i: nat, j: nat)
    requires ValidConfig(c) && Reachable(c, s) && Answers(s, i) && Answers(s, j)
    requires s.procs[i].job.Reclaim? && FirstSuccess(s.procs[i].pc.resp)
    requires s.procs[j].job.Reclaim? && FirstSuccess(s.procs[j].pc.resp)
    requires s.procs[i].job.id == s.procs[j].job.id
    ensures i == j
  {
    ReachableInv(c, s);
    assert ProcInv(c, s.db, s.log, i, s.procs[i]);
    assert ProcInv(c, s.db, s.log, j, s.procs[j]);
    ReversesOnce(c, s.log, s.procs[i].pc.at, s.procs[j].pc.at);
  }

  /** "Window expired" is answered only if the window had passed at the claim's own clock. */
  lemma ExpiredIsExpired(c: Config, s: Sys, i: nat)
    requires ValidConfig(c) && Reachable(c, s) && Answers(s, i) && s.procs[i].job.Reclaim?
    requires s.procs[i].pc.resp == Rejected(WindowExpired)
    ensures var k := IdIndex(s.db.transfers, s.procs[i].job.id);
            && k < |s.db.transfers|
            && s.db.transfers[k].sender == s.procs[i].job.caller
            && !InWindow(c, s.db.transfers[k].createdAt, s.procs[i].clock)
  {
    ReachableInv(c, s);
    var p := s.procs[i];
    assert ProcInv(c, s.db, s.log, i, p);
    var ts := Replay(c, s.log[..p.pc.at]).transfers;
    ReplayGrows(c, s.log, p.pc.at);
    IdIndexKept(ts, s.db.transfers, p.job.id);
    assert RowKept(ts[IdIndex(ts, p.job.id)], s.db.transfers[IdIndex(ts, p.job.id)]);
  }

  /**
   * When a claim commits, what it read of the row before its transaction is
   * what the row holds now, the row is still claimable at the claim's clock,
   * and the balances it computed from are the current ones.
   */
  lemma StaleReadHarmless(c: Config, s: Sys, i: nat)
    requires ValidConfig(c) && Reachable(c, s) && i < |s.procs|
    requires s.procs[i].pc.Commit? && s.procs[i].job.Reclaim?
    ensures var p := s.procs[i];
            var k := IdIndex(s.db.transfers, p.job.id);
            && Claimable(c, s.db, p.job.caller, p.job.id, p.clock)
            && (s.db.transfers[k].sender, s.db.transfers[k].recipient, s.db.transfers[k].amount)
               == (p.payee, p.payer, p.amount)
            && p.payer in s.db.wallets && p.payee in s.db.wallets
            && SeenBalance(p, p.payer) == s.db.wallets[p.payer]
            && SeenBalance(p, p.payee) == s.db.wallets[p.payee]
  {
    ReachableInv(c, s);
    var p := s.procs[i];
    assert ProcInv(c, s.db, s.log, i, p);
    SeenIsCurrent(c, s.db, p);
  }

  /** Locking never reports a missing wallet. */
  lemma NeverMissingWallet(c: Config, s: Sys, i: nat)
    requires ValidConfig(c) && Reachable(c, s) && Answers(s, i) && !s.procs[i].job.Open?
    ensures s.procs[i].pc.resp != Rejected(NoWallet)
  {
    ReachableInv(c, s);
    var p := s.procs[i];
    assert ProcInv(c, s.db, s.log, i, p);
    if p.job.Reclaim? {
      ReplaySound(c, s.log[..p.pc.at]);
      ClaimSound(c, Replay(c, s.log[..p.pc.at]), p.job.caller, p.job.id, p.clock);
    }
  }

  /**
   * Rows are numbered by the requests that insert them, consistently: no insert
   * meets a row of its own number. (Drawn ids are taken to be distinct.)
   */
  lemma NeverDuplicateId(c: Config, s: Sys, i: nat)
    requires ValidConfig(c) && Reachable(c, s) && Answers(s, i) && s.procs[i].job.Pay?
    ensures s.procs[i].pc.resp != Rejected(DuplicateId)
  {
    ReachableInv(c, s);
    assert ProcInv(c, s.db, s.log, i, s.procs[i]);
    NoEntryNoRow(c, s.log[..s.procs[i].pc.at], i);
  }

  /**
   * A claim is never refused by the CHECK constraint if, when it was answered,
   * every committed claim against the same recipient was on time and so is this
   * one (and seeds fit).
   */
  lemma ClaimNeverShort(c: Config, s: Sys, i: nat)
    requires ValidConfig(c) && Reachable(c, s) && Answers(s, i) && s.procs[i].job.Reclaim?
    requires s.procs[i].pc.at <= |s.log|
    requires var log, e := s.log[..s.procs[i].pc.at], EntryOf(i, s.procs[i]);
             && (forall u :: Against(c, log, e, u) ==> AllOnTime(c, log, u)) && OnTime(c, log, e)
             && |Replay(c, log).wallets| * c.seed <= MAX64
    ensures s.procs[i].pc.resp != Rejected(CheckViolated)
  {
    ReachableInv(c, s);
    var p := s.procs[i];
    assert ProcInv(c, s.db, s.log, i, p);
    var log := s.log[..p.pc.at];
    EffectivePrefix(c, s.log, p.pc.at);
    if Claimable(c, Replay(c, log), p.job.caller, p.job.id, p.clock) {
      var ts := Replay(c, log).transfers;
      var u := ts[IdIndex(ts, p.job.id)].recipient;
      assert Against(c, log, EntryOf(i, p), u);
      ReversalGuaranteed(c, log, EntryOf(i, p), u);
    }
  }

  /**
   * In every reachable state, a balance covers its holds from the wallet's last
   * spend on, if the claims against that wallet were on time.
   */
  lemma HoldsAreCovered(c: Config, s: Sys, u: UserId, clock: Time)
    requires ValidConfig(c) && Reachable(c, s) && AllOnTime(c, s.log, u)
    requires u in s.db.wallets && SpendsBy(s.log, u, clock)
    ensures s.db.wallets[u] >= Held(c, s.db.transfers, u, clock)
  {
    ReachableInv(c, s);
    HoldsCovered(c, s.log, u);
    assert Covered(c, Replay(c, s.log), u, clock);
  }

  /** If the seeds fit in 64 bits, no transfer is ever refused by the CHECK constraint. */
  lemma TransferNeverOverflows(c: Config, s: Sys, i: nat)
    requires ValidConfig(c) && Reachable(c, s) && Answers(s, i) && s.procs[i].job.Pay?
    requires Validate(c, s.procs[i].job.req).Fine? && s.procs[i].pc.at <= |s.log|
    requires |BothOpen(c, Replay(c, s.log[..s.procs[i].pc.at]), s.procs[i].job.req).wallets| * c.seed <= MAX64
    ensures s.procs[i].pc.resp != Rejected(CheckViolated)
  {
    ReachableInv(c, s);
    var p := s.procs[i];
    assert ProcInv(c, s.db, s.log, i, p);
    ReplaySound(c, s.log[..p.pc.at]);
    TransferNeverWraps(c, Replay(c, s.log[..p.pc.at]), p.job.req, p.clock, i);
  }

  // -------------------------------------------------------------------- wallets

  /** Between a moment without the wallet and one with it, some entry created it. */
  lemma {:induction false} CreatedBetween(c: Config, log: seq<Entry>, a: nat, b: nat, u: UserId) returns (m: nat)
    requires a <= b <= |log| && !HasWallet(c, log, a, u) && HasWallet(c, log, b, u)
    ensures a <= m < b && Creates(c, log, m, u)
    decreases b - a
  {
    if HasWallet(c, log, a + 1, u) {
      m := a;
    } else {
      m := CreatedBetween(c, log, a + 1, b, u);
    }
  }

  /** What the invariant says about an answered wallet request. */
  lemma OpenAnswered(c: Config, s: Sys, i: nat)
    requires ValidConfig(c) && Reachable(c, s) && Answers(s, i) && s.procs[i].job.Open?
    ensures Effective(c, s.log)
    ensures var p := s.procs[i];
            && p.pc.resp.Account?
            && Looked(c, s.log, i, p, p.pc.resp.created, p.pc.resp.raceLost)
            && p.insertedAt <= p.pc.at <= |s.log|
            && HasWallet(c, s.log, p.pc.at, p.job.user)
            && p.pc.resp.balance == Replay(c, s.log[..p.pc.at]).wallets[p.job.user]
  {
    ReachableInv(c, s);
    assert ProcInv(c, s.db, s.log, i, s.procs[i]);
  }

  /**
   * The race-lost flag is raised exactly when the wallet was absent when the
   * request looked and another request's creation committed before its insert
   * resolved.
   */
  lemma RaceLostExactly(c: Config, s: Sys, i: nat)
    requires ValidConfig(c) && Reachable(c, s) && Answers(s, i) && s.procs[i].job.Open?
    ensures var p := s.procs[i];
            && p.pc.resp.Account?
            && p.lookedAt <= p.insertedAt <= |s.log|
            && (p.pc.resp.raceLost <==>
                !HasWallet(c, s.log, p.lookedAt, p.job.user) &&
                exists m :: p.lookedAt <= m < p.insertedAt && Creates(c, s.log, m, p.job.user) && s.log[m].pid != i)
  {
    OpenAnswered(c, s, i);
    var p := s.procs[i];
    if p.pc.resp.raceLost {
      var m := CreatedBetween(c, s.log, p.lookedAt, p.insertedAt, p.job.user);
      assert Creates(c, s.log, m, p.job.user) && s.log[m].pid != i;
    }
    if p.pc.resp.created {
      NotCreatedBefore(c, s.log, p.insertedAt, p.job.user);
    }
  }

  /** The created flag is raised exactly when the request's own insert created the wallet it had not found. */
  lemma CreatedExactly(c: Config, s: Sys, i: nat)
    requires ValidConfig(c) && Reachable(c, s) && Answers(s, i) && s.procs[i].job.Open?
    ensures var p := s.procs[i];
            && p.pc.resp.Account?
            && p.lookedAt <= p.insertedAt <= |s.log|
            && (p.pc.resp.created <==>
                !HasWallet(c, s.log, p.lookedAt, p.job.user) && p.insertedAt < |s.log|
                && s.log[p.insertedAt].pid == i && Creates(c, s.log, p.insertedAt, p.job.user))
            && (p.pc.resp.created || p.pc.resp.raceLost <==> !HasWallet(c, s.log, p.lookedAt, p.job.user))
  {
    OpenAnswered(c, s, i);
    var p := s.procs[i];
    if p.pc.resp.created {
      EffectiveAt(c, s.log, p.insertedAt);
    }
  }

  /** The balance in the answer is the wallet's at a moment after the insert resolved. */
  lemma AccountBalance(c: Config, s: Sys, i: nat)
    requires ValidConfig(c) && Reachable(c, s) && Answers(s, i) && s.procs[i].job.Open?
    ensures var p := s.procs[i];
            && p.pc.resp.Account?
            && p.since <= p.lookedAt <= p.insertedAt <= p.pc.at <= |s.log|
            && HasWallet(c, s.log, p.pc.at, p.job.user)
            && p.pc.resp.balance == Replay(c, s.log[..p.pc.at]).wallets[p.job.user]
  {
    OpenAnswered(c, s, i);
  }

  /** Wallets are never removed, so an absent wallet has not been created before. */
  lemma NotCreatedBefore(c: Config, log: seq<Entry>, n: nat, u: UserId)
    requires n <= |log| && !HasWallet(c, log, n, u)
    ensures forall m :: 0 <= m < n ==> !Creates(c, log, m, u)
  {
    forall m | 0 <= m < n ensures !Creates(c, log, m, u) {
      assert log[..n][..m + 1] == log[..m + 1];
      ReplayGrows(c, log[..n], m + 1);
    }
  }

  // ---------------------------------------------------------------- interference

  /** While a request is between statements, the others respect the rows it holds. */
  lemma OthersRespectLocks(c: Config, s: Sys, a: Action, i: nat)
    requires ValidConfig(c) && Inv(c, s) && Enabled(c, s, a) && i < |s.procs|
    requires Moves(a) ==> a.i != i
    ensures Step(c, s, a).procs[i] == s.procs[i]
    ensures Rely(s.db, Step(c, s, a).db, Holds(s.procs[i]))
  {
    RelyReflexive(s.db, Holds(s.procs[i]));
    if (a.Run? || a.LoseAck?) && Act(c, s.db, s.now, |s.log|, a.i, s.procs[a.i]).commits {
      CommitReleases(c, s, a.i);
      CommitUndisturbed(c, s, a.i, Act(c, s.db, s.now, |s.log|, a.i, s.procs[a.i]).p);
    }
  }

  /** From `s` the system takes the steps `acts`, none of them of request `i`. */
  ghost predicate Elsewhere(c: Config, s: Sys, acts: seq<Action>, i: nat, s': Sys)
    decreases |acts|
  {
    if acts == [] then s' == s
    else
      && Enabled(c, s, acts[0])
      && (Moves(acts[0]) ==> acts[0].i != i)
      && Elsewhere(c, Step(c, s, acts[0]), acts[1..], i, s')
  }

  /**
   * However long a request waits for its next statement, what the others commit
   * meanwhile is within `Rely` on its rows.
   */
  lemma {:induction false} WaitingIsRely(c: Config, s: Sys, acts: seq<Action>, i: nat, s': Sys)
    requires ValidConfig(c) && Inv(c, s) && i < |s.procs| && Elsewhere(c, s, acts, i, s')
    ensures Inv(c, s') && i < |s'.procs| && s'.procs[i] == s.procs[i]
    ensures Rely(s.db, s'.db, Holds(s.procs[i])) && Sound(c, s'.db)
    decreases |acts|
  {
    if acts == [] {
      ReplaySound(c, s.log);
      RelyReflexive(s.db, Holds(s.procs[i]));
    } else {
      var next := Step(c, s, acts[0]);
      StepInv(c, s, acts[0]);
      OthersRespectLocks(c, s, acts[0], i);
      WaitingIsRely(c, next, acts[1..], i, s');
      RelyTransitive(s.db, next.db, s'.db, Holds(s.procs[i]));
    }
  }
}
