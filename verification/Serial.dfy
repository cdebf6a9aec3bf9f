/**
 * The system invariant: in every interleaving, the committed tables are those
 * of the committed operations applied one at a time in commit order, and every
 * answer is the one its operation gives at one moment between its arrival and
 * its answer.
 */
module Serial {
  import opened Ledger
  import opened History
  import opened Interference
  import opened Protocol
  import opened LocalState
  import opened OwnStep

  // --------------------------------------------------------------- invariant

  /** The answer to a transfer or a claim: that of the operation applied after `at` commits. */
  ghost predicate Atomic(c: Config, log: seq<Entry>, i: nat, p: Proc)
    requires p.pc.Done? && p.pc.at <= |log|
  {
    && p.pc.resp == Apply(c, Replay(c, log[..p.pc.at]), EntryOf(i, p)).1
    && (FirstSuccess(p.pc.resp) ==> p.pc.at < |log| && log[p.pc.at] == EntryOf(i, p))
    && (forall m :: 0 <= m < p.pc.at ==> log[m].pid != i)
  }

  ghost predicate HasWallet(c: Config, log: seq<Entry>, n: nat, u: UserId)
    requires n <= |log|
  {
    u in Replay(c, log[..n]).wallets
  }

  /** What the flags of a wallet request say about the moments it looked and inserted. */
  ghost predicate Looked(c: Config, log: seq<Entry>, i: nat, p: Proc, created: bool, raceLost: bool)
    requires p.job.Open?
  {
    && p.since <= p.lookedAt <= p.insertedAt <= |log|
    && (created || raceLost <==> !HasWallet(c, log, p.lookedAt, p.job.user))
    && (created ==> !raceLost && !HasWallet(c, log, p.insertedAt, p.job.user))
    && (created ==> p.insertedAt < |log| && log[p.insertedAt] == EntryOf(i, p))
    && (raceLost ==> HasWallet(c, log, p.insertedAt, p.job.user))
    && (forall m :: 0 <= m < p.insertedAt ==> log[m].pid != i)
  }

  ghost predicate OpenInv(c: Config, log: seq<Entry>, i: nat, p: Proc)
    requires p.job.Open?
  {
    match p.pc
    case Create => p.since <= p.lookedAt <= |log| && !HasWallet(c, log, p.lookedAt, p.job.user)
    case Fetch(created, raceLost) => Looked(c, log, i, p, created, raceLost)
    case Done(resp, at) =>
      resp.Account? ==>
        && Looked(c, log, i, p, resp.created, resp.raceLost)
        && p.insertedAt <= at <= |log|
        && HasWallet(c, log, at, p.job.user)
        && resp.balance == Replay(c, log[..at]).wallets[p.job.user]
    case _ => true
  }

  ghost predicate Answered(c: Config, log: seq<Entry>, i: nat, p: Proc)
    requires p.pc.Done?
  {
    && p.since <= p.pc.at <= |log|
    && (p.pc.resp == Rejected(StorageFailure) ||
        (if p.job.Open? then p.pc.resp.Account? else Atomic(c, log, i, p)))
  }

  ghost predicate ProcInv(c: Config, db: Db, log: seq<Entry>, i: nat, p: Proc) {
    && Local(c, db, i, p)
    && p.since <= |log|
    && (p.pc.Done? ==> Answered(c, log, i, p))
    && (p.job.Open? ==> OpenInv(c, log, i, p))
  }

  ghost predicate Apart(procs: seq<Proc>) {
    forall i, j {:trigger procs[i], procs[j]} ::
      0 <= i < |procs| && 0 <= j < |procs| && i != j ==> Holds(procs[i]) !! Holds(procs[j])
  }

  predicate HasCommitted(p: Proc) { p.pc.Done? || (p.pc.Fetch? && p.pc.created) }

  /** Entry `m` was committed by its request, which answered it as a success or lost the answer. */
  ghost predicate OwnEntry(procs: seq<Proc>, log: seq<Entry>, m: nat)
    requires m < |log|
  {
    && log[m].pid < |procs|
    && var p := procs[log[m].pid];
    && log[m] == EntryOf(log[m].pid, p)
    && HasCommitted(p)
    && (p.pc.Done? && !p.job.Open? ==> p.pc.resp == Rejected(StorageFailure) || p.pc.at == m)
  }

  /** Only requests that are done committing have an entry in the history. */
  ghost predicate Owned(procs: seq<Proc>, log: seq<Entry>) {
    forall m {:trigger OwnEntry(procs, log, m)} :: 0 <= m < |log| ==> OwnEntry(procs, log, m)
  }

  ghost predicate AllProcs(c: Config, s: Sys) {
    forall i {:trigger ProcInv(c, s.db, s.log, i, s.procs[i])} ::
      0 <= i < |s.procs| ==> ProcInv(c, s.db, s.log, i, s.procs[i])
  }

  ghost predicate Inv(c: Config, s: Sys) {
    && Effective(c, s.log)
    && s.db == Replay(c, s.log)
    && AllProcs(c, s)
    && Apart(s.procs)
    && Owned(s.procs, s.log)
  }

  // ------------------------------------------------------------ fresh row ids

  lemma ApplyIds(c: Config, db: Db, e: Entry, i: nat)
    requires e.pid != i
    requires forall k :: 0 <= k < |db.transfers| ==> db.transfers[k].id != i
    ensures forall k :: 0 <= k < |Apply(c, db, e).0.transfers| ==> Apply(c, db, e).0.transfers[k].id != i
  {
  }

  /** A request that has not committed anything has no row. */
  lemma {:induction false} NoEntryNoRow(c: Config, log: seq<Entry>, i: nat)
    requires forall m :: 0 <= m < |log| ==> log[m].pid != i
    ensures forall k :: 0 <= k < |Replay(c, log).transfers| ==> Replay(c, log).transfers[k].id != i
  {
    if log != [] {
      NoEntryNoRow(c, log[..|log| - 1], i);
      ApplyIds(c, Replay(c, log[..|log| - 1]), log[|log| - 1], i);
    }
  }

  lemma FreshRow(c: Config, s: Sys, i: nat)
    requires Inv(c, s) && i < |s.procs| && !HasCommitted(s.procs[i])
    ensures IdIndex(s.db.transfers, i) == |s.db.transfers|
    ensures forall m :: 0 <= m < |s.log| ==> s.log[m].pid != i
  {
    forall m | 0 <= m < |s.log| ensures s.log[m].pid != i {
      assert OwnEntry(s.procs, s.log, m);
    }
    NoEntryNoRow(c, s.log, i);
  }

  // ------------------------------------------------- what a longer history keeps

  lemma PrefixKept(log: seq<Entry>, log': seq<Entry>, n: nat)
    requires log <= log' && n <= |log|
    ensures log'[..n] == log[..n]
  {
  }

  lemma LookedStable(c: Config, log: seq<Entry>, log': seq<Entry>, i: nat, p: Proc, created: bool, raceLost: bool)
    requires p.job.Open? && Looked(c, log, i, p, created, raceLost) && log <= log'
    ensures Looked(c, log', i, p, created, raceLost)
  {
    PrefixKept(log, log', p.lookedAt);
    PrefixKept(log, log', p.insertedAt);
  }

  lemma OpenInvStable(c: Config, log: seq<Entry>, log': seq<Entry>, i: nat, p: Proc)
    requires p.job.Open? && OpenInv(c, log, i, p) && log <= log'
    ensures OpenInv(c, log', i, p)
  {
    match p.pc
    case Create => PrefixKept(log, log', p.lookedAt);
    case Fetch(created, raceLost) => LookedStable(c, log, log', i, p, created, raceLost);
    case Done(resp, at) =>
      if resp.Account? {
        LookedStable(c, log, log', i, p, resp.created, resp.raceLost);
        PrefixKept(log, log', at);
      }
    case _ =>
  }

  lemma ProcInvStable(c: Config, db: Db, db': Db, log: seq<Entry>, log': seq<Entry>, i: nat, p: Proc)
    requires ProcInv(c, db, log, i, p) && Rely(db, db', Holds(p)) && log <= log'
    ensures ProcInv(c, db', log', i, p)
  {
    LocalStable(c, db, db', i, p);
    if p.pc.Done? { PrefixKept(log, log', p.pc.at); }
    if p.job.Open? { OpenInvStable(c, log, log', i, p); }
  }
}
