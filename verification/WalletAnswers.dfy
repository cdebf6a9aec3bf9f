/**
 * The answer of a wallet request is put together from three statements: when
 * it is the answer of one operation, and when it is not.
 */
module WalletAnswers {
  import opened Money
  import opened Ledger
  import opened LedgerLaws
  import opened History
  import opened HoldsWitness
  import opened Protocol
  import opened OwnStep
  import opened Serial
  import opened Solo
  import opened Guarantees

  // ------------------------------------------- what the history does to a balance

  /** What the money that `e` moves, on the tables `db`, adds to the balance of `u`. */
  function Change(c: Config, db: Db, e: Entry, u: UserId): int {
    match e.job
    case Pay(r) =>
      (if r.to in c.users && c.users[r.to] == u then r.amount as int else 0)
      - (if r.sender == u then r.amount as int else 0)
    case Reclaim(_, id) =>
      var k := IdIndex(db.transfers, id);
      if k == |db.transfers| then 0
      else
        var t := db.transfers[k];
        (if t.sender == u then t.amount as int else 0) - (if t.recipient == u then t.amount as int else 0)
    case Open(_) => 0
  }

  /** The changes made by entries `m`, ..., `n - 1`. */
  function NetChange(c: Config, log: seq<Entry>, m: nat, n: nat, u: UserId): int
    requires m <= n <= |log|
    decreases n
  {
    if m == n then 0 else NetChange(c, log, m, n - 1, u) + Change(c, Replay(c, log[..n - 1]), log[n - 1], u)
  }

  lemma PayChange(c: Config, db: Db, e: Entry, u: UserId)
    requires ValidConfig(c) && Sound(c, db) && Takes(c, db, e) && e.job.Pay? && u in db.wallets
    ensures u in Apply(c, db, e).0.wallets
    ensures Apply(c, db, e).0.wallets[u] == db.wallets[u] + Change(c, db, e, u)
  {
    SoundNonNegative(c, db);
    MoveApplied(c, db, e.job.req, e.clock, e.pid);
  }

  lemma ReclaimChange(c: Config, db: Db, e: Entry, u: UserId)
    requires Sound(c, db) && Takes(c, db, e) && e.job.Reclaim? && u in db.wallets
    ensures u in Apply(c, db, e).0.wallets
    ensures Apply(c, db, e).0.wallets[u] == db.wallets[u] + Change(c, db, e, u)
  {
    SoundNonNegative(c, db);
    var k := IdIndex(db.transfers, e.job.id);
    assert RowSound(c, db.wallets, db.transfers[k]);
    ReverseApplied(c, db, k, e.clock);
  }

  lemma EntryChange(c: Config, db: Db, e: Entry, u: UserId)
    requires ValidConfig(c) && Sound(c, db) && Takes(c, db, e) && u in db.wallets
    ensures u in Apply(c, db, e).0.wallets
    ensures Apply(c, db, e).0.wallets[u] == db.wallets[u] + Change(c, db, e, u)
  {
    match e.job
    case Pay(_) => PayChange(c, db, e, u);
    case Reclaim(_, _) => ReclaimChange(c, db, e, u);
    case Open(_) =>
  }

  ghost function BalanceAt(c: Config, log: seq<Entry>, n: nat, u: UserId): int64
    requires n <= |log| && HasWallet(c, log, n, u)
  {
    Replay(c, log[..n]).wallets[u]
  }

  lemma NextBalance(c: Config, log: seq<Entry>, n: nat, u: UserId)
    requires ValidConfig(c) && Effective(c, log) && n < |log| && HasWallet(c, log, n, u)
    ensures HasWallet(c, log, n + 1, u)
    ensures BalanceAt(c, log, n + 1, u) == BalanceAt(c, log, n, u) + Change(c, Replay(c, log[..n]), log[n], u)
  {
    EffectiveAt(c, log, n);
    ReplaySound(c, log[..n]);
    EntryChange(c, Replay(c, log[..n]), log[n], u);
  }

  /** Between two moments a balance changes by what the entries between them move to and from its user. */
  lemma {:induction false} BalanceChanges(c: Config, log: seq<Entry>, m: nat, n: nat, u: UserId)
    requires ValidConfig(c) && Effective(c, log) && m <= n <= |log| && HasWallet(c, log, m, u)
    ensures HasWallet(c, log, n, u)
    ensures BalanceAt(c, log, n, u) == BalanceAt(c, log, m, u) + NetChange(c, log, m, n, u)
    decreases n
  {
    if m < n {
      BalanceChanges(c, log, m, n - 1, u);
      NextBalance(c, log, n - 1, u);
    }
  }

  lemma SeededAt(c: Config, log: seq<Entry>, n: nat, u: UserId)
    requires Effective(c, log) && n < |log| && log[n].job == Open(u) && !HasWallet(c, log, n, u)
    ensures HasWallet(c, log, n + 1, u) && BalanceAt(c, log, n + 1, u) == c.seed
  {
    EffectiveAt(c, log, n);
  }

  // ------------------------------------------------ when the answer is one operation's

  /** The answer is that of the whole operation at some moment between arrival and answer. */
  ghost predicate AnsweredAtOnce(c: Config, log: seq<Entry>, i: nat, p: Proc)
    requires p.pc.Done? && p.pc.at <= |log|
  {
    exists n: nat :: p.since <= n <= p.pc.at && p.pc.resp == Apply(c, Replay(c, log[..n]), EntryOf(i, p)).1
  }

  /** No moment will do if the race was lost, or if the balance of a wallet just created is not the seed. */
  lemma AtOnceByAnswer(c: Config, s: Sys, i: nat)
    requires ValidConfig(c) && Reachable(c, s) && Answers(s, i) && s.procs[i].job.Open?
    ensures var p := s.procs[i];
            && p.pc.resp.Account? && p.pc.at <= |s.log|
            && (AnsweredAtOnce(c, s.log, i, p) <==>
                !p.pc.resp.raceLost && (p.pc.resp.created ==> p.pc.resp.balance == c.seed))
  {
    OpenAnswered(c, s, i);
    var p := s.procs[i];
    var resp := p.pc.resp;
    if !resp.raceLost && (resp.created ==> resp.balance == c.seed) {
      var n := if resp.created then p.insertedAt else p.pc.at;
      assert resp == Apply(c, Replay(c, s.log[..n]), EntryOf(i, p)).1;
    }
  }

  /** The request's own entry created the wallet, some time before the balance was read. */
  lemma CreatedItself(c: Config, s: Sys, i: nat)
    requires ValidConfig(c) && Reachable(c, s) && Answers(s, i) && s.procs[i].job.Open?
    requires s.procs[i].pc.resp.Account? && s.procs[i].pc.resp.created
    ensures var p := s.procs[i];
            && p.insertedAt < p.pc.at <= |s.log| && s.log[p.insertedAt].job == Open(p.job.user)
            && !HasWallet(c, s.log, p.insertedAt, p.job.user) && HasWallet(c, s.log, p.pc.at, p.job.user)
            && p.pc.resp.balance == BalanceAt(c, s.log, p.pc.at, p.job.user)
  {
    OpenAnswered(c, s, i);
  }

  /** A wallet just created is answered with the seed and whatever has been moved to and from it since. */
  lemma CreatedBalance(c: Config, s: Sys, i: nat)
    requires ValidConfig(c) && Reachable(c, s) && Answers(s, i) && s.procs[i].job.Open?
    requires s.procs[i].pc.resp.Account? && s.procs[i].pc.resp.created
    ensures var p := s.procs[i];
            && p.insertedAt < p.pc.at <= |s.log|
            && p.pc.resp.balance == c.seed + NetChange(c, s.log, p.insertedAt + 1, p.pc.at, p.job.user)
  {
    var p := s.procs[i];
    CreatedItself(c, s, i);
    OpenAnswered(c, s, i);
    SeededAt(c, s.log, p.insertedAt, p.job.user);
    BalanceChanges(c, s.log, p.insertedAt + 1, p.pc.at, p.job.user);
  }

  /**
   * The answer of a wallet request is one operation's exactly if the wallet
   * existed when the request looked for it, or did not exist when its insert
   * resolved and nothing was moved to or from it, on balance, by the time it
   * was read.
   */
  lemma AtOnceExactly(c: Config, s: Sys, i: nat)
    requires ValidConfig(c) && Reachable(c, s) && Answers(s, i) && s.procs[i].job.Open?
    ensures var p := s.procs[i];
            && p.since <= p.lookedAt <= p.insertedAt <= p.pc.at <= |s.log|
            && (AnsweredAtOnce(c, s.log, i, p) <==>
                || HasWallet(c, s.log, p.lookedAt, p.job.user)
                || (!HasWallet(c, s.log, p.insertedAt, p.job.user) && p.insertedAt < p.pc.at
                    && NetChange(c, s.log, p.insertedAt + 1, p.pc.at, p.job.user) == 0))
  {
    AtOnceByAnswer(c, s, i);
    var p := s.procs[i];
    if p.pc.resp.created { CreatedBalance(c, s, i); }
    OpenAnswered(c, s, i);
  }

  // ------------------------------------------------------------- and a run where it is not

  /** A request for the wallet of `u`, who has none, arrives first and creates it. */
  lemma CreatesAlone(c: Config, now: Time, u: UserId) returns (s: Sys)
    requires ValidConfig(c)
    ensures Reachable(c, s) && s.now == now && |s.procs| == 1 && AllQuiet(s)
    ensures s.db == Db(map[u := c.seed], []) && s.log == [Entry(0, Open(u), 0)]
    ensures s.procs[0].job == Open(u) && s.procs[0].pc == Fetch(true, false) && s.procs[0].clock == 0
  {
    StartReachable(c, now);
    var s1 := Arrives(c, StartAt(now), now, Open(u));
    var s2 := RunsOn(c, s1, 0);
    s := RunsOn(c, s2, 0);
  }

  /** `a` pays 1 to `b`, whose wallet has just been created. */
  lemma PaysNewWallet(c: Config, a: string, b: string, now: Time)
    requires TwoUsers(c, a, b)
    ensures var e := Entry(1, Pay(Request(c.users[a], b, 1, "k")), now);
            var db := Db(map[c.users[b] := c.seed], []);
            && Takes(c, db, e) && Apply(c, db, e).0.wallets == map[c.users[a] := c.seed - 1, c.users[b] := c.seed + 1]
  {
    SubIsExact(c.seed, 1);
    WrapIsNegative(c.seed, 1);
    assert Held(c, [], c.users[a], now) == 0;
    assert Validate(c, Request(c.users[a], b, 1, "k")).Fine?;
  }

  /**
   * A reachable state in which a request that created a wallet has been answered
   * with more than the seed: a payment committed before the balance was read.
   * On no tables at all does the whole operation give that answer.
   */
  lemma CreatedWithMore(c: Config, a: string, b: string, now: Time) returns (s: Sys)
    requires TwoUsers(c, a, b)
    ensures Reachable(c, s) && Answers(s, 0) && s.procs[0].job == Open(c.users[b])
    ensures s.procs[0].pc.resp == Account(c.seed + 1, true, false)
    ensures forall db: Db :: Apply(c, db, EntryOf(0, s.procs[0])).1 != s.procs[0].pc.resp
  {
    var s1 := CreatesAlone(c, now, c.users[b]);
    PaysNewWallet(c, a, b, now);
    var s2 := PaysAlone(c, s1, Entry(1, Pay(Request(c.users[a], b, 1, "k")), now));
    assert s2.procs[0] == s1.procs[0];
    PaidTables(c, s1, s2, Entry(1, Pay(Request(c.users[a], b, 1, "k")), now));
    s := RunsOn(c, s2, 0);
  }

  lemma PaidTables(c: Config, s: Sys, s': Sys, e: Entry)
    requires ValidConfig(c) && Reachable(c, s) && Reachable(c, s') && s'.log == s.log + [e]
    ensures s'.db == Apply(c, s.db, e).0
  {
    ReachableTables(c, s);
    ReachableTables(c, s');
    ReplayAppend(c, s.log, e);
  }
}
