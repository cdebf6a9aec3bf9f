/** Commit histories: the operations that took effect, in the order they committed. */
module History {
  import opened Ledger
  import opened LedgerLaws

  datatype Job =
    | Pay(req: Request)
    | Reclaim(caller: UserId, id: TransferId)
    | Open(user: UserId)

  /** One committed transaction; `pid` is also the primary key of the row it inserts. */
  datatype Entry = Entry(pid: TransferId, job: Job, clock: Time)

  function Apply(c: Config, db: Db, e: Entry): (res: (Db, Response)) {
    match e.job
    case Pay(r) => Execute(c, db, r, e.clock, e.pid)
    case Reclaim(caller, id) => ClaimBack(c, db, caller, id, e.clock)
    case Open(u) =>
      (db.(wallets := OpenWallet(c, db.wallets, u)),
       Account(OpenWallet(c, db.wallets, u)[u], u !in db.wallets, false))
  }

  /** The tables after the entries of `log`, applied one at a time to empty tables. */
  function Replay(c: Config, log: seq<Entry>): Db {
    if log == [] then Db(map[], [])
    else Apply(c, Replay(c, log[..|log| - 1]), log[|log| - 1]).0
  }

  /** The entry moves money or opens a wallet, rather than being refused or replayed. */
  ghost predicate Takes(c: Config, db: Db, e: Entry) {
    if e.job.Open? then e.job.user !in db.wallets else FirstSuccess(Apply(c, db, e).1)
  }

  ghost predicate Effective(c: Config, log: seq<Entry>) {
    log == [] ||
    (Effective(c, log[..|log| - 1]) && Takes(c, Replay(c, log[..|log| - 1]), log[|log| - 1]))
  }

  lemma ReplayAppend(c: Config, log: seq<Entry>, e: Entry)
    ensures Replay(c, log + [e]) == Apply(c, Replay(c, log), e).0
    ensures Effective(c, log + [e]) <==> Effective(c, log) && Takes(c, Replay(c, log), e)
  {
    assert (log + [e])[..|log|] == log;
  }

  lemma ApplySound(c: Config, db: Db, e: Entry)
    requires ValidConfig(c) && Sound(c, db)
    ensures Sound(c, Apply(c, db, e).0)
  {
    match e.job
    case Pay(r) => ExecuteSound(c, db, r, e.clock, e.pid);
    case Reclaim(caller, id) => ClaimSound(c, db, caller, id, e.clock);
    case Open(u) => OpenSound(c, db, u);
  }

  /** The books balance after every history, with no assumption on its clocks. */
  lemma {:induction false} ReplaySound(c: Config, log: seq<Entry>)
    requires ValidConfig(c)
    ensures Sound(c, Replay(c, log))
  {
    if log != [] {
      ReplaySound(c, log[..|log| - 1]);
      ApplySound(c, Replay(c, log[..|log| - 1]), log[|log| - 1]);
    }
  }

  lemma {:induction false} EffectiveAt(c: Config, log: seq<Entry>, i: nat)
    requires Effective(c, log) && i < |log|
    ensures Takes(c, Replay(c, log[..i]), log[i])
    ensures Replay(c, log[..i + 1]) == Apply(c, Replay(c, log[..i]), log[i]).0
  {
    var n := |log| - 1;
    if i < n {
      EffectiveAt(c, log[..n], i);
      assert log[..n][..i] == log[..i] && log[..n][..i + 1] == log[..i + 1];
    } else {
      assert log[..i + 1] == log;
    }
  }
}
