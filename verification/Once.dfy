/** Over a whole history: a key pays once, a transfer is reversed once, a wallet is seeded once. */
module Once {
  import Body
  import opened Ledger
  import opened History
  import opened Interference

  /** From entry `i` on, the tables extend those it left behind. */
  lemma GrownSince(c: Config, log: seq<Entry>, i: nat)
    requires Effective(c, log) && i < |log|
    ensures Grows(Apply(c, Replay(c, log[..i]), log[i]).0, Replay(c, log))
  {
    EffectiveAt(c, log, i);
    ReplayGrows(c, log, i + 1);
  }

  lemma {:induction false} EffectivePrefix(c: Config, log: seq<Entry>, i: nat)
    requires Effective(c, log) && i <= |log|
    ensures Effective(c, log[..i])
  {
    if i < |log| {
      var n := |log| - 1;
      EffectivePrefix(c, log[..n], i);
      assert log[..n][..i] == log[..i];
    } else {
      assert log[..i] == log;
    }
  }

  // ---------------------------------------------------------------- payments

  /** The first row for the request's key holds the answer `resp` of the payment that wrote it. */
  ghost predicate PaidAs(ts: seq<Transfer>, r: Request, pid: TransferId, resp: Response) {
    var k := KeyIndex(ts, r.sender, r.key);
    k < |ts| && ts[k].id == pid && ts[k].body == BodyOf(r) && resp == Sent(pid, ts[k].senderAfter, false)
  }

  lemma PaidNow(c: Config, db: Db, e: Entry)
    requires e.job.Pay? && Takes(c, db, e)
    ensures PaidAs(Apply(c, db, e).0.transfers, e.job.req, e.pid, Apply(c, db, e).1)
  {
    var ts := Apply(c, db, e).0.transfers;
    var n := |db.transfers|;
    assert |ts| == n + 1 && ts[..n] == db.transfers;
    assert ts[n].sender == e.job.req.sender && ts[n].key == e.job.req.key;
    assert forall j :: 0 <= j < n ==> ts[j] == db.transfers[j];
  }

  lemma PaidKept(ts: seq<Transfer>, ts': seq<Transfer>, r: Request, pid: TransferId, resp: Response)
    requires PaidAs(ts, r, pid, resp) && RowsRely(ts, ts', {})
    ensures PaidAs(ts', r, pid, resp)
  {
    KeyIndexKept(ts, ts', r.sender, r.key);
    var k := KeyIndex(ts, r.sender, r.key);
    assert RowKept(ts[k], ts'[k]);
  }

  /** The row a payment leaves behind is there in any later tables. */
  lemma {:induction false} PaidRow(c: Config, log: seq<Entry>, i: nat)
    requires Effective(c, log) && i < |log| && log[i].job.Pay?
    ensures PaidAs(Replay(c, log).transfers, log[i].job.req, log[i].pid, Apply(c, Replay(c, log[..i]), log[i]).1)
  {
    EffectiveAt(c, log, i);
    GrownSince(c, log, i);
    PaidNow(c, Replay(c, log[..i]), log[i]);
    PaidKept(Apply(c, Replay(c, log[..i]), log[i]).0.transfers, Replay(c, log).transfers,
             log[i].job.req, log[i].pid, Apply(c, Replay(c, log[..i]), log[i]).1);
  }

  /** No two payments of a history share a sender and a key: money moves at most once per key. */
  lemma {:induction false} KeyPaysOnce(c: Config, log: seq<Entry>, i: nat, j: nat)
    requires Effective(c, log) && i < |log| && j < |log| && log[i].job.Pay? && log[j].job.Pay?
    requires log[i].job.req.sender == log[j].job.req.sender && log[i].job.req.key == log[j].job.req.key
    ensures i == j
  {
    if i < j {
      KeyPaysBefore(c, log, i, j);
    } else if j < i {
      KeyPaysBefore(c, log, j, i);
    }
  }

  lemma {:induction false} KeyPaysBefore(c: Config, log: seq<Entry>, i: nat, j: nat)
    requires Effective(c, log) && i < j < |log| && log[i].job.Pay? && log[j].job.Pay?
    ensures !(log[i].job.req.sender == log[j].job.req.sender && log[i].job.req.key == log[j].job.req.key)
  {
    assert log[..j][..i] == log[..i] && log[..j][i] == log[i];
    EffectivePrefix(c, log, j);
    PaidRow(c, log[..j], i);
    EffectiveAt(c, log, j);
  }

  /**
   * Whatever was committed after a payment (later transfers, its own reversal),
   * every attempt with its sender and key changes nothing and is answered with
   * the payment's own id and balance, or with a conflict if the body differs.
   */
  lemma {:induction false} RetryAnswer(c: Config, log: seq<Entry>, i: nat, r: Request, clock: Time, id: TransferId)
    requires ValidConfig(c) && Effective(c, log) && i < |log| && log[i].job.Pay?
    requires Validate(c, r).Fine? && r.sender == log[i].job.req.sender && r.key == log[i].job.req.key
    ensures var first := Apply(c, Replay(c, log[..i]), log[i]).1;
            first.Sent? &&
            Execute(c, Replay(c, log), r, clock, id) ==
            (Replay(c, log),
             if r.to == log[i].job.req.to && r.amount == log[i].job.req.amount
             then Sent(first.id, first.newBalance, true) else Rejected(KeyConflict))
  {
    PaidRow(c, log, i);
    Body.EncodeInjective(r.to, r.amount, log[i].job.req.to, log[i].job.req.amount);
  }

  // --------------------------------------------------------------- reversals

  /** The row `id` is the caller's and holds the answer `resp` of the claim that reversed it. */
  ghost predicate ReversedAs(ts: seq<Transfer>, caller: UserId, id: TransferId, resp: Response) {
    var k := IdIndex(ts, id);
    && k < |ts| && ts[k].sender == caller && ts[k].status.Reversed?
    && resp == Returned(id, ts[k].status.senderAfter, ts[k].status.at, false)
  }

  lemma ReversedNow(c: Config, db: Db, e: Entry)
    requires e.job.Reclaim? && Takes(c, db, e)
    ensures ReversedAs(Apply(c, db, e).0.transfers, e.job.caller, e.job.id, Apply(c, db, e).1)
  {
    var ts := Apply(c, db, e).0.transfers;
    var k := IdIndex(db.transfers, e.job.id);
    assert ts[k].id == e.job.id;
    assert forall j :: 0 <= j < k ==> ts[j] == db.transfers[j];
  }

  lemma ReversedKept(ts: seq<Transfer>, ts': seq<Transfer>, caller: UserId, id: TransferId, resp: Response)
    requires ReversedAs(ts, caller, id, resp) && RowsRely(ts, ts', {})
    ensures ReversedAs(ts', caller, id, resp)
  {
    IdIndexKept(ts, ts', id);
    var k := IdIndex(ts, id);
    assert RowKept(ts[k], ts'[k]);
  }

  /** The row a reversal leaves behind is there in any later tables. */
  lemma {:induction false} ReversedRow(c: Config, log: seq<Entry>, i: nat)
    requires Effective(c, log) && i < |log| && log[i].job.Reclaim?
    ensures ReversedAs(Replay(c, log).transfers, log[i].job.caller, log[i].job.id,
                       Apply(c, Replay(c, log[..i]), log[i]).1)
  {
    EffectiveAt(c, log, i);
    GrownSince(c, log, i);
    ReversedNow(c, Replay(c, log[..i]), log[i]);
    ReversedKept(Apply(c, Replay(c, log[..i]), log[i]).0.transfers, Replay(c, log).transfers,
                 log[i].job.caller, log[i].job.id, Apply(c, Replay(c, log[..i]), log[i]).1);
  }

  lemma ReversesBefore(c: Config, log: seq<Entry>, i: nat, j: nat)
    requires Effective(c, log) && i < j < |log| && log[i].job.Reclaim? && log[j].job.Reclaim?
    ensures log[i].job.id != log[j].job.id
  {
    assert log[..j][..i] == log[..i] && log[..j][i] == log[i];
    EffectivePrefix(c, log, j);
    ReversedRow(c, log[..j], i);
    EffectiveAt(c, log, j);
  }

  /** No two reversals of a history are of the same transfer. */
  lemma ReversesOnce(c: Config, log: seq<Entry>, i: nat, j: nat)
    requires Effective(c, log) && i < |log| && j < |log| && log[i].job.Reclaim? && log[j].job.Reclaim?
    requires log[i].job.id == log[j].job.id
    ensures i == j
  {
    if i < j {
      ReversesBefore(c, log, i, j);
    } else if j < i {
      ReversesBefore(c, log, j, i);
    }
  }

  /**
   * Whatever was committed after a reversal, every further claim by the sender
   * changes nothing and is answered with the reversal's own time and balance.
   */
  lemma {:induction false} ReclaimAnswer(c: Config, log: seq<Entry>, i: nat, clock: Time)
    requires Effective(c, log) && i < |log| && log[i].job.Reclaim?
    ensures var first := Apply(c, Replay(c, log[..i]), log[i]).1;
            first.Returned? &&
            ClaimBack(c, Replay(c, log), log[i].job.caller, log[i].job.id, clock) ==
            (Replay(c, log), Returned(first.id, first.newBalance, first.reversedAt, true))
  {
    ReversedRow(c, log, i);
  }

  // ----------------------------------------------------------------- wallets

  /** Entry `i` creates the wallet of `u`. */
  ghost predicate Creates(c: Config, log: seq<Entry>, i: nat, u: UserId)
    requires i < |log|
  {
    u !in Replay(c, log[..i]).wallets && u in Replay(c, log[..i + 1]).wallets
  }

  lemma CreatesBefore(c: Config, log: seq<Entry>, i: nat, j: nat, u: UserId)
    requires i < j < |log| && Creates(c, log, i, u)
    ensures !Creates(c, log, j, u)
  {
    assert log[..j][..i + 1] == log[..i + 1];
    ReplayGrows(c, log[..j], i + 1);
  }

  /** Each wallet is created, and so seeded, by at most one entry. */
  lemma CreatedOnce(c: Config, log: seq<Entry>, i: nat, j: nat, u: UserId)
    requires i < |log| && j < |log| && Creates(c, log, i, u) && Creates(c, log, j, u)
    ensures i == j
  {
    if i < j {
      CreatesBefore(c, log, i, j, u);
    } else if j < i {
      CreatesBefore(c, log, j, i, u);
    }
  }
}
