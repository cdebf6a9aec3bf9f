/**
 * What the rest of the system may do to the committed tables while a
 * transaction holds the wallet rows of the users in `mine`.
 */
module Interference {
  import opened Money
  import opened Ledger
  import opened Sums
  import opened History

  /** Rows are never deleted, only their status moves, and reversed is terminal. */
  predicate RowKept(t: Transfer, t': Transfer) {
    t'.(status := t.status) == t && (t.status.Reversed? ==> t' == t)
  }

  predicate Touches(t: Transfer, mine: set<UserId>) {
    t.sender in mine || t.recipient in mine
  }

  ghost predicate WalletsRely(w: map<UserId, int64>, w': map<UserId, int64>, mine: set<UserId>) {
    && w.Keys <= w'.Keys
    && (forall u {:trigger w'[u]} {:trigger w[u]} :: u in mine && u in w ==> w'[u] == w[u])
    && (forall u {:trigger u in w'} :: u in mine && u in w' ==> u in w)
  }

  ghost predicate RowsRely(ts: seq<Transfer>, ts': seq<Transfer>, mine: set<UserId>) {
    && |ts| <= |ts'|
    && (forall i {:trigger ts'[i]} {:trigger ts[i]} :: 0 <= i < |ts| ==>
          RowKept(ts[i], ts'[i]) && (Touches(ts[i], mine) ==> ts'[i] == ts[i]))
    && (forall i {:trigger ts'[i]} :: |ts| <= i < |ts'| ==> !Touches(ts'[i], mine))
  }

  /** Tables only grow, and nothing that concerns the users in `mine` changes. */
  ghost predicate Rely(db: Db, db': Db, mine: set<UserId>) {
    WalletsRely(db.wallets, db'.wallets, mine) && RowsRely(db.transfers, db'.transfers, mine)
  }

  ghost predicate Grows(db: Db, db': Db) { Rely(db, db', {}) }

  lemma RelyReflexive(db: Db, mine: set<UserId>)
    ensures Rely(db, db, mine)
  {
  }

  lemma RelyTransitive(a: Db, b: Db, d: Db, mine: set<UserId>)
    requires Rely(a, b, mine) && Rely(b, d, mine)
    ensures Rely(a, d, mine)
  {
    assert WalletsRely(a.wallets, d.wallets, mine);
    forall i | |a.transfers| <= i < |d.transfers| ensures !Touches(d.transfers[i], mine) {
      if i < |b.transfers| { assert RowKept(b.transfers[i], d.transfers[i]); }
    }
  }

  lemma RelyWeaken(db: Db, db': Db, mine: set<UserId>, fewer: set<UserId>)
    requires Rely(db, db', mine) && fewer <= mine
    ensures Rely(db, db', fewer)
  {
  }

  // ------------------------------------------- what interference cannot change

  lemma IdIndexKept(ts: seq<Transfer>, ts': seq<Transfer>, id: TransferId)
    requires RowsRely(ts, ts', {})
    ensures IdIndex(ts, id) < |ts| ==> IdIndex(ts', id) == IdIndex(ts, id)
  {
    var k := IdIndex(ts, id);
    if k < |ts| {
      assert ts'[k].id == id;
      assert forall j :: 0 <= j < k ==> ts'[j].id == ts[j].id;
    }
  }

  lemma KeyIndexKept(ts: seq<Transfer>, ts': seq<Transfer>, sender: UserId, key: string)
    requires RowsRely(ts, ts', {})
    ensures KeyIndex(ts, sender, key) < |ts| ==> KeyIndex(ts', sender, key) == KeyIndex(ts, sender, key)
  {
    var k := KeyIndex(ts, sender, key);
    if k < |ts| {
      assert ts'[k].sender == sender && ts'[k].key == key;
      assert forall j :: 0 <= j < k ==> ts'[j].sender == ts[j].sender && ts'[j].key == ts[j].key;
    }
  }

  /** A key of a sender whose wallet is locked stays unclaimed. */
  lemma KeyStaysFree(ts: seq<Transfer>, ts': seq<Transfer>, mine: set<UserId>, sender: UserId, key: string)
    requires RowsRely(ts, ts', mine) && sender in mine
    requires KeyIndex(ts, sender, key) == |ts|
    ensures KeyIndex(ts', sender, key) == |ts'|
  {
    forall i | 0 <= i < |ts'| ensures !(ts'[i].sender == sender && ts'[i].key == key) {
      if i < |ts| { assert RowKept(ts[i], ts'[i]); }
    }
  }

  /** The hold sum read under the wallet's row lock stays right. */
  lemma HeldKept(c: Config, ts: seq<Transfer>, ts': seq<Transfer>, mine: set<UserId>, u: UserId, clock: Time)
    requires RowsRely(ts, ts', mine) && u in mine
    ensures Held(c, ts', u, clock) == Held(c, ts, u, clock)
  {
    var f := HoldOn(c, u, clock);
    forall i | 0 <= i < |ts| ensures f(ts'[i]) == f(ts[i]) {
      assert RowKept(ts[i], ts'[i]);
    }
    SumStable(ts, ts', f);
  }

  // --------------------------------------------- what a committed entry may do

  /** The users whose wallet rows an entry writes. */
  function Parties(c: Config, db: Db, job: Job): set<UserId> {
    match job
    case Pay(r) => if r.to in c.users then {r.sender, c.users[r.to]} else {}
    case Reclaim(_, id) =>
      var k := IdIndex(db.transfers, id);
      if k < |db.transfers| then {db.transfers[k].sender, db.transfers[k].recipient} else {}
    case Open(u) => {u}
  }

  lemma PayRely(c: Config, db: Db, r: Request, clock: Time, id: TransferId, mine: set<UserId>)
    requires Validate(c, r).Fine? && {r.sender, c.users[r.to]} !! mine
    ensures Rely(db, Move(c, db, r, clock, id).0, mine)
  {
    var db' := Move(c, db, r, clock, id).0;
    if FirstSuccess(Move(c, db, r, clock, id).1) {
      assert db'.wallets.Keys == db.wallets.Keys + {r.sender, c.users[r.to]};
    }
  }

  lemma ReverseRely(c: Config, db: Db, k: nat, clock: Time, mine: set<UserId>)
    requires k < |db.transfers| && db.transfers[k].status.Completed?
    requires db.transfers[k].sender in db.wallets && db.transfers[k].recipient in db.wallets
    requires !Touches(db.transfers[k], mine)
    ensures Rely(db, Reverse(c, db, k, clock).0, mine)
  {
    var db' := Reverse(c, db, k, clock).0;
    assert db'.wallets.Keys == db.wallets.Keys;
  }

  /** An entry disturbs nobody but its own parties. */
  lemma ApplyRely(c: Config, db: Db, e: Entry, mine: set<UserId>)
    requires Parties(c, db, e.job) !! mine
    ensures Rely(db, Apply(c, db, e).0, mine)
  {
    match e.job
    case Pay(r) =>
      if Validate(c, r).Fine? { PayRely(c, db, r, e.clock, e.pid, mine); }
    case Reclaim(caller, id) =>
      var k := IdIndex(db.transfers, id);
      if Apply(c, db, e).0 != db { ReverseRely(c, db, k, e.clock, mine); }
    case Open(u) =>
  }

  /** Histories only ever add to the tables. */
  lemma {:induction false} ReplayGrows(c: Config, log: seq<Entry>, i: nat)
    requires i <= |log|
    ensures Grows(Replay(c, log[..i]), Replay(c, log))
  {
    if i == |log| {
      assert log[..i] == log;
    } else {
      var n := |log| - 1;
      ReplayGrows(c, log[..n], i);
      assert log[..n][..i] == log[..i];
      ApplyRely(c, Replay(c, log[..n]), log[n], {});
      RelyTransitive(Replay(c, log[..i]), Replay(c, log[..n]), Replay(c, log), {});
    }
  }
}
