/**
 * The three tables and the service's operations on them, each as one
 * all-or-nothing function of the committed tables and of the time `clock`
 * at which its transaction began.
 */
module Ledger {
  import opened Money
  import Body

  type UserId = nat
  type TransferId = nat
  type Time = int

  /** `users` is the users table: user names are unique and never removed. */
  datatype Config = Config(seed: int64, window: int, users: map<string, UserId>)

  ghost predicate ValidConfig(c: Config) {
    && 0 <= c.seed
    && 0 < c.window
    && (forall a, b :: a in c.users && b in c.users && c.users[a] == c.users[b] ==> a == b)
  }

  /** The reversal columns are written by the one statement that sets the status. */
  datatype Status = Completed | Reversed(at: Time, senderAfter: int64)

  datatype Transfer = Transfer(
    id: TransferId, sender: UserId, recipient: UserId, amount: int64,
    key: string, body: string, senderAfter: int64, createdAt: Time, status: Status)

  datatype Db = Db(wallets: map<UserId, int64>, transfers: seq<Transfer>)

  datatype Request = Request(sender: UserId, to: string, amount: int64, key: string)

  datatype Reason =
    | BadAmount | BadKey | UnknownRecipient | SelfTransfer
    | InsufficientFunds | KeyConflict
    | NotFound | WindowExpired
    | NoWallet | CheckViolated | DuplicateId | StorageFailure

  datatype Response =
    | Sent(id: TransferId, newBalance: int64, replayed: bool)
    | Returned(id: TransferId, newBalance: int64, reversedAt: Time, replayed: bool)
    | Account(balance: int64, created: bool, raceLost: bool)
    | Rejected(reason: Reason)

  /** The answer of the attempt that moved the money, not of one that repeats it. */
  predicate FirstSuccess(resp: Response) {
    (resp.Sent? || resp.Returned?) && !resp.replayed
  }

  // ---------------------------------------------------------------- queries

  /** `created_at > now() - window` */
  predicate InWindow(c: Config, createdAt: Time, clock: Time) {
    createdAt > clock - c.window
  }

  /** The row with primary key `id`, or `|ts|` when there is none. */
  function IdIndex(ts: seq<Transfer>, id: TransferId): (k: nat)
    ensures k <= |ts|
    ensures k < |ts| ==> ts[k].id == id
    ensures forall j :: 0 <= j < k ==> ts[j].id != id
  {
    if ts == [] then 0 else if ts[0].id == id then 0 else 1 + IdIndex(ts[1..], id)
  }

  /** The row that claimed (sender, key), or `|ts|` when there is none. */
  function KeyIndex(ts: seq<Transfer>, sender: UserId, key: string): (k: nat)
    ensures k <= |ts|
    ensures k < |ts| ==> ts[k].sender == sender && ts[k].key == key
    ensures forall j :: 0 <= j < k ==> !(ts[j].sender == sender && ts[j].key == key)
  {
    if ts == [] then 0
    else if ts[0].sender == sender && ts[0].key == key then 0
    else 1 + KeyIndex(ts[1..], sender, key)
  }

  function Sum(ts: seq<Transfer>, f: Transfer -> int): int {
    if ts == [] then 0 else Sum(ts[..|ts| - 1], f) + f(ts[|ts| - 1])
  }

  function HoldOn(c: Config, u: UserId, clock: Time): Transfer -> int {
    (t: Transfer) =>
      if t.recipient == u && t.status.Completed? && InWindow(c, t.createdAt, clock) then t.amount else 0
  }

  function CreditTo(u: UserId): Transfer -> int {
    (t: Transfer) => if t.recipient == u && t.status.Completed? then t.amount else 0
  }

  function DebitFrom(u: UserId): Transfer -> int {
    (t: Transfer) => if t.sender == u && t.status.Completed? then t.amount else 0
  }

  /** Incoming transfers that their senders could still take back at `clock`. */
  function Held(c: Config, ts: seq<Transfer>, u: UserId, clock: Time): int { Sum(ts, HoldOn(c, u, clock)) }

  function Received(ts: seq<Transfer>, u: UserId): int { Sum(ts, CreditTo(u)) }

  function Paid(ts: seq<Transfer>, u: UserId): int { Sum(ts, DebitFrom(u)) }

  // ------------------------------------------------------------- operations

  /** Get-or-create of one wallet row. */
  function OpenWallet(c: Config, w: map<UserId, int64>, u: UserId): (w': map<UserId, int64>) {
    if u in w then w else w[u := c.seed]
  }

  function OpenBoth(c: Config, w: map<UserId, int64>, r: Request): (w': map<UserId, int64>)
    requires r.to in c.users
  {
    OpenWallet(c, OpenWallet(c, w, r.sender), c.users[r.to])
  }

  /** Validation before any database work: what it refuses, and why. */
  datatype Verdict = Fine | Refused(reason: Reason)

  function Validate(c: Config, r: Request): (v: Verdict)
    ensures v.Fine? <==> r.amount > 0 && 1 <= |r.key| <= 128 && r.to in c.users && c.users[r.to] != r.sender
    ensures v.Refused? ==>
              match v.reason
              case BadAmount => r.amount <= 0
              case BadKey => r.amount > 0 && !(1 <= |r.key| <= 128)
              case UnknownRecipient => r.amount > 0 && 1 <= |r.key| <= 128 && r.to !in c.users
              case SelfTransfer => r.amount > 0 && 1 <= |r.key| <= 128 && r.to in c.users && c.users[r.to] == r.sender
              case _ => false
  {
    if r.amount <= 0 then Refused(BadAmount)
    else if r.key == "" || |r.key| > 128 then Refused(BadKey)
    else if r.to !in c.users then Refused(UnknownRecipient)
    else if c.users[r.to] == r.sender then Refused(SelfTransfer)
    else Fine
  }

  function BodyOf(r: Request): string { Body.Encode(r.to, r.amount) }

  function NewTransfer(c: Config, r: Request, clock: Time, id: TransferId, debit: int64): Transfer
    requires r.to in c.users
  {
    Transfer(id, r.sender, c.users[r.to], r.amount, r.key, BodyOf(r), debit, clock, Completed)
  }

  /** Replay or conflict, from the row that already claimed the key. */
  function ResolveKey(t: Transfer, body: string): Response {
    if t.body != body then Rejected(KeyConflict) else Sent(t.id, t.senderAfter, true)
  }

  /** A transfer past validation. */
  function Move(c: Config, db: Db, r: Request, clock: Time, id: TransferId): (res: (Db, Response))
    requires Validate(c, r).Fine?
  {
    var to := c.users[r.to];
    var w := OpenBoth(c, db.wallets, r);
    var debit := Sub64(w[r.sender], r.amount);
    var k := KeyIndex(db.transfers, r.sender, r.key);
    if k < |db.transfers| then (db, ResolveKey(db.transfers[k], BodyOf(r)))
    else if IdIndex(db.transfers, id) < |db.transfers| then (db, Rejected(DuplicateId))
    else if debit < Held(c, db.transfers, r.sender, clock) then (db, Rejected(InsufficientFunds))
    else
      var credit := Add64(w[to], r.amount);
      if debit < 0 || credit < 0 then (db, Rejected(CheckViolated))
      else
        (Db(w[r.sender := debit][to := credit], db.transfers + [NewTransfer(c, r, clock, id, debit)]),
         Sent(id, debit, false))
  }

  function Execute(c: Config, db: Db, r: Request, clock: Time, id: TransferId): (res: (Db, Response)) {
    match Validate(c, r)
    case Refused(why) => (db, Rejected(why))
    case Fine => Move(c, db, r, clock, id)
  }

  function ReplayClaim(t: Transfer): Response
    requires t.status.Reversed?
  {
    Returned(t.id, t.status.senderAfter, t.status.at, true)
  }

  /** The reversal of row `k`, once it is known to be claimable. */
  function Reverse(c: Config, db: Db, k: nat, clock: Time): (res: (Db, Response))
    requires k < |db.transfers|
    requires db.transfers[k].sender in db.wallets && db.transfers[k].recipient in db.wallets
  {
    var t := db.transfers[k];
    var credit := Add64(db.wallets[t.sender], t.amount);
    var debit := Sub64(db.wallets[t.recipient], t.amount);
    if debit < 0 || credit < 0 then (db, Rejected(CheckViolated))
    else
      (Db(db.wallets[t.recipient := debit][t.sender := credit],
          db.transfers[k := t.(status := Reversed(clock, credit))]),
       Returned(t.id, credit, clock, false))
  }

  function ClaimBack(c: Config, db: Db, caller: UserId, id: TransferId, clock: Time): (res: (Db, Response)) {
    var k := IdIndex(db.transfers, id);
    if k == |db.transfers| || db.transfers[k].sender != caller then (db, Rejected(NotFound))
    else
      var t := db.transfers[k];
      if t.status.Reversed? then (db, ReplayClaim(t))
      else if t.sender !in db.wallets || t.recipient !in db.wallets then (db, Rejected(NoWallet))
      else if !InWindow(c, t.createdAt, clock) then (db, Rejected(WindowExpired))
      else Reverse(c, db, k, clock)
  }

  /** Raw balance and the spendable part of it, from one snapshot. */
  datatype Balances = Unknown | Balances(balance: int64, available: int)

  function GetBalances(c: Config, db: Db, u: UserId, clock: Time): Balances {
    if u !in db.wallets then Unknown
    else Balances(db.wallets[u], db.wallets[u] - Held(c, db.transfers, u, clock))
  }
}
