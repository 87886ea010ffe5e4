/** The wallet service's transaction engine (services/wallet/store.go) as a state machine.

    Each call of Deposit or Transfer runs attempts; an attempt is a database transaction whose
    SQL statements are separate actions, so calls interleave between any two statements. The
    isolation is READ COMMITTED: a statement sees the rows committed when it runs, an UPDATE
    takes the row lock and keeps it until COMMIT or ROLLBACK, and uncommitted rows live in the
    session (`held`, `tx`, `oid`) until COMMIT installs them. */
module Engine {
  import opened Types

  type CallId = nat

  datatype BusinessError =
    | WalletNotFound | PeerNotFound | SameWallet | CurrencyMismatch | InsufficientFunds | IdempotencyConflict

  /** What a call returns. `Failed` is any other error the caller sees: a database error, a
      cancelled context, or a COMMIT whose reply was lost. */
  datatype Reply =
    | Success(tx: Tx, replayed: bool)
    | Rejected(error: BusinessError)
    | TooMuchContention
    | Failed

  /** An attempt past its reads: the rows it read, the row versions it has written so far,
      and the uncommitted rows of wallet.transactions and wallet.outbox. */
  datatype Work = Work(own: Wallet, peer: Wallet, held: seq<Wallet>, tx: Option<Tx>, oid: Option<nat>)

  datatype Stage =
    | FindingKey
    | ReadingOwn
    | ReadingPeer(own: Wallet)
    | Working(work: Work)
    | BackingOff
    | Finished(reply: Reply)

  /** Why an attempt failed: the number of commits when it issued its first read, the commit that
      made it fail, and the number of commits when it failed. */
  datatype Charge = Charge(since: nat, commit: nat, failed: nat)

  /** A call of withRetries. `start` is the number of commits and `known` the wallet table when the
      call began, `since` the number of commits when its current attempt issued its first read;
      `charged` has one charge per failed attempt; `uniques` counts failures by unique violation. The
      last five fields only record history: no action looks at them. */
  datatype Call = Call(req: Request, attempt: nat, stage: Stage,
                       start: nat, known: map<Uuid, Wallet>, since: nat, charged: seq<Charge>, uniques: nat)

  /** The wallet schema: committed rows (`wallets`; `commits` is wallet.transactions in commit
      order), the outbox id sequence, row locks, and the calls made so far. */
  datatype Engine = Engine(wallets: map<Uuid, Wallet>, commits: seq<Commit>, nextOid: nat,
                           locks: map<Uuid, CallId>, calls: map<CallId, Call>)

  const INIT := Engine(map[], [], 1, map[], map[])

  datatype Action =
    | CreateWallet(user: Uuid, id: Uuid)
    | Begin(c: CallId, req: Request)
    | FindKey(c: CallId, hit: Option<nat>)
    | ReadOwn(c: CallId, row: Option<Uuid>)
    | ReadPeer(c: CallId)
    | Update(c: CallId)
    | InsertTx(c: CallId, id: Uuid, at: string)
    | InsertOutbox(c: CallId)
    | CommitTx(c: CallId, replyLost: bool)
    | Fail(c: CallId)
    | Resume(c: CallId)

  // ---------- queries ----------

  predicate HasKey(cm: Commit, user: Uuid, key: string) {
    cm.tx.user == user && cm.tx.key == key
  }

  ghost predicate KeyUsed(cs: seq<Commit>, user: Uuid, key: string) {
    exists i :: 0 <= i < |cs| && HasKey(cs[i], user, key)
  }

  ghost predicate IdUsed(cs: seq<Commit>, id: Uuid) {
    exists i :: 0 <= i < |cs| && cs[i].tx.id == id
  }

  /** The index of the last commit that touched wallet w, or |cs| when there is none. */
  function LastTouch(cs: seq<Commit>, w: Uuid): nat {
    LastTouchBelow(cs, w, |cs|)
  }

  function LastTouchBelow(cs: seq<Commit>, w: Uuid, n: nat): nat
    requires n <= |cs|
  {
    if n == 0 then |cs| else if Touches(cs[n - 1].tx, w) then n - 1 else LastTouchBelow(cs, w, n - 1)
  }

  /** The index of the last commit with this (user, key), or |cs| when there is none. */
  function KeyIndex(cs: seq<Commit>, user: Uuid, key: string, n: nat): nat
    requires n <= |cs|
  {
    if n == 0 then |cs| else if HasKey(cs[n - 1], user, key) then n - 1 else KeyIndex(cs, user, key, n - 1)
  }

  // ---------- what an attempt writes ----------

  datatype Write = Write(row: Wallet, delta: int)

  /** The UPDATEs of an attempt, in the order it issues them: smallest wallet id first. */
  function Plan(req: Request, own: Wallet, peer: Wallet): seq<Write> {
    if req.DepositReq? then [Write(own, req.amount)]
    else if Less(peer.id.text, own.id.text) then [Write(peer, req.amount), Write(own, -req.amount)]
    else [Write(own, -req.amount), Write(peer, req.amount)]
  }

  function Bump(w: Write): Wallet {
    w.row.(balance := w.row.balance + w.delta, version := w.row.version + 1)
  }

  function TxFor(req: Request, own: Wallet, peer: Wallet, id: Uuid, at: string): Tx {
    if req.DepositReq? then Tx(id, req.user, DEPOSIT, None, own.id, req.amount, req.key, at)
    else Tx(id, req.user, TRANSFER, Some(own.id), peer.id, req.amount, req.key, at)
  }

  /** COMMIT makes the held row versions the committed ones. */
  function Install(ws: map<Uuid, Wallet>, rows: seq<Wallet>): map<Uuid, Wallet>
    decreases rows
  {
    if rows == [] then ws else Install(ws[rows[0].id := rows[0]], rows[1..])
  }

  function Release(locks: map<Uuid, CallId>, c: CallId): map<Uuid, CallId> {
    map w | w in locks && locks[w] != c :: locks[w]
  }

  // ---------- how an attempt ends ----------

  function Goto(e: Engine, c: CallId, stage: Stage): Engine
    requires c in e.calls
  {
    e.(calls := e.calls[c := e.calls[c].(stage := stage)])
  }

  function Finish(e: Engine, c: CallId, reply: Reply): Engine
    requires c in e.calls
  {
    Goto(e, c, Finished(reply)).(locks := Release(e.locks, c))
  }

  /** A retryable failure: roll back and wait. `blame` is the commit it is charged to. */
  function Retry(e: Engine, c: CallId, blame: nat, unique: bool): Engine
    requires c in e.calls
  {
    var call := e.calls[c];
    e.(locks := Release(e.locks, c),
       calls := e.calls[c := call.(stage := BackingOff, charged := call.charged + [Charge(call.since, blame, |e.commits|)],
                                   uniques := call.uniques + if unique then 1 else 0)])
  }

  // ---------- the statements ----------

  predicate Free(e: Engine, user: Uuid, id: Uuid) {
    id !in e.wallets && forall w :: w in e.wallets ==> e.wallets[w].user != user
  }

  /** CreateWallet inserts a row for a new user; for a known user its UPDATE waits for the row's lock
      and changes nothing. */
  predicate CanCreateWallet(e: Engine, user: Uuid, id: Uuid) {
    && Canonical(user) && Canonical(id)
    && (id in e.wallets ==> e.wallets[id].user == user)
    && (forall w :: w in e.locks && w in e.wallets ==> e.wallets[w].user != user)
  }

  function DoCreateWallet(e: Engine, user: Uuid, id: Uuid): Engine {
    if Free(e, user, id) then e.(wallets := e.wallets[id := Wallet(id, user, 0, "USD", 0)]) else e
  }

  predicate CanBegin(e: Engine, c: CallId, req: Request) {
    c !in e.calls && ValidRequest(req)
  }

  function DoBegin(m: int, e: Engine, c: CallId, req: Request): Engine {
    var n := |e.commits|;
    var stage := if m >= 1 then FindingKey else Finished(TooMuchContention);
    e.(calls := e.calls[c := Call(req, 1, stage, n, e.wallets, n, [], 0)])
  }

  ghost predicate CanFindKey(e: Engine, c: CallId, hit: Option<nat>) {
    && c in e.calls && e.calls[c].stage.FindingKey?
    && var req := e.calls[c].req;
       if hit.Some? then hit.value < |e.commits| && HasKey(e.commits[hit.value], req.user, req.key)
       else !KeyUsed(e.commits, req.user, req.key)
  }

  /** The recorded transaction decides between a replay and a conflict. */
  predicate SameRequest(req: Request, tx: Tx) {
    if req.DepositReq? then tx.kind == DEPOSIT && tx.amount == req.amount
    else tx.kind == TRANSFER && tx.amount == req.amount && tx.to == req.to
  }

  function DoFindKey(e: Engine, c: CallId, hit: Option<nat>): Engine
    requires c in e.calls && (hit.Some? ==> hit.value < |e.commits|)
  {
    if hit.None? then e.(calls := e.calls[c := e.calls[c].(stage := ReadingOwn, since := |e.commits|)])
    else
      var tx := e.commits[hit.value].tx;
      Finish(e, c, if SameRequest(e.calls[c].req, tx) then Success(tx, true) else Rejected(IdempotencyConflict))
  }

  predicate CanReadOwn(e: Engine, c: CallId, row: Option<Uuid>) {
    && c in e.calls && e.calls[c].stage.ReadingOwn?
    && var user := e.calls[c].req.user;
       if row.Some? then row.value in e.wallets && e.wallets[row.value].user == user
       else forall w :: w in e.wallets ==> e.wallets[w].user != user
  }

  function DoReadOwn(e: Engine, c: CallId, row: Option<Uuid>): Engine
    requires c in e.calls && (row.Some? ==> row.value in e.wallets)
  {
    if row.None? then Finish(e, c, Rejected(WalletNotFound))
    else
      var own := e.wallets[row.value];
      if e.calls[c].req.DepositReq? then Goto(e, c, Working(Work(own, own, [], None, None)))
      else Goto(e, c, ReadingPeer(own))
  }

  predicate CanReadPeer(e: Engine, c: CallId) {
    c in e.calls && e.calls[c].stage.ReadingPeer? && e.calls[c].req.TransferReq?
  }

  function DoReadPeer(e: Engine, c: CallId): Engine
    requires CanReadPeer(e, c)
  {
    var req, own := e.calls[c].req, e.calls[c].stage.own;
    if req.to !in e.wallets then Finish(e, c, Rejected(PeerNotFound))
    else
      var peer := e.wallets[req.to];
      if own.id == peer.id then Finish(e, c, Rejected(SameWallet))
      else if own.currency != peer.currency then Finish(e, c, Rejected(CurrencyMismatch))
      else if own.balance < req.amount then Finish(e, c, Rejected(InsufficientFunds))
      else Goto(e, c, Working(Work(own, peer, [], None, None)))
  }

  predicate IsWorking(e: Engine, c: CallId) {
    c in e.calls && e.calls[c].stage.Working?
  }

  function WorkOf(e: Engine, c: CallId): Work
    requires IsWorking(e, c)
  {
    e.calls[c].stage.work
  }

  function PlanOf(e: Engine, c: CallId): seq<Write>
    requires IsWorking(e, c)
  {
    Plan(e.calls[c].req, WorkOf(e, c).own, WorkOf(e, c).peer)
  }

  /** The call is at an UPDATE statement. */
  predicate AtUpdate(e: Engine, c: CallId) {
    IsWorking(e, c) && |WorkOf(e, c).held| < |PlanOf(e, c)|
  }

  function NextWrite(e: Engine, c: CallId): Write
    requires AtUpdate(e, c)
  {
    PlanOf(e, c)[|WorkOf(e, c).held|]
  }

  /** The UPDATE's WHERE clause matches no row. */
  predicate Stale(e: Engine, w: Write) {
    w.row.id !in e.wallets || e.wallets[w.row.id].version != w.row.version
  }

  /** The WHERE clause matches, but the row is locked: the statement waits. */
  predicate Blocked(e: Engine, c: CallId) {
    AtUpdate(e, c) && !Stale(e, NextWrite(e, c)) && NextWrite(e, c).row.id in e.locks
  }

  predicate CanUpdate(e: Engine, c: CallId) {
    AtUpdate(e, c) && !Blocked(e, c)
  }

  predicate InRange(row: Wallet) {
    row.balance <= INT64_MAX && row.version <= INT32_MAX
  }

  function DoUpdate(e: Engine, c: CallId): Engine
    requires CanUpdate(e, c)
  {
    var w := NextWrite(e, c);
    if Stale(e, w) then Retry(e, c, LastTouch(e.commits, w.row.id), false)
    else
      var row := Bump(Write(e.wallets[w.row.id], w.delta));
      if row.balance < 0 || !InRange(row) then Finish(e, c, Failed)
      else
        var work := WorkOf(e, c);
        Goto(e, c, Working(work.(held := work.held + [row]))).(locks := e.locks[row.id := c])
  }

  predicate HasTx(e: Engine, c: CallId) {
    IsWorking(e, c) && WorkOf(e, c).tx.Some?
  }

  predicate HasOid(e: Engine, c: CallId) {
    IsWorking(e, c) && WorkOf(e, c).oid.Some?
  }

  /** Another session has an uncommitted row with the same (user, key): the INSERT waits on it. */
  predicate UniqueWait(e: Engine, c: CallId, d: CallId)
    requires c in e.calls
  {
    && d != c && HasTx(e, d)
    && WorkOf(e, d).tx.value.user == e.calls[c].req.user
    && WorkOf(e, d).tx.value.key == e.calls[c].req.key
  }

  ghost predicate FreshTxId(e: Engine, id: Uuid) {
    && Canonical(id) && !IdUsed(e.commits, id)
    && forall d :: d in e.calls && HasTx(e, d) ==> WorkOf(e, d).tx.value.id != id
  }

  predicate AtInsertTx(e: Engine, c: CallId) {
    IsWorking(e, c) && |WorkOf(e, c).held| == |PlanOf(e, c)| && WorkOf(e, c).tx.None?
  }

  ghost predicate CanInsertTx(e: Engine, c: CallId, id: Uuid) {
    && AtInsertTx(e, c)
    && FreshTxId(e, id)
    && forall d :: d in e.calls ==> !UniqueWait(e, c, d)
  }

  function DoInsertTx(e: Engine, c: CallId, id: Uuid, at: string): Engine
    requires AtInsertTx(e, c)
  {
    var req, work := e.calls[c].req, WorkOf(e, c);
    var k := KeyIndex(e.commits, req.user, req.key, |e.commits|);
    if k < |e.commits| then Retry(e, c, k, true)
    else Goto(e, c, Working(work.(tx := Some(TxFor(req, work.own, work.peer, id, at)))))
  }

  predicate CanInsertOutbox(e: Engine, c: CallId) {
    HasTx(e, c) && WorkOf(e, c).oid.None?
  }

  function DoInsertOutbox(e: Engine, c: CallId): Engine
    requires CanInsertOutbox(e, c)
  {
    Goto(e, c, Working(WorkOf(e, c).(oid := Some(e.nextOid)))).(nextOid := e.nextOid + 1)
  }

  predicate CanCommit(e: Engine, c: CallId) {
    HasTx(e, c) && HasOid(e, c)
  }

  function CommitRecord(e: Engine, c: CallId): Commit
    requires CanCommit(e, c)
  {
    var work := WorkOf(e, c);
    Commit(work.tx.value, c, work.oid.value, work.peer.user, work.own.currency)
  }

  function DoCommit(e: Engine, c: CallId, replyLost: bool): Engine
    requires CanCommit(e, c)
  {
    var work := WorkOf(e, c);
    Finish(e, c, if replyLost then Failed else Success(work.tx.value, false))
      .(wallets := Install(e.wallets, work.held), commits := e.commits + [CommitRecord(e, c)])
  }

  /** A crash, a lost connection, a cancelled context or any other error: roll back. */
  predicate CanFail(e: Engine, c: CallId) {
    c in e.calls && !e.calls[c].stage.Finished?
  }

  predicate CanResume(e: Engine, c: CallId) {
    c in e.calls && e.calls[c].stage.BackingOff?
  }

  /** The backoff is over: the next attempt, or the end of the loop. */
  function DoResume(m: int, e: Engine, c: CallId): Engine
    requires CanResume(e, c)
  {
    var call := e.calls[c];
    if call.attempt < m then
      e.(calls := e.calls[c := call.(attempt := call.attempt + 1, stage := FindingKey, since := |e.commits|)])
    else Goto(e, c, Finished(TooMuchContention))
  }

  // ---------- the step function ----------

  ghost predicate Enabled(e: Engine, a: Action) {
    match a
    case CreateWallet(user, id) => CanCreateWallet(e, user, id)
    case Begin(c, req) => CanBegin(e, c, req)
    case FindKey(c, hit) => CanFindKey(e, c, hit)
    case ReadOwn(c, row) => CanReadOwn(e, c, row)
    case ReadPeer(c) => CanReadPeer(e, c)
    case Update(c) => CanUpdate(e, c)
    case InsertTx(c, id, at) => CanInsertTx(e, c, id)
    case InsertOutbox(c) => CanInsertOutbox(e, c)
    case CommitTx(c, replyLost) => CanCommit(e, c)
    case Fail(c) => CanFail(e, c)
    case Resume(c) => CanResume(e, c)
  }

  ghost function Apply(m: int, e: Engine, a: Action): Engine
    requires Enabled(e, a)
  {
    match a
    case CreateWallet(user, id) => DoCreateWallet(e, user, id)
    case Begin(c, req) => DoBegin(m, e, c, req)
    case FindKey(c, hit) => DoFindKey(e, c, hit)
    case ReadOwn(c, row) => DoReadOwn(e, c, row)
    case ReadPeer(c) => DoReadPeer(e, c)
    case Update(c) => DoUpdate(e, c)
    case InsertTx(c, id, at) => DoInsertTx(e, c, id, at)
    case InsertOutbox(c) => DoInsertOutbox(e, c)
    case CommitTx(c, replyLost) => DoCommit(e, c, replyLost)
    case Fail(c) => Finish(e, c, Failed)
    case Resume(c) => DoResume(m, e, c)
  }
}
