/** What the invariant of the engine gives: refinement of atomic moves, idempotency, deadlock
    freedom, contention accounting and conservation of money. */
module EngineTheorems {
  import opened Types
  import opened Sums
  import opened Engine
  import opened EngineInvariant
  import opened EngineSteps
  import opened EngineCommit

  // ---------- the atomic specification ----------

  datatype Outcome =
    | Moved(wallets: map<Uuid, Wallet>, txs: seq<Tx>, tx: Tx)
    | Replay(original: Tx)
    | Refused(error: BusinessError)

  ghost function Txs(cs: seq<Commit>): seq<Tx> {
    seq(|cs|, i requires 0 <= i < |cs| => cs[i].tx)
  }

  ghost function Credit(ws: map<Uuid, Wallet>, w: Uuid, amount: int): map<Uuid, Wallet>
    requires w in ws
  {
    ws[w := ws[w].(balance := ws[w].balance + amount, version := ws[w].version + 1)]
  }

  /** A whole deposit or transfer as one indivisible step on the tables: no versions read ahead,
      no locks, no statement order. */
  ghost function Atomic(ws: map<Uuid, Wallet>, txs: seq<Tx>, req: Request, id: Uuid, at: string): Outcome {
    if exists t :: t in txs && t.user == req.user && t.key == req.key then
      var t :| t in txs && t.user == req.user && t.key == req.key;
      if Answers(req, t) then Replay(t) else Refused(IdempotencyConflict)
    else if !exists w :: w in ws && ws[w].user == req.user then Refused(WalletNotFound)
    else
      var own :| own in ws && ws[own].user == req.user;
      if req.DepositReq? then
        var tx := Tx(id, req.user, DEPOSIT, None, own, req.amount, req.key, at);
        Moved(Credit(ws, own, req.amount), txs + [tx], tx)
      else if req.to !in ws then Refused(PeerNotFound)
      else if own == req.to then Refused(SameWallet)
      else if ws[own].currency != ws[req.to].currency then Refused(CurrencyMismatch)
      else if ws[own].balance < req.amount then Refused(InsufficientFunds)
      else
        var tx := Tx(id, req.user, TRANSFER, Some(own), req.to, req.amount, req.key, at);
        Moved(Credit(Credit(ws, own, -req.amount), req.to, req.amount), txs + [tx], tx)
  }

  lemma TxsMember(cs: seq<Commit>, user: Uuid, key: string)
    ensures KeyUsed(cs, user, key) <==> exists t :: t in Txs(cs) && t.user == user && t.key == key
  {
    if KeyUsed(cs, user, key) {
      var i :| 0 <= i < |cs| && HasKey(cs[i], user, key);
      assert Txs(cs)[i] in Txs(cs);
    }
    if t :| t in Txs(cs) && t.user == user && t.key == key {
      var i :| 0 <= i < |Txs(cs)| && Txs(cs)[i] == t;
      assert HasKey(cs[i], user, key);
    }
  }

  /** At its commit instant, the rows a session read are still the committed ones. */
  lemma ReadsStillCurrent(m: int, e: Engine, c: CallId)
    requires CanCommit(e, c) && CallOk(m, e.wallets, e.commits, e.nextOid, e.locks, c, e.calls[c])
    ensures var k := WorkOf(e, c);
            && k.own.id in e.wallets && e.wallets[k.own.id] == k.own
            && k.peer.id in e.wallets && e.wallets[k.peer.id] == k.peer
            && PairOk(e.calls[c].req, k.own, k.peer)
            && !KeyUsed(e.commits, e.calls[c].req.user, e.calls[c].req.key)
  {
    var k, plan := WorkOf(e, c), PlanOf(e, c);
    assert HeldOk(e.wallets, e.locks, c, plan[0], k.held[0]);
    assert e.calls[c].req.TransferReq? ==> HeldOk(e.wallets, e.locks, c, plan[1], k.held[1]);
  }

  lemma CreditsArePosted(ws: map<Uuid, Wallet>, own: Uuid, peer: Uuid, amount: int, tx: Tx)
    requires own in ws && peer in ws && tx.amount == amount
    ensures tx.from == None && tx.to == own ==> Credit(ws, own, amount) == Posted(ws, tx)
    ensures tx.from == Some(own) && tx.to == peer && own != peer ==>
              Credit(Credit(ws, own, -amount), peer, amount) == Posted(ws, tx)
  {
  }

  /** On tables where the key is new and the request's wallets are as the session read them. */
  lemma AtomicMoves(ws: map<Uuid, Wallet>, txs: seq<Tx>, req: Request, own: Uuid, id: Uuid, at: string)
    requires !exists t :: t in txs && t.user == req.user && t.key == req.key
    requires own in ws && ws[own].user == req.user
    requires forall w :: w in ws && ws[w].user == req.user ==> w == own
    requires req.TransferReq? ==>
               && req.to in ws && own != req.to
               && ws[own].currency == ws[req.to].currency && ws[own].balance >= req.amount
    ensures var tx := if req.DepositReq? then Tx(id, req.user, DEPOSIT, None, own, req.amount, req.key, at)
                      else Tx(id, req.user, TRANSFER, Some(own), req.to, req.amount, req.key, at);
            Atomic(ws, txs, req, id, at) == Moved(Posted(ws, tx), txs + [tx], tx)
  {
    var tx := if req.DepositReq? then Tx(id, req.user, DEPOSIT, None, own, req.amount, req.key, at)
              else Tx(id, req.user, TRANSFER, Some(own), req.to, req.amount, req.key, at);
    CreditsArePosted(ws, own, if req.TransferReq? then req.to else own, req.amount, tx);
  }

  /** COMMIT, with or without its reply, is exactly one atomic move at the commit instant. */
  lemma CommitRefinesAtomic(m: int, e: Engine, c: CallId, replyLost: bool)
    requires WalletsOk(e.wallets, e.commits) && CanCommit(e, c)
    requires CallOk(m, e.wallets, e.commits, e.nextOid, e.locks, c, e.calls[c])
    ensures var e', tx := DoCommit(e, c, replyLost), CommitRecord(e, c).tx;
            Atomic(e.wallets, Txs(e.commits), e.calls[c].req, tx.id, tx.createdAt)
              == Moved(e'.wallets, Txs(e'.commits), tx)
  {
    var k, tx, req := WorkOf(e, c), CommitRecord(e, c).tx, e.calls[c].req;
    ReadsStillCurrent(m, e, c);
    TxsMember(e.commits, req.user, req.key);
    CommitFacts(m, e, c);
    OwnIsUnique(e, k.own.id);
    HeldRowsAreTheMove(e.wallets, Txs(e.commits), req, k);
    assert Txs(e.commits + [CommitRecord(e, c)]) == Txs(e.commits) + [tx];
  }

  lemma OwnIsUnique(e: Engine, own: Uuid)
    requires WalletsOk(e.wallets, e.commits) && own in e.wallets
    ensures forall w :: w in e.wallets && e.wallets[w].user == e.wallets[own].user ==> w == own
  {
  }

  /** The rows a session holds, once installed, are the atomic move. */
  lemma HeldRowsAreTheMove(ws: map<Uuid, Wallet>, txs: seq<Tx>, req: Request, k: Work)
    requires EngineCommit.Ready(ws, req, k)
    requires k.own.id in ws && ws[k.own.id] == k.own && k.peer.id in ws && ws[k.peer.id] == k.peer
    requires !exists t :: t in txs && t.user == req.user && t.key == req.key
    requires forall w :: w in ws && ws[w].user == k.own.user ==> w == k.own.id
    ensures var tx := k.tx.value;
            Atomic(ws, txs, req, tx.id, tx.createdAt) == Moved(Install(ws, k.held), txs + [tx], tx)
  {
    AtomicMoves(ws, txs, req, k.own.id, k.tx.value.id, k.tx.value.createdAt);
    InstallPosts(ws, req, k);
  }

  /** A key that is found is answered as the atomic specification would at that instant. */
  lemma FoundKeyRefinesAtomic(e: Engine, c: CallId, hit: nat, id: Uuid, at: string)
    requires CommitsOk(e.wallets, e.commits, e.nextOid) && CanFindKey(e, c, Some(hit))
    ensures var e' := DoFindKey(e, c, Some(hit));
            && e'.wallets == e.wallets && e'.commits == e.commits
            && e'.calls[c].stage == Finished(
                 match Atomic(e.wallets, Txs(e.commits), e.calls[c].req, id, at)
                 case Replay(t) => Success(t, true)
                 case Refused(error) => Rejected(error)
                 case Moved(_, _, _) => Failed)
  {
    var req := e.calls[c].req;
    TxsMember(e.commits, req.user, req.key);
    assert HasKey(e.commits[hit], req.user, req.key);
    forall t | t in Txs(e.commits) && t.user == req.user && t.key == req.key ensures t == e.commits[hit].tx {
      var i :| 0 <= i < |Txs(e.commits)| && Txs(e.commits)[i] == t;
      assert i < hit ==> Distinct(e.commits[i], e.commits[hit]);
      assert hit < i ==> Distinct(e.commits[hit], e.commits[i]);
    }
  }

  // ---------- exactly once per key ----------

  /** All successful replies for one (user, key) carry one and the same committed transaction. */
  lemma OneTransactionPerKey(m: int, e: Engine, c: CallId, d: CallId)
    requires CommitsOk(e.wallets, e.commits, e.nextOid) && CallsOk(m, e) && c in e.calls && d in e.calls
    requires e.calls[c].stage.Finished? && e.calls[c].stage.reply.Success?
    requires e.calls[d].stage.Finished? && e.calls[d].stage.reply.Success?
    requires e.calls[c].req.user == e.calls[d].req.user && e.calls[c].req.key == e.calls[d].req.key
    ensures e.calls[c].stage.reply.tx == e.calls[d].stage.reply.tx
    ensures Answers(e.calls[c].req, e.calls[c].stage.reply.tx) && Answers(e.calls[d].req, e.calls[c].stage.reply.tx)
  {
    assert CallOk(m, e.wallets, e.commits, e.nextOid, e.locks, c, e.calls[c]);
    assert CallOk(m, e.wallets, e.commits, e.nextOid, e.locks, d, e.calls[d]);
    var i :| 0 <= i < |e.commits| && e.commits[i].tx == e.calls[c].stage.reply.tx;
    var j :| 0 <= j < |e.commits| && e.commits[j].tx == e.calls[d].stage.reply.tx;
    assert i < j ==> Distinct(e.commits[i], e.commits[j]);
    assert j < i ==> Distinct(e.commits[j], e.commits[i]);
  }

  /** A business error or ErrTooMuchContention means that the call moved no money. */
  lemma RefusalMovesNothing(m: int, e: Engine, c: CallId, i: nat)
    requires Inv(m, e) && c in e.calls && i < |e.commits|
    requires e.calls[c].stage.Finished?
    requires e.calls[c].stage.reply.Rejected? || e.calls[c].stage.reply.TooMuchContention?
    ensures e.commits[i].call != c
  {
    assert AuthorOk(e, e.commits[i]);
  }

  // ---------- contention ----------

  /** ErrTooMuchContention: per attempt, a commit by another call on one of this call's wallets,
      between that attempt's first read and its failure; at most one failure was a unique violation. */
  lemma ContentionIsReal(m: int, e: Engine, c: CallId)
    requires Inv(m, e) && c in e.calls && e.calls[c].stage == Finished(TooMuchContention)
    ensures var call := e.calls[c];
            && |call.charged| == (if m < 0 then 0 else m)
            && (forall j, k :: 0 <= j < k < |call.charged| ==> call.charged[j].failed <= call.charged[k].since)
            && (forall k :: 0 <= k < |call.charged| ==>
                  Chargeable(e.wallets, e.commits, c, call, call.charged[k]))
            && call.uniques <= 1
  {
    assert CallOk(m, e.wallets, e.commits, e.nextOid, e.locks, c, e.calls[c]);
  }

  // ---------- deadlock freedom ----------

  ghost predicate Waits(e: Engine, c: CallId, d: CallId) {
    Blocked(e, c) && e.locks[NextWrite(e, c).row.id] == d
  }

  function Wanted(e: Engine, c: CallId): Uuid
    requires AtUpdate(e, c)
  {
    NextWrite(e, c).row.id
  }

  /** The holder of a wanted row wants only rows with larger ids. */
  lemma HolderWantsMore(m: int, e: Engine, c: CallId, d: CallId)
    requires Waits(e, c, d) && AtUpdate(e, d) && LocksOk(e)
    requires CallOk(m, e.wallets, e.commits, e.nextOid, e.locks, d, e.calls[d])
    ensures Less(Wanted(e, c).text, Wanted(e, d).text)
  {
    assert Holds(e, d, Wanted(e, c));
    var k, plan := WorkOf(e, d), PlanOf(e, d);
    var i :| 0 <= i < |k.held| && k.held[i].id == Wanted(e, c);
    assert HeldOk(e.wallets, e.locks, d, plan[i], k.held[i]);
    PlanAscends(e.calls[d].req, k.own, k.peer);
  }

  ghost predicate WaitChain(e: Engine, path: seq<CallId>) {
    forall i :: 0 <= i < |path| - 1 ==> Waits(e, path[i], path[i + 1])
  }

  /** Along a waits-for edge between waiting calls, the wanted id grows. */
  ghost predicate Ascends(e: Engine) {
    forall c, d :: Waits(e, c, d) && Blocked(e, d) ==> Less(Wanted(e, c).text, Wanted(e, d).text)
  }

  lemma WaitsAscend(m: int, e: Engine)
    requires CallsOk(m, e) && LocksOk(e)
    ensures Ascends(e)
  {
    forall c, d | Waits(e, c, d) && Blocked(e, d) ensures Less(Wanted(e, c).text, Wanted(e, d).text) {
      HolderWantsMore(m, e, c, d);
    }
  }

  lemma {:induction false} WantedGrows(e: Engine, path: seq<CallId>, n: nat)
    requires Ascends(e) && WaitChain(e, path) && 1 <= n < |path| && Blocked(e, path[n])
    ensures Blocked(e, path[0]) && Less(Wanted(e, path[0]).text, Wanted(e, path[n]).text)
  {
    assert Waits(e, path[n - 1], path[n]);
    if n > 1 {
      WantedGrows(e, path, n - 1);
      LessIsTransitive(Wanted(e, path[0]).text, Wanted(e, path[n - 1]).text, Wanted(e, path[n]).text);
    }
  }

  /** No cycle of calls waiting for each other's row locks. */
  lemma NoWaitCycle(m: int, e: Engine, path: seq<CallId>)
    requires CallsOk(m, e) && LocksOk(e) && |path| >= 2 && WaitChain(e, path)
    ensures path[0] != path[|path| - 1]
  {
    if path[0] == path[|path| - 1] {
      WaitsAscend(m, e);
      assert Waits(e, path[0], path[1]);
      WantedGrows(e, path, |path| - 1);
      LessIsIrreflexive(Wanted(e, path[0]).text);
    }
  }

  ghost function Above(e: Engine, w: Uuid): set<Uuid> {
    set v | v in e.wallets && Less(w.text, v.text)
  }

  /** A waiting call waits for one that works, and wants less than it if that one waits too. */
  lemma NextInChain(m: int, e: Engine, c: CallId) returns (d: CallId)
    requires CallsOk(m, e) && LocksOk(e) && Blocked(e, c)
    ensures Waits(e, c, d) && IsWorking(e, d)
    ensures Blocked(e, d) ==> Above(e, Wanted(e, d)) < Above(e, Wanted(e, c))
  {
    d := e.locks[Wanted(e, c)];
    assert Holds(e, d, Wanted(e, c));
    if Blocked(e, d) {
      HolderWantsMore(m, e, c, d);
      AboveShrinks(e, Wanted(e, c), Wanted(e, d));
    }
  }

  lemma ChainExtends(e: Engine, c: CallId, rest: seq<CallId>)
    requires rest != [] && Waits(e, c, rest[0]) && WaitChain(e, rest)
    ensures WaitChain(e, [c] + rest)
  {
    var path := [c] + rest;
    forall i | 0 <= i < |path| - 1 ensures Waits(e, path[i], path[i + 1]) {
      assert i > 0 ==> Waits(e, rest[i - 1], rest[i]);
    }
  }

  /** Following the locks from a waiting call ends at a call that can run. */
  lemma {:induction false} SomeoneCanRun(m: int, e: Engine, c: CallId) returns (path: seq<CallId>)
    requires CallsOk(m, e) && LocksOk(e) && Blocked(e, c)
    ensures path != [] && path[0] == c && WaitChain(e, path)
    ensures IsWorking(e, path[|path| - 1]) && !Blocked(e, path[|path| - 1])
    decreases Above(e, Wanted(e, c))
  {
    var d := NextInChain(m, e, c);
    var rest := [d];
    if Blocked(e, d) {
      rest := SomeoneCanRun(m, e, d);
    }
    ChainExtends(e, c, rest);
    path := [c] + rest;
  }

  lemma AboveShrinks(e: Engine, v: Uuid, w: Uuid)
    requires Less(v.text, w.text) && w in e.wallets
    ensures Above(e, w) < Above(e, v)
  {
    forall x | x in Above(e, w) ensures x in Above(e, v) {
      LessIsTransitive(v.text, w.text, x.text);
    }
    LessIsIrreflexive(w.text);
    assert w in Above(e, v) && w !in Above(e, w);
  }

  /** Two calls of one user are never both past their UPDATEs, so an INSERT never waits on the
      unique index of (user_id, idempotency_key). */
  lemma UniqueIndexNeverWaits(m: int, e: Engine, c: CallId, d: CallId)
    requires WalletsOk(e.wallets, e.commits) && CallsOk(m, e) && AtInsertTx(e, c) && d in e.calls
    ensures !UniqueWait(e, c, d)
  {
    if UniqueWait(e, c, d) {
      assert CallOk(m, e.wallets, e.commits, e.nextOid, e.locks, c, e.calls[c]);
      assert CallOk(m, e.wallets, e.commits, e.nextOid, e.locks, d, e.calls[d]);
      OwnRowLocked(m, e, c);
      OwnRowLocked(m, e, d);
      SameUserSameWallet(e, c, d);
    }
  }

  lemma OwnRowLocked(m: int, e: Engine, c: CallId)
    requires IsWorking(e, c) && |WorkOf(e, c).held| == |PlanOf(e, c)|
    requires CallOk(m, e.wallets, e.commits, e.nextOid, e.locks, c, e.calls[c])
    ensures var own := WorkOf(e, c).own;
            && own.id in e.locks && e.locks[own.id] == c
            && own.id in e.wallets && e.wallets[own.id].user == e.calls[c].req.user
  {
    var k, plan := WorkOf(e, c), PlanOf(e, c);
    assert HeldOk(e.wallets, e.locks, c, plan[0], k.held[0]);
    assert |plan| == 2 ==> HeldOk(e.wallets, e.locks, c, plan[1], k.held[1]);
  }

  lemma SameUserSameWallet(e: Engine, c: CallId, d: CallId)
    requires WalletsOk(e.wallets, e.commits) && IsWorking(e, c) && IsWorking(e, d)
    requires var v, w := WorkOf(e, c).own.id, WorkOf(e, d).own.id;
             v in e.wallets && w in e.wallets && e.wallets[v].user == e.wallets[w].user
    ensures WorkOf(e, c).own.id == WorkOf(e, d).own.id
  {
  }

  /** A call that is neither finished nor waiting for a row has a next action, whatever else is
      going on: no state of the engine is stuck. */
  lemma Progress(m: int, e: Engine, c: CallId, id: Uuid, at: string) returns (a: Action)
    requires Inv(m, e) && c in e.calls && !e.calls[c].stage.Finished? && !Blocked(e, c)
    requires FreshTxId(e, id)
    ensures Enabled(e, a) && !a.Fail? && !a.CreateWallet? && a.c == c
  {
    assert CallOk(m, e.wallets, e.commits, e.nextOid, e.locks, c, e.calls[c]);
    var req := e.calls[c].req;
    match e.calls[c].stage
    case FindingKey =>
      if KeyUsed(e.commits, req.user, req.key) {
        var i :| 0 <= i < |e.commits| && HasKey(e.commits[i], req.user, req.key);
        a := FindKey(c, Some(i));
      } else {
        a := FindKey(c, None);
      }
    case ReadingOwn =>
      if w :| w in e.wallets && e.wallets[w].user == req.user {
        a := ReadOwn(c, Some(w));
      } else {
        a := ReadOwn(c, None);
      }
    case ReadingPeer(_) => a := ReadPeer(c);
    case Working(k) =>
      if |k.held| < |PlanOf(e, c)| {
        a := Update(c);
      } else if k.tx.None? {
        forall d | d in e.calls ensures !UniqueWait(e, c, d) { UniqueIndexNeverWaits(m, e, c, d); }
        a := InsertTx(c, id, at);
      } else if k.oid.None? {
        a := InsertOutbox(c);
      } else {
        a := CommitTx(c, false);
      }
    case BackingOff => a := Resume(c);
  }

  // ---------- conservation ----------

  ghost function Deposited(cs: seq<Commit>): int {
    if cs == [] then 0
    else Deposited(cs[..|cs| - 1]) + if cs[|cs| - 1].tx.from.None? then cs[|cs| - 1].tx.amount else 0
  }

  lemma DeltasSum(ids: set<Uuid>, tx: Tx)
    requires tx.to in ids && (tx.from.Some? ==> tx.from.value in ids && tx.from.value != tx.to)
    ensures SumOf(ids, w => Delta(tx, w)) == if tx.from.None? then tx.amount else 0
  {
    var f := w => Delta(tx, w);
    SumRemove(ids, f, tx.to);
    if tx.from.Some? {
      SumSingle(ids - {tx.to}, f, tx.from.value);
    } else {
      SumZero(ids - {tx.to}, f);
    }
  }

  lemma {:induction false} NetsSum(ids: set<Uuid>, cs: seq<Commit>)
    requires forall i :: 0 <= i < |cs| ==>
               var tx := cs[i].tx; tx.to in ids && (tx.from.Some? ==> tx.from.value in ids && tx.from.value != tx.to)
    ensures SumOf(ids, w => Net(cs, w)) == Deposited(cs)
  {
    if cs == [] {
      SumZero(ids, w => Net(cs, w));
    } else {
      var rest, tx := cs[..|cs| - 1], cs[|cs| - 1].tx;
      NetsSum(ids, rest);
      DeltasSum(ids, tx);
      SumPlus(ids, w => Net(rest, w), w => Delta(tx, w), w => Net(cs, w));
    }
  }

  ghost function TotalBalance(ws: map<Uuid, Wallet>): int {
    SumOf(ws.Keys, w => if w in ws then ws[w].balance else 0)
  }

  /** All wallet balances together are all committed deposits together. */
  lemma MoneyIsConserved(m: int, e: Engine)
    requires Inv(m, e)
    ensures TotalBalance(e.wallets) == Deposited(e.commits)
  {
    var ids := e.wallets.Keys;
    forall i | 0 <= i < |e.commits|
      ensures var tx := e.commits[i].tx;
              tx.to in ids && (tx.from.Some? ==> tx.from.value in ids && tx.from.value != tx.to)
    {
      assert TxOk(e.wallets, e.commits[i].tx);
    }
    NetsSum(ids, e.commits);
    forall w | w in ids ensures e.wallets[w].balance == Net(e.commits, w) {
      assert WalletOk(e.commits, w, e.wallets[w]);
    }
    SumSame(ids, w => if w in e.wallets then e.wallets[w].balance else 0, w => Net(e.commits, w));
  }
}
