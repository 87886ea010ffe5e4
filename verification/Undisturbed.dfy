/** A call whose wallets nobody else has locked, and whose statements run without interference, does
    exactly what the atomic specification says: the same move, replay or refusal, in every case. */
module Undisturbed {
  import opened Types
  import opened Engine
  import opened EngineInvariant
  import EngineSteps
  import EngineCommit
  import opened EngineTheorems

  // ---------- runs of one call ----------

  ghost predicate Legal(m: int, e: Engine, acts: seq<Action>)
    decreases |acts|
  {
    acts == [] || (Enabled(e, acts[0]) && Legal(m, Apply(m, e, acts[0]), acts[1..]))
  }

  ghost function Run(m: int, e: Engine, acts: seq<Action>): Engine
    requires Legal(m, e, acts)
    decreases |acts|
  {
    if acts == [] then e else Run(m, Apply(m, e, acts[0]), acts[1..])
  }

  lemma {:induction false} RunAppends(m: int, e: Engine, acts: seq<Action>, more: seq<Action>)
    requires Legal(m, e, acts) && Legal(m, Run(m, e, acts), more)
    ensures Legal(m, e, acts + more) && Run(m, e, acts + more) == Run(m, Run(m, e, acts), more)
    decreases |acts|
  {
    if acts == [] {
      assert acts + more == more;
    } else {
      assert (acts + more)[1..] == acts[1..] + more;
      RunAppends(m, Apply(m, e, acts[0]), acts[1..], more);
    }
  }

  /** A statement of call c, made for this request with this generated id and time, that goes through. */
  predicate StatementOf(c: CallId, req: Request, id: Uuid, at: string, a: Action) {
    && !a.CreateWallet? && !a.Fail? && a.c == c
    && (a.Begin? ==> a.req == req)
    && (a.InsertTx? ==> a.id == id && a.at == at)
    && (a.CommitTx? ==> !a.replyLost)
  }

  predicate Statements(c: CallId, req: Request, id: Uuid, at: string, acts: seq<Action>) {
    forall i :: 0 <= i < |acts| ==> StatementOf(c, req, id, at, acts[i])
  }

  predicate IsOver(e: Engine, c: CallId) {
    c in e.calls && e.calls[c].stage.Finished?
  }

  // ---------- what the specification asks for ----------

  /** The rows the move writes fit their columns: a bigint balance and an integer version. */
  ghost predicate Fits(out: Outcome) {
    out.Moved? ==> forall w :: w in out.wallets && Touches(out.tx, w) ==>
      out.wallets[w].balance <= 0x7fff_ffff_ffff_ffff && out.wallets[w].version <= 0x7fff_ffff
  }

  ghost function Verdict(out: Outcome): Reply {
    match out
    case Moved(_, _, tx) => Success(tx, false)
    case Replay(tx) => Success(tx, true)
    case Refused(error) => Rejected(error)
  }

  /** e' is e after the call's outcome; a move that does not fit fails and changes nothing. */
  ghost predicate Settles(e: Engine, e': Engine, c: CallId, out: Outcome) {
    && c in e'.calls
    && e'.calls[c].stage == Finished(if Fits(out) then Verdict(out) else Failed)
    && if out.Moved? && Fits(out) then e'.wallets == out.wallets && Txs(e'.commits) == out.txs
       else e'.wallets == e.wallets && e'.commits == e.commits
  }

  /** These statements of call c alone are a legal run, and it settles as the atomic specification. */
  ghost predicate Concludes(m: int, e: Engine, acts: seq<Action>, c: CallId, req: Request, id: Uuid, at: string) {
    && Legal(m, e, acts)
    && Statements(c, req, id, at, acts)
    && Settles(e, Run(m, e, acts), c, Atomic(e.wallets, Txs(e.commits), req, id, at))
  }

  lemma Prepend(m: int, e: Engine, a: Action, acts: seq<Action>, c: CallId, req: Request, id: Uuid, at: string)
    requires Enabled(e, a) && StatementOf(c, req, id, at, a)
    requires Apply(m, e, a).wallets == e.wallets && Apply(m, e, a).commits == e.commits
    requires Concludes(m, Apply(m, e, a), acts, c, req, id, at)
    ensures Concludes(m, e, [a] + acts, c, req, id, at)
  {
    assert ([a] + acts)[1..] == acts;
  }

  /** The call is over after one last statement. */
  lemma LastOne(m: int, e: Engine, a: Action, c: CallId, req: Request, id: Uuid, at: string)
    requires Enabled(e, a) && StatementOf(c, req, id, at, a)
    requires Settles(e, Apply(m, e, a), c, Atomic(e.wallets, Txs(e.commits), req, id, at))
    ensures Concludes(m, e, [a], c, req, id, at)
  {
    assert Run(m, e, [a]) == Run(m, Apply(m, e, a), []);
  }

  // ---------- the specification on tables where the key is new ----------

  ghost predicate NewKey(e: Engine, req: Request) {
    !KeyUsed(e.commits, req.user, req.key)
  }

  lemma NoSuchWallet(e: Engine, req: Request, id: Uuid, at: string)
    requires NewKey(e, req) && forall w :: w in e.wallets ==> e.wallets[w].user != req.user
    ensures Atomic(e.wallets, Txs(e.commits), req, id, at) == Refused(WalletNotFound)
  {
    TxsMember(e.commits, req.user, req.key);
  }

  /** What the transfer's checks decide, on the rows as they are. */
  ghost function Objection(ws: map<Uuid, Wallet>, own: Uuid, to: Uuid, amount: int): Option<BusinessError>
    requires own in ws
  {
    if to !in ws then Some(PeerNotFound)
    else if own == to then Some(SameWallet)
    else if ws[own].currency != ws[to].currency then Some(CurrencyMismatch)
    else if ws[own].balance < amount then Some(InsufficientFunds)
    else None
  }

  lemma TransferRefused(e: Engine, req: Request, own: Uuid, id: Uuid, at: string)
    requires NewKey(e, req) && WalletsOk(e.wallets, e.commits) && req.TransferReq?
    requires own in e.wallets && e.wallets[own].user == req.user
    requires Objection(e.wallets, own, req.to, req.amount).Some?
    ensures Atomic(e.wallets, Txs(e.commits), req, id, at)
              == Refused(Objection(e.wallets, own, req.to, req.amount).value)
  {
    TxsMember(e.commits, req.user, req.key);
  }

  /** Each UPDATE of the plan writes the row that the posted transaction leaves. */
  lemma PlanPosts(ws: map<Uuid, Wallet>, req: Request, own: Wallet, peer: Wallet, id: Uuid, at: string, i: nat)
    requires PairOk(req, own, peer) && i < |Plan(req, own, peer)|
    requires own.id in ws && ws[own.id] == own && peer.id in ws && ws[peer.id] == peer
    ensures var w, tx := Plan(req, own, peer)[i], TxFor(req, own, peer, id, at);
            w.row.id in ws && Touches(tx, w.row.id) && EngineCommit.Posted(ws, tx)[w.row.id] == Bump(w)
  {
  }

  lemma MoveOf(e: Engine, req: Request, own: Wallet, peer: Wallet, id: Uuid, at: string)
    requires NewKey(e, req) && WalletsOk(e.wallets, e.commits) && PairOk(req, own, peer)
    requires own.id in e.wallets && e.wallets[own.id] == own && peer.id in e.wallets && e.wallets[peer.id] == peer
    ensures var tx := TxFor(req, own, peer, id, at);
            Atomic(e.wallets, Txs(e.commits), req, id, at)
              == Moved(EngineCommit.Posted(e.wallets, tx), Txs(e.commits) + [tx], tx)
  {
    TxsMember(e.commits, req.user, req.key);
    AtomicMoves(e.wallets, Txs(e.commits), req, own.id, id, at);
  }

  /** The first n rows the plan writes fit their columns. */
  ghost predicate InRangeUpTo(p: seq<Write>, n: nat) {
    forall i :: 0 <= i < n && i < |p| ==> InRange(Bump(p[i]))
  }

  /** The UPDATEs of a plan all fit exactly when the move does. */
  lemma PlanFits(ws: map<Uuid, Wallet>, txs: seq<Tx>, req: Request, own: Wallet, peer: Wallet, id: Uuid, at: string)
    requires PairOk(req, own, peer)
    requires own.id in ws && ws[own.id] == own && peer.id in ws && ws[peer.id] == peer
    ensures var tx, p := TxFor(req, own, peer, id, at), Plan(req, own, peer);
            Fits(Moved(EngineCommit.Posted(ws, tx), txs, tx)) <==> InRangeUpTo(p, |p|)
  {
    var tx, p := TxFor(req, own, peer, id, at), Plan(req, own, peer);
    forall i | 0 <= i < |p| ensures p[i].row.id in ws && Touches(tx, p[i].row.id)
      && EngineCommit.Posted(ws, tx)[p[i].row.id] == Bump(p[i])
    {
      PlanPosts(ws, req, own, peer, id, at, i);
    }
    forall w | Touches(tx, w) ensures exists i :: 0 <= i < |p| && p[i].row.id == w {
      PlanCovers(req, own, peer, id, at, w);
    }
  }

  // ---------- the statements, last one first ----------

  ghost predicate CallIsOk(m: int, e: Engine, c: CallId) {
    c in e.calls && CallOk(m, e.wallets, e.commits, e.nextOid, e.locks, c, e.calls[c])
  }

  lemma FromCommit(m: int, e: Engine, c: CallId, req: Request, id: Uuid, at: string)
    requires WalletsOk(e.wallets, e.commits) && CallIsOk(m, e, c) && e.calls[c].req == req
    requires CanCommit(e, c) && WorkOf(e, c).tx.value.id == id && WorkOf(e, c).tx.value.createdAt == at
    requires Fits(Atomic(e.wallets, Txs(e.commits), req, id, at))
    ensures Concludes(m, e, [CommitTx(c, false)], c, req, id, at)
  {
    CommitRefinesAtomic(m, e, c, false);
    LastOne(m, e, CommitTx(c, false), c, req, id, at);
  }

  lemma FromOutbox(m: int, e: Engine, c: CallId, req: Request, id: Uuid, at: string) returns (acts: seq<Action>)
    requires WalletsOk(e.wallets, e.commits) && CommitsOk(e.wallets, e.commits, e.nextOid)
    requires CallIsOk(m, e, c) && e.calls[c].req == req
    requires CanInsertOutbox(e, c) && WorkOf(e, c).tx.value.id == id && WorkOf(e, c).tx.value.createdAt == at
    requires Fits(Atomic(e.wallets, Txs(e.commits), req, id, at))
    ensures Concludes(m, e, acts, c, req, id, at)
  {
    EngineSteps.OutboxCallOk(m, e, c);
    FromCommit(m, DoInsertOutbox(e, c), c, req, id, at);
    Prepend(m, e, InsertOutbox(c), [CommitTx(c, false)], c, req, id, at);
    acts := [InsertOutbox(c)] + [CommitTx(c, false)];
  }

  /** With a new key, the INSERT into wallet.transactions goes through. */
  lemma InsertGoesThrough(m: int, e: Engine, c: CallId, id: Uuid, at: string) returns (e1: Engine)
    requires WalletsOk(e.wallets, e.commits) && CallsOk(m, e) && AtInsertTx(e, c)
    requires NewKey(e, e.calls[c].req) && FreshTxId(e, id)
    ensures CanInsertTx(e, c, id) && e1 == DoInsertTx(e, c, id, at)
    ensures e1 == e.(calls := e1.calls) && CallIsOk(m, e1, c) && e1.calls[c].req == e.calls[c].req
    ensures HasTx(e1, c) && WorkOf(e1, c) == WorkOf(e, c).(tx := WorkOf(e1, c).tx)
    ensures WorkOf(e1, c).tx.value.id == id && WorkOf(e1, c).tx.value.createdAt == at
  {
    forall d | d in e.calls ensures !UniqueWait(e, c, d) { UniqueIndexNeverWaits(m, e, c, d); }
    var req, k := e.calls[c].req, WorkOf(e, c);
    EngineSteps.KeyIndexFinds(e.commits, req.user, req.key, |e.commits|);
    var k' := k.(tx := Some(TxFor(req, k.own, k.peer, id, at)));
    e1 := DoInsertTx(e, c, id, at);
    assert e1 == Goto(e, c, Working(k'));
    EngineSteps.InsertedCallOk(m, e, c, id, k');
  }

  lemma FromInsert(m: int, e: Engine, c: CallId, req: Request, id: Uuid, at: string) returns (acts: seq<Action>)
    requires WalletsOk(e.wallets, e.commits) && CommitsOk(e.wallets, e.commits, e.nextOid) && CallsOk(m, e)
    requires AtInsertTx(e, c) && WorkOf(e, c).oid.None? && e.calls[c].req == req
    requires NewKey(e, req) && FreshTxId(e, id) && Fits(Atomic(e.wallets, Txs(e.commits), req, id, at))
    ensures Concludes(m, e, acts, c, req, id, at)
  {
    var e1 := InsertGoesThrough(m, e, c, id, at);
    var rest := FromOutbox(m, e1, c, req, id, at);
    Prepend(m, e, InsertTx(c, id, at), rest, c, req, id, at);
    acts := [InsertTx(c, id, at)] + rest;
  }

  // ---------- the UPDATEs ----------

  /** Nobody else holds a row this call needs. */
  ghost predicate Clear(e: Engine, c: CallId, req: Request) {
    forall w :: w in e.locks && WalletOfCall(e.wallets, req, w) ==> e.locks[w] == c
  }

  /** Past its reads, which are still current; nothing inserted yet. */
  ghost predicate Writing(e: Engine, c: CallId, req: Request) {
    && Clear(e, c, req) && NewKey(e, req)
    && IsWorking(e, c) && e.calls[c].req == req
    && var k := WorkOf(e, c);
       && k.own.id in e.wallets && e.wallets[k.own.id] == k.own
       && k.peer.id in e.wallets && e.wallets[k.peer.id] == k.peer
       && k.tx.None? && k.oid.None?
  }

  /** The next UPDATE neither waits nor misses. */
  lemma RowIsFree(m: int, e: Engine, c: CallId, req: Request)
    requires Writing(e, c, req) && AtUpdate(e, c) && LocksOk(e) && CallIsOk(m, e, c)
    ensures !Stale(e, NextWrite(e, c)) && NextWrite(e, c).row.id !in e.locks
    ensures e.wallets[NextWrite(e, c).row.id] == NextWrite(e, c).row
  {
    var k, plan := WorkOf(e, c), PlanOf(e, c);
    var w := NextWrite(e, c).row.id;
    EngineSteps.ExpectedRow(m, e, c);
    if w in e.locks {
      assert Holds(e, c, w);
      var i :| 0 <= i < |k.held| && k.held[i].id == w;
      assert HeldOk(e.wallets, e.locks, c, plan[i], k.held[i]);
      PlanAscends(req, k.own, k.peer);
    }
  }

  lemma UpdateGoesThrough(m: int, e: Engine, c: CallId, req: Request) returns (e1: Engine)
    requires Writing(e, c, req) && AtUpdate(e, c) && LocksOk(e) && CallIsOk(m, e, c)
    requires WalletsOk(e.wallets, e.commits)
    ensures CanUpdate(e, c) && e1 == DoUpdate(e, c)
    ensures var row := Bump(NextWrite(e, c));
            if InRange(row) then
              && e1 == e.(calls := e1.calls, locks := e1.locks) && Writing(e1, c, req)
              && e1.calls == e.calls[c := e1.calls[c]]
              && WorkOf(e1, c) == WorkOf(e, c).(held := WorkOf(e, c).held + [row])
            else e1 == Finish(e, c, Failed)
  {
    RowIsFree(m, e, c, req);
    EngineSteps.CheckNeverFires(m, e, c);
    e1 := DoUpdate(e, c);
  }

  lemma AtomicFits(m: int, e: Engine, c: CallId, req: Request, id: Uuid, at: string)
    requires Writing(e, c, req) && CallIsOk(m, e, c) && WalletsOk(e.wallets, e.commits)
    ensures var out := Atomic(e.wallets, Txs(e.commits), req, id, at);
            out.Moved? && (Fits(out) <==> InRangeUpTo(PlanOf(e, c), |PlanOf(e, c)|))
  {
    var k := WorkOf(e, c);
    MoveOf(e, req, k.own, k.peer, id, at);
    PlanFits(e.wallets, Txs(e.commits) + [TxFor(req, k.own, k.peer, id, at)], req, k.own, k.peer, id, at);
  }

  /** A row that does not fit its columns: the UPDATE fails, and so does the call. */
  lemma UpdateFails(m: int, e: Engine, c: CallId, req: Request, id: Uuid, at: string)
    requires Writing(e, c, req) && AtUpdate(e, c) && LocksOk(e) && CallIsOk(m, e, c)
    requires WalletsOk(e.wallets, e.commits) && !InRange(Bump(NextWrite(e, c)))
    ensures Concludes(m, e, [Update(c)], c, req, id, at)
  {
    var e1 := UpdateGoesThrough(m, e, c, req);
    AtomicFits(m, e, c, req, id, at);
    LastOne(m, e, Update(c), c, req, id, at);
  }

  /** A row that fits: one UPDATE more is done. */
  lemma UpdateStep(m: int, e: Engine, c: CallId, req: Request, id: Uuid) returns (e1: Engine)
    requires Writing(e, c, req) && AtUpdate(e, c) && LocksOk(e) && CallIsOk(m, e, c)
    requires WalletsOk(e.wallets, e.commits) && FreshTxId(e, id)
    requires InRangeUpTo(PlanOf(e, c), |WorkOf(e, c).held|) && InRange(Bump(NextWrite(e, c)))
    ensures CanUpdate(e, c) && e1 == DoUpdate(e, c)
    ensures e1.wallets == e.wallets && e1.commits == e.commits
    ensures Writing(e1, c, req) && FreshTxId(e1, id)
    ensures PlanOf(e1, c) == PlanOf(e, c) && |WorkOf(e1, c).held| == |WorkOf(e, c).held| + 1
    ensures InRangeUpTo(PlanOf(e1, c), |WorkOf(e1, c).held|)
  {
    e1 := UpdateGoesThrough(m, e, c, req);
    StillFresh(e, e1, c, id);
  }

  lemma FromUpdates(m: int, e: Engine, c: CallId, req: Request, id: Uuid, at: string) returns (acts: seq<Action>)
    requires Inv(m, e) && Writing(e, c, req) && FreshTxId(e, id) && InRangeUpTo(PlanOf(e, c), |WorkOf(e, c).held|)
    ensures Concludes(m, e, acts, c, req, id, at)
    decreases |PlanOf(e, c)| - |WorkOf(e, c).held|
  {
    assert CallIsOk(m, e, c);
    if !AtUpdate(e, c) {
      AtomicFits(m, e, c, req, id, at);
      acts := FromInsert(m, e, c, req, id, at);
    } else if !InRange(Bump(NextWrite(e, c))) {
      UpdateFails(m, e, c, req, id, at);
      acts := [Update(c)];
    } else {
      var e1 := UpdateStep(m, e, c, req, id);
      EngineSteps.UpdateKeeps(m, e, c);
      var rest := FromUpdates(m, e1, c, req, id, at);
      Prepend(m, e, Update(c), rest, c, req, id, at);
      acts := [Update(c)] + rest;
    }
  }

  /** A step of c that inserts nothing leaves the generated id fresh. */
  lemma StillFresh(e: Engine, e1: Engine, c: CallId, id: Uuid)
    requires FreshTxId(e, id) && e1.commits == e.commits && c in e1.calls && !HasTx(e1, c)
    requires e1.calls == e.calls[c := e1.calls[c]]
    ensures FreshTxId(e1, id)
  {
  }

  // ---------- the reads ----------

  lemma FromPeer(m: int, e: Engine, c: CallId, req: Request, id: Uuid, at: string) returns (acts: seq<Action>)
    requires Inv(m, e) && Clear(e, c, req) && NewKey(e, req) && FreshTxId(e, id)
    requires CanReadPeer(e, c) && e.calls[c].req == req
    requires var own := e.calls[c].stage.own; own.id in e.wallets && e.wallets[own.id] == own && own.user == req.user
    ensures Concludes(m, e, acts, c, req, id, at)
  {
    if Objection(e.wallets, e.calls[c].stage.own.id, req.to, req.amount).Some? {
      PeerRefused(m, e, c, req, id, at);
      acts := [ReadPeer(c)];
    } else {
      var e1 := PeerStep(e, c, req, id);
      EngineSteps.ReadPeerKeeps(m, e, c);
      var rest := FromUpdates(m, e1, c, req, id, at);
      Prepend(m, e, ReadPeer(c), rest, c, req, id, at);
      acts := [ReadPeer(c)] + rest;
    }
  }

  lemma PeerRefused(m: int, e: Engine, c: CallId, req: Request, id: Uuid, at: string)
    requires WalletsOk(e.wallets, e.commits) && NewKey(e, req) && CanReadPeer(e, c) && e.calls[c].req == req
    requires var own := e.calls[c].stage.own; own.id in e.wallets && e.wallets[own.id] == own && own.user == req.user
    requires Objection(e.wallets, e.calls[c].stage.own.id, req.to, req.amount).Some?
    ensures Concludes(m, e, [ReadPeer(c)], c, req, id, at)
  {
    TransferRefused(e, req, e.calls[c].stage.own.id, id, at);
    PeerSettles(e, c, req);
    LastOne(m, e, ReadPeer(c), c, req, id, at);
  }

  lemma PeerStep(e: Engine, c: CallId, req: Request, id: Uuid) returns (e1: Engine)
    requires WalletsById(e) && Clear(e, c, req) && NewKey(e, req) && FreshTxId(e, id)
    requires CanReadPeer(e, c) && e.calls[c].req == req
    requires var own := e.calls[c].stage.own; own.id in e.wallets && e.wallets[own.id] == own
    requires Objection(e.wallets, e.calls[c].stage.own.id, req.to, req.amount).None?
    ensures e1 == DoReadPeer(e, c) && e1 == e.(calls := e1.calls)
    ensures Writing(e1, c, req) && FreshTxId(e1, id) && WorkOf(e1, c).held == []
  {
    e1 := DoReadPeer(e, c);
    assert e1 == Goto(e, c, Working(Work(e.calls[c].stage.own, e.wallets[req.to], [], None, None)));
    StillFresh(e, e1, c, id);
  }

  lemma PeerSettles(e: Engine, c: CallId, req: Request)
    requires CanReadPeer(e, c) && e.calls[c].req == req && WalletsById(e)
    requires var own := e.calls[c].stage.own; own.id in e.wallets && e.wallets[own.id] == own
    requires Objection(e.wallets, e.calls[c].stage.own.id, req.to, req.amount).Some?
    ensures DoReadPeer(e, c)
              == Finish(e, c, Rejected(Objection(e.wallets, e.calls[c].stage.own.id, req.to, req.amount).value))
  {
  }

  ghost predicate WalletsById(e: Engine) {
    forall w :: w in e.wallets ==> e.wallets[w].id == w
  }

  lemma OwnStep(e: Engine, c: CallId, req: Request, w: Uuid, id: Uuid) returns (e1: Engine)
    requires WalletsOk(e.wallets, e.commits) && Clear(e, c, req) && NewKey(e, req) && FreshTxId(e, id)
    requires c in e.calls && e.calls[c].stage.ReadingOwn? && e.calls[c].req == req
    requires w in e.wallets && e.wallets[w].user == req.user
    ensures e1 == DoReadOwn(e, c, Some(w)) && e1 == e.(calls := e1.calls) && FreshTxId(e1, id)
    ensures req.DepositReq? ==> Writing(e1, c, req) && WorkOf(e1, c).held == []
    ensures req.TransferReq? ==>
              && CanReadPeer(e1, c) && e1.calls[c].req == req
              && e1.calls[c].stage.own == e.wallets[w] && e.wallets[w].id == w
  {
    assert WalletOk(e.commits, w, e.wallets[w]);
    e1 := DoReadOwn(e, c, Some(w));
    StillFresh(e, e1, c, id);
  }

  lemma FromOwn(m: int, e: Engine, c: CallId, req: Request, id: Uuid, at: string) returns (acts: seq<Action>)
    requires Inv(m, e) && Clear(e, c, req) && NewKey(e, req) && FreshTxId(e, id)
    requires c in e.calls && e.calls[c].stage.ReadingOwn? && e.calls[c].req == req
    ensures Concludes(m, e, acts, c, req, id, at)
  {
    if w :| w in e.wallets && e.wallets[w].user == req.user {
      var a := ReadOwn(c, Some(w));
      EngineSteps.ReadOwnKeeps(m, e, c, Some(w));
      var e1 := OwnStep(e, c, req, w, id);
      var rest;
      if req.DepositReq? {
        rest := FromUpdates(m, e1, c, req, id, at);
      } else {
        rest := FromPeer(m, e1, c, req, id, at);
      }
      Prepend(m, e, a, rest, c, req, id, at);
      acts := [a] + rest;
    } else {
      NoSuchWallet(e, req, id, at);
      LastOne(m, e, ReadOwn(c, None), c, req, id, at);
      acts := [ReadOwn(c, None)];
    }
  }

  lemma FromKey(m: int, e: Engine, c: CallId, req: Request, id: Uuid, at: string) returns (acts: seq<Action>)
    requires Inv(m, e) && Clear(e, c, req) && FreshTxId(e, id)
    requires c in e.calls && e.calls[c].stage.FindingKey? && e.calls[c].req == req
    ensures Concludes(m, e, acts, c, req, id, at)
  {
    if KeyUsed(e.commits, req.user, req.key) {
      var hit :| 0 <= hit < |e.commits| && HasKey(e.commits[hit], req.user, req.key);
      FoundKeyRefinesAtomic(e, c, hit, id, at);
      KeyIsNoMove(e, req, id, at);
      LastOne(m, e, FindKey(c, Some(hit)), c, req, id, at);
      acts := [FindKey(c, Some(hit))];
    } else {
      EngineSteps.FindKeyKeeps(m, e, c, None);
      var e1 := DoFindKey(e, c, None);
      StillFresh(e, e1, c, id);
      var rest := FromOwn(m, e1, c, req, id, at);
      Prepend(m, e, FindKey(c, None), rest, c, req, id, at);
      acts := [FindKey(c, None)] + rest;
    }
  }

  lemma KeyIsNoMove(e: Engine, req: Request, id: Uuid, at: string)
    requires KeyUsed(e.commits, req.user, req.key)
    ensures !Atomic(e.wallets, Txs(e.commits), req, id, at).Moved?
  {
    TxsMember(e.commits, req.user, req.key);
  }

  // ---------- the whole call ----------

  /** From any state, for a call that finds its wallets unlocked, there is an undisturbed run to the end. */
  lemma SomeRunConcludes(m: int, e: Engine, c: CallId, req: Request, id: Uuid, at: string) returns (acts: seq<Action>)
    requires Inv(m, e) && m >= 1 && CanBegin(e, c, req) && FreshTxId(e, id)
    requires forall w :: w in e.locks ==> !WalletOfCall(e.wallets, req, w)
    ensures Concludes(m, e, acts, c, req, id, at)
  {
    EngineSteps.BeginKeeps(m, e, c, req);
    var e1 := DoBegin(m, e, c, req);
    StillFresh(e, e1, c, id);
    var rest := FromKey(m, e1, c, req, id, at);
    Prepend(m, e, Begin(c, req), rest, c, req, id, at);
    acts := [Begin(c, req)] + rest;
  }

  // ---------- and there is only one ----------

  lemma KeysDiffer(ws: map<Uuid, Wallet>, cs: seq<Commit>, next: nat, i: nat, j: nat)
    requires CommitsOk(ws, cs, next) && i < |cs| && j < |cs| && i != j
    ensures !(cs[i].tx.user == cs[j].tx.user && cs[i].tx.key == cs[j].tx.key)
  {
    assert Distinct(cs[if i < j then i else j], cs[if i < j then j else i]);
  }

  /** A key lookup has one answer, and so has the lookup of a user's wallet. */
  lemma OneAnswer(e: Engine, c: CallId, a: Action, b: Action)
    requires WalletsOk(e.wallets, e.commits) && CommitsOk(e.wallets, e.commits, e.nextOid)
    requires Enabled(e, a) && Enabled(e, b)
    requires (a.FindKey? && b.FindKey?) || (a.ReadOwn? && b.ReadOwn?)
    requires a.c == c && b.c == c
    ensures a == b
  {
    if a.FindKey? && a.hit.Some? && b.hit.Some? && a.hit != b.hit {
      KeysDiffer(e.wallets, e.commits, e.nextOid, a.hit.value, b.hit.value);
    }
  }

  /** In every state, at most one statement of the call is enabled. */
  lemma OneNext(m: int, e: Engine, c: CallId, req: Request, id: Uuid, at: string, a: Action, b: Action)
    requires WalletsOk(e.wallets, e.commits) && CommitsOk(e.wallets, e.commits, e.nextOid)
    requires c in e.calls ==> CallIsOk(m, e, c)
    requires Enabled(e, a) && StatementOf(c, req, id, at, a)
    requires Enabled(e, b) && StatementOf(c, req, id, at, b)
    ensures a == b && !IsOver(e, c)
  {
    if (a.FindKey? && b.FindKey?) || (a.ReadOwn? && b.ReadOwn?) {
      OneAnswer(e, c, a, b);
    }
  }

  /** Every undisturbed run is the beginning of every complete one. */
  lemma {:induction false} RunsAgree(m: int, e: Engine, c: CallId, req: Request, id: Uuid, at: string,
                                     acts: seq<Action>, full: seq<Action>)
    requires Inv(m, e) && Legal(m, e, acts) && Statements(c, req, id, at, acts)
    requires Legal(m, e, full) && Statements(c, req, id, at, full) && IsOver(Run(m, e, full), c)
    ensures acts <= full
    decreases |acts|
  {
    if acts != [] {
      assert c in e.calls ==> CallIsOk(m, e, c);
      OneNext(m, e, c, req, id, at, acts[0], if full == [] then acts[0] else full[0]);
      EngineCommit.ActionKeeps(m, e, acts[0]);
      RunsAgree(m, Apply(m, e, acts[0]), c, req, id, at, acts[1..], full[1..]);
      assert acts == [acts[0]] + acts[1..] && full == [full[0]] + full[1..];
    }
  }

  /** From any state, for a call that finds its wallets unlocked: however far an undisturbed run of it
      has got, it can go on to the end, and every run that has ended returns what the atomic
      specification returns and leaves the tables the specification leaves; only a move whose rows
      do not fit their columns fails instead, and changes nothing. */
  lemma UndisturbedIsAtomic(m: int, e: Engine, c: CallId, req: Request, id: Uuid, at: string, acts: seq<Action>)
    requires Inv(m, e) && m >= 1 && CanBegin(e, c, req) && FreshTxId(e, id)
    requires forall w :: w in e.locks ==> !WalletOfCall(e.wallets, req, w)
    requires Legal(m, e, acts) && Statements(c, req, id, at, acts)
    ensures exists full :: acts <= full && Concludes(m, e, full, c, req, id, at)
    ensures IsOver(Run(m, e, acts), c) ==>
              Settles(e, Run(m, e, acts), c, Atomic(e.wallets, Txs(e.commits), req, id, at))
  {
    var full := SomeRunConcludes(m, e, c, req, id, at);
    RunsAgree(m, e, c, req, id, at, acts, full);
    if IsOver(Run(m, e, acts), c) {
      RunsAgree(m, e, c, req, id, at, full, acts);
      assert acts == full;
    }
  }
}
