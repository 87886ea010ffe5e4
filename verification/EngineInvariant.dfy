/** The inductive invariant of the transaction engine, kept by every action. */
module EngineInvariant {
  import opened Types
  import opened Engine

  // ---------- the balances and versions that the commits explain ----------

  ghost function Net(cs: seq<Commit>, w: Uuid): int {
    if cs == [] then 0 else Net(cs[..|cs| - 1], w) + Delta(cs[|cs| - 1].tx, w)
  }

  ghost function Touched(cs: seq<Commit>, w: Uuid): nat {
    if cs == [] then 0
    else Touched(cs[..|cs| - 1], w) + if Touches(cs[|cs| - 1].tx, w) then 1 else 0
  }

  lemma NetSnoc(cs: seq<Commit>, cm: Commit, w: Uuid)
    ensures Net(cs + [cm], w) == Net(cs, w) + Delta(cm.tx, w)
    ensures Touched(cs + [cm], w) == Touched(cs, w) + if Touches(cm.tx, w) then 1 else 0
  {
    assert (cs + [cm])[..|cs|] == cs;
  }

  lemma {:induction false} NetOfUntouched(cs: seq<Commit>, w: Uuid)
    requires forall i :: 0 <= i < |cs| ==> !Touches(cs[i].tx, w)
    ensures Net(cs, w) == 0 && Touched(cs, w) == 0
  {
    if cs != [] {
      NetOfUntouched(cs[..|cs| - 1], w);
    }
  }

  // ---------- rows ----------

  /** A row read earlier: if its version is still current, the whole row is. */
  ghost predicate Snapshot(ws: map<Uuid, Wallet>, r: Wallet) {
    && r.id in ws
    && r.user == ws[r.id].user && r.currency == ws[r.id].currency
    && 0 <= r.version <= ws[r.id].version
    && (r.version == ws[r.id].version ==> r == ws[r.id])
  }

  /** ... and it was read after commit number `since`. */
  ghost predicate ReadOk(ws: map<Uuid, Wallet>, cs: seq<Commit>, since: nat, r: Wallet)
    requires since <= |cs|
  {
    Snapshot(ws, r) && Touched(cs[..since], r.id) <= r.version
  }

  ghost predicate WalletOk(cs: seq<Commit>, id: Uuid, w: Wallet) {
    && w.id == id && Canonical(id)
    && w.balance == Net(cs, id) && 0 <= w.balance <= INT64_MAX
    && w.version == Touched(cs, id)
  }

  ghost predicate WalletsOk(ws: map<Uuid, Wallet>, cs: seq<Commit>) {
    && (forall id :: id in ws ==> WalletOk(cs, id, ws[id]))
    && (forall v, w :: v in ws && w in ws && ws[v].user == ws[w].user ==> v == w)
  }

  // ---------- committed transactions ----------

  /** The CHECK and REFERENCES constraints of wallet.transactions, and the initiator's wallet. */
  ghost predicate TxOk(ws: map<Uuid, Wallet>, tx: Tx) {
    && TxShape(tx)
    && tx.to in ws
    && (tx.from.Some? ==> tx.from.value in ws)
    && OwnOf(tx) in ws && ws[OwnOf(tx)].user == tx.user
  }

  ghost predicate CommitsOk(ws: map<Uuid, Wallet>, cs: seq<Commit>, next: nat) {
    && (forall i :: 0 <= i < |cs| ==> TxOk(ws, cs[i].tx) && cs[i].oid < next)
    && (forall i, j :: 0 <= i < j < |cs| ==> Distinct(cs[i], cs[j]))
    && (forall i, j :: 0 <= i < j < |cs| && ShareWallet(cs[i].tx, cs[j].tx) ==> cs[i].oid < cs[j].oid)
  }

  /** Primary keys, UNIQUE (user_id, idempotency_key) and the outbox primary key. */
  ghost predicate Distinct(a: Commit, b: Commit) {
    && a.tx.id != b.tx.id
    && a.oid != b.oid
    && !(a.tx.user == b.tx.user && a.tx.key == b.tx.key)
  }

  /** Replaying the commits in order never overdraws a wallet. */
  ghost predicate Solvent(cs: seq<Commit>) {
    forall k, w :: 0 <= k <= |cs| ==> Net(cs[..k], w) >= 0
  }

  // ---------- calls ----------

  predicate InAttempt(s: Stage) {
    s.FindingKey? || s.ReadingOwn? || s.ReadingPeer? || s.Working?
  }

  /** The call's own wallet, or a transfer's recipient. */
  ghost predicate WalletOfCall(ws: map<Uuid, Wallet>, req: Request, w: Uuid) {
    w in ws && (ws[w].user == req.user || (req.TransferReq? && req.to == w))
  }

  ghost predicate Concerns(ws: map<Uuid, Wallet>, req: Request, tx: Tx) {
    WalletOfCall(ws, req, tx.to) || (tx.from.Some? && WalletOfCall(ws, req, tx.from.value))
  }

  /** A commit of another call on one of this call's wallets, between the first read of the failed
      attempt and its failure. */
  ghost predicate Chargeable(ws: map<Uuid, Wallet>, cs: seq<Commit>, c: CallId, call: Call, x: Charge) {
    && call.start <= x.since <= x.commit < x.failed <= |cs|
    && Concerns(ws, call.req, cs[x.commit].tx) && cs[x.commit].call != c
  }

  ghost predicate ChargesOk(ws: map<Uuid, Wallet>, cs: seq<Commit>, c: CallId, call: Call) {
    && call.start <= call.since <= |cs|
    && (forall k :: 0 <= k < |call.charged| ==> Chargeable(ws, cs, c, call, call.charged[k]))
    && (forall j, k :: 0 <= j < k < |call.charged| ==> call.charged[j].failed <= call.charged[k].since)
    && call.uniques <= 1
    && (call.uniques == 1 ==> KeyUsed(cs, call.req.user, call.req.key))
  }

  ghost predicate AttemptsOk(m: int, call: Call) {
    && (InAttempt(call.stage) ==>
          && 1 <= call.attempt <= m && |call.charged| == call.attempt - 1
          && (forall k :: 0 <= k < |call.charged| ==> call.charged[k].failed <= call.since))
    && (call.stage.BackingOff? ==> 1 <= call.attempt <= m && |call.charged| == call.attempt)
    && (call.stage == Finished(TooMuchContention) ==> |call.charged| == if m < 0 then 0 else m)
  }

  /** The attempt looked for its key after it began and did not find it. */
  ghost predicate KeyMissed(cs: seq<Commit>, call: Call)
    requires call.since <= |cs|
  {
    call.uniques == 0 && !KeyUsed(cs[..call.since], call.req.user, call.req.key)
  }

  ghost predicate PairOk(req: Request, own: Wallet, peer: Wallet) {
    && own.user == req.user
    && (req.DepositReq? ==> peer == own)
    && (req.TransferReq? ==>
          && peer.id == req.to && own.id != peer.id
          && own.currency == peer.currency && own.balance >= req.amount)
  }

  /** A held row is the version-checked successor of the row read, which is still committed. */
  ghost predicate HeldOk(ws: map<Uuid, Wallet>, locks: map<Uuid, CallId>, c: CallId, w: Write, row: Wallet) {
    && row == Bump(w)
    && w.row.id in ws && ws[w.row.id] == w.row
    && w.row.id in locks && locks[w.row.id] == c
    && 0 <= row.balance <= INT64_MAX
  }

  ghost predicate WorkOk(ws: map<Uuid, Wallet>, cs: seq<Commit>, next: nat, locks: map<Uuid, CallId>,
                         c: CallId, call: Call, k: Work)
    requires call.since <= |cs|
  {
    var plan := Plan(call.req, k.own, k.peer);
    && ReadOk(ws, cs, call.since, k.own) && ReadOk(ws, cs, call.since, k.peer)
    && PairOk(call.req, k.own, k.peer)
    && |k.held| <= |plan|
    && (forall i :: 0 <= i < |k.held| ==> HeldOk(ws, locks, c, plan[i], k.held[i]))
    && (k.tx.Some? ==>
          && |k.held| == |plan|
          && k.tx.value == TxFor(call.req, k.own, k.peer, k.tx.value.id, k.tx.value.createdAt)
          && Canonical(k.tx.value.id)
          && !KeyUsed(cs, call.req.user, call.req.key)
          && !IdUsed(cs, k.tx.value.id))
    && (k.oid.Some? ==>
          && k.tx.Some? && k.oid.value < next
          && (forall i :: 0 <= i < |cs| ==> cs[i].oid != k.oid.value)
          && (forall i :: 0 <= i < |cs| && ShareWallet(cs[i].tx, k.tx.value) ==> cs[i].oid < k.oid.value))
  }

  ghost predicate ReplyOk(cs: seq<Commit>, req: Request, reply: Reply) {
    reply.Success? ==>
      Answers(req, reply.tx) && exists i :: 0 <= i < |cs| && cs[i].tx == reply.tx
  }

  ghost predicate StageOk(ws: map<Uuid, Wallet>, cs: seq<Commit>, next: nat, locks: map<Uuid, CallId>,
                          c: CallId, call: Call)
    requires call.since <= |cs|
  {
    match call.stage
    case FindingKey => true
    case ReadingOwn => KeyMissed(cs, call)
    case ReadingPeer(own) =>
      KeyMissed(cs, call) && call.req.TransferReq? && own.user == call.req.user && ReadOk(ws, cs, call.since, own)
    case Working(k) => KeyMissed(cs, call) && WorkOk(ws, cs, next, locks, c, call, k)
    case BackingOff => true
    case Finished(reply) => ReplyOk(cs, call.req, reply)
  }

  ghost predicate CallOk(m: int, ws: map<Uuid, Wallet>, cs: seq<Commit>, next: nat, locks: map<Uuid, CallId>,
                         c: CallId, call: Call)
  {
    && ValidRequest(call.req)
    && ChargesOk(ws, cs, c, call)
    && AttemptsOk(m, call)
    && StageOk(ws, cs, next, locks, c, call)
  }

  ghost predicate CallsOk(m: int, e: Engine) {
    forall c :: c in e.calls ==> CallOk(m, e.wallets, e.commits, e.nextOid, e.locks, c, e.calls[c])
  }

  // ---------- locks and uncommitted rows ----------

  ghost predicate HoldsRow(k: Work, w: Uuid) {
    exists i :: 0 <= i < |k.held| && k.held[i].id == w
  }

  ghost predicate Holds(e: Engine, c: CallId, w: Uuid) {
    IsWorking(e, c) && HoldsRow(WorkOf(e, c), w)
  }

  ghost predicate LocksOk(e: Engine) {
    forall w :: w in e.locks ==> Holds(e, e.locks[w], w)
  }

  ghost predicate PendingOk(e: Engine) {
    && (forall c, d :: c in e.calls && d in e.calls && c != d && HasTx(e, c) && HasTx(e, d)
          ==> WorkOf(e, c).tx.value.id != WorkOf(e, d).tx.value.id)
    && (forall c, d :: c in e.calls && d in e.calls && c != d && HasOid(e, c) && HasOid(e, d)
          ==> WorkOf(e, c).oid.value != WorkOf(e, d).oid.value)
  }

  /** A commit belongs to a finished call, which reports it or lost the reply. */
  ghost predicate AuthorOk(e: Engine, cm: Commit) {
    && cm.call in e.calls
    && (e.calls[cm.call].stage == Finished(Success(cm.tx, false)) || e.calls[cm.call].stage == Finished(Failed))
    && Answers(e.calls[cm.call].req, cm.tx)
  }

  ghost predicate AuthorsOk(e: Engine) {
    && (forall i :: 0 <= i < |e.commits| ==> AuthorOk(e, e.commits[i]))
    && (forall i, j :: 0 <= i < j < |e.commits| ==> e.commits[i].call != e.commits[j].call)
  }

  ghost predicate Inv(m: int, e: Engine) {
    && WalletsOk(e.wallets, e.commits)
    && CommitsOk(e.wallets, e.commits, e.nextOid)
    && Solvent(e.commits)
    && CallsOk(m, e)
    && LocksOk(e)
    && PendingOk(e)
    && AuthorsOk(e)
  }

  lemma InitInv(m: int)
    ensures Inv(m, INIT)
  {
  }

  // ---------- facts about plans ----------

  /** The UPDATEs go to different wallets, in increasing id order. */
  lemma PlanAscends(req: Request, own: Wallet, peer: Wallet)
    requires PairOk(req, own, peer)
    ensures var p := Plan(req, own, peer);
            forall i, j :: 0 <= i < j < |p| ==> Less(p[i].row.id.text, p[j].row.id.text) && p[i].row.id != p[j].row.id
  {
    LessIsTotal(own.id.text, peer.id.text);
    LessIsIrreflexive(own.id.text);
    if own.id.text == peer.id.text {
      assert own.id == peer.id;
    }
  }

  /** The transaction touches exactly the wallets its plan updates, by exactly those amounts. */
  lemma PlanCovers(req: Request, own: Wallet, peer: Wallet, id: Uuid, at: string, w: Uuid)
    requires PairOk(req, own, peer)
    ensures var p, tx := Plan(req, own, peer), TxFor(req, own, peer, id, at);
            && (Touches(tx, w) <==> exists i :: 0 <= i < |p| && p[i].row.id == w)
            && (forall i :: 0 <= i < |p| && p[i].row.id == w ==> Delta(tx, w) == p[i].delta)
  {
    var p, tx := Plan(req, own, peer), TxFor(req, own, peer, id, at);
    if Touches(tx, w) {
      if req.DepositReq? { assert p[0].row.id == w; }
      else if w == p[0].row.id {} else { assert p[1].row.id == w; }
    }
  }

  // ---------- an action that only moves call c (and its locks) along ----------

  ghost predicate LocksOfOthersKept(l: map<Uuid, CallId>, l': map<Uuid, CallId>, c: CallId) {
    && (forall w :: w in l && l[w] != c ==> w in l' && l'[w] == l[w])
    && (forall w :: w in l' && l'[w] != c ==> w in l && l'[w] == l[w])
  }

  lemma ReleaseKeepsOthers(l: map<Uuid, CallId>, c: CallId)
    ensures LocksOfOthersKept(l, Release(l, c), c)
    ensures forall w :: w in Release(l, c) ==> Release(l, c)[w] != c
  {
  }

  lemma CallKept(m: int, ws: map<Uuid, Wallet>, cs: seq<Commit>, next: nat, next': nat,
                 l: map<Uuid, CallId>, l': map<Uuid, CallId>, c: CallId, d: CallId, call: Call)
    requires CallOk(m, ws, cs, next, l, d, call)
    requires next <= next' && d != c && LocksOfOthersKept(l, l', c)
    ensures CallOk(m, ws, cs, next', l', d, call)
  {
  }

  /** Only call c, its locks and the id sequence may differ. */
  ghost predicate OnlyCall(e: Engine, e': Engine, c: CallId, call: Call) {
    && e'.wallets == e.wallets && e'.commits == e.commits && e.nextOid <= e'.nextOid
    && e'.calls == e.calls[c := call]
    && LocksOfOthersKept(e.locks, e'.locks, c)
    && (c in e.calls ==> !e.calls[c].stage.Finished?)
  }

  /** The uncommitted rows of c clash with those of no other call. */
  ghost predicate PendingApart(e: Engine, c: CallId, k: Work) {
    && (k.tx.Some? ==>
          (forall d :: d in e.calls && d != c && HasTx(e, d) ==> WorkOf(e, d).tx.value.id != k.tx.value.id))
    && (k.oid.Some? ==>
          (forall d :: d in e.calls && d != c && HasOid(e, d) ==> WorkOf(e, d).oid.value != k.oid.value))
  }

  lemma StepKeepsCalls(m: int, e: Engine, e': Engine, c: CallId, call: Call)
    requires CallsOk(m, e) && OnlyCall(e, e', c, call)
    requires CallOk(m, e'.wallets, e'.commits, e'.nextOid, e'.locks, c, call)
    ensures CallsOk(m, e')
  {
    forall d | d in e'.calls ensures CallOk(m, e'.wallets, e'.commits, e'.nextOid, e'.locks, d, e'.calls[d]) {
      if d != c {
        CallKept(m, e.wallets, e.commits, e.nextOid, e'.nextOid, e.locks, e'.locks, c, d, e.calls[d]);
      }
    }
  }

  lemma StepKeepsLocks(e: Engine, e': Engine, c: CallId, call: Call)
    requires LocksOk(e) && OnlyCall(e, e', c, call)
    requires forall w :: w in e'.locks && e'.locks[w] == c ==> Holds(e', c, w)
    ensures LocksOk(e')
  {
    forall w | w in e'.locks ensures Holds(e', e'.locks[w], w) {
      if e'.locks[w] != c {
        assert Holds(e, e.locks[w], w);
      }
    }
  }

  lemma StepKeepsPending(e: Engine, e': Engine, c: CallId, call: Call)
    requires PendingOk(e) && OnlyCall(e, e', c, call)
    requires call.stage.Working? ==> PendingApart(e, c, call.stage.work)
    ensures PendingOk(e')
  {
  }

  lemma StepKeepsAuthors(e: Engine, e': Engine, c: CallId, call: Call)
    requires AuthorsOk(e) && OnlyCall(e, e', c, call)
    ensures AuthorsOk(e')
  {
    forall i | 0 <= i < |e'.commits| ensures AuthorOk(e', e'.commits[i]) {
      assert AuthorOk(e, e.commits[i]);
    }
  }

  lemma StepKeeps(m: int, e: Engine, e': Engine, c: CallId, call: Call)
    requires Inv(m, e) && OnlyCall(e, e', c, call)
    requires CallOk(m, e'.wallets, e'.commits, e'.nextOid, e'.locks, c, call)
    requires forall w :: w in e'.locks && e'.locks[w] == c ==> Holds(e', c, w)
    requires call.stage.Working? ==> PendingApart(e, c, call.stage.work)
    ensures Inv(m, e')
  {
    StepKeepsCalls(m, e, e', c, call);
    StepKeepsLocks(e, e', c, call);
    StepKeepsPending(e, e', c, call);
    StepKeepsAuthors(e, e', c, call);
  }
}
