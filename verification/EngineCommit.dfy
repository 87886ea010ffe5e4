/** COMMIT keeps the invariant: it posts exactly one transaction to exactly the locked rows. */
module EngineCommit {
  import opened Types
  import opened Engine
  import opened EngineInvariant
  import opened EngineSteps

  /** The wallet table after one transaction, all at once. */
  ghost function Posted(ws: map<Uuid, Wallet>, tx: Tx): map<Uuid, Wallet> {
    map w | w in ws ::
      if Touches(tx, w) then ws[w].(balance := ws[w].balance + Delta(tx, w), version := ws[w].version + 1)
      else ws[w]
  }

  lemma InstallTwo(ws: map<Uuid, Wallet>, rows: seq<Wallet>)
    requires 1 <= |rows| <= 2
    ensures Install(ws, rows) == if |rows| == 1 then ws[rows[0].id := rows[0]]
                                 else ws[rows[0].id := rows[0]][rows[1].id := rows[1]]
  {
    assert Install(ws, rows) == Install(ws[rows[0].id := rows[0]], rows[1..]);
    if |rows| == 2 {
      assert rows[1..][1..] == [];
    }
  }

  /** What is known of a session that is ready to commit. */
  ghost predicate Ready(ws: map<Uuid, Wallet>, req: Request, k: Work) {
    && k.tx.Some? && PairOk(req, k.own, k.peer)
    && k.tx.value == TxFor(req, k.own, k.peer, k.tx.value.id, k.tx.value.createdAt)
    && var plan := Plan(req, k.own, k.peer);
       && |k.held| == |plan|
       && forall i :: 0 <= i < |plan| ==>
            && k.held[i] == Bump(plan[i])
            && plan[i].row.id in ws && ws[plan[i].row.id] == plan[i].row
  }

  /** Installing the held rows posts the transaction: its wallets, its amounts, nothing else. */
  lemma InstallPosts(ws: map<Uuid, Wallet>, req: Request, k: Work)
    requires Ready(ws, req, k)
    ensures Install(ws, k.held) == Posted(ws, k.tx.value)
  {
    var plan, tx := Plan(req, k.own, k.peer), k.tx.value;
    InstallTwo(ws, k.held);
    PlanAscends(req, k.own, k.peer);
    var ws' := Install(ws, k.held);
    forall w | w in ws ensures ws'[w] == Posted(ws, tx)[w] {
      PlanCovers(req, k.own, k.peer, tx.id, tx.createdAt, w);
    }
    assert ws'.Keys == Posted(ws, tx).Keys;
  }

  lemma PostedWalletOk(ws: map<Uuid, Wallet>, cs: seq<Commit>, cm: Commit, w: Uuid)
    requires w in ws && WalletOk(cs, w, ws[w])
    requires 0 <= Posted(ws, cm.tx)[w].balance <= INT64_MAX
    ensures WalletOk(cs + [cm], w, Posted(ws, cm.tx)[w])
  {
    NetSnoc(cs, cm, w);
  }

  ghost predicate InBounds(ws: map<Uuid, Wallet>) {
    forall w :: w in ws ==> 0 <= ws[w].balance <= INT64_MAX
  }

  lemma PostedWalletsOk(ws: map<Uuid, Wallet>, cs: seq<Commit>, cm: Commit)
    requires WalletsOk(ws, cs) && InBounds(Posted(ws, cm.tx))
    ensures WalletsOk(Posted(ws, cm.tx), cs + [cm])
  {
    forall w | w in ws ensures WalletOk(cs + [cm], w, Posted(ws, cm.tx)[w]) {
      PostedWalletOk(ws, cs, cm, w);
    }
  }

  lemma PostedSolvent(ws: map<Uuid, Wallet>, cs: seq<Commit>, cm: Commit, next: nat)
    requires Solvent(cs) && CommitsOk(ws, cs, next) && TxOk(ws, cm.tx)
    requires WalletsOk(Posted(ws, cm.tx), cs + [cm])
    ensures Solvent(cs + [cm])
  {
    var cs' := cs + [cm];
    forall k, w | 0 <= k <= |cs'| ensures Net(cs'[..k], w) >= 0 {
      if k <= |cs| {
        assert cs'[..k] == cs[..k];
      } else {
        assert cs'[..k] == cs';
        if w in ws {
          assert WalletOk(cs', w, Posted(ws, cm.tx)[w]);
        } else {
          forall i | 0 <= i < |cs'| ensures !Touches(cs'[i].tx, w) {
            assert i < |cs| ==> TxOk(ws, cs[i].tx);
          }
          NetOfUntouched(cs', w);
        }
      }
    }
  }

  lemma PostedCommitsOk(ws: map<Uuid, Wallet>, cs: seq<Commit>, cm: Commit, next: nat)
    requires CommitsOk(ws, cs, next) && TxOk(ws, cm.tx) && cm.oid < next
    requires !IdUsed(cs, cm.tx.id) && !KeyUsed(cs, cm.tx.user, cm.tx.key)
    requires forall i :: 0 <= i < |cs| ==> cs[i].oid != cm.oid
    requires forall i :: 0 <= i < |cs| && ShareWallet(cs[i].tx, cm.tx) ==> cs[i].oid < cm.oid
    ensures CommitsOk(Posted(ws, cm.tx), cs + [cm], next)
  {
    var cs' := cs + [cm];
    forall i, j | 0 <= i < j < |cs'| ensures Distinct(cs'[i], cs'[j]) {
      if j == |cs| {
        assert cs[i].tx.id != cm.tx.id;
        assert !HasKey(cs[i], cm.tx.user, cm.tx.key);
      }
    }
  }

  /** The facts a committing session brings, from its own call invariant. */
  lemma CommitFacts(m: int, e: Engine, c: CallId)
    requires CanCommit(e, c) && WalletsOk(e.wallets, e.commits)
    requires CallOk(m, e.wallets, e.commits, e.nextOid, e.locks, c, e.calls[c])
    ensures var k := WorkOf(e, c);
            && Ready(e.wallets, e.calls[c].req, k)
            && TxOk(e.wallets, k.tx.value) && Answers(e.calls[c].req, k.tx.value)
  {
    var k := WorkOf(e, c);
    var plan := PlanOf(e, c);
    assert forall i :: 0 <= i < |plan| ==> HeldOk(e.wallets, e.locks, c, plan[i], k.held[i]);
    assert WalletOk(e.commits, k.own.id, e.wallets[k.own.id]);
    assert WalletOk(e.commits, k.peer.id, e.wallets[k.peer.id]);
  }

  lemma CommitInBounds(m: int, e: Engine, c: CallId)
    requires CanCommit(e, c) && WalletsOk(e.wallets, e.commits)
    requires CallOk(m, e.wallets, e.commits, e.nextOid, e.locks, c, e.calls[c])
    ensures InBounds(Posted(e.wallets, WorkOf(e, c).tx.value))
  {
    var k, req := WorkOf(e, c), e.calls[c].req;
    var plan, tx := PlanOf(e, c), k.tx.value;
    CommitFacts(m, e, c);
    forall w | w in e.wallets ensures 0 <= Posted(e.wallets, tx)[w].balance <= INT64_MAX {
      assert WalletOk(e.commits, w, e.wallets[w]);
      PlanCovers(req, k.own, k.peer, tx.id, tx.createdAt, w);
      if Touches(tx, w) {
        var i :| 0 <= i < |plan| && plan[i].row.id == w;
        assert HeldOk(e.wallets, e.locks, c, plan[i], k.held[i]);
      }
    }
  }

  /** Every wallet the transaction touches is locked by its call. */
  lemma TouchedIsLocked(m: int, e: Engine, c: CallId, w: Uuid)
    requires HasTx(e, c) && Touches(WorkOf(e, c).tx.value, w)
    requires CallOk(m, e.wallets, e.commits, e.nextOid, e.locks, c, e.calls[c])
    ensures w in e.locks && e.locks[w] == c
  {
    var k, req := WorkOf(e, c), e.calls[c].req;
    var plan, tx := PlanOf(e, c), k.tx.value;
    PlanCovers(req, k.own, k.peer, tx.id, tx.createdAt, w);
    var i :| 0 <= i < |plan| && plan[i].row.id == w;
    assert HeldOk(e.wallets, e.locks, c, plan[i], k.held[i]);
  }

  /** Two sessions with uncommitted transactions share no wallet, hence no user and no key. */
  lemma PendingDisjoint(m: int, e: Engine, c: CallId, d: CallId)
    requires c != d && HasTx(e, c) && HasTx(e, d) && WalletsOk(e.wallets, e.commits)
    requires CallOk(m, e.wallets, e.commits, e.nextOid, e.locks, c, e.calls[c])
    requires CallOk(m, e.wallets, e.commits, e.nextOid, e.locks, d, e.calls[d])
    ensures !ShareWallet(WorkOf(e, c).tx.value, WorkOf(e, d).tx.value)
    ensures e.calls[c].req.user != e.calls[d].req.user
  {
    var t, u := WorkOf(e, c).tx.value, WorkOf(e, d).tx.value;
    if ShareWallet(t, u) {
      var w := if Touches(t, u.to) then u.to else u.from.value;
      TouchedIsLocked(m, e, c, w);
      TouchedIsLocked(m, e, d, w);
      assert false;
    }
    if e.calls[c].req.user == e.calls[d].req.user {
      var v := WorkOf(e, c).own.id;
      assert v == WorkOf(e, d).own.id;
      TouchedIsLocked(m, e, c, v);
      TouchedIsLocked(m, e, d, v);
      assert false;
    }
  }

  // ---------- the other calls ----------

  lemma PrefixKept(cs: seq<Commit>, cm: Commit, n: nat)
    requires n <= |cs|
    ensures (cs + [cm])[..n] == cs[..n]
  {
  }

  lemma SnapshotKept(ws: map<Uuid, Wallet>, tx: Tx, r: Wallet)
    requires Snapshot(ws, r)
    ensures Snapshot(Posted(ws, tx), r)
  {
  }

  lemma ChargesKept(ws: map<Uuid, Wallet>, cs: seq<Commit>, cm: Commit, d: CallId, call: Call)
    requires ChargesOk(ws, cs, d, call)
    ensures ChargesOk(Posted(ws, cm.tx), cs + [cm], d, call)
  {
    forall k | 0 <= k < |call.charged| ensures Chargeable(Posted(ws, cm.tx), cs + [cm], d, call, call.charged[k]) {
      assert Chargeable(ws, cs, d, call, call.charged[k]);
    }
    if call.uniques == 1 {
      var i :| 0 <= i < |cs| && HasKey(cs[i], call.req.user, call.req.key);
      assert HasKey((cs + [cm])[i], call.req.user, call.req.key);
    }
  }

  /** The commit is none of this session's business: no shared wallet, user or id. */
  ghost predicate Apart(k: Work, req: Request, cm: Commit) {
    k.tx.Some? ==>
      && !ShareWallet(cm.tx, k.tx.value) && cm.tx.user != req.user
      && cm.tx.id != k.tx.value.id && (k.oid.Some? ==> cm.oid != k.oid.value)
  }

  lemma WorkKept(ws: map<Uuid, Wallet>, cs: seq<Commit>, cm: Commit, next: nat, l: map<Uuid, CallId>,
                 l': map<Uuid, CallId>, c: CallId, d: CallId, call: Call, k: Work)
    requires call.since <= |cs| && WorkOk(ws, cs, next, l, d, call, k)
    requires c != d && LocksOfOthersKept(l, l', c)
    requires forall w :: Touches(cm.tx, w) ==> w in l && l[w] == c
    requires Apart(k, call.req, cm)
    ensures WorkOk(Posted(ws, cm.tx), cs + [cm], next, l', d, call, k)
  {
    PrefixKept(cs, cm, call.since);
    SnapshotKept(ws, cm.tx, k.own);
    SnapshotKept(ws, cm.tx, k.peer);
    var plan := Plan(call.req, k.own, k.peer);
    forall i | 0 <= i < |k.held| ensures HeldOk(Posted(ws, cm.tx), l', d, plan[i], k.held[i]) {
      assert HeldOk(ws, l, d, plan[i], k.held[i]);
    }
  }

  lemma CallKeptByCommit(m: int, ws: map<Uuid, Wallet>, cs: seq<Commit>, cm: Commit, next: nat,
                         l: map<Uuid, CallId>, l': map<Uuid, CallId>, c: CallId, d: CallId, call: Call)
    requires CallOk(m, ws, cs, next, l, d, call)
    requires c != d && LocksOfOthersKept(l, l', c)
    requires forall w :: Touches(cm.tx, w) ==> w in l && l[w] == c
    requires call.stage.Working? ==> Apart(call.stage.work, call.req, cm)
    ensures CallOk(m, Posted(ws, cm.tx), cs + [cm], next, l', d, call)
  {
    ChargesKept(ws, cs, cm, d, call);
    PrefixKept(cs, cm, call.since);
    match call.stage
    case Working(k) => WorkKept(ws, cs, cm, next, l, l', c, d, call, k);
    case ReadingPeer(own) => SnapshotKept(ws, cm.tx, own);
    case Finished(reply) =>
      if reply.Success? {
        var i :| 0 <= i < |cs| && cs[i].tx == reply.tx;
        assert (cs + [cm])[i].tx == reply.tx;
      }
    case _ =>
  }

  lemma CommitterOk(m: int, e: Engine, c: CallId, replyLost: bool)
    requires CanCommit(e, c) && WalletsOk(e.wallets, e.commits)
    requires CallOk(m, e.wallets, e.commits, e.nextOid, e.locks, c, e.calls[c])
    ensures var cm := CommitRecord(e, c);
            CallOk(m, Posted(e.wallets, cm.tx), e.commits + [cm], e.nextOid, Release(e.locks, c), c,
                   e.calls[c].(stage := Finished(if replyLost then Failed else Success(cm.tx, false))))
  {
    var cm := CommitRecord(e, c);
    CommitFacts(m, e, c);
    ChargesKept(e.wallets, e.commits, cm, c, e.calls[c]);
    assert (e.commits + [cm])[|e.commits|].tx == cm.tx;
  }

  lemma BystanderOk(m: int, e: Engine, c: CallId, d: CallId, cm: Commit)
    requires CanCommit(e, c) && WalletsOk(e.wallets, e.commits) && PendingOk(e)
    requires cm == CommitRecord(e, c) && d in e.calls && d != c
    requires CallOk(m, e.wallets, e.commits, e.nextOid, e.locks, c, e.calls[c])
    requires CallOk(m, e.wallets, e.commits, e.nextOid, e.locks, d, e.calls[d])
    ensures CallOk(m, Posted(e.wallets, cm.tx), e.commits + [cm], e.nextOid, Release(e.locks, c), d, e.calls[d])
  {
    ReleaseKeepsOthers(e.locks, c);
    forall w | Touches(cm.tx, w) ensures w in e.locks && e.locks[w] == c {
      TouchedIsLocked(m, e, c, w);
    }
    if HasTx(e, d) {
      PendingDisjoint(m, e, c, d);
    }
    CommitFacts(m, e, c);
    CallKeptByCommit(m, e.wallets, e.commits, cm, e.nextOid, e.locks, Release(e.locks, c), c, d, e.calls[d]);
  }

  lemma CommitKeepsCalls(m: int, e: Engine, c: CallId, replyLost: bool, e': Engine)
    requires CanCommit(e, c) && WalletsOk(e.wallets, e.commits) && CallsOk(m, e) && PendingOk(e)
    requires e' == DoCommit(e, c, replyLost) && e'.wallets == Posted(e.wallets, CommitRecord(e, c).tx)
    ensures CallsOk(m, e')
  {
    forall d | d in e'.calls ensures CallOk(m, e'.wallets, e'.commits, e'.nextOid, e'.locks, d, e'.calls[d]) {
      if d == c {
        CommitterOk(m, e, c, replyLost);
      } else {
        BystanderOk(m, e, c, d, CommitRecord(e, c));
      }
    }
  }

  lemma CommitKeepsLocks(e: Engine, c: CallId, replyLost: bool, e': Engine)
    requires CanCommit(e, c) && LocksOk(e)
    requires e' == DoCommit(e, c, replyLost)
    ensures LocksOk(e')
  {
    ReleaseKeepsOthers(e.locks, c);
    forall w | w in e'.locks ensures Holds(e', e'.locks[w], w) {
      assert Holds(e, e.locks[w], w);
    }
  }

  lemma CommitKeepsPending(e: Engine, c: CallId, e': Engine, call: Call)
    requires PendingOk(e) && e'.calls == e.calls[c := call] && !call.stage.Working?
    ensures PendingOk(e')
  {
    assert forall d :: d in e'.calls && IsWorking(e', d) ==> d in e.calls && IsWorking(e, d) && WorkOf(e', d) == WorkOf(e, d);
  }

  lemma CommitKeepsAuthors(e: Engine, c: CallId, replyLost: bool, e': Engine)
    requires CanCommit(e, c) && AuthorsOk(e)
    requires e' == DoCommit(e, c, replyLost)
    requires Answers(e.calls[c].req, CommitRecord(e, c).tx)
    ensures AuthorsOk(e')
  {
    forall i | 0 <= i < |e'.commits| ensures AuthorOk(e', e'.commits[i]) {
      assert i < |e.commits| ==> AuthorOk(e, e.commits[i]);
    }
    forall i, j | 0 <= i < j < |e'.commits| ensures e'.commits[i].call != e'.commits[j].call {
      assert AuthorOk(e, e.commits[i]);
    }
  }

  lemma CommitKeepsTables(m: int, e: Engine, c: CallId, cm: Commit)
    requires CanCommit(e, c) && cm == CommitRecord(e, c)
    requires WalletsOk(e.wallets, e.commits) && CommitsOk(e.wallets, e.commits, e.nextOid) && Solvent(e.commits)
    requires CallOk(m, e.wallets, e.commits, e.nextOid, e.locks, c, e.calls[c])
    ensures WalletsOk(Posted(e.wallets, cm.tx), e.commits + [cm])
    ensures CommitsOk(Posted(e.wallets, cm.tx), e.commits + [cm], e.nextOid)
    ensures Solvent(e.commits + [cm])
  {
    CommitFacts(m, e, c);
    CommitInBounds(m, e, c);
    PostedWalletsOk(e.wallets, e.commits, cm);
    PostedSolvent(e.wallets, e.commits, cm, e.nextOid);
    PostedCommitsOk(e.wallets, e.commits, cm, e.nextOid);
  }

  lemma CommitKeeps(m: int, e: Engine, c: CallId, replyLost: bool)
    requires Inv(m, e) && CanCommit(e, c)
    ensures Inv(m, DoCommit(e, c, replyLost))
    ensures DoCommit(e, c, replyLost).wallets == Posted(e.wallets, CommitRecord(e, c).tx)
  {
    var e', cm := DoCommit(e, c, replyLost), CommitRecord(e, c);
    CommitFacts(m, e, c);
    InstallPosts(e.wallets, e.calls[c].req, WorkOf(e, c));
    CommitKeepsTables(m, e, c, cm);
    CommitKeepsCalls(m, e, c, replyLost, e');
    CommitKeepsLocks(e, c, replyLost, e');
    CommitKeepsPending(e, c, e', e'.calls[c]);
    CommitKeepsAuthors(e, c, replyLost, e');
  }

  // ---------- all actions ----------

  lemma ActionKeeps(m: int, e: Engine, a: Action)
    requires Inv(m, e) && Enabled(e, a)
    ensures Inv(m, Apply(m, e, a))
  {
    match a
    case CreateWallet(user, id) => CreateWalletKeeps(m, e, user, id);
    case Begin(c, req) => BeginKeeps(m, e, c, req);
    case FindKey(c, hit) => FindKeyKeeps(m, e, c, hit);
    case ReadOwn(c, row) => ReadOwnKeeps(m, e, c, row);
    case ReadPeer(c) => ReadPeerKeeps(m, e, c);
    case Update(c) => UpdateKeeps(m, e, c);
    case InsertTx(c, id, at) => InsertTxKeeps(m, e, c, id, at);
    case InsertOutbox(c) => InsertOutboxKeeps(m, e, c);
    case CommitTx(c, replyLost) => CommitKeeps(m, e, c, replyLost);
    case Fail(c) => FinishKeeps(m, e, c, Failed);
    case Resume(c) => ResumeKeeps(m, e, c);
  }
}
