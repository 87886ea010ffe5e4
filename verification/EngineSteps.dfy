/** Every action of the engine keeps the invariant. */
module EngineSteps {
  import opened Types
  import opened Engine
  import opened EngineInvariant

  // ---------- ends of attempts ----------

  lemma FinishedCallOk(m: int, ws: map<Uuid, Wallet>, cs: seq<Commit>, next: nat, l: map<Uuid, CallId>,
                       l': map<Uuid, CallId>, c: CallId, call: Call, reply: Reply)
    requires CallOk(m, ws, cs, next, l, c, call)
    requires reply != TooMuchContention && ReplyOk(cs, call.req, reply)
    ensures CallOk(m, ws, cs, next, l', c, call.(stage := Finished(reply)))
  {
  }

  lemma FinishKeeps(m: int, e: Engine, c: CallId, reply: Reply)
    requires Inv(m, e) && c in e.calls && !e.calls[c].stage.Finished?
    requires reply != TooMuchContention && ReplyOk(e.commits, e.calls[c].req, reply)
    ensures Inv(m, Finish(e, c, reply))
  {
    var e' := Finish(e, c, reply);
    ReleaseKeepsOthers(e.locks, c);
    FinishedCallOk(m, e.wallets, e.commits, e.nextOid, e.locks, e'.locks, c, e.calls[c], reply);
    StepKeeps(m, e, e', c, e.calls[c].(stage := Finished(reply)));
  }

  lemma RetriedCallOk(m: int, ws: map<Uuid, Wallet>, cs: seq<Commit>, next: nat, l: map<Uuid, CallId>,
                      l': map<Uuid, CallId>, c: CallId, call: Call, blame: nat, unique: bool)
    requires CallOk(m, ws, cs, next, l, c, call) && call.stage.Working?
    requires Chargeable(ws, cs, c, call, Charge(call.since, blame, |cs|))
    requires unique ==> KeyUsed(cs, call.req.user, call.req.key)
    ensures CallOk(m, ws, cs, next, l', c,
                   call.(stage := BackingOff, charged := call.charged + [Charge(call.since, blame, |cs|)],
                         uniques := call.uniques + if unique then 1 else 0))
  {
  }

  lemma RetryKeeps(m: int, e: Engine, c: CallId, blame: nat, unique: bool)
    requires Inv(m, e) && IsWorking(e, c)
    requires Chargeable(e.wallets, e.commits, c, e.calls[c], Charge(e.calls[c].since, blame, |e.commits|))
    requires unique ==> KeyUsed(e.commits, e.calls[c].req.user, e.calls[c].req.key)
    ensures Inv(m, Retry(e, c, blame, unique))
  {
    var e' := Retry(e, c, blame, unique);
    ReleaseKeepsOthers(e.locks, c);
    RetriedCallOk(m, e.wallets, e.commits, e.nextOid, e.locks, e'.locks, c, e.calls[c], blame, unique);
    StepKeeps(m, e, e', c, e'.calls[c]);
  }

  // ---------- creating wallets ----------

  lemma CallKeptByCreate(m: int, ws: map<Uuid, Wallet>, ws': map<Uuid, Wallet>, cs: seq<Commit>, next: nat,
                         l: map<Uuid, CallId>, c: CallId, call: Call)
    requires CallOk(m, ws, cs, next, l, c, call)
    requires forall w :: w in ws ==> w in ws' && ws'[w] == ws[w]
    ensures CallOk(m, ws', cs, next, l, c, call)
  {
  }

  lemma CreateKeepsWallets(ws: map<Uuid, Wallet>, cs: seq<Commit>, next: nat, user: Uuid, id: Uuid)
    requires WalletsOk(ws, cs) && CommitsOk(ws, cs, next) && Canonical(id)
    requires id !in ws && forall w :: w in ws ==> ws[w].user != user
    ensures WalletsOk(ws[id := Wallet(id, user, 0, "USD", 0)], cs)
    ensures CommitsOk(ws[id := Wallet(id, user, 0, "USD", 0)], cs, next)
  {
    forall i | 0 <= i < |cs| ensures !Touches(cs[i].tx, id) {
      assert TxOk(ws, cs[i].tx);
    }
    NetOfUntouched(cs, id);
  }

  lemma CreateKeepsRest(e: Engine, e': Engine)
    requires LocksOk(e) && PendingOk(e) && AuthorsOk(e)
    requires e' == e.(wallets := e'.wallets)
    ensures LocksOk(e') && PendingOk(e') && AuthorsOk(e')
  {
    forall w | w in e'.locks ensures Holds(e', e'.locks[w], w) {
      assert Holds(e, e.locks[w], w);
    }
    forall i | 0 <= i < |e'.commits| ensures AuthorOk(e', e'.commits[i]) {
      assert AuthorOk(e, e.commits[i]);
    }
  }

  lemma CreateWalletKeeps(m: int, e: Engine, user: Uuid, id: Uuid)
    requires Inv(m, e) && CanCreateWallet(e, user, id)
    ensures Inv(m, DoCreateWallet(e, user, id))
  {
    if Free(e, user, id) {
      var e' := DoCreateWallet(e, user, id);
      CreateKeepsWallets(e.wallets, e.commits, e.nextOid, user, id);
      CreateKeepsRest(e, e');
      CreateKeepsCalls(m, e, e');
    }
  }

  lemma CreateKeepsCalls(m: int, e: Engine, e': Engine)
    requires CallsOk(m, e) && e' == e.(wallets := e'.wallets)
    requires forall w :: w in e.wallets ==> w in e'.wallets && e'.wallets[w] == e.wallets[w]
    ensures CallsOk(m, e')
  {
    forall c | c in e'.calls ensures CallOk(m, e'.wallets, e'.commits, e'.nextOid, e'.locks, c, e'.calls[c]) {
      CallKeptByCreate(m, e.wallets, e'.wallets, e.commits, e.nextOid, e.locks, c, e.calls[c]);
    }
  }

  // ---------- statements before the first UPDATE ----------

  lemma BeginKeeps(m: int, e: Engine, c: CallId, req: Request)
    requires Inv(m, e) && CanBegin(e, c, req)
    ensures Inv(m, DoBegin(m, e, c, req))
  {
    var e' := DoBegin(m, e, c, req);
    forall w | w in e'.locks ensures e'.locks[w] != c {
      assert Holds(e, e.locks[w], w);
    }
    StepKeeps(m, e, e', c, e'.calls[c]);
  }

  /** A step of a call that holds no rows and does not insert any. */
  lemma CallStepKeeps(m: int, e: Engine, c: CallId, call: Call)
    requires Inv(m, e) && c in e.calls && !IsWorking(e, c) && !e.calls[c].stage.Finished?
    requires CallOk(m, e.wallets, e.commits, e.nextOid, e.locks, c, call)
    requires call.stage.Working? ==> call.stage.work.tx.None? && call.stage.work.oid.None?
    ensures Inv(m, e.(calls := e.calls[c := call]))
  {
    var e' := e.(calls := e.calls[c := call]);
    forall w | w in e'.locks ensures e'.locks[w] != c {
      assert Holds(e, e.locks[w], w);
    }
    StepKeeps(m, e, e', c, call);
  }

  lemma GotoKeeps(m: int, e: Engine, c: CallId, stage: Stage)
    requires Inv(m, e) && c in e.calls && !IsWorking(e, c) && !e.calls[c].stage.Finished?
    requires var call := e.calls[c].(stage := stage);
             CallOk(m, e.wallets, e.commits, e.nextOid, e.locks, c, call)
    requires stage.Working? ==> stage.work.tx.None? && stage.work.oid.None?
    ensures Inv(m, Goto(e, c, stage))
  {
    CallStepKeeps(m, e, c, e.calls[c].(stage := stage));
  }

  lemma KeyLookedUp(m: int, e: Engine, c: CallId)
    requires CanFindKey(e, c, None) && CallOk(m, e.wallets, e.commits, e.nextOid, e.locks, c, e.calls[c])
    ensures CallOk(m, e.wallets, e.commits, e.nextOid, e.locks, c,
                   e.calls[c].(stage := ReadingOwn, since := |e.commits|))
  {
    assert e.commits[..|e.commits|] == e.commits;
  }

  lemma FindKeyKeeps(m: int, e: Engine, c: CallId, hit: Option<nat>)
    requires Inv(m, e) && CanFindKey(e, c, hit)
    ensures Inv(m, DoFindKey(e, c, hit))
  {
    var call := e.calls[c];
    assert CallOk(m, e.wallets, e.commits, e.nextOid, e.locks, c, call);
    if hit.Some? {
      var tx := e.commits[hit.value].tx;
      var reply := if SameRequest(call.req, tx) then Success(tx, true) else Rejected(IdempotencyConflict);
      FinishKeeps(m, e, c, reply);
    } else {
      assert e.commits[..|e.commits|] == e.commits;
      KeyLookedUp(m, e, c);
      CallStepKeeps(m, e, c, call.(stage := ReadingOwn, since := |e.commits|));
    }
  }

  lemma {:induction false} TouchedPrefix(cs: seq<Commit>, n: nat, w: Uuid)
    requires n <= |cs|
    ensures Touched(cs[..n], w) <= Touched(cs, w)
    decreases |cs|
  {
    if n < |cs| {
      assert cs[..|cs| - 1][..n] == cs[..n];
      TouchedPrefix(cs[..|cs| - 1], n, w);
    } else {
      assert cs[..n] == cs;
    }
  }

  /** A row read now satisfies ReadOk. */
  lemma FreshRead(e: Engine, since: nat, w: Uuid)
    requires WalletsOk(e.wallets, e.commits) && w in e.wallets && since <= |e.commits|
    ensures ReadOk(e.wallets, e.commits, since, e.wallets[w])
  {
    TouchedPrefix(e.commits, since, w);
    assert WalletOk(e.commits, w, e.wallets[w]);
  }

  lemma ReadOwnKeeps(m: int, e: Engine, c: CallId, row: Option<Uuid>)
    requires Inv(m, e) && CanReadOwn(e, c, row)
    ensures Inv(m, DoReadOwn(e, c, row))
  {
    var call := e.calls[c];
    assert CallOk(m, e.wallets, e.commits, e.nextOid, e.locks, c, call);
    if row.None? {
      FinishKeeps(m, e, c, Rejected(WalletNotFound));
    } else {
      FreshRead(e, call.since, row.value);
      var own := e.wallets[row.value];
      GotoKeeps(m, e, c,
        if call.req.DepositReq? then Working(Work(own, own, [], None, None)) else ReadingPeer(own));
    }
  }

  lemma ReadPeerKeeps(m: int, e: Engine, c: CallId)
    requires Inv(m, e) && CanReadPeer(e, c)
    ensures Inv(m, DoReadPeer(e, c))
  {
    assert CallOk(m, e.wallets, e.commits, e.nextOid, e.locks, c, e.calls[c]);
    var stage := PeerStage(m, e, c);
    if stage.Finished? {
      FinishKeeps(m, e, c, stage.reply);
    } else {
      GotoKeeps(m, e, c, stage);
    }
  }

  /** The stage the recipient's row and the checks lead to. */
  lemma PeerStage(m: int, e: Engine, c: CallId) returns (stage: Stage)
    requires CanReadPeer(e, c) && WalletsOk(e.wallets, e.commits)
    requires CallOk(m, e.wallets, e.commits, e.nextOid, e.locks, c, e.calls[c])
    ensures stage.Finished? ==> stage.reply.Rejected? && DoReadPeer(e, c) == Finish(e, c, stage.reply)
    ensures !stage.Finished? ==>
              && stage.Working? && stage.work.tx.None? && stage.work.oid.None?
              && DoReadPeer(e, c) == Goto(e, c, stage)
              && CallOk(m, e.wallets, e.commits, e.nextOid, e.locks, c, e.calls[c].(stage := stage))
  {
    stage := DoReadPeer(e, c).calls[c].stage;
    if stage.Finished? {
      PeerRejected(e, c);
    } else {
      PeerCallOk(m, e, c);
    }
  }

  lemma PeerRejected(e: Engine, c: CallId)
    requires CanReadPeer(e, c) && DoReadPeer(e, c).calls[c].stage.Finished?
    ensures var reply := DoReadPeer(e, c).calls[c].stage.reply;
            reply.Rejected? && DoReadPeer(e, c) == Finish(e, c, reply)
  {
  }

  lemma PeerCallOk(m: int, e: Engine, c: CallId)
    requires CanReadPeer(e, c) && WalletsOk(e.wallets, e.commits)
    requires CallOk(m, e.wallets, e.commits, e.nextOid, e.locks, c, e.calls[c])
    requires !DoReadPeer(e, c).calls[c].stage.Finished?
    ensures var call := e.calls[c];
            && call.req.to in e.wallets
            && DoReadPeer(e, c) == Goto(e, c, Working(Work(call.stage.own, e.wallets[call.req.to], [], None, None)))
            && CallOk(m, e.wallets, e.commits, e.nextOid, e.locks, c,
                 call.(stage := Working(Work(call.stage.own, e.wallets[call.req.to], [], None, None))))
  {
    FreshRead(e, e.calls[c].since, e.calls[c].req.to);
    assert WalletOk(e.commits, e.calls[c].req.to, e.wallets[e.calls[c].req.to]);
  }

  // ---------- UPDATE ----------

  lemma {:induction false} LastTouchAfter(cs: seq<Commit>, since: nat, w: Uuid, n: nat)
    requires since <= n <= |cs| && Touched(cs[..since], w) < Touched(cs[..n], w)
    ensures since <= LastTouchBelow(cs, w, n) < n && Touches(cs[LastTouchBelow(cs, w, n)].tx, w)
    decreases n
  {
    assert n > since;
    assert cs[..n][..n - 1] == cs[..n - 1];
    if !Touches(cs[n - 1].tx, w) {
      LastTouchAfter(cs, since, w, n - 1);
    }
  }

  /** The row an UPDATE expects is one the attempt read; a debit is covered by what it read. */
  lemma ExpectedRow(m: int, e: Engine, c: CallId)
    requires AtUpdate(e, c) && CallOk(m, e.wallets, e.commits, e.nextOid, e.locks, c, e.calls[c])
    ensures var w := NextWrite(e, c);
            && ReadOk(e.wallets, e.commits, e.calls[c].since, w.row)
            && WalletOfCall(e.wallets, e.calls[c].req, w.row.id)
            && (w.delta >= 0 || w.row.balance + w.delta >= 0)
  {
  }

  /** Zero rows matched: a commit of another call touched the wallet after this attempt began. */
  lemma StaleIsCharged(m: int, e: Engine, c: CallId)
    requires AtUpdate(e, c) && Stale(e, NextWrite(e, c))
    requires WalletsOk(e.wallets, e.commits) && AuthorsOk(e)
    requires CallOk(m, e.wallets, e.commits, e.nextOid, e.locks, c, e.calls[c])
    ensures var blame := LastTouch(e.commits, NextWrite(e, c).row.id);
            Chargeable(e.wallets, e.commits, c, e.calls[c], Charge(e.calls[c].since, blame, |e.commits|))
  {
    var since, r := e.calls[c].since, NextWrite(e, c).row;
    ExpectedRow(m, e, c);
    assert WalletOk(e.commits, r.id, e.wallets[r.id]);
    assert e.commits[..|e.commits|] == e.commits;
    LastTouchAfter(e.commits, since, r.id, |e.commits|);
    assert AuthorOk(e, e.commits[LastTouch(e.commits, r.id)]);
  }

  /** CHECK (balance_cents >= 0) never rejects an UPDATE whose version check passed. */
  lemma CheckNeverFires(m: int, e: Engine, c: CallId)
    requires AtUpdate(e, c) && !Stale(e, NextWrite(e, c))
    requires WalletsOk(e.wallets, e.commits)
    requires CallOk(m, e.wallets, e.commits, e.nextOid, e.locks, c, e.calls[c])
    ensures var w := NextWrite(e, c);
            e.wallets[w.row.id] == w.row && e.wallets[w.row.id].balance + w.delta >= 0
  {
    ExpectedRow(m, e, c);
    var id := NextWrite(e, c).row.id;
    assert WalletOk(e.commits, id, e.wallets[id]);
  }

  lemma UpdatedCallOk(m: int, e: Engine, c: CallId, row: Wallet)
    requires AtUpdate(e, c) && CallOk(m, e.wallets, e.commits, e.nextOid, e.locks, c, e.calls[c])
    requires row == Bump(NextWrite(e, c)) && 0 <= row.balance <= INT64_MAX
    requires var r := NextWrite(e, c).row; r.id in e.wallets && e.wallets[r.id] == r
    ensures var k := WorkOf(e, c);
            CallOk(m, e.wallets, e.commits, e.nextOid, e.locks[row.id := c], c,
                   e.calls[c].(stage := Working(k.(held := k.held + [row]))))
  {
    var k := WorkOf(e, c);
    var k' := k.(held := k.held + [row]);
    var locks' := e.locks[row.id := c];
    assert k.tx.None? && k.oid.None?;
    var plan := PlanOf(e, c);
    forall i | 0 <= i < |k'.held| ensures HeldOk(e.wallets, locks', c, plan[i], k'.held[i]) {
      if i < |k.held| {
        assert HeldOk(e.wallets, e.locks, c, plan[i], k.held[i]);
      }
    }
  }

  lemma UpdateKeeps(m: int, e: Engine, c: CallId)
    requires Inv(m, e) && CanUpdate(e, c)
    ensures Inv(m, DoUpdate(e, c))
  {
    var w := NextWrite(e, c);
    if Stale(e, w) {
      StaleIsCharged(m, e, c);
      RetryKeeps(m, e, c, LastTouch(e.commits, w.row.id), false);
    } else {
      CheckNeverFires(m, e, c);
      var row := Bump(w);
      if !InRange(row) {
        FinishKeeps(m, e, c, Failed);
      } else {
        UpdateGranted(m, e, c, row);
      }
    }
  }

  lemma HoldsMore(k: Work, row: Wallet, w: Uuid)
    requires w == row.id || HoldsRow(k, w)
    ensures HoldsRow(k.(held := k.held + [row]), w)
  {
    var k' := k.(held := k.held + [row]);
    if w == row.id {
      assert k'.held[|k.held|].id == w;
    } else {
      var i :| 0 <= i < |k.held| && k.held[i].id == w;
      assert k'.held[i].id == w;
    }
  }

  /** A session that goes on working: it may take the lock of one more row. */
  lemma WorkStepKeeps(m: int, e: Engine, c: CallId, k: Work, locks: map<Uuid, CallId>, next: nat)
    requires Inv(m, e) && IsWorking(e, c) && e.nextOid <= next
    requires LocksOfOthersKept(e.locks, locks, c) && PendingApart(e, c, k)
    requires forall w :: w in locks && locks[w] == c ==> HoldsRow(k, w)
    requires CallOk(m, e.wallets, e.commits, next, locks, c, e.calls[c].(stage := Working(k)))
    ensures Inv(m, Goto(e, c, Working(k)).(locks := locks, nextOid := next))
  {
    var e' := Goto(e, c, Working(k)).(locks := locks, nextOid := next);
    StepKeeps(m, e, e', c, e'.calls[c]);
  }

  /** Before its INSERTs a session has no uncommitted row that could clash. */
  lemma NothingPending(m: int, e: Engine, c: CallId)
    requires AtUpdate(e, c) && CallOk(m, e.wallets, e.commits, e.nextOid, e.locks, c, e.calls[c])
    ensures WorkOf(e, c).tx.None? && WorkOf(e, c).oid.None?
  {
  }

  lemma UpdateGranted(m: int, e: Engine, c: CallId, row: Wallet)
    requires Inv(m, e) && AtUpdate(e, c) && row.id !in e.locks
    requires row == Bump(NextWrite(e, c)) && InRange(row) && row.balance >= 0
    requires var r := NextWrite(e, c).row; r.id in e.wallets && e.wallets[r.id] == r
    ensures var k := WorkOf(e, c);
            Inv(m, Goto(e, c, Working(k.(held := k.held + [row]))).(locks := e.locks[row.id := c]))
  {
    var k := WorkOf(e, c);
    var k' := k.(held := k.held + [row]);
    var locks := e.locks[row.id := c];
    NothingPending(m, e, c);
    UpdatedCallOk(m, e, c, row);
    LockedRowHeld(e, c, row);
    WorkStepKeeps(m, e, c, k', locks, e.nextOid);
  }

  lemma LockedRowHeld(e: Engine, c: CallId, row: Wallet)
    requires LocksOk(e) && IsWorking(e, c) && row.id !in e.locks
    ensures var k' := WorkOf(e, c).(held := WorkOf(e, c).held + [row]);
            var locks := e.locks[row.id := c];
            && LocksOfOthersKept(e.locks, locks, c)
            && forall w :: w in locks && locks[w] == c ==> HoldsRow(k', w)
  {
    var k := WorkOf(e, c);
    var locks := e.locks[row.id := c];
    forall w | w in locks && locks[w] == c ensures HoldsRow(k.(held := k.held + [row]), w) {
      assert w != row.id ==> Holds(e, e.locks[w], w);
      HoldsMore(k, row, w);
    }
  }

  // ---------- INSERTs ----------

  lemma {:induction false} KeyIndexFinds(cs: seq<Commit>, user: Uuid, key: string, n: nat)
    requires n <= |cs|
    ensures var k := KeyIndex(cs, user, key, n);
            if k < |cs| then k < n && HasKey(cs[k], user, key)
            else forall i :: 0 <= i < n ==> !HasKey(cs[i], user, key)
  {
    if n > 0 && !HasKey(cs[n - 1], user, key) {
      KeyIndexFinds(cs, user, key, n - 1);
    }
  }

  /** A unique violation: the transaction that used the key committed after this attempt began,
      and it touched this user's wallet. */
  lemma UniqueIsCharged(m: int, e: Engine, c: CallId, k: nat)
    requires Inv(m, e) && IsWorking(e, c)
    requires k < |e.commits| && HasKey(e.commits[k], e.calls[c].req.user, e.calls[c].req.key)
    ensures Chargeable(e.wallets, e.commits, c, e.calls[c], Charge(e.calls[c].since, k, |e.commits|))
    ensures KeyUsed(e.commits, e.calls[c].req.user, e.calls[c].req.key)
  {
    assert CallOk(m, e.wallets, e.commits, e.nextOid, e.locks, c, e.calls[c]);
    KeyMissedBefore(e.commits, e.calls[c], k);
    assert AuthorOk(e, e.commits[k]);
    assert TxOk(e.wallets, e.commits[k].tx);
  }

  lemma KeyMissedBefore(cs: seq<Commit>, call: Call, k: nat)
    requires call.since <= |cs| && KeyMissed(cs, call)
    requires k < |cs| && HasKey(cs[k], call.req.user, call.req.key)
    ensures call.since <= k
  {
    assert forall i :: 0 <= i < call.since ==> cs[..call.since][i] == cs[i];
  }

  lemma InsertedCallOk(m: int, e: Engine, c: CallId, id: Uuid, k: Work)
    requires AtInsertTx(e, c) && FreshTxId(e, id)
    requires CallOk(m, e.wallets, e.commits, e.nextOid, e.locks, c, e.calls[c])
    requires var req := e.calls[c].req;
             && !KeyUsed(e.commits, req.user, req.key)
             && k.tx.Some? && k == WorkOf(e, c).(tx := k.tx)
             && k.tx.value == TxFor(req, k.own, k.peer, id, k.tx.value.createdAt)
    ensures CallOk(m, e.wallets, e.commits, e.nextOid, e.locks, c, e.calls[c].(stage := Working(k)))
    ensures PendingApart(e, c, k)
  {
  }

  lemma OwnLocksHeld(e: Engine, c: CallId, k: Work)
    requires LocksOk(e) && IsWorking(e, c) && k.held == WorkOf(e, c).held
    ensures forall w :: w in e.locks && e.locks[w] == c ==> HoldsRow(k, w)
  {
    forall w | w in e.locks && e.locks[w] == c ensures HoldsRow(k, w) {
      assert Holds(e, e.locks[w], w);
      var i :| 0 <= i < |k.held| && WorkOf(e, c).held[i].id == w;
      assert k.held[i].id == w;
    }
  }

  lemma InsertTxKeeps(m: int, e: Engine, c: CallId, id: Uuid, at: string)
    requires Inv(m, e) && CanInsertTx(e, c, id)
    ensures Inv(m, DoInsertTx(e, c, id, at))
  {
    var req := e.calls[c].req;
    var k := KeyIndex(e.commits, req.user, req.key, |e.commits|);
    KeyIndexFinds(e.commits, req.user, req.key, |e.commits|);
    if k < |e.commits| {
      assert DoInsertTx(e, c, id, at) == Retry(e, c, k, true);
      UniqueIsCharged(m, e, c, k);
      RetryKeeps(m, e, c, k, true);
    } else {
      var work := WorkOf(e, c);
      var k' := work.(tx := Some(TxFor(req, work.own, work.peer, id, at)));
      assert DoInsertTx(e, c, id, at) == Goto(e, c, Working(k')).(locks := e.locks, nextOid := e.nextOid);
      InsertedCallOk(m, e, c, id, k');
      OwnLocksHeld(e, c, k');
      WorkStepKeeps(m, e, c, k', e.locks, e.nextOid);
    }
  }

  lemma OutboxCallOk(m: int, e: Engine, c: CallId)
    requires CanInsertOutbox(e, c) && CommitsOk(e.wallets, e.commits, e.nextOid)
    requires CallOk(m, e.wallets, e.commits, e.nextOid, e.locks, c, e.calls[c])
    ensures var k := WorkOf(e, c).(oid := Some(e.nextOid));
            CallOk(m, e.wallets, e.commits, e.nextOid + 1, e.locks, c, e.calls[c].(stage := Working(k)))
  {
  }

  lemma OutboxApart(m: int, e: Engine, c: CallId)
    requires CanInsertOutbox(e, c) && CallsOk(m, e) && PendingOk(e)
    ensures PendingApart(e, c, WorkOf(e, c).(oid := Some(e.nextOid)))
  {
    forall d | d in e.calls && d != c && HasOid(e, d) ensures WorkOf(e, d).oid.value != e.nextOid {
      assert CallOk(m, e.wallets, e.commits, e.nextOid, e.locks, d, e.calls[d]);
    }
  }

  lemma InsertOutboxKeeps(m: int, e: Engine, c: CallId)
    requires Inv(m, e) && CanInsertOutbox(e, c)
    ensures Inv(m, DoInsertOutbox(e, c))
  {
    var k := WorkOf(e, c).(oid := Some(e.nextOid));
    assert DoInsertOutbox(e, c) == Goto(e, c, Working(k)).(locks := e.locks, nextOid := e.nextOid + 1);
    OutboxCallOk(m, e, c);
    OutboxApart(m, e, c);
    OwnLocksHeld(e, c, k);
    WorkStepKeeps(m, e, c, k, e.locks, e.nextOid + 1);
  }

  // ---------- the retry loop ----------

  lemma ResumedCallOk(m: int, e: Engine, c: CallId)
    requires CanResume(e, c) && CallOk(m, e.wallets, e.commits, e.nextOid, e.locks, c, e.calls[c])
    ensures CallOk(m, e.wallets, e.commits, e.nextOid, e.locks, c, DoResume(m, e, c).calls[c])
    ensures DoResume(m, e, c) == e.(calls := e.calls[c := DoResume(m, e, c).calls[c]])
    ensures !DoResume(m, e, c).calls[c].stage.Working?
  {
  }

  lemma ResumeKeeps(m: int, e: Engine, c: CallId)
    requires Inv(m, e) && CanResume(e, c)
    ensures Inv(m, DoResume(m, e, c))
  {
    var e' := DoResume(m, e, c);
    ResumedCallOk(m, e, c);
    forall w | w in e'.locks ensures e'.locks[w] != c {
      assert Holds(e, e.locks[w], w);
    }
    StepKeeps(m, e, e', c, e'.calls[c]);
  }
}
