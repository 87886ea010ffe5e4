/** Every business error has its cause: what the call was refused for was true of the committed rows
    while the call ran, whatever other calls were doing. */
module Refusals {
  import opened Types
  import opened Engine
  import opened EngineInvariant
  import EngineCommit
  import S = System
  import T = Theorems
  import World

  // ---------- causes ----------

  /** The user's own wallet. */
  ghost predicate Owns(ws: map<Uuid, Wallet>, user: Uuid, w: Uuid) {
    w in ws && ws[w].user == user
  }

  /** After the first n commits the wallet held less than the amount. */
  ghost predicate ShortAt(cs: seq<Commit>, w: Uuid, amount: int, n: nat) {
    n <= |cs| && Net(cs[..n], w) < amount
  }

  /** Why a call with this request, begun after `start` commits on the wallet table `known`, is refused. */
  ghost predicate Caused(ws: map<Uuid, Wallet>, cs: seq<Commit>, req: Request, start: nat, known: map<Uuid, Wallet>,
                         error: BusinessError)
  {
    match error
    case WalletNotFound => forall w :: w in known ==> known[w].user != req.user
    case PeerNotFound => req.TransferReq? && req.to !in known
    case SameWallet => req.TransferReq? && Owns(ws, req.user, req.to)
    case CurrencyMismatch =>
      && req.TransferReq? && req.to in ws
      && exists w :: Owns(ws, req.user, w) && w != req.to && ws[w].currency != ws[req.to].currency
    case InsufficientFunds =>
      && req.TransferReq? && req.to in ws
      && exists w, n :: Owns(ws, req.user, w) && w != req.to && start <= n && ShortAt(cs, w, req.amount, n)
    case IdempotencyConflict =>
      exists i :: 0 <= i < |cs| && cs[i].tx.user == req.user && cs[i].tx.key == req.key && !Answers(req, cs[i].tx)
  }

  // ---------- the invariant ----------

  /** The row was current after n commits, not before the call began. */
  ghost predicate ReadAt(cs: seq<Commit>, start: nat, own: Wallet, n: nat) {
    start <= n <= |cs| && own.balance == Net(cs[..n], own.id)
  }

  ghost predicate CallFine(ws: map<Uuid, Wallet>, cs: seq<Commit>, call: Call) {
    && (forall w :: w in call.known ==> w in ws && ws[w].user == call.known[w].user)
    && (call.stage.ReadingPeer? ==> exists n :: ReadAt(cs, call.start, call.stage.own, n))
    && (call.stage.Finished? && call.stage.reply.Rejected? ==>
          Caused(ws, cs, call.req, call.start, call.known, call.stage.reply.error))
  }

  ghost predicate AllFine(e: Engine) {
    forall c :: c in e.calls ==> CallFine(e.wallets, e.commits, e.calls[c])
  }

  /** Rows keep their user and currency, and commits are appended. */
  ghost predicate TablesGrew(ws: map<Uuid, Wallet>, cs: seq<Commit>, ws': map<Uuid, Wallet>, cs': seq<Commit>) {
    && (forall w :: w in ws ==> w in ws' && ws'[w].user == ws[w].user && ws'[w].currency == ws[w].currency)
    && cs <= cs'
  }

  lemma ShortStays(cs: seq<Commit>, cs': seq<Commit>, w: Uuid, amount: int, n: nat)
    requires ShortAt(cs, w, amount, n) && cs <= cs'
    ensures ShortAt(cs', w, amount, n)
  {
    assert cs'[..n] == cs[..n];
  }

  lemma CauseStays(ws: map<Uuid, Wallet>, cs: seq<Commit>, ws': map<Uuid, Wallet>, cs': seq<Commit>, call: Call,
                   error: BusinessError)
    requires TablesGrew(ws, cs, ws', cs')
    requires Caused(ws, cs, call.req, call.start, call.known, error)
    ensures Caused(ws', cs', call.req, call.start, call.known, error)
  {
    match error
    case CurrencyMismatch =>
      var w :| Owns(ws, call.req.user, w) && w != call.req.to && ws[w].currency != ws[call.req.to].currency;
      assert Owns(ws', call.req.user, w);
    case InsufficientFunds =>
      var w, n: nat :| Owns(ws, call.req.user, w) && w != call.req.to && call.start <= n && ShortAt(cs, w, call.req.amount, n);
      assert Owns(ws', call.req.user, w);
      ShortStays(cs, cs', w, call.req.amount, n);
    case IdempotencyConflict =>
      var i :| 0 <= i < |cs| && cs[i].tx.user == call.req.user && cs[i].tx.key == call.req.key && !Answers(call.req, cs[i].tx);
      assert cs'[i] == cs[i];
    case _ =>
  }

  lemma FineStays(ws: map<Uuid, Wallet>, cs: seq<Commit>, ws': map<Uuid, Wallet>, cs': seq<Commit>, call: Call)
    requires TablesGrew(ws, cs, ws', cs') && CallFine(ws, cs, call)
    ensures CallFine(ws', cs', call)
  {
    if call.stage.ReadingPeer? {
      var n: nat :| ReadAt(cs, call.start, call.stage.own, n);
      assert cs'[..n] == cs[..n];
      assert ReadAt(cs', call.start, call.stage.own, n);
    }
    if call.stage.Finished? && call.stage.reply.Rejected? {
      CauseStays(ws, cs, ws', cs', call, call.stage.reply.error);
    }
  }

  // ---------- the statements that refuse ----------

  lemma FoundKeyFine(e: Engine, c: CallId, hit: Option<nat>)
    requires CanFindKey(e, c, hit) && CallFine(e.wallets, e.commits, e.calls[c])
    ensures CallFine(e.wallets, e.commits, DoFindKey(e, c, hit).calls[c])
  {
  }

  lemma OwnFine(e: Engine, c: CallId, row: Option<Uuid>)
    requires CanReadOwn(e, c, row) && CallFine(e.wallets, e.commits, e.calls[c])
    requires WalletsOk(e.wallets, e.commits) && e.calls[c].start <= |e.commits|
    ensures CallFine(e.wallets, e.commits, DoReadOwn(e, c, row).calls[c])
  {
    if row.Some? {
      var own := e.wallets[row.value];
      assert WalletOk(e.commits, row.value, own);
      assert e.commits[..|e.commits|] == e.commits;
      assert ReadAt(e.commits, e.calls[c].start, own, |e.commits|);
    }
  }

  /** The user's balance, as read, is below the amount. */
  lemma ShortIsCaused(ws: map<Uuid, Wallet>, cs: seq<Commit>, call: Call, own: Wallet)
    requires call.req.TransferReq? && call.req.to in ws && Owns(ws, call.req.user, own.id) && own.id != call.req.to
    requires own.balance < call.req.amount && exists n :: ReadAt(cs, call.start, own, n)
    ensures Caused(ws, cs, call.req, call.start, call.known, InsufficientFunds)
  {
    var n: nat :| ReadAt(cs, call.start, own, n);
    assert Owns(ws, call.req.user, own.id) && ShortAt(cs, own.id, call.req.amount, n);
  }

  lemma CurrencyIsCaused(ws: map<Uuid, Wallet>, cs: seq<Commit>, call: Call, w: Uuid)
    requires call.req.TransferReq? && call.req.to in ws && Owns(ws, call.req.user, w) && w != call.req.to
    requires ws[w].currency != ws[call.req.to].currency
    ensures Caused(ws, cs, call.req, call.start, call.known, CurrencyMismatch)
  {
  }

  /** The checks on the recipient's row and the row read before. */
  lemma PeerFine(e: Engine, c: CallId)
    requires CanReadPeer(e, c) && CallFine(e.wallets, e.commits, e.calls[c])
    requires Owns(e.wallets, e.calls[c].req.user, e.calls[c].stage.own.id)
    requires e.wallets[e.calls[c].stage.own.id].currency == e.calls[c].stage.own.currency
    requires e.calls[c].req.to in e.wallets ==> e.wallets[e.calls[c].req.to].id == e.calls[c].req.to
    ensures CallFine(e.wallets, e.commits, DoReadPeer(e, c).calls[c])
  {
    var call, own := e.calls[c], e.calls[c].stage.own;
    if call.req.to in e.wallets && own.id != call.req.to {
      if own.currency != e.wallets[call.req.to].currency {
        CurrencyIsCaused(e.wallets, e.commits, call, own.id);
      } else if own.balance < call.req.amount {
        ShortIsCaused(e.wallets, e.commits, call, own);
      }
    }
  }

  lemma PeerFineInCall(m: int, e: Engine, c: CallId)
    requires CanReadPeer(e, c) && CallFine(e.wallets, e.commits, e.calls[c]) && WalletsOk(e.wallets, e.commits)
    requires CallOk(m, e.wallets, e.commits, e.nextOid, e.locks, c, e.calls[c])
    ensures CallFine(e.wallets, e.commits, DoReadPeer(e, c).calls[c])
  {
    var to := e.calls[c].req.to;
    assert to in e.wallets ==> WalletOk(e.commits, to, e.wallets[to]);
    PeerFine(e, c);
  }

  /** The other statements refuse nothing. */
  lemma QuietFine(m: int, e: Engine, a: Action)
    requires Enabled(e, a) && !a.CreateWallet? && !a.FindKey? && !a.ReadOwn? && !a.ReadPeer? && !a.CommitTx?
    requires !a.Begin? ==> CallFine(e.wallets, e.commits, e.calls[a.c])
    ensures var e' := Apply(m, e, a); a.c in e'.calls && CallFine(e.wallets, e.commits, e'.calls[a.c])
  {
    match a
    case Update(c) =>
    case InsertTx(c, id, at) =>
    case _ =>
  }

  // ---------- every step keeps it ----------

  lemma CallStart(m: int, e: Engine, c: CallId)
    requires c in e.calls && CallOk(m, e.wallets, e.commits, e.nextOid, e.locks, c, e.calls[c])
    ensures e.calls[c].start <= |e.commits|
  {
  }

  lemma StatementFine(m: int, e: Engine, a: Action)
    requires Enabled(e, a) && !a.CreateWallet? && !a.CommitTx? && WalletsOk(e.wallets, e.commits)
    requires !a.Begin? ==> CallFine(e.wallets, e.commits, e.calls[a.c])
    requires !a.Begin? ==> CallOk(m, e.wallets, e.commits, e.nextOid, e.locks, a.c, e.calls[a.c])
    ensures var e' := Apply(m, e, a); a.c in e'.calls && CallFine(e.wallets, e.commits, e'.calls[a.c])
  {
    match a
    case FindKey(c, hit) => FoundKeyFine(e, c, hit);
    case ReadOwn(c, row) =>
      CallStart(m, e, c);
      OwnFine(e, c, row);
    case ReadPeer(c) => PeerFineInCall(m, e, c);
    case _ => QuietFine(m, e, a);
  }

  lemma CommitGrows(m: int, e: Engine, c: CallId, replyLost: bool)
    requires CanCommit(e, c) && WalletsOk(e.wallets, e.commits)
    requires CallOk(m, e.wallets, e.commits, e.nextOid, e.locks, c, e.calls[c])
    ensures var e' := DoCommit(e, c, replyLost); TablesGrew(e.wallets, e.commits, e'.wallets, e'.commits)
  {
    EngineCommit.CommitFacts(m, e, c);
    EngineCommit.InstallPosts(e.wallets, e.calls[c].req, WorkOf(e, c));
  }

  lemma NothingElseGrows(m: int, e: Engine, a: Action)
    requires Enabled(e, a) && !a.CommitTx?
    ensures var e' := Apply(m, e, a);
            && TablesGrew(e.wallets, e.commits, e'.wallets, e'.commits)
            && (!a.CreateWallet? ==> e'.wallets == e.wallets && e'.commits == e.commits)
  {
    match a
    case CreateWallet(user, id) => CreateGrows(e, user, id);
    case Update(d) =>
    case InsertTx(d, id, at) =>
    case ReadPeer(d) =>
    case _ =>
  }

  lemma CreateGrows(e: Engine, user: Uuid, id: Uuid)
    ensures var e' := DoCreateWallet(e, user, id); TablesGrew(e.wallets, e.commits, e'.wallets, e'.commits)
  {
  }

  lemma BystandersFine(m: int, e: Engine, a: Action, d: CallId)
    requires AllFine(e) && Enabled(e, a) && (a.CreateWallet? || a.c != d) && d in Apply(m, e, a).calls
    requires var e' := Apply(m, e, a); TablesGrew(e.wallets, e.commits, e'.wallets, e'.commits)
    ensures var e' := Apply(m, e, a); CallFine(e'.wallets, e'.commits, e'.calls[d])
  {
    var e' := Apply(m, e, a);
    World.OtherCallsKeep(m, e, a, d);
    FineStays(e.wallets, e.commits, e'.wallets, e'.commits, e.calls[d]);
  }

  lemma CommitterFine(e: Engine, c: CallId, replyLost: bool)
    requires CanCommit(e, c) && CallFine(e.wallets, e.commits, e.calls[c])
    requires var e' := DoCommit(e, c, replyLost); TablesGrew(e.wallets, e.commits, e'.wallets, e'.commits)
    ensures var e' := DoCommit(e, c, replyLost); CallFine(e'.wallets, e'.commits, e'.calls[c])
  {
  }

  lemma ActionFine(m: int, e: Engine, a: Action)
    requires WalletsOk(e.wallets, e.commits) && CallsOk(m, e) && AllFine(e) && Enabled(e, a)
    ensures AllFine(Apply(m, e, a))
  {
    var e' := Apply(m, e, a);
    if a.CommitTx? {
      assert CallOk(m, e.wallets, e.commits, e.nextOid, e.locks, a.c, e.calls[a.c]);
      CommitGrows(m, e, a.c, a.replyLost);
      CommitterFine(e, a.c, a.replyLost);
    } else {
      NothingElseGrows(m, e, a);
      if !a.CreateWallet? {
        StatementFine(m, e, a);
      }
    }
    forall d | d in e'.calls ensures CallFine(e'.wallets, e'.commits, e'.calls[d]) {
      if a.CreateWallet? || a.c != d {
        BystandersFine(m, e, a, d);
      }
    }
  }

  lemma {:induction false} RunFine(cfg: Config, s: S.State, acts: seq<S.Action>)
    requires Faithful(cfg) && S.Inv(cfg, s) && AllFine(s.eng) && S.Legal(cfg, s, acts)
    ensures AllFine(S.Run(cfg, s, acts).eng)
    decreases |acts|
  {
    if acts != [] {
      if acts[0].Serve? {
        ActionFine(cfg.maxRetries, s.eng, acts[0].w);
      }
      S.StepKeeps(cfg, s, acts[0]);
      RunFine(cfg, S.Apply(cfg, s, acts[0]), acts[1..]);
    }
  }

  lemma ReachableFine(cfg: Config, acts: seq<S.Action>)
    requires Faithful(cfg) && S.Legal(cfg, S.INIT, acts)
    ensures AllFine(S.Run(cfg, S.INIT, acts).eng)
  {
    S.InitInv(cfg);
    RunFine(cfg, S.INIT, acts);
  }

  // ---------- when a call began ----------

  /** Some action of the run begins the call, in a state with this many commits and this wallet table. */
  ghost predicate Began(cfg: Config, s: S.State, acts: seq<S.Action>, c: CallId, req: Request, start: nat, known: map<Uuid, Wallet>)
    requires S.Legal(cfg, s, acts)
    decreases |acts|
  {
    acts != [] &&
    if acts[0] == S.Serve(Begin(c, req)) then start == |s.eng.commits| && known == s.eng.wallets
    else Began(cfg, S.Apply(cfg, s, acts[0]), acts[1..], c, req, start, known)
  }

  /** No statement changes what the call records of its beginning. */
  lemma CallsKeepTheirStart(m: int, e: Engine, a: Action, c: CallId)
    requires Enabled(e, a) && c in e.calls
    ensures var e' := Apply(m, e, a);
            && c in e'.calls && e'.calls[c].req == e.calls[c].req
            && e'.calls[c].start == e.calls[c].start && e'.calls[c].known == e.calls[c].known
  {
    if a.CreateWallet? || a.c != c {
      World.OtherCallsKeep(m, e, a, c);
    } else {
      OwnCallKeepsStart(m, e, a);
    }
  }

  lemma OwnCallKeepsStart(m: int, e: Engine, a: Action)
    requires Enabled(e, a) && !a.CreateWallet? && !a.Begin?
    ensures var e' := Apply(m, e, a);
            && a.c in e'.calls && e'.calls[a.c].req == e.calls[a.c].req
            && e'.calls[a.c].start == e.calls[a.c].start && e'.calls[a.c].known == e.calls[a.c].known
  {
    match a
    case Update(d) =>
    case InsertTx(d, id, at) =>
    case ReadPeer(d) =>
    case CommitTx(d, replyLost) =>
    case _ =>
  }

  lemma OnlyBeginBegins(m: int, e: Engine, a: Action, c: CallId)
    requires Enabled(e, a) && c !in e.calls && c in Apply(m, e, a).calls
    ensures var call := Apply(m, e, a).calls[c];
            a == Begin(c, call.req) && call.start == |e.commits| && call.known == e.wallets
  {
    if a.CreateWallet? || a.c != c {
      World.OtherCallsKeep(m, e, a, c);
    }
  }

  lemma {:induction false} RunKeepsStart(cfg: Config, s: S.State, acts: seq<S.Action>, c: CallId)
    requires S.Legal(cfg, s, acts) && c in s.eng.calls
    ensures var e' := S.Run(cfg, s, acts).eng;
            && c in e'.calls && e'.calls[c].req == s.eng.calls[c].req
            && e'.calls[c].start == s.eng.calls[c].start && e'.calls[c].known == s.eng.calls[c].known
    decreases |acts|
  {
    if acts != [] {
      if acts[0].Serve? {
        CallsKeepTheirStart(cfg.maxRetries, s.eng, acts[0].w, c);
      }
      RunKeepsStart(cfg, S.Apply(cfg, s, acts[0]), acts[1..], c);
    }
  }

  lemma {:induction false} CallBegan(cfg: Config, s: S.State, acts: seq<S.Action>, c: CallId)
    requires S.Legal(cfg, s, acts) && c !in s.eng.calls && c in S.Run(cfg, s, acts).eng.calls
    ensures var call := S.Run(cfg, s, acts).eng.calls[c]; Began(cfg, s, acts, c, call.req, call.start, call.known)
    decreases |acts|
  {
    var t := S.Apply(cfg, s, acts[0]);
    if c in t.eng.calls {
      OnlyBeginBegins(cfg.maxRetries, s.eng, acts[0].w, c);
      RunKeepsStart(cfg, t, acts[1..], c);
    } else {
      CallBegan(cfg, t, acts[1..], c);
    }
  }

  /** Over every run, whatever ran alongside: a call that was refused was refused for a cause, stated on
      the tables as they were when it began and as they are now. */
  lemma RefusalsHaveCauses(n: int, hash: T.Hash, acts: seq<S.Action>, c: CallId, error: BusinessError)
    requires S.Legal(T.Deployed(n, hash), S.INIT, acts)
    requires var e := T.After(n, hash, acts).eng; c in e.calls && e.calls[c].stage == Finished(Rejected(error))
    ensures var e := T.After(n, hash, acts).eng;
            var call := e.calls[c];
            && Began(T.Deployed(n, hash), S.INIT, acts, c, call.req, call.start, call.known)
            && Caused(e.wallets, e.commits, call.req, call.start, call.known, error)
  {
    var cfg, e := T.Deployed(n, hash), T.After(n, hash, acts).eng;
    T.DeployedIsFaithful(n, hash);
    ReachableFine(cfg, acts);
    assert CallFine(e.wallets, e.commits, e.calls[c]);
    CallBegan(cfg, S.INIT, acts, c);
  }

  // ---------- one currency ----------

  ghost predicate AllDollars(e: Engine) {
    forall w :: w in e.wallets ==> e.wallets[w].currency == "USD"
  }

  lemma DollarsStay(m: int, e: Engine, a: Action)
    requires WalletsOk(e.wallets, e.commits) && CallsOk(m, e) && AllDollars(e) && Enabled(e, a)
    ensures AllDollars(Apply(m, e, a))
  {
    if a.CommitTx? {
      assert CallOk(m, e.wallets, e.commits, e.nextOid, e.locks, a.c, e.calls[a.c]);
      EngineCommit.CommitFacts(m, e, a.c);
      EngineCommit.InstallPosts(e.wallets, e.calls[a.c].req, WorkOf(e, a.c));
    } else if !a.CreateWallet? {
      NothingElseGrows(m, e, a);
    }
  }

  lemma {:induction false} DollarsInRuns(cfg: Config, s: S.State, acts: seq<S.Action>)
    requires Faithful(cfg) && S.Inv(cfg, s) && AllDollars(s.eng) && S.Legal(cfg, s, acts)
    ensures AllDollars(S.Run(cfg, s, acts).eng)
    decreases |acts|
  {
    if acts != [] {
      if acts[0].Serve? {
        DollarsStay(cfg.maxRetries, s.eng, acts[0].w);
      }
      S.StepKeeps(cfg, s, acts[0]);
      DollarsInRuns(cfg, S.Apply(cfg, s, acts[0]), acts[1..]);
    }
  }

  /** Every wallet there ever is holds US dollars, so no transfer is refused for its currency. */
  lemma CurrencyNeverDiffers(n: int, hash: T.Hash, acts: seq<S.Action>, c: CallId)
    requires S.Legal(T.Deployed(n, hash), S.INIT, acts) && c in T.After(n, hash, acts).eng.calls
    ensures var e := T.After(n, hash, acts).eng;
            && (forall w :: w in e.wallets ==> e.wallets[w].currency == "USD")
            && e.calls[c].stage != Finished(Rejected(CurrencyMismatch))
  {
    var cfg, e := T.Deployed(n, hash), T.After(n, hash, acts).eng;
    T.DeployedIsFaithful(n, hash);
    S.InitInv(cfg);
    DollarsInRuns(cfg, S.INIT, acts);
    if e.calls[c].stage == Finished(Rejected(CurrencyMismatch)) {
      RefusalsHaveCauses(n, hash, acts, c, CurrencyMismatch);
    }
  }
}
