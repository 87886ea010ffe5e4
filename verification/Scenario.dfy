/** A run of the whole system with two deposits into one wallet, for results that need an example. */
module Scenario {
  import opened Types
  import opened Engine
  import opened EngineInvariant
  import EngineSteps
  import EngineCommit
  import opened EngineTheorems
  import U = Undisturbed
  import Bus
  import S = System
  import T = Theorems
  import World

  // ---------- sample values ----------

  function Sample(c: char): Uuid {
    Uuid(seq(36, i => if i == 8 || i == 13 || i == 18 || i == 23 then '-' else c))
  }

  lemma SamplesDiffer(c: char, d: char)
    requires c != d
    ensures Sample(c) != Sample(d)
  {
    assert Sample(c).text[0] == c && Sample(d).text[0] == d;
  }

  function SampleRequest(key: string): Request {
    DepositReq(Sample('a'), 1, key)
  }

  function SampleTx(id: Uuid, key: string): Tx {
    Tx(id, Sample('a'), DEPOSIT, None, Sample('b'), 1, key, "")
  }

  // ---------- engine runs inside the system ----------

  function Serves(es: seq<Action>): seq<S.Action> {
    seq(|es|, i requires 0 <= i < |es| => S.Serve(es[i]))
  }

  /** The bus when every commit's row is still unpublished. */
  ghost function Enqueued(cfg: Config, cs: seq<Commit>): Bus.Bus {
    if cs == [] then Bus.INIT else Bus.Enqueue(cfg, Enqueued(cfg, cs[..|cs| - 1]), cs[|cs| - 1])
  }

  lemma {:induction false} LiftRun(cfg: Config, s: S.State, es: seq<Action>)
    requires U.Legal(cfg.maxRetries, s.eng, es) && s.bus == Enqueued(cfg, s.eng.commits)
    ensures S.Legal(cfg, s, Serves(es))
    ensures var s' := S.Run(cfg, s, Serves(es));
            s'.eng == U.Run(cfg.maxRetries, s.eng, es) && s'.bus == Enqueued(cfg, s'.eng.commits) && s'.led == s.led
    decreases |es|
  {
    if es != [] {
      var t := S.Apply(cfg, s, S.Serve(es[0]));
      if es[0].CommitTx? {
        var cm := CommitRecord(s.eng, es[0].c);
        assert t.eng.commits == s.eng.commits + [cm] && (s.eng.commits + [cm])[..|s.eng.commits|] == s.eng.commits;
      } else {
        S.NoCommitNoChange(cfg.maxRetries, s.eng, es[0]);
      }
      LiftRun(cfg, t, es[1..]);
      assert Serves(es)[1..] == Serves(es[1..]);
    }
  }

  // ---------- one deposit ----------

  ghost predicate AllOver(e: Engine) {
    forall d :: d in e.calls ==> e.calls[d].stage.Finished?
  }

  /** The run keeps the invariant and touches no other call. */
  lemma {:induction false} OthersUntouched(m: int, e: Engine, c: CallId, req: Request, id: Uuid, at: string, es: seq<Action>)
    requires Inv(m, e) && U.Legal(m, e, es) && U.Statements(c, req, id, at, es)
    ensures Inv(m, U.Run(m, e, es))
    ensures var e' := U.Run(m, e, es);
            forall d :: d != c && d in e'.calls ==> d in e.calls && e'.calls[d] == e.calls[d]
    decreases |es|
  {
    if es != [] {
      var e1 := Apply(m, e, es[0]);
      EngineCommit.ActionKeeps(m, e, es[0]);
      forall d | d != c && d in e1.calls ensures d in e.calls && e1.calls[d] == e.calls[d] {
        World.OtherCallsKeep(m, e, es[0], d);
      }
      OthersUntouched(m, e1, c, req, id, at, es[1..]);
    }
  }

  lemma NobodyLocks(e: Engine)
    requires LocksOk(e) && AllOver(e)
    ensures e.locks == map[]
  {
    assert forall w :: w in e.locks ==> Holds(e, e.locks[w], w);
  }

  /** What the specification makes of the sample deposit. */
  lemma DepositOutcome(e: Engine, key: string, id: Uuid)
    requires WalletsOk(e.wallets, e.commits) && U.NewKey(e, SampleRequest(key))
    requires HasWallet(e)
    ensures var tx, out := SampleTx(id, key), Atomic(e.wallets, Txs(e.commits), SampleRequest(key), id, "");
            out == Moved(EngineCommit.Posted(e.wallets, tx), Txs(e.commits) + [tx], tx) && U.Fits(out)
  {
    var own := e.wallets[Sample('b')];
    assert WalletOk(e.commits, Sample('b'), own);
    U.MoveOf(e, SampleRequest(key), own, own, id, "");
  }

  lemma OneDeposit(m: int, e: Engine, c: CallId, key: string, id: Uuid) returns (es: seq<Action>)
    requires Inv(m, e) && m >= 1 && CanBegin(e, c, SampleRequest(key)) && AllOver(e)
    requires U.NewKey(e, SampleRequest(key)) && FreshTxId(e, id)
    requires HasWallet(e)
    ensures U.Legal(m, e, es)
    ensures var e', tx := U.Run(m, e, es), SampleTx(id, key);
            && Inv(m, e') && AllOver(e') && e'.calls.Keys <= e.calls.Keys + {c}
            && e'.wallets == EngineCommit.Posted(e.wallets, tx) && Txs(e'.commits) == Txs(e.commits) + [tx]
  {
    NobodyLocks(e);
    DepositOutcome(e, key, id);
    es := U.SomeRunConcludes(m, e, c, SampleRequest(key), id, "");
    OthersUntouched(m, e, c, SampleRequest(key), id, "", es);
    DepositSettled(e, U.Run(m, e, es), c, key, id);
  }

  lemma DepositSettled(e: Engine, e': Engine, c: CallId, key: string, id: Uuid)
    requires var out := Atomic(e.wallets, Txs(e.commits), SampleRequest(key), id, "");
             var tx := SampleTx(id, key);
             && U.Settles(e, e', c, out) && U.Fits(out)
             && out == Moved(EngineCommit.Posted(e.wallets, tx), Txs(e.commits) + [tx], tx)
    requires AllOver(e) && forall d :: d != c && d in e'.calls ==> d in e.calls && e'.calls[d] == e.calls[d]
    ensures AllOver(e') && e'.calls.Keys <= e.calls.Keys + {c}
    ensures e'.wallets == EngineCommit.Posted(e.wallets, SampleTx(id, key))
    ensures Txs(e'.commits) == Txs(e.commits) + [SampleTx(id, key)]
  {
  }

  // ---------- two deposits ----------

  ghost function Opened(): Engine {
    DoCreateWallet(INIT, Sample('a'), Sample('b'))
  }

  /** The wallet holds no more than one deposit. */
  ghost predicate HasWallet(e: Engine) {
    var w := Sample('b');
    w in e.wallets && e.wallets[w].user == Sample('a') && e.wallets[w].balance <= 1 && e.wallets[w].version <= 1
  }

  /** The wallet is open, and the first deposit has been made. */
  ghost predicate FirstMade(m: int, e: Engine) {
    && Inv(m, e) && AllOver(e) && 1 !in e.calls && HasWallet(e)
    && Txs(e.commits) == [SampleTx(Sample('c'), "x")]
  }

  lemma OpenedFacts(m: int)
    ensures CanCreateWallet(INIT, Sample('a'), Sample('b')) && Inv(m, Opened()) && HasWallet(Opened())
    ensures Opened().commits == [] && Opened().calls == map[]
    ensures U.NewKey(Opened(), SampleRequest("x")) && FreshTxId(Opened(), Sample('c'))
  {
    InitInv(m);
    EngineSteps.CreateWalletKeeps(m, INIT, Sample('a'), Sample('b'));
  }

  lemma FirstDeposit(m: int) returns (es: seq<Action>)
    requires m >= 1
    ensures CanCreateWallet(INIT, Sample('a'), Sample('b')) && U.Legal(m, Opened(), es)
    ensures FirstMade(m, U.Run(m, Opened(), es))
  {
    OpenedFacts(m);
    es := OneDeposit(m, Opened(), 0, "x", Sample('c'));
    FirstLeaves(U.Run(m, Opened(), es));
  }

  lemma SecondIsNew(e: Engine)
    requires AllOver(e) && Txs(e.commits) == [SampleTx(Sample('c'), "x")]
    ensures U.NewKey(e, SampleRequest("y")) && FreshTxId(e, Sample('d')) && ValidRequest(SampleRequest("y"))
  {
    SamplesDiffer('c', 'd');
    assert |e.commits| == 1 && e.commits[0].tx == Txs(e.commits)[0];
    assert "x"[0] != "y"[0];
  }

  lemma FirstLeaves(e: Engine)
    requires e.wallets == EngineCommit.Posted(Opened().wallets, SampleTx(Sample('c'), "x"))
    ensures HasWallet(e)
  {
  }

  lemma SecondDeposit(m: int, e: Engine) returns (es: seq<Action>)
    requires m >= 1 && FirstMade(m, e)
    ensures U.Legal(m, e, es)
    ensures var e' := U.Run(m, e, es);
            Inv(m, e') && Txs(e'.commits) == [SampleTx(Sample('c'), "x"), SampleTx(Sample('d'), "y")]
  {
    SecondIsNew(e);
    es := OneDeposit(m, e, 1, "y", Sample('d'));
    assert [SampleTx(Sample('c'), "x")] + [SampleTx(Sample('d'), "y")] == [SampleTx(Sample('c'), "x"), SampleTx(Sample('d'), "y")];
  }

  /** Two commits on one wallet, both rows unpublished and nothing in the log yet. */
  ghost predicate TwoPending(cfg: Config, s: S.State) {
    && |s.eng.commits| == 2 && s.bus == Enqueued(cfg, s.eng.commits)
    && s.eng.commits[0].tx == SampleTx(Sample('c'), "x") && s.eng.commits[1].tx == SampleTx(Sample('d'), "y")
  }

  lemma EngineDeposits(m: int) returns (es: seq<Action>)
    requires m >= 1
    ensures U.Legal(m, INIT, es)
    ensures Txs(U.Run(m, INIT, es).commits) == [SampleTx(Sample('c'), "x"), SampleTx(Sample('d'), "y")]
  {
    var first := FirstDeposit(m);
    var second := SecondDeposit(m, U.Run(m, Opened(), first));
    U.RunAppends(m, Opened(), first, second);
    es := [CreateWallet(Sample('a'), Sample('b'))] + (first + second);
    assert es[1..] == first + second;
  }

  lemma TwoDeposits(n: int, hash: T.Hash) returns (acts: seq<S.Action>)
    requires n >= 1
    ensures S.Legal(T.Deployed(n, hash), S.INIT, acts) && TwoPending(T.Deployed(n, hash), T.After(n, hash, acts))
    ensures forall i :: 0 <= i < |acts| ==> acts[i].Serve?
  {
    var es := EngineDeposits(n);
    LiftRun(T.Deployed(n, hash), S.INIT, es);
    acts := Serves(es);
    var cs := U.Run(n, INIT, es).commits;
    assert cs[0].tx == Txs(cs)[0] && cs[1].tx == Txs(cs)[1];
  }
}
