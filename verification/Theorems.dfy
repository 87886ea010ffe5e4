/** The main results, each over every run of the whole system: any interleaving of calls, relays
    and consumers, with crashes, lost replies, partial and late appends, and redeliveries. */
module Theorems {
  import opened Types
  import opened Sums
  import Events
  import Engine
  import EngineInvariant
  import EngineSteps
  import EngineTheorems
  import Undisturbed
  import Bus
  import BusInvariant
  import Ledger
  import LedgerInvariant
  import opened Reports
  import opened System

  type Hash = (Topic, string) -> nat

  /** The system as deployed: the wallet's event payloads, the ledger's listener, any retry limit
      and any hash balancer. */
  function Deployed(maxRetries: int, hash: Hash): Config {
    Config(maxRetries, Events.Encode, Events.Decode, hash)
  }

  lemma DeployedIsFaithful(maxRetries: int, hash: Hash)
    ensures Faithful(Deployed(maxRetries, hash))
  {
    forall cm: Commit | TxShape(cm.tx) ensures Events.Decode(Events.Encode(cm)) == Valid(EntryOf(cm.tx)) {
      Events.DecodeEncode(cm);
    }
  }

  /** The state after a run. */
  ghost function After(n: int, hash: Hash, acts: seq<Action>): State
    requires Legal(Deployed(n, hash), INIT, acts)
  {
    Run(Deployed(n, hash), INIT, acts)
  }

  lemma AfterInv(n: int, hash: Hash, acts: seq<Action>)
    requires Legal(Deployed(n, hash), INIT, acts)
    ensures Inv(Deployed(n, hash), After(n, hash, acts))
  {
    DeployedIsFaithful(n, hash);
    Reachable(Deployed(n, hash), acts);
  }

  // ---------- wallet and ledger agree ----------

  lemma EventIdsDistinct(e: Engine.Engine)
    requires EngineInvariant.CommitsOk(e.wallets, e.commits, e.nextOid)
    ensures IdsDistinct(e.commits)
  {
    forall i, j | 0 <= i < j < |e.commits| ensures e.commits[i].tx.id.text != e.commits[j].tx.id.text {
      assert EngineInvariant.Distinct(e.commits[i], e.commits[j]);
    }
  }

  lemma BalanceSplits(e: Engine.Engine, journal: seq<Entry>, w: Uuid)
    requires EngineInvariant.WalletsOk(e.wallets, e.commits) && w in e.wallets
    requires IdsDistinct(e.commits) && LedgerInvariant.JournalOk(e.commits, journal)
    ensures e.wallets[w].balance == AccountBalance(journal, AccountOf(w)) + InFlight(e.commits, journal, w)
  {
    assert EngineInvariant.WalletOk(e.commits, w, e.wallets[w]);
    LedgerBalanceIsSettled(e.commits, journal, w);
    SettledPlusInFlight(e.commits, journal, w);
  }

  /** At every moment, a wallet's balance is its ledger balance plus the committed transactions
      whose event has not reached the journal yet. */
  lemma LedgerTracksWallets(n: int, hash: Hash, acts: seq<Action>, w: Uuid)
    requires Legal(Deployed(n, hash), INIT, acts)
    requires w in After(n, hash, acts).eng.wallets
    ensures var s := After(n, hash, acts);
            s.eng.wallets[w].balance
              == AccountBalance(s.led.journal, AccountOf(w)) + InFlight(s.eng.commits, s.led.journal, w)
  {
    AfterInv(n, hash, acts);
    var s := After(n, hash, acts);
    EventIdsDistinct(s.eng);
    BalanceSplits(s.eng, s.led.journal, w);
  }

  /** In every run, the reconciliation query lists exactly the wallets with committed transactions in
      flight that do not cancel out. */
  lemma DifferencesAreInFlight(n: int, hash: Hash, acts: seq<Action>, w: Uuid)
    requires Legal(Deployed(n, hash), INIT, acts)
    ensures var s := After(n, hash, acts);
            w in Differences(s.eng.wallets, s.led.journal) <==>
              w in s.eng.wallets && InFlight(s.eng.commits, s.led.journal, w) != 0
  {
    var s := After(n, hash, acts);
    if w in s.eng.wallets {
      LedgerTracksWallets(n, hash, acts, w);
      LedgerSideIs(s.led.journal, w);
    }
  }

  /** No unpublished outbox row, and the committed offset of every partition is its log end. */
  ghost predicate Drained(s: State) {
    && (forall id :: id in s.bus.outbox ==> s.bus.outbox[id].published)
    && (forall p :: p in s.bus.log ==> Ledger.OffsetOf(s.led, p) == |s.bus.log[p]|)
  }

  lemma DrainedIsSettled(cfg: Config, s: State, i: nat)
    requires Faithful(cfg) && Inv(cfg, s) && Drained(s) && i < |s.eng.commits|
    ensures IsSettled(s.led.journal, s.eng.commits[i])
  {
    var cm := s.eng.commits[i];
    var m := cfg.encode(cm);
    var p := PartitionFor(cfg, m);
    assert EngineInvariant.TxOk(s.eng.wallets, cm.tx);
    assert cfg.decode(m) == Valid(EntryOf(cm.tx));
    assert BusInvariant.NoLoss(cfg, s.eng.commits, s.bus);
    assert Bus.InLog(cfg, s.bus.log, m);
    var k :| 0 <= k < |s.bus.log[p]| && s.bus.log[p][k] == m;
    assert p in s.led.offsets;
    assert LedgerInvariant.DoneUpTo(cfg, s.bus.log, s.led.journal, p, s.led.offsets[p]);
    assert cfg.decode(Bus.LogOf(s.bus.log, p)[k]).entry.eventId == cm.tx.id.text;
  }

  lemma JournalBalances(cs: seq<Commit>, journal: seq<Entry>)
    requires LedgerInvariant.JournalOk(cs, journal)
    ensures forall i :: 0 <= i < |journal| ==> Ledger.Balanced(journal[i])
  {
    forall i | 0 <= i < |journal| ensures Ledger.Balanced(journal[i]) {
      LedgerInvariant.EntryIsBalanced(cs, journal[i]);
    }
  }

  lemma SettledSidesAgree(e: Engine.Engine, journal: seq<Entry>, w: Uuid)
    requires EngineInvariant.WalletsOk(e.wallets, e.commits) && w in e.wallets
    requires IdsDistinct(e.commits) && LedgerInvariant.JournalOk(e.commits, journal)
    requires forall i :: 0 <= i < |e.commits| ==> IsSettled(journal, e.commits[i])
    ensures e.wallets[w].balance == LedgerSide(journal, w)
  {
    BalanceSplits(e, journal, w);
    AllSettled(e.commits, journal, w);
    LedgerSideIs(journal, w);
  }

  lemma SettledCashAgrees(n: int, e: Engine.Engine, journal: seq<Entry>)
    requires EngineInvariant.Inv(n, e)
    requires IdsDistinct(e.commits) && LedgerInvariant.JournalOk(e.commits, journal)
    requires forall i :: 0 <= i < |e.commits| ==> IsSettled(journal, e.commits[i])
    ensures AccountBalance(journal, EXTERNAL_CASH) == -EngineTheorems.TotalBalance(e.wallets)
  {
    var any := Uuid("");
    LedgerBalanceIsSettled(e.commits, journal, any);
    AllSettled(e.commits, journal, any);
    EngineTheorems.MoneyIsConserved(n, e);
  }

  /** Once drained, both reconciliation queries return nothing, and external:cash is minus the
      sum of all wallet balances. */
  lemma DrainedReconciles(n: int, hash: Hash, acts: seq<Action>)
    requires Legal(Deployed(n, hash), INIT, acts) && Drained(After(n, hash, acts))
    ensures var s := After(n, hash, acts);
            && Differences(s.eng.wallets, s.led.journal) == {}
            && UnbalancedEntries(s.led.journal) == {}
            && AccountBalance(s.led.journal, EXTERNAL_CASH) == -EngineTheorems.TotalBalance(s.eng.wallets)
  {
    var cfg, s := Deployed(n, hash), After(n, hash, acts);
    AfterInv(n, hash, acts);
    DeployedIsFaithful(n, hash);
    EventIdsDistinct(s.eng);
    forall i | 0 <= i < |s.eng.commits| ensures IsSettled(s.led.journal, s.eng.commits[i]) {
      DrainedIsSettled(cfg, s, i);
    }
    forall w | w in s.eng.wallets ensures s.eng.wallets[w].balance == LedgerSide(s.led.journal, w) {
      SettledSidesAgree(s.eng, s.led.journal, w);
    }
    SettledCashAgrees(n, s.eng, s.led.journal);
    JournalBalances(s.eng.commits, s.led.journal);
  }

  // ---------- committed attempts are atomic moves, in commit order ----------

  /** Whatever interleaved with it, a COMMIT (reply lost or not) is one atomic deposit or transfer
      on the tables of that instant. */
  lemma EveryCommitIsAtomic(n: int, hash: Hash, acts: seq<Action>, c: Engine.CallId, replyLost: bool)
    requires Legal(Deployed(n, hash), INIT, acts) && Engine.CanCommit(After(n, hash, acts).eng, c)
    ensures var e := After(n, hash, acts).eng;
            var e', tx := Engine.DoCommit(e, c, replyLost), Engine.CommitRecord(e, c).tx;
            EngineTheorems.Atomic(e.wallets, EngineTheorems.Txs(e.commits), e.calls[c].req, tx.id, tx.createdAt)
              == EngineTheorems.Moved(e'.wallets, EngineTheorems.Txs(e'.commits), tx)
  {
    AfterInv(n, hash, acts);
    var e := After(n, hash, acts).eng;
    EngineTheorems.CommitRefinesAtomic(n, e, c, replyLost);
  }

  /** A key found again is answered as an atomic replay or conflict, and changes nothing. */
  lemma EveryReplayIsAtomic(n: int, hash: Hash, acts: seq<Action>, c: Engine.CallId, hit: nat, id: Uuid, at: string)
    requires Legal(Deployed(n, hash), INIT, acts) && Engine.CanFindKey(After(n, hash, acts).eng, c, Some(hit))
    ensures var e := After(n, hash, acts).eng;
            var e' := Engine.DoFindKey(e, c, Some(hit));
            && e'.wallets == e.wallets && e'.commits == e.commits
            && e'.calls[c].stage == Engine.Finished(
                 match EngineTheorems.Atomic(e.wallets, EngineTheorems.Txs(e.commits), e.calls[c].req, id, at)
                 case Replay(t) => Engine.Success(t, true)
                 case Refused(error) => Engine.Rejected(error)
                 case Moved(_, _, _) => Engine.Failed)
  {
    AfterInv(n, hash, acts);
    EngineTheorems.FoundKeyRefinesAtomic(After(n, hash, acts).eng, c, hit, id, at);
  }

  /** From every reachable state, for a call whose wallets are unlocked: every undisturbed run of it
      can be completed, and every completed one returned what the atomic specification returns (move,
      replay or refusal) and left what it leaves; a move whose rows do not fit their columns fails
      and changes nothing. */
  lemma UndisturbedCallIsAtomic(n: int, hash: Hash, acts: seq<Action>, c: Engine.CallId, req: Request, id: Uuid,
                                at: string, stmts: seq<Engine.Action>)
    requires Legal(Deployed(n, hash), INIT, acts) && n >= 1
    requires var e := After(n, hash, acts).eng;
             && Engine.CanBegin(e, c, req) && Engine.FreshTxId(e, id)
             && (forall w :: w in e.locks ==> !EngineInvariant.WalletOfCall(e.wallets, req, w))
             && Undisturbed.Legal(n, e, stmts) && Undisturbed.Statements(c, req, id, at, stmts)
    ensures var e := After(n, hash, acts).eng;
            var e' := Undisturbed.Run(n, e, stmts);
            && (exists full :: stmts <= full && Undisturbed.Concludes(n, e, full, c, req, id, at))
            && (Undisturbed.IsOver(e', c) ==>
                  Undisturbed.Settles(e, e', c,
                    EngineTheorems.Atomic(e.wallets, EngineTheorems.Txs(e.commits), req, id, at)))
  {
    AfterInv(n, hash, acts);
    Undisturbed.UndisturbedIsAtomic(n, After(n, hash, acts).eng, c, req, id, at, stmts);
  }

  /** Commit order is a serial order: replaying any number of commits overdraws no wallet, and
      replaying all of them gives exactly the stored balances and versions. */
  lemma CommitOrderIsSerial(n: int, hash: Hash, acts: seq<Action>, w: Uuid, k: nat)
    requires Legal(Deployed(n, hash), INIT, acts) && k <= |After(n, hash, acts).eng.commits|
    ensures var e := After(n, hash, acts).eng;
            && EngineInvariant.Net(e.commits[..k], w) >= 0
            && (w in e.wallets ==>
                  && e.wallets[w].balance == EngineInvariant.Net(e.commits, w)
                  && e.wallets[w].version == EngineInvariant.Touched(e.commits, w)
                  && 0 <= e.wallets[w].balance <= INT64_MAX)
  {
    AfterInv(n, hash, acts);
    var e := After(n, hash, acts).eng;
    assert w in e.wallets ==> EngineInvariant.WalletOk(e.commits, w, e.wallets[w]);
  }

  /** Transfers create and destroy nothing: all balances together are all deposits together. */
  lemma MoneyIsConserved(n: int, hash: Hash, acts: seq<Action>)
    requires Legal(Deployed(n, hash), INIT, acts)
    ensures var e := After(n, hash, acts).eng;
            EngineTheorems.TotalBalance(e.wallets) == EngineTheorems.Deposited(e.commits)
  {
    AfterInv(n, hash, acts);
    EngineTheorems.MoneyIsConserved(n, After(n, hash, acts).eng);
  }

  /** An UPDATE whose version check passed never fails CHECK (balance_cents >= 0): the row is
      still the row that was read. */
  lemma VersionCheckProtectsBalance(n: int, hash: Hash, acts: seq<Action>, c: Engine.CallId)
    requires Legal(Deployed(n, hash), INIT, acts) && Engine.AtUpdate(After(n, hash, acts).eng, c)
    requires !Engine.Stale(After(n, hash, acts).eng, Engine.NextWrite(After(n, hash, acts).eng, c))
    ensures var e := After(n, hash, acts).eng;
            var w := Engine.NextWrite(e, c);
            e.wallets[w.row.id] == w.row && e.wallets[w.row.id].balance + w.delta >= 0
  {
    AfterInv(n, hash, acts);
    EngineSteps.CheckNeverFires(n, After(n, hash, acts).eng, c);
  }

  // ---------- idempotency ----------

  /** At most one committed transaction per (user, key), whatever was resent, lost or raced. */
  lemma OneCommitPerKey(n: int, hash: Hash, acts: seq<Action>, i: nat, j: nat)
    requires Legal(Deployed(n, hash), INIT, acts) && i < j < |After(n, hash, acts).eng.commits|
    ensures var cs := After(n, hash, acts).eng.commits;
            !(cs[i].tx.user == cs[j].tx.user && cs[i].tx.key == cs[j].tx.key)
  {
    AfterInv(n, hash, acts);
    var cs := After(n, hash, acts).eng.commits;
    assert EngineInvariant.Distinct(cs[i], cs[j]);
  }

  /** All successful replies for one (user, key), original or replayed, return one and the same
      committed transaction, with the kind, amount and recipient each request asked for. */
  lemma SameKeySameReply(n: int, hash: Hash, acts: seq<Action>, c: Engine.CallId, d: Engine.CallId)
    requires Legal(Deployed(n, hash), INIT, acts)
    requires var e := After(n, hash, acts).eng;
             && Succeeded(e, c) && Succeeded(e, d)
             && e.calls[c].req.user == e.calls[d].req.user && e.calls[c].req.key == e.calls[d].req.key
    ensures var e := After(n, hash, acts).eng;
            && ReplyTx(e, c) == ReplyTx(e, d)
            && Answers(e.calls[c].req, ReplyTx(e, c)) && Answers(e.calls[d].req, ReplyTx(e, c))
            && exists i :: 0 <= i < |e.commits| && e.commits[i].tx == ReplyTx(e, c)
  {
    AfterInv(n, hash, acts);
    var e := After(n, hash, acts).eng;
    EngineTheorems.OneTransactionPerKey(n, e, c, d);
    assert EngineInvariant.CallOk(n, e.wallets, e.commits, e.nextOid, e.locks, c, e.calls[c]);
  }

  ghost predicate Succeeded(e: Engine.Engine, c: Engine.CallId) {
    c in e.calls && e.calls[c].stage.Finished? && e.calls[c].stage.reply.Success?
  }

  ghost function ReplyTx(e: Engine.Engine, c: Engine.CallId): Tx
    requires Succeeded(e, c)
  {
    e.calls[c].stage.reply.tx
  }

  /** A call that returned a business error or ErrTooMuchContention committed nothing. */
  lemma RefusedCallsMoveNothing(n: int, hash: Hash, acts: seq<Action>, c: Engine.CallId, i: nat)
    requires Legal(Deployed(n, hash), INIT, acts)
    requires var e := After(n, hash, acts).eng;
             && c in e.calls && i < |e.commits| && e.calls[c].stage.Finished?
             && (e.calls[c].stage.reply.Rejected? || e.calls[c].stage.reply.TooMuchContention?)
    ensures After(n, hash, acts).eng.commits[i].call != c
  {
    AfterInv(n, hash, acts);
    EngineTheorems.RefusalMovesNothing(n, After(n, hash, acts).eng, c, i);
  }

  // ---------- contention ----------

  /** ErrTooMuchContention: each of the maxRetries attempts is charged to a commit of another call on
      this call's wallets, made between that attempt's first read and its failure; at most one attempt
      failed on the unique key. */
  lemma ContentionIsReal(n: int, hash: Hash, acts: seq<Action>, c: Engine.CallId)
    requires Legal(Deployed(n, hash), INIT, acts)
    requires var e := After(n, hash, acts).eng;
             c in e.calls && e.calls[c].stage == Engine.Finished(Engine.TooMuchContention)
    ensures var e := After(n, hash, acts).eng;
            var call := e.calls[c];
            && |call.charged| == (if n < 0 then 0 else n)
            && (forall j, k :: 0 <= j < k < |call.charged| ==> call.charged[j].failed <= call.charged[k].since)
            && (forall k :: 0 <= k < |call.charged| ==>
                  EngineInvariant.Chargeable(e.wallets, e.commits, c, call, call.charged[k]))
            && call.uniques <= 1
  {
    AfterInv(n, hash, acts);
    EngineTheorems.ContentionIsReal(n, After(n, hash, acts).eng, c);
  }

  // ---------- deadlock freedom ----------

  /** No call can be on a cycle of calls that wait for each other's row locks. */
  lemma NoDeadlock(n: int, hash: Hash, acts: seq<Action>, path: seq<Engine.CallId>)
    requires Legal(Deployed(n, hash), INIT, acts)
    requires |path| >= 2 && EngineTheorems.WaitChain(After(n, hash, acts).eng, path)
    ensures path[0] != path[|path| - 1]
  {
    AfterInv(n, hash, acts);
    EngineTheorems.NoWaitCycle(n, After(n, hash, acts).eng, path);
  }

  /** An INSERT into wallet.transactions never waits at the unique index: no other session has an
      uncommitted transaction with the same user and key. */
  lemma NoUniqueIndexWait(n: int, hash: Hash, acts: seq<Action>, c: Engine.CallId, d: Engine.CallId)
    requires Legal(Deployed(n, hash), INIT, acts)
    requires Engine.AtInsertTx(After(n, hash, acts).eng, c) && d != c && Engine.HasTx(After(n, hash, acts).eng, d)
    ensures var e := After(n, hash, acts).eng;
            var tx := Engine.WorkOf(e, d).tx.value;
            !(tx.user == e.calls[c].req.user && tx.key == e.calls[c].req.key)
  {
    AfterInv(n, hash, acts);
    EngineTheorems.UniqueIndexNeverWaits(n, After(n, hash, acts).eng, c, d);
  }

  /** From every state, every unfinished call leads along the row locks to one that can take its next
      statement: the call itself, or the last of a chain of calls each waiting for the next. */
  lemma SomeCallCanStep(n: int, hash: Hash, acts: seq<Action>, c: Engine.CallId, id: Uuid, at: string)
    returns (path: seq<Engine.CallId>, a: Engine.Action)
    requires Legal(Deployed(n, hash), INIT, acts)
    requires var e := After(n, hash, acts).eng;
             c in e.calls && !e.calls[c].stage.Finished? && Engine.FreshTxId(e, id)
    ensures var e := After(n, hash, acts).eng;
            && path != [] && path[0] == c && EngineTheorems.WaitChain(e, path)
            && Engine.Enabled(e, a) && !a.Fail? && !a.CreateWallet? && a.c == path[|path| - 1]
  {
    AfterInv(n, hash, acts);
    var e := After(n, hash, acts).eng;
    path := [c];
    if Engine.Blocked(e, c) {
      path := EngineTheorems.SomeoneCanRun(n, e, c);
    }
    a := EngineTheorems.Progress(n, e, path[|path| - 1], id, at);
  }

  // ---------- the relay ----------

  /** Every committed transaction's event is in an unpublished outbox row or in the log, and every
      record in the log is the event of a committed transaction, in its key's partition. */
  lemma NoLossNoPhantom(n: int, hash: Hash, acts: seq<Action>)
    requires Legal(Deployed(n, hash), INIT, acts)
    ensures var s := After(n, hash, acts);
            var cfg := Deployed(n, hash);
            && (forall i :: 0 <= i < |s.eng.commits| ==>
                  || Bus.Unpublished(s.bus, s.eng.commits[i].oid)
                  || Bus.InLog(cfg, s.bus.log, cfg.encode(s.eng.commits[i])))
            && (forall p, k :: p in s.bus.log && 0 <= k < |s.bus.log[p]| ==>
                  && BusInvariant.Relayed(cfg, s.eng.commits, s.bus.log[p][k])
                  && p == PartitionFor(cfg, s.bus.log[p][k]))
  {
    AfterInv(n, hash, acts);
  }

  /** Transactions that share a wallet have outbox ids in commit order. */
  lemma OutboxIdsFollowCommits(n: int, hash: Hash, acts: seq<Action>, i: nat, j: nat)
    requires Legal(Deployed(n, hash), INIT, acts)
    requires i < j < |After(n, hash, acts).eng.commits|
    requires var cs := After(n, hash, acts).eng.commits; ShareWallet(cs[i].tx, cs[j].tx)
    ensures var cs := After(n, hash, acts).eng.commits; cs[i].oid < cs[j].oid
  {
    AfterInv(n, hash, acts);
  }

  // ---------- the ledger ----------

  /** However often it is delivered, an event has at most one entry, with exactly its own lines;
      every record below a committed offset has one; nothing relayed is dead-lettered. */
  lemma LedgerExactlyOnce(n: int, hash: Hash, acts: seq<Action>)
    requires Legal(Deployed(n, hash), INIT, acts)
    ensures var s := After(n, hash, acts);
            && (forall i, j :: 0 <= i < j < |s.led.journal| ==> s.led.journal[i].eventId != s.led.journal[j].eventId)
            && (forall i :: 0 <= i < |s.led.journal| ==> LedgerInvariant.EntryIs(s.eng.commits, s.led.journal[i]))
            && (forall p, k :: p in s.led.offsets && 0 <= k < s.led.offsets[p] ==>
                  && k < |Bus.LogOf(s.bus.log, p)|
                  && var parsed := Events.Decode(Bus.LogOf(s.bus.log, p)[k]);
                     parsed.Valid? && Ledger.Recorded(s.led.journal, parsed.entry.eventId))
            && s.led.dlq == []
  {
    AfterInv(n, hash, acts);
    var s := After(n, hash, acts);
    forall p, k | p in s.led.offsets && 0 <= k < s.led.offsets[p]
      ensures k < |Bus.LogOf(s.bus.log, p)|
      ensures var parsed := Events.Decode(Bus.LogOf(s.bus.log, p)[k]);
              parsed.Valid? && Ledger.Recorded(s.led.journal, parsed.entry.eventId)
    {
      assert LedgerInvariant.DoneUpTo(Deployed(n, hash), s.bus.log, s.led.journal, p, s.led.offsets[p]);
    }
  }

  /** Every entry balances, so the deferred trigger rejects none, and the account balances of the
      whole view sum to zero. */
  lemma DoubleEntry(n: int, hash: Hash, acts: seq<Action>)
    requires Legal(Deployed(n, hash), INIT, acts)
    ensures var s := After(n, hash, acts);
            && (forall i :: 0 <= i < |s.led.journal| ==>
                  Side(s.led.journal[i].lines, DEBIT) == Side(s.led.journal[i].lines, CREDIT))
            && (forall k :: Ledger.IsPosting(s.led, k) ==> Ledger.Balanced(s.led.consumers[k].stage.entry))
            && SumOf(Accounts(s.led.journal), a => AccountBalance(s.led.journal, a)) == 0
  {
    AfterInv(n, hash, acts);
    var s := After(n, hash, acts);
    JournalBalances(s.eng.commits, s.led.journal);
    forall i | 0 <= i < |s.led.journal|
      ensures Side(s.led.journal[i].lines, DEBIT) == Side(s.led.journal[i].lines, CREDIT)
    {
      UnbalancedAre(s.led.journal, i);
    }
    forall k | Ledger.IsPosting(s.led, k) ensures Ledger.Balanced(s.led.consumers[k].stage.entry) {
      assert LedgerInvariant.ConsumerOk(Deployed(n, hash), s.eng.commits, s.bus.log, s.led.journal, s.led.consumers[k]);
      LedgerInvariant.EntryIsBalanced(s.eng.commits, s.led.consumers[k].stage.entry);
    }
    AccountBalancesSum(Accounts(s.led.journal), s.led.journal);
  }

  /** Over any continuation of any state, entries, transactions and the log only grow. */
  lemma {:induction false} HistoryOnlyGrows(cfg: Config, s: State, acts: seq<Action>)
    requires Legal(cfg, s, acts)
    ensures var s' := Run(cfg, s, acts);
            && s.led.journal <= s'.led.journal
            && s.eng.commits <= s'.eng.commits
            && BusInvariant.LogGrew(s.bus.log, s'.bus.log)
    decreases |acts|
  {
    if acts != [] {
      var t := Apply(cfg, s, acts[0]);
      StepGrows(cfg, s, acts[0]);
      HistoryOnlyGrows(cfg, t, acts[1..]);
      var s' := Run(cfg, s, acts);
      forall p ensures Bus.LogOf(s.bus.log, p) <= Bus.LogOf(s'.bus.log, p) {
        assert Bus.LogOf(s.bus.log, p) <= Bus.LogOf(t.bus.log, p) <= Bus.LogOf(s'.bus.log, p);
      }
    }
  }

  lemma StepGrows(cfg: Config, s: State, a: Action)
    requires Enabled(cfg, s, a)
    ensures var s' := Apply(cfg, s, a);
            && s.led.journal <= s'.led.journal
            && s.eng.commits <= s'.eng.commits
            && BusInvariant.LogGrew(s.bus.log, s'.bus.log)
  {
    match a
    case Serve(w) =>
      if !w.CommitTx? {
        NoCommitNoChange(cfg.maxRetries, s.eng, w);
      }
    case Relay(r) => RelayGrowsLog(cfg, s.bus, s.eng.commits, r);
    case Book(b) => LedgerInvariant.JournalOnlyGrows(cfg, s.led, s.bus.log, b);
  }
}
