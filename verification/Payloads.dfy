/** The parts of the event payloads that the ledger does not read: whose wallets, which currency. */
module Payloads {
  import opened Types
  import opened Engine
  import EngineInvariant
  import EngineCommit
  import EngineTheorems
  import Events
  import S = System
  import T = Theorems

  /** The commit recorded the recipient's user and the currency of the wallets. */
  ghost predicate PartiesOk(ws: map<Uuid, Wallet>, cm: Commit) {
    && cm.tx.to in ws && ws[cm.tx.to].user == cm.peerUser && ws[cm.tx.to].currency == cm.currency
    && (cm.tx.from.Some? ==> cm.tx.from.value in ws && ws[cm.tx.from.value].currency == cm.currency)
  }

  ghost predicate AllParties(e: Engine) {
    forall i :: 0 <= i < |e.commits| ==> PartiesOk(e.wallets, e.commits[i])
  }

  lemma CommitNamesParties(m: int, e: Engine, c: CallId)
    requires CanCommit(e, c) && EngineInvariant.CallOk(m, e.wallets, e.commits, e.nextOid, e.locks, c, e.calls[c])
    ensures PartiesOk(e.wallets, CommitRecord(e, c))
  {
    EngineTheorems.ReadsStillCurrent(m, e, c);
  }

  lemma PostingKeepsParties(ws: map<Uuid, Wallet>, tx: Tx, cm: Commit)
    requires PartiesOk(ws, cm)
    ensures PartiesOk(EngineCommit.Posted(ws, tx), cm)
  {
  }

  lemma CommitKeepsParties(m: int, e: Engine, c: CallId, replyLost: bool)
    requires AllParties(e) && EngineInvariant.WalletsOk(e.wallets, e.commits) && CanCommit(e, c)
    requires EngineInvariant.CallOk(m, e.wallets, e.commits, e.nextOid, e.locks, c, e.calls[c])
    ensures AllParties(DoCommit(e, c, replyLost))
  {
    var e', cm := DoCommit(e, c, replyLost), CommitRecord(e, c);
    EngineCommit.CommitFacts(m, e, c);
    EngineCommit.InstallPosts(e.wallets, e.calls[c].req, WorkOf(e, c));
    CommitNamesParties(m, e, c);
    forall i | 0 <= i < |e'.commits| ensures PartiesOk(e'.wallets, e'.commits[i]) {
      PostingKeepsParties(e.wallets, cm.tx, e'.commits[i]);
    }
  }

  lemma ActionKeepsParties(m: int, e: Engine, a: Action)
    requires EngineInvariant.Inv(m, e) && AllParties(e) && Enabled(e, a)
    ensures AllParties(Apply(m, e, a))
  {
    if a.CommitTx? {
      assert EngineInvariant.CallOk(m, e.wallets, e.commits, e.nextOid, e.locks, a.c, e.calls[a.c]);
      CommitKeepsParties(m, e, a.c, a.replyLost);
    } else {
      RowsKept(m, e, a);
    }
  }

  /** Without a COMMIT, no row changes and no transaction appears. */
  lemma RowsKept(m: int, e: Engine, a: Action)
    requires Enabled(e, a) && !a.CommitTx?
    ensures var e' := Apply(m, e, a);
            e'.commits == e.commits && forall w :: w in e.wallets ==> w in e'.wallets && e'.wallets[w] == e.wallets[w]
  {
    match a
    case CreateWallet(user, id) =>
    case Update(d) =>
    case InsertTx(d, id, at) =>
    case ReadPeer(d) =>
    case _ =>
  }

  lemma {:induction false} RunKeepsParties(cfg: Config, s: S.State, acts: seq<S.Action>)
    requires Faithful(cfg) && S.Inv(cfg, s) && AllParties(s.eng) && S.Legal(cfg, s, acts)
    ensures AllParties(S.Run(cfg, s, acts).eng)
    decreases |acts|
  {
    if acts != [] {
      if acts[0].Serve? {
        ActionKeepsParties(cfg.maxRetries, s.eng, acts[0].w);
      }
      S.StepKeeps(cfg, s, acts[0]);
      RunKeepsParties(cfg, S.Apply(cfg, s, acts[0]), acts[1..]);
    }
  }

  lemma PartiesInRuns(n: int, hash: T.Hash, acts: seq<S.Action>)
    requires S.Legal(T.Deployed(n, hash), S.INIT, acts)
    ensures AllParties(T.After(n, hash, acts).eng)
  {
    T.DeployedIsFaithful(n, hash);
    S.InitInv(T.Deployed(n, hash));
    RunKeepsParties(T.Deployed(n, hash), S.INIT, acts);
  }

  ghost predicate HasString(fields: map<string, Json>, name: string, value: string) {
    name in fields && fields[name] == JString(value)
  }

  /** The event names the users who own its wallets, their currency and the amount moved, and is
      keyed by the wallet of the user who started the transaction. */
  ghost predicate NamesParties(ws: map<Uuid, Wallet>, tx: Tx, msg: Message) {
    && OwnOf(tx) in ws && tx.to in ws && ws[OwnOf(tx)].currency == ws[tx.to].currency
    && msg.key == OwnOf(tx).text && msg.body.Object?
    && var fields := msg.body.fields;
       && HasString(fields, "currency", ws[tx.to].currency)
       && HasString(fields, "occurredAt", tx.createdAt)
       && "amountCents" in fields && fields["amountCents"].JInteger? && fields["amountCents"].n == tx.amount
       && if tx.kind == DEPOSIT then HasString(fields, "userId", ws[tx.to].user.text)
          else
            && HasString(fields, "fromUserId", ws[OwnOf(tx)].user.text)
            && HasString(fields, "toUserId", ws[tx.to].user.text)
  }

  lemma EventNamesParties(ws: map<Uuid, Wallet>, cm: Commit)
    requires PartiesOk(ws, cm) && EngineInvariant.TxOk(ws, cm.tx)
    ensures NamesParties(ws, cm.tx, Events.Encode(cm))
  {
  }

  /** In every run, the event of every committed transaction names its parties. */
  lemma EventsNameTheParties(n: int, hash: T.Hash, acts: seq<S.Action>, i: nat)
    requires S.Legal(T.Deployed(n, hash), S.INIT, acts) && i < |T.After(n, hash, acts).eng.commits|
    ensures var e := T.After(n, hash, acts).eng;
            NamesParties(e.wallets, e.commits[i].tx, Events.Encode(e.commits[i]))
  {
    var e := T.After(n, hash, acts).eng;
    PartiesInRuns(n, hash, acts);
    T.AfterInv(n, hash, acts);
    EventNamesParties(e.wallets, e.commits[i]);
  }
}
