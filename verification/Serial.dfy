/** Commit order is a serial order in full: running the committed requests one after another, each as
    one atomic step, gives exactly the stored tables and the replies that were sent. */
module Serial {
  import opened Types
  import opened Engine
  import opened EngineInvariant
  import EngineCommit
  import opened EngineTheorems
  import Payloads
  import S = System
  import T = Theorems

  /** A request with the id and time its transaction was given. */
  datatype Job = Job(req: Request, id: Uuid, at: string)

  datatype Tables = Tables(wallets: map<Uuid, Wallet>, txs: seq<Tx>)

  /** One job as one indivisible step; None if it does not move money. */
  ghost function Do(t: Tables, job: Job): Option<Tables> {
    match Atomic(t.wallets, t.txs, job.req, job.id, job.at)
    case Moved(wallets, txs, tx) => Some(Tables(wallets, txs))
    case _ => None
  }

  /** The jobs one after another; None as soon as a step gives None. */
  ghost function Fold(step: (Tables, Job) -> Option<Tables>, t: Tables, jobs: seq<Job>): Option<Tables> {
    if jobs == [] then Some(t)
    else
      match Fold(step, t, jobs[..|jobs| - 1])
      case None => None
      case Some(u) => step(u, jobs[|jobs| - 1])
  }

  ghost function OneByOne(ws: map<Uuid, Wallet>, jobs: seq<Job>): Option<Tables> {
    Fold(Do, Tables(ws, []), jobs)
  }

  lemma {:induction false} FoldTo(step: (Tables, Job) -> Option<Tables>, ts: seq<Tables>, jobs: seq<Job>, k: nat)
    requires k <= |jobs| && |ts| == |jobs| + 1
    requires forall i :: 0 <= i < |jobs| ==> step(ts[i], jobs[i]) == Some(ts[i + 1])
    ensures Fold(step, ts[0], jobs[..k]) == Some(ts[k])
  {
    if k > 0 {
      FoldTo(step, ts, jobs, k - 1);
      assert jobs[..k][..k - 1] == jobs[..k - 1];
      assert step(ts[k - 1], jobs[k - 1]) == Some(ts[k]);
    }
  }

  lemma FoldWhole(step: (Tables, Job) -> Option<Tables>, ts: seq<Tables>, jobs: seq<Job>)
    requires |ts| == |jobs| + 1
    requires forall i :: 0 <= i < |jobs| ==> step(ts[i], jobs[i]) == Some(ts[i + 1])
    ensures Fold(step, ts[0], jobs) == Some(ts[|jobs|])
  {
    FoldTo(step, ts, jobs, |jobs|);
    assert jobs[..|jobs|] == jobs;
  }

  /** The wallets as they were created. */
  ghost function AsCreated(ws: map<Uuid, Wallet>): map<Uuid, Wallet> {
    map w | w in ws :: ws[w].(balance := 0, version := 0)
  }

  /** The requests of the committing calls, in commit order. */
  ghost function JobsOf(e: Engine): seq<Job>
    requires AuthorsOk(e)
  {
    seq(|e.commits|, i requires 0 <= i < |e.commits| =>
      Job((assert AuthorOk(e, e.commits[i]); e.calls[e.commits[i].call].req), e.commits[i].tx.id, e.commits[i].tx.createdAt))
  }

  /** The wallets after the first k commits. */
  ghost function AfterFirst(ws: map<Uuid, Wallet>, cs: seq<Commit>, k: nat): map<Uuid, Wallet>
    requires k <= |cs|
  {
    map w | w in ws :: ws[w].(balance := Net(cs[..k], w), version := Touched(cs[..k], w))
  }

  lemma NextPosted(ws: map<Uuid, Wallet>, cs: seq<Commit>, k: nat)
    requires k < |cs|
    ensures EngineCommit.Posted(AfterFirst(ws, cs, k), cs[k].tx) == AfterFirst(ws, cs, k + 1)
  {
    assert cs[..k + 1] == cs[..k] + [cs[k]];
    forall w | w in ws
      ensures EngineCommit.Posted(AfterFirst(ws, cs, k), cs[k].tx)[w] == AfterFirst(ws, cs, k + 1)[w]
    {
      NetSnoc(cs[..k], cs[k], w);
    }
  }

  /** The sender of commit k still had the amount. */
  lemma Covered(ws: map<Uuid, Wallet>, cs: seq<Commit>, k: nat)
    requires k < |cs| && Solvent(cs) && TxShape(cs[k].tx) && cs[k].tx.from.Some?
    ensures Net(cs[..k], cs[k].tx.from.value) >= cs[k].tx.amount
  {
    var w := cs[k].tx.from.value;
    assert cs[..k + 1] == cs[..k] + [cs[k]];
    NetSnoc(cs[..k], cs[k], w);
    assert Net(cs[..k + 1], w) >= 0;
  }

  /** The key of commit k is not among the transactions before it. */
  lemma KeyIsNew(ws: map<Uuid, Wallet>, cs: seq<Commit>, next: nat, k: nat)
    requires CommitsOk(ws, cs, next) && k < |cs|
    ensures !exists t :: t in Txs(cs[..k]) && t.user == cs[k].tx.user && t.key == cs[k].tx.key
  {
    forall t | t in Txs(cs[..k]) ensures !(t.user == cs[k].tx.user && t.key == cs[k].tx.key) {
      var i :| 0 <= i < k && Txs(cs[..k])[i] == t;
      assert Distinct(cs[i], cs[k]);
    }
  }

  /** The tables after the first k commits. */
  ghost function TablesAfter(e: Engine, k: nat): Tables
    requires k <= |e.commits|
  {
    Tables(AfterFirst(e.wallets, e.commits, k), Txs(e.commits[..k]))
  }

  /** Commit k is an atomic move on the tables its predecessors left. */
  lemma NextMoves(e: Engine, k: nat)
    requires WalletsOk(e.wallets, e.commits) && CommitsOk(e.wallets, e.commits, e.nextOid) && Solvent(e.commits)
    requires AuthorsOk(e) && k < |e.commits| && Payloads.PartiesOk(e.wallets, e.commits[k])
    ensures var cs, job := e.commits, JobsOf(e)[k];
            Atomic(AfterFirst(e.wallets, cs, k), Txs(cs[..k]), job.req, job.id, job.at)
              == Moved(AfterFirst(e.wallets, cs, k + 1), Txs(cs[..k]) + [cs[k].tx], cs[k].tx)
  {
    var cs, job, tx, ws := e.commits, JobsOf(e)[k], e.commits[k].tx, AfterFirst(e.wallets, e.commits, k);
    assert AuthorOk(e, cs[k]);
    assert TxOk(e.wallets, tx);
    KeyIsNew(e.wallets, cs, e.nextOid, k);
    if tx.from.Some? {
      Covered(e.wallets, cs, k);
    }
    AtomicMoves(ws, Txs(cs[..k]), job.req, OwnOf(tx), job.id, job.at);
    NextPosted(e.wallets, cs, k);
  }

  lemma TxsSnoc(cs: seq<Commit>, k: nat)
    requires k < |cs|
    ensures Txs(cs[..k + 1]) == Txs(cs[..k]) + [cs[k].tx]
  {
  }

  /** ... so it leads from their tables to its own. */
  lemma NextIsAtomic(e: Engine, k: nat)
    requires WalletsOk(e.wallets, e.commits) && CommitsOk(e.wallets, e.commits, e.nextOid) && Solvent(e.commits)
    requires AuthorsOk(e) && k < |e.commits| && Payloads.PartiesOk(e.wallets, e.commits[k])
    ensures Do(TablesAfter(e, k), JobsOf(e)[k]) == Some(TablesAfter(e, k + 1))
  {
    NextMoves(e, k);
    TxsSnoc(e.commits, k);
  }

  lemma FirstAndLast(e: Engine)
    requires WalletsOk(e.wallets, e.commits)
    ensures TablesAfter(e, 0) == Tables(AsCreated(e.wallets), [])
    ensures TablesAfter(e, |e.commits|) == Tables(e.wallets, Txs(e.commits))
  {
    assert e.commits[..|e.commits|] == e.commits && e.commits[..0] == [];
    forall w | w in e.wallets ensures AfterFirst(e.wallets, e.commits, |e.commits|)[w] == e.wallets[w] {
      assert WalletOk(e.commits, w, e.wallets[w]);
    }
    assert AfterFirst(e.wallets, e.commits, |e.commits|) == e.wallets;
    assert AfterFirst(e.wallets, e.commits, 0) == AsCreated(e.wallets);
  }

  /** The committing call returned this transaction, or its reply was lost. */
  ghost predicate Reported(e: Engine, cm: Commit) {
    cm.call in e.calls && e.calls[cm.call].stage in {Finished(Success(cm.tx, false)), Finished(Failed)}
  }

  lemma ReplayOf(e: Engine)
    requires WalletsOk(e.wallets, e.commits) && CommitsOk(e.wallets, e.commits, e.nextOid) && Solvent(e.commits)
    requires AuthorsOk(e) && Payloads.AllParties(e)
    ensures OneByOne(AsCreated(e.wallets), JobsOf(e)) == Some(Tables(e.wallets, Txs(e.commits)))
  {
    var ts := AllSteps(e);
    FoldWhole(Do, ts, JobsOf(e));
    FirstAndLast(e);
  }

  lemma AllSteps(e: Engine) returns (ts: seq<Tables>)
    requires WalletsOk(e.wallets, e.commits) && CommitsOk(e.wallets, e.commits, e.nextOid) && Solvent(e.commits)
    requires AuthorsOk(e) && Payloads.AllParties(e)
    ensures |ts| == |e.commits| + 1 && ts[0] == TablesAfter(e, 0) && ts[|e.commits|] == TablesAfter(e, |e.commits|)
    ensures forall i :: 0 <= i < |e.commits| ==> Do(ts[i], JobsOf(e)[i]) == Some(ts[i + 1])
  {
    ts := seq(|e.commits| + 1, i requires 0 <= i <= |e.commits| => TablesAfter(e, i));
    forall i | 0 <= i < |e.commits| ensures Do(ts[i], JobsOf(e)[i]) == Some(ts[i + 1]) {
      NextIsAtomic(e, i);
    }
  }

  lemma AllReported(e: Engine)
    requires AuthorsOk(e)
    ensures forall i :: 0 <= i < |e.commits| ==> Reported(e, e.commits[i])
  {
    assert forall i :: 0 <= i < |e.commits| ==> AuthorOk(e, e.commits[i]);
  }

  /** Over every run: the committed requests, run one by one in commit order as atomic steps from the
      wallets as created, give exactly the stored wallets and transactions, and each of these
      transactions is what its call returned, unless the reply was lost. */
  lemma CommitsReplayAtomically(n: int, hash: T.Hash, acts: seq<S.Action>)
    requires S.Legal(T.Deployed(n, hash), S.INIT, acts)
    ensures var e := T.After(n, hash, acts).eng;
            && AuthorsOk(e)
            && OneByOne(AsCreated(e.wallets), JobsOf(e)) == Some(Tables(e.wallets, Txs(e.commits)))
            && forall i :: 0 <= i < |e.commits| ==> Reported(e, e.commits[i])
  {
    T.AfterInv(n, hash, acts);
    Payloads.PartiesInRuns(n, hash, acts);
    ReplayOf(T.After(n, hash, acts).eng);
    AllReported(T.After(n, hash, acts).eng);
  }
}
