/** The whole money path: wallet engine, outbox and Kafka, ledger, in one state machine. */
module System {
  import opened Types
  import Engine
  import EngineInvariant
  import EngineCommit
  import Bus
  import BusInvariant
  import Ledger
  import LedgerInvariant

  datatype State = State(eng: Engine.Engine, bus: Bus.Bus, led: Ledger.Ledger)

  const INIT := State(Engine.INIT, Bus.INIT, Ledger.INIT)

  datatype Action = Serve(w: Engine.Action) | Relay(r: Bus.Action) | Book(b: Ledger.Action)

  ghost predicate Enabled(cfg: Config, s: State, a: Action) {
    match a
    case Serve(w) => Engine.Enabled(s.eng, w)
    case Relay(r) => Bus.Enabled(s.bus, s.eng.commits, r)
    case Book(b) => Ledger.Enabled(cfg, s.led, s.bus.log, b)
  }

  ghost function Apply(cfg: Config, s: State, a: Action): State
    requires Enabled(cfg, s, a)
  {
    match a
    case Serve(w) =>
      s.(eng := Engine.Apply(cfg.maxRetries, s.eng, w),
         bus := if w.CommitTx? then Bus.Enqueue(cfg, s.bus, Engine.CommitRecord(s.eng, w.c)) else s.bus)
    case Relay(r) => s.(bus := Bus.Apply(cfg, s.bus, s.eng.commits, r))
    case Book(b) => s.(led := Ledger.Apply(cfg, s.led, s.bus.log, b))
  }

  /** A run: any sequence of enabled actions. */
  ghost predicate Legal(cfg: Config, s: State, acts: seq<Action>)
    decreases |acts|
  {
    acts == [] || (Enabled(cfg, s, acts[0]) && Legal(cfg, Apply(cfg, s, acts[0]), acts[1..]))
  }

  ghost function Run(cfg: Config, s: State, acts: seq<Action>): State
    requires Legal(cfg, s, acts)
    decreases |acts|
  {
    if acts == [] then s else Run(cfg, Apply(cfg, s, acts[0]), acts[1..])
  }

  ghost predicate Inv(cfg: Config, s: State) {
    && EngineInvariant.Inv(cfg.maxRetries, s.eng)
    && BusInvariant.Inv(cfg, s.eng.commits, s.bus)
    && LedgerInvariant.Inv(cfg, s.eng.commits, s.bus.log, s.led)
  }

  lemma InitInv(cfg: Config)
    ensures Inv(cfg, INIT)
  {
    EngineInvariant.InitInv(cfg.maxRetries);
    BusInvariant.InitInv(cfg);
    LedgerInvariant.InitInv(cfg);
  }

  // ---------- how one part's step looks to the others ----------

  lemma ShapesOk(e: Engine.Engine)
    requires EngineInvariant.CommitsOk(e.wallets, e.commits, e.nextOid)
    ensures forall i :: 0 <= i < |e.commits| ==> TxShape(e.commits[i].tx)
  {
  }

  lemma NoCommitNoChange(m: int, e: Engine.Engine, w: Engine.Action)
    requires Engine.Enabled(e, w) && !w.CommitTx?
    ensures Engine.Apply(m, e, w).commits == e.commits
  {
  }

  lemma CommitAppends(m: int, e: Engine.Engine, c: Engine.CallId, replyLost: bool)
    requires EngineInvariant.Inv(m, e) && Engine.CanCommit(e, c)
    ensures var cm := Engine.CommitRecord(e, c);
            && Engine.DoCommit(e, c, replyLost).commits == e.commits + [cm]
            && forall i :: 0 <= i < |e.commits| ==> e.commits[i].oid != cm.oid
  {
    assert EngineInvariant.CallOk(m, e.wallets, e.commits, e.nextOid, e.locks, c, e.calls[c]);
  }

  lemma RelayGrowsLog(cfg: Config, b: Bus.Bus, cs: seq<Commit>, r: Bus.Action)
    requires Bus.Enabled(b, cs, r)
    ensures BusInvariant.LogGrew(b.log, Bus.Apply(cfg, b, cs, r).log)
  {
    match r
    case Publish(q, picks, ok) =>
      BusInvariant.AppendAllGrows(cfg, b.log, Bus.Picked(b.relays[q].messages, picks));
    case _ =>
  }

  lemma LedgerSeesCommit(cfg: Config, s: State, cm: Commit)
    requires LedgerInvariant.Inv(cfg, s.eng.commits, s.bus.log, s.led)
    ensures LedgerInvariant.Inv(cfg, s.eng.commits + [cm], s.bus.log, s.led)
  {
    LedgerInvariant.WorldGrows(cfg, s.eng.commits, s.eng.commits + [cm], s.bus.log, s.bus.log, s.led);
  }

  lemma WalletStepKeeps(cfg: Config, s: State, w: Engine.Action)
    requires Inv(cfg, s) && Engine.Enabled(s.eng, w)
    ensures Inv(cfg, Apply(cfg, s, Serve(w)))
  {
    EngineCommit.ActionKeeps(cfg.maxRetries, s.eng, w);
    if w.CommitTx? {
      var cm := Engine.CommitRecord(s.eng, w.c);
      CommitAppends(cfg.maxRetries, s.eng, w.c, w.replyLost);
      BusInvariant.EnqueueKeeps(cfg, s.eng.commits, s.bus, cm);
      LedgerSeesCommit(cfg, s, cm);
    } else {
      NoCommitNoChange(cfg.maxRetries, s.eng, w);
    }
  }

  lemma RelayStepKeeps(cfg: Config, s: State, r: Bus.Action)
    requires Inv(cfg, s) && Bus.Enabled(s.bus, s.eng.commits, r)
    ensures Inv(cfg, Apply(cfg, s, Relay(r)))
  {
    var b := Bus.Apply(cfg, s.bus, s.eng.commits, r);
    BusInvariant.ActionKeeps(cfg, s.eng.commits, s.bus, r);
    RelayGrowsLog(cfg, s.bus, s.eng.commits, r);
    LedgerInvariant.WorldGrows(cfg, s.eng.commits, s.eng.commits, s.bus.log, b.log, s.led);
  }

  lemma BookStepKeeps(cfg: Config, s: State, b: Ledger.Action)
    requires Faithful(cfg) && Inv(cfg, s) && Ledger.Enabled(cfg, s.led, s.bus.log, b)
    ensures Inv(cfg, Apply(cfg, s, Book(b)))
  {
    BookKeepsLedger(cfg, s, b);
    assert Apply(cfg, s, Book(b)) == s.(led := Ledger.Apply(cfg, s.led, s.bus.log, b));
  }

  lemma BookKeepsLedger(cfg: Config, s: State, b: Ledger.Action)
    requires Faithful(cfg) && Ledger.Enabled(cfg, s.led, s.bus.log, b)
    requires EngineInvariant.CommitsOk(s.eng.wallets, s.eng.commits, s.eng.nextOid)
    requires BusInvariant.LogOk(cfg, s.eng.commits, s.bus.log)
    requires LedgerInvariant.Inv(cfg, s.eng.commits, s.bus.log, s.led)
    ensures LedgerInvariant.Inv(cfg, s.eng.commits, s.bus.log, Ledger.Apply(cfg, s.led, s.bus.log, b))
  {
    ShapesOk(s.eng);
    LedgerInvariant.ActionKeeps(cfg, s.eng.commits, s.bus.log, s.led, b);
  }

  lemma StepKeeps(cfg: Config, s: State, a: Action)
    requires Faithful(cfg) && Inv(cfg, s) && Enabled(cfg, s, a)
    ensures Inv(cfg, Apply(cfg, s, a))
  {
    match a
    case Serve(w) => WalletStepKeeps(cfg, s, w);
    case Relay(r) => RelayStepKeeps(cfg, s, r);
    case Book(b) => BookStepKeeps(cfg, s, b);
  }

  /** The invariant holds in every state of every run. */
  lemma {:induction false} RunKeeps(cfg: Config, s: State, acts: seq<Action>)
    requires Faithful(cfg) && Inv(cfg, s) && Legal(cfg, s, acts)
    ensures Inv(cfg, Run(cfg, s, acts))
    decreases |acts|
  {
    if acts != [] {
      StepKeeps(cfg, s, acts[0]);
      RunKeeps(cfg, Apply(cfg, s, acts[0]), acts[1..]);
    }
  }

  lemma {:induction false} RunAppends(cfg: Config, s: State, acts: seq<Action>, more: seq<Action>)
    requires Legal(cfg, s, acts) && Legal(cfg, Run(cfg, s, acts), more)
    ensures Legal(cfg, s, acts + more)
    ensures Run(cfg, s, acts + more) == Run(cfg, Run(cfg, s, acts), more)
    decreases |acts|
  {
    if acts == [] {
      assert acts + more == more;
    } else {
      assert (acts + more)[1..] == acts[1..] + more;
      RunAppends(cfg, Apply(cfg, s, acts[0]), acts[1..], more);
    }
  }

  lemma Reachable(cfg: Config, acts: seq<Action>)
    requires Faithful(cfg) && Legal(cfg, INIT, acts)
    ensures Inv(cfg, Run(cfg, INIT, acts))
  {
    InitInv(cfg);
    RunKeeps(cfg, INIT, acts);
  }
}
