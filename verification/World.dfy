/** The shared world the services run in. A service method changes it one statement at a time; in
    between, the environment (every other call, relay and consumer) may take any number of actions.
    The trace records all actions, so a method that keeps Valid() has only taken allowed steps. */
module World {
  import opened Types
  import Engine
  import Bus
  import Ledger
  import S = System

  /** Whose statements a method executes. */
  datatype Actor = Caller(c: Engine.CallId) | Publisher(r: Bus.RelayId) | Reader(k: Ledger.ConsumerId)

  predicate Mine(me: Actor, a: S.Action) {
    match me
    case Caller(c) => a.Serve? && !a.w.CreateWallet? && a.w.c == c
    case Publisher(r) => a.Relay? && !a.r.LateAppend? && !a.r.Cleanup? && a.r.r == r
    case Reader(k) => a.Book? && a.b.k == k
  }

  /** What only the actor itself can change. */
  ghost predicate SameFor(me: Actor, s: S.State, s': S.State) {
    match me
    case Caller(c) => (c in s.eng.calls <==> c in s'.eng.calls) && (c in s.eng.calls ==> s'.eng.calls[c] == s.eng.calls[c])
    case Publisher(r) => (r in s.bus.relays <==> r in s'.bus.relays) && (r in s.bus.relays ==> s'.bus.relays[r] == s.bus.relays[r])
    case Reader(k) =>
      && (k in s.led.consumers <==> k in s'.led.consumers)
      && (k in s.led.consumers ==> s'.led.consumers[k] == s.led.consumers[k])
  }

  lemma OtherCallsKeep(m: int, e: Engine.Engine, a: Engine.Action, c: Engine.CallId)
    requires Engine.Enabled(e, a) && (a.CreateWallet? || a.c != c)
    ensures var e' := Engine.Apply(m, e, a);
            (c in e.calls <==> c in e'.calls) && (c in e.calls ==> e'.calls[c] == e.calls[c])
  {
    match a
    case Update(d) =>
    case InsertTx(d, id, at) =>
    case CommitTx(d, replyLost) =>
    case ReadPeer(d) =>
    case _ =>
  }

  lemma OtherRelaysKeep(cfg: Config, b: Bus.Bus, cs: seq<Commit>, a: Bus.Action, r: Bus.RelayId)
    requires Bus.Enabled(b, cs, a) && (a.LateAppend? || a.Cleanup? || a.r != r)
    ensures var b' := Bus.Apply(cfg, b, cs, a);
            (r in b.relays <==> r in b'.relays) && (r in b.relays ==> b'.relays[r] == b.relays[r])
  {
  }

  lemma OtherConsumersKeep(cfg: Config, l: Ledger.Ledger, log: map<Partition, seq<Message>>, a: Ledger.Action,
                           k: Ledger.ConsumerId)
    requires Ledger.Enabled(cfg, l, log, a) && a.k != k
    ensures var l' := Ledger.Apply(cfg, l, log, a);
            (k in l.consumers <==> k in l'.consumers) && (k in l.consumers ==> l'.consumers[k] == l.consumers[k])
  {
  }

  lemma OthersKeep(cfg: Config, s: S.State, a: S.Action, me: Actor)
    requires S.Enabled(cfg, s, a) && !Mine(me, a)
    ensures SameFor(me, s, S.Apply(cfg, s, a))
  {
    match (me, a)
    case (Caller(c), Serve(w)) => OtherCallsKeep(cfg.maxRetries, s.eng, w, c);
    case (Publisher(q), Relay(r)) => OtherRelaysKeep(cfg, s.bus, s.eng.commits, r, q);
    case (Reader(k), Book(b)) => OtherConsumersKeep(cfg, s.led, s.bus.log, b, k);
    case _ =>
  }

  ghost predicate Foreign(me: Actor, acts: seq<S.Action>) {
    forall i :: 0 <= i < |acts| ==> !Mine(me, acts[i])
  }

  lemma {:induction false} RunOfOthersKeeps(cfg: Config, s: S.State, acts: seq<S.Action>, me: Actor)
    requires S.Legal(cfg, s, acts) && Foreign(me, acts)
    ensures SameFor(me, s, S.Run(cfg, s, acts))
    decreases |acts|
  {
    if acts != [] {
      OthersKeep(cfg, s, acts[0], me);
      RunOfOthersKeeps(cfg, S.Apply(cfg, s, acts[0]), acts[1..], me);
    }
  }

  /** A reaction of the environment: some run of actions that are not the actor's. */
  type Environment = (nat, S.State) -> S.State

  ghost predicate Reaction(cfg: Config, me: Actor, s: S.State, s': S.State, acts: seq<S.Action>) {
    S.Legal(cfg, s, acts) && Foreign(me, acts) && s' == S.Run(cfg, s, acts)
  }

  ghost predicate Rely(cfg: Config, env: Environment, me: Actor) {
    forall t: nat, s: S.State :: S.Inv(cfg, s) ==> exists acts :: Reaction(cfg, me, s, env(t, s), acts)
  }

  class Shared {
    const cfg: Config
    const env: Environment
    var st: S.State
    var tick: nat
    ghost var trace: seq<S.Action>

    constructor (cfg: Config, env: Environment)
      requires Faithful(cfg)
      ensures Valid() && this.cfg == cfg && this.env == env && trace == [] && st == S.INIT
    {
      this.cfg := cfg;
      this.env := env;
      st := S.INIT;
      tick := 0;
      trace := [];
    }

    /** The state is what the recorded actions lead to. */
    ghost predicate Valid()
      reads this
    {
      Faithful(cfg) && S.Legal(cfg, S.INIT, trace) && st == S.Run(cfg, S.INIT, trace)
    }

    lemma Holds()
      requires Valid()
      ensures S.Inv(cfg, st)
    {
      S.Reachable(cfg, trace);
    }

    ghost method Log(a: S.Action, before: S.State)
      requires Faithful(cfg) && S.Legal(cfg, S.INIT, trace) && before == S.Run(cfg, S.INIT, trace)
      requires S.Enabled(cfg, before, a) && st == S.Apply(cfg, before, a)
      modifies this`trace
      ensures Valid() && trace == old(trace) + [a]
    {
      S.RunAppends(cfg, S.INIT, trace, [a]);
      assert S.Run(cfg, before, [a]) == S.Run(cfg, S.Apply(cfg, before, a), []);
      trace := trace + [a];
    }

    /** One statement of a wallet session, other than COMMIT. */
    method Serve(ghost a: Engine.Action, e: Engine.Engine)
      requires Valid() && Engine.Enabled(st.eng, a) && !a.CommitTx?
      requires e == Engine.Apply(cfg.maxRetries, st.eng, a)
      modifies this`st, this`trace
      ensures Valid() && st == old(st).(eng := e) && trace == old(trace) + [S.Serve(a)]
    {
      ghost var before := st;
      st := st.(eng := e);
      Log(S.Serve(a), before);
    }

    /** COMMIT of a wallet session: its rows become visible, the outbox row among them. */
    method Commit(c: Engine.CallId, replyLost: bool)
      requires Valid() && Engine.CanCommit(st.eng, c)
      modifies this`st, this`trace
      ensures Valid() && trace == old(trace) + [S.Serve(Engine.CommitTx(c, replyLost))]
      ensures st.eng == Engine.DoCommit(old(st).eng, c, replyLost)
    {
      ghost var before := st;
      st := st.(eng := Engine.DoCommit(st.eng, c, replyLost),
                bus := Bus.Enqueue(cfg, st.bus, Engine.CommitRecord(st.eng, c)));
      Log(S.Serve(Engine.CommitTx(c, replyLost)), before);
    }

    method Relay(ghost a: Bus.Action, b: Bus.Bus)
      requires Valid() && Bus.Enabled(st.bus, st.eng.commits, a)
      requires b == Bus.Apply(cfg, st.bus, st.eng.commits, a)
      modifies this`st, this`trace
      ensures Valid() && st == old(st).(bus := b) && trace == old(trace) + [S.Relay(a)]
    {
      ghost var before := st;
      st := st.(bus := b);
      Log(S.Relay(a), before);
    }

    method Book(ghost a: Ledger.Action, l: Ledger.Ledger)
      requires Valid() && Ledger.Enabled(cfg, st.led, st.bus.log, a)
      requires l == Ledger.Apply(cfg, st.led, st.bus.log, a)
      modifies this`st, this`trace
      ensures Valid() && st == old(st).(led := l) && trace == old(trace) + [S.Book(a)]
    {
      ghost var before := st;
      st := st.(led := l);
      Log(S.Book(a), before);
    }

    /** Time passes: the environment reacts. */
    method Interfere(ghost me: Actor)
      requires Valid() && Rely(cfg, env, me)
      modifies this
      ensures Valid() && SameFor(me, old(st), st) && old(trace) <= trace
      ensures st == env(old(tick), old(st)) && tick == old(tick) + 1
    {
      Holds();
      ghost var acts :| Reaction(cfg, me, st, env(tick, st), acts);
      S.RunAppends(cfg, S.INIT, trace, acts);
      RunOfOthersKeeps(cfg, st, acts, me);
      st := env(tick, st);
      tick := tick + 1;
      trace := trace + acts;
    }
  }
}
