/** Which deployments keep per-wallet order, exactly: for every other one there is a run from the
    initial state in which a later event of a wallet reaches the log before an earlier one. */
module Reorder {
  import opened Types
  import opened Engine
  import opened Bus
  import B = Bus
  import opened Order
  import opened Scenario
  import EngineInvariant
  import S = System
  import T = Theorems

  // ---------- building runs ----------

  lemma {:induction false} FollowsAppends(cfg: Config, pol: Policy, s: S.State, acts: seq<S.Action>, a: S.Action)
    requires S.Legal(cfg, s, acts) && FollowsRun(cfg, pol, s, acts)
    requires S.Enabled(cfg, S.Run(cfg, s, acts), a) && FollowsStep(cfg, pol, S.Run(cfg, s, acts), a)
    ensures S.Legal(cfg, s, acts + [a]) && FollowsRun(cfg, pol, s, acts + [a])
    ensures S.Run(cfg, s, acts + [a]) == S.Apply(cfg, S.Run(cfg, s, acts), a)
    decreases |acts|
  {
    if acts == [] {
      assert acts + [a] == [a];
      assert S.Run(cfg, s, [a]) == S.Run(cfg, S.Apply(cfg, s, a), []);
    } else {
      assert (acts + [a])[1..] == acts[1..] + [a];
      FollowsAppends(cfg, pol, S.Apply(cfg, s, acts[0]), acts[1..], a);
    }
  }

  lemma {:induction false} ServingFollows(cfg: Config, pol: Policy, s: S.State, acts: seq<S.Action>)
    requires S.Legal(cfg, s, acts) && forall i :: 0 <= i < |acts| ==> acts[i].Serve?
    ensures FollowsRun(cfg, pol, s, acts)
    decreases |acts|
  {
    if acts != [] {
      ServingFollows(cfg, pol, S.Apply(cfg, s, acts[0]), acts[1..]);
    }
  }

  /** A run of the deployment that ends with bus b and these commits. */
  ghost predicate Reaches(cfg: Config, pol: Policy, acts: seq<S.Action>, cs: seq<Commit>, b: Bus) {
    && S.Legal(cfg, S.INIT, acts) && FollowsRun(cfg, pol, S.INIT, acts)
    && S.Run(cfg, S.INIT, acts).eng.commits == cs && S.Run(cfg, S.INIT, acts).bus == b
  }

  lemma OneMore(cfg: Config, pol: Policy, acts: seq<S.Action>, cs: seq<Commit>, b: Bus, r: B.Action)
    requires Reaches(cfg, pol, acts, cs, b) && B.Enabled(b, cs, r) && Follows(cfg, pol, b, cs, r)
    ensures Reaches(cfg, pol, acts + [S.Relay(r)], cs, B.Apply(cfg, b, cs, r))
  {
    FollowsAppends(cfg, pol, S.INIT, acts, S.Relay(r));
  }

  /** Steps of relays alone. */
  ghost predicate RelaysCan(cfg: Config, pol: Policy, cs: seq<Commit>, b: Bus, rs: seq<B.Action>)
    decreases |rs|
  {
    rs == [] || (B.Enabled(b, cs, rs[0]) && Follows(cfg, pol, b, cs, rs[0])
                 && RelaysCan(cfg, pol, cs, B.Apply(cfg, b, cs, rs[0]), rs[1..]))
  }

  ghost function AfterRelays(cfg: Config, pol: Policy, cs: seq<Commit>, b: Bus, rs: seq<B.Action>): Bus
    requires RelaysCan(cfg, pol, cs, b, rs)
    decreases |rs|
  {
    if rs == [] then b else AfterRelays(cfg, pol, cs, B.Apply(cfg, b, cs, rs[0]), rs[1..])
  }

  lemma {:induction false} LiftRelays(cfg: Config, pol: Policy, acts: seq<S.Action>, cs: seq<Commit>, b: Bus,
                                      rs: seq<B.Action>) returns (all: seq<S.Action>)
    requires Reaches(cfg, pol, acts, cs, b) && RelaysCan(cfg, pol, cs, b, rs)
    ensures Reaches(cfg, pol, all, cs, AfterRelays(cfg, pol, cs, b, rs))
    decreases |rs|
  {
    if rs == [] {
      all := acts;
    } else {
      OneMore(cfg, pol, acts, cs, b, rs[0]);
      all := LiftRelays(cfg, pol, acts + [S.Relay(rs[0])], cs, B.Apply(cfg, b, cs, rs[0]), rs[1..]);
    }
  }

  lemma TwoSteps(cfg: Config, pol: Policy, cs: seq<Commit>, b: Bus, x: B.Action, y: B.Action)
    requires B.Enabled(b, cs, x) && Follows(cfg, pol, b, cs, x)
    requires var b1 := B.Apply(cfg, b, cs, x); B.Enabled(b1, cs, y) && Follows(cfg, pol, b1, cs, y)
    ensures RelaysCan(cfg, pol, cs, b, [x, y])
    ensures AfterRelays(cfg, pol, cs, b, [x, y]) == B.Apply(cfg, B.Apply(cfg, b, cs, x), cs, y)
  {
    var b1 := B.Apply(cfg, b, cs, x);
    assert [x, y][1..] == [y] && [y][1..] == [];
    assert RelaysCan(cfg, pol, cs, b1, [y]);
    assert AfterRelays(cfg, pol, cs, b1, [y]) == AfterRelays(cfg, pol, cs, B.Apply(cfg, b1, cs, y), []);
  }

  lemma ThreeSteps(cfg: Config, pol: Policy, cs: seq<Commit>, b: Bus, x: B.Action, y: B.Action, z: B.Action)
    requires B.Enabled(b, cs, x) && Follows(cfg, pol, b, cs, x)
    requires var b1 := B.Apply(cfg, b, cs, x);
             && B.Enabled(b1, cs, y) && Follows(cfg, pol, b1, cs, y)
             && var b2 := B.Apply(cfg, b1, cs, y); B.Enabled(b2, cs, z) && Follows(cfg, pol, b2, cs, z)
    ensures RelaysCan(cfg, pol, cs, b, [x, y, z])
    ensures AfterRelays(cfg, pol, cs, b, [x, y, z])
              == B.Apply(cfg, B.Apply(cfg, B.Apply(cfg, b, cs, x), cs, y), cs, z)
  {
    assert [x, y, z][1..] == [y, z];
    TwoSteps(cfg, pol, cs, B.Apply(cfg, b, cs, x), y, z);
  }

  // ---------- two events of one wallet, both pending ----------

  ghost predicate Pair(cfg: Config, a: Commit, b: Commit) {
    Keyed(cfg) && SameKey(a, b) && a.oid < b.oid && cfg.encode(a) != cfg.encode(b)
  }

  ghost function Both(cfg: Config, a: Commit, b: Commit): Bus {
    Enqueue(cfg, Enqueue(cfg, B.INIT, a), b)
  }

  lemma PairIsReached(n: int, hash: T.Hash, pol: Policy) returns (acts: seq<S.Action>, a: Commit, b: Commit)
    requires n >= 1
    ensures Pair(T.Deployed(n, hash), a, b)
    ensures Reaches(T.Deployed(n, hash), pol, acts, [a, b], Both(T.Deployed(n, hash), a, b))
  {
    var cfg := T.Deployed(n, hash);
    acts := TwoDeposits(n, hash);
    ServingFollows(cfg, pol, S.INIT, acts);
    var s := T.After(n, hash, acts);
    a, b := s.eng.commits[0], s.eng.commits[1];
    assert s.eng.commits == [a, b];
    CommitsAreOk(n, hash, acts);
    T.DeployedIsFaithful(n, hash);
    DeployedIsKeyed(n, hash);
    PairFacts(cfg, s.eng, a, b);
    EnqueuedPair(cfg, a, b);
  }

  lemma CommitsAreOk(n: int, hash: T.Hash, acts: seq<S.Action>)
    requires S.Legal(T.Deployed(n, hash), S.INIT, acts)
    ensures var e := T.After(n, hash, acts).eng; EngineInvariant.CommitsOk(e.wallets, e.commits, e.nextOid)
  {
    T.AfterInv(n, hash, acts);
  }

  lemma EnqueuedPair(cfg: Config, a: Commit, b: Commit)
    ensures Enqueued(cfg, [a, b]) == Both(cfg, a, b)
  {
    assert [a, b][..1] == [a] && [a][..0] == [];
    assert Enqueued(cfg, [a]) == Enqueue(cfg, Enqueued(cfg, []), a);
  }

  lemma DeployedIsKeyed(n: int, hash: T.Hash)
    ensures Keyed(T.Deployed(n, hash))
  {
  }

  lemma PairFacts(cfg: Config, e: Engine, a: Commit, b: Commit)
    requires Faithful(cfg) && Keyed(cfg) && e.commits == [a, b]
    requires EngineInvariant.CommitsOk(e.wallets, e.commits, e.nextOid)
    requires a.tx == SampleTx(Sample('c'), "x") && b.tx == SampleTx(Sample('d'), "y")
    ensures Pair(cfg, a, b)
  {
    CommitsDiffer(cfg, e, 0, 1);
  }

  // ---------- claims ----------

  lemma BothClaimable(cfg: Config, a: Commit, b: Commit)
    requires a.oid < b.oid
    ensures Claimable(Both(cfg, a, b), [a, b], 1) == {a.oid}
    ensures Claimable(Both(cfg, a, b), [a, b], 2) == {a.oid, b.oid}
  {
    var cs, s := [a, b], Both(cfg, a, b);
    assert cs[0].oid in Claimable(s, cs, 1);
    assert cs[0].oid in Claimable(s, cs, 2) && cs[1].oid in Claimable(s, cs, 2);
  }

  /** Once the first row is locked, another relay's claim skips it. */
  lemma SecondClaimable(cfg: Config, a: Commit, b: Commit, q: RelayId)
    requires a.oid < b.oid
    ensures Claimable(DoClaim(Both(cfg, a, b), q, [a.oid]), [a, b], 2) == {b.oid}
  {
    var cs, s := [a, b], DoClaim(Both(cfg, a, b), q, [a.oid]);
    assert a.oid in s.relays[q].ids;
    assert cs[1].oid in Claimable(s, cs, 2);
  }

  /** The later event alone in the log is out of order. */
  lemma LoneLaterEvent(cfg: Config, a: Commit, b: Commit, log: Log)
    requires Pair(cfg, a, b) && log == Append(cfg, map[], cfg.encode(b))
    ensures !LogOrdered(cfg, [a, b], log)
  {
    var cs := [a, b];
    assert OccursAt(cfg, log, cfg.encode(cs[1]), 0);
    assert !OccursBefore(cfg, log, cfg.encode(cs[0]), 0);
  }

  lemma AppendOne(cfg: Config, m: Message)
    ensures AppendAll(cfg, map[], [m]) == Append(cfg, map[], m)
  {
    assert AppendAll(cfg, map[], [m]) == Append(cfg, AppendAll(cfg, map[], []), m);
  }

  // ---------- the three ways to lose the order ----------

  /** These steps of relays take the pending pair to a log that is out of order. */
  ghost predicate Disorders(cfg: Config, pol: Policy, a: Commit, b: Commit, rs: seq<B.Action>) {
    && RelaysCan(cfg, pol, [a, b], Both(cfg, a, b), rs)
    && !LogOrdered(cfg, [a, b], AfterRelays(cfg, pol, [a, b], Both(cfg, a, b), rs).log)
  }

  /** Two relays: the second one skips the first event's locked row and publishes the second event. */
  lemma TwoRelaysReorder(cfg: Config, pol: Policy, a: Commit, b: Commit, q: RelayId, r: RelayId)
    requires Pair(cfg, a, b) && pol.batchSize >= 1 && q in pol.relays && r in pol.relays && q != r
    ensures Disorders(cfg, pol, a, b,
              [Claim(q, [a.oid], 1, pol.batchSize), Claim(r, [b.oid], 2, pol.batchSize), Publish(r, [0], true)])
  {
    var cs, s0 := [a, b], Both(cfg, a, b);
    BothClaimable(cfg, a, b);
    SecondClaimable(cfg, a, b, q);
    var s1 := DoClaim(s0, q, [a.oid]);
    var s2 := DoClaim(s1, r, [b.oid]);
    assert Picked(s2.relays[r].messages, [0]) == [cfg.encode(b)];
    AppendOne(cfg, cfg.encode(b));
    LoneLaterEvent(cfg, a, b, DoPublish(cfg, s2, r, [0], true).log);
    ThreeSteps(cfg, pol, cs, s0, Claim(q, [a.oid], 1, pol.batchSize), Claim(r, [b.oid], 2, pol.batchSize), Publish(r, [0], true));
  }

  /** One relay whose failed write appended the later event of a batch but not the earlier. */
  lemma PartialWriteReorders(cfg: Config, pol: Policy, a: Commit, b: Commit, q: RelayId)
    requires Pair(cfg, a, b) && pol.batchSize >= 2 && q in pol.relays && !pol.prefixWrites
    ensures Disorders(cfg, pol, a, b, [Claim(q, [a.oid, b.oid], 2, pol.batchSize), Publish(q, [1], false)])
  {
    var cs, s0 := [a, b], Both(cfg, a, b);
    BothClaimable(cfg, a, b);
    var s1 := DoClaim(s0, q, [a.oid, b.oid]);
    assert Picked(s1.relays[q].messages, [1]) == [cfg.encode(b)];
    AppendOne(cfg, cfg.encode(b));
    LoneLaterEvent(cfg, a, b, DoPublish(cfg, s1, q, [1], false).log);
    TwoSteps(cfg, pol, cs, s0, Claim(q, [a.oid, b.oid], 2, pol.batchSize), Publish(q, [1], false));
  }

  /** One relay whose failed write had appended nothing, until the later event arrives on its own. */
  lemma LateAppendReorders(cfg: Config, pol: Policy, a: Commit, b: Commit, q: RelayId)
    requires Pair(cfg, a, b) && pol.batchSize >= 2 && q in pol.relays && pol.lateAppends
    ensures Disorders(cfg, pol, a, b,
              [Claim(q, [a.oid, b.oid], 2, pol.batchSize), Publish(q, [], false), LateAppend(cfg.encode(b))])
  {
    var cs, s0 := [a, b], Both(cfg, a, b);
    BothClaimable(cfg, a, b);
    var s1 := DoClaim(s0, q, [a.oid, b.oid]);
    assert s1.relays[q].messages[1] == cfg.encode(b);
    var s2 := DoPublish(cfg, s1, q, [], false);
    LoneLaterEvent(cfg, a, b, Append(cfg, s2.log, cfg.encode(b)));
    ThreeSteps(cfg, pol, cs, s0, Claim(q, [a.oid, b.oid], 2, pol.batchSize), Publish(q, [], false), LateAppend(cfg.encode(b)));
  }

  // ---------- the exact condition ----------

  ghost predicate AlwaysOrdered(n: int, hash: T.Hash, pol: Policy) {
    forall acts :: S.Legal(T.Deployed(n, hash), S.INIT, acts) && FollowsRun(T.Deployed(n, hash), pol, S.INIT, acts) ==>
      LogOrdered(T.Deployed(n, hash), T.After(n, hash, acts).eng.commits, T.After(n, hash, acts).bus.log)
  }

  lemma SomeDisorder(cfg: Config, pol: Policy, a: Commit, b: Commit) returns (rs: seq<B.Action>)
    requires Pair(cfg, a, b) && !KeepsOrder(pol)
    ensures Disorders(cfg, pol, a, b, rs)
  {
    var q :| q in pol.relays;
    if |pol.relays| == 1 && !pol.prefixWrites {
      PartialWriteReorders(cfg, pol, a, b, q);
      rs := [Claim(q, [a.oid, b.oid], 2, pol.batchSize), Publish(q, [1], false)];
    } else if |pol.relays| == 1 {
      LateAppendReorders(cfg, pol, a, b, q);
      rs := [Claim(q, [a.oid, b.oid], 2, pol.batchSize), Publish(q, [], false), LateAppend(cfg.encode(b))];
    } else {
      var r := Another(pol.relays, q);
      TwoRelaysReorder(cfg, pol, a, b, q, r);
      rs := [Claim(q, [a.oid], 1, pol.batchSize), Claim(r, [b.oid], 2, pol.batchSize), Publish(r, [0], true)];
    }
  }

  lemma Another(s: set<RelayId>, x: RelayId) returns (y: RelayId)
    requires x in s && |s| != 1
    ensures y in s && y != x
  {
    assert s == (s - {x}) + {x};
    y :| y in s - {x};
  }

  /** Every deployment that does not keep the order has a run that shows it. */
  lemma DisorderIsReached(n: int, hash: T.Hash, pol: Policy) returns (acts: seq<S.Action>)
    requires n >= 1 && !KeepsOrder(pol)
    ensures S.Legal(T.Deployed(n, hash), S.INIT, acts) && FollowsRun(T.Deployed(n, hash), pol, S.INIT, acts)
    ensures !LogOrdered(T.Deployed(n, hash), T.After(n, hash, acts).eng.commits, T.After(n, hash, acts).bus.log)
  {
    var cfg := T.Deployed(n, hash);
    var deposits, a, b := PairIsReached(n, hash, pol);
    var rs := SomeDisorder(cfg, pol, a, b);
    acts := LiftRelays(cfg, pol, deposits, [a, b], Both(cfg, a, b), rs);
  }

  /** Without any attempt there is no commit. */
  lemma {:induction false} NoAttemptNoCommit(cfg: Config, s: S.State, acts: seq<S.Action>)
    requires Faithful(cfg) && S.Inv(cfg, s) && S.Legal(cfg, s, acts) && cfg.maxRetries < 1
    ensures S.Run(cfg, s, acts).eng.commits == s.eng.commits
    decreases |acts|
  {
    if acts != [] {
      NoCommitStep(cfg, s, acts[0]);
      S.StepKeeps(cfg, s, acts[0]);
      NoAttemptNoCommit(cfg, S.Apply(cfg, s, acts[0]), acts[1..]);
    }
  }

  lemma WorkIsAnAttempt(m: int, e: Engine, c: CallId)
    requires EngineInvariant.CallsOk(m, e) && IsWorking(e, c)
    ensures m >= 1
  {
    assert EngineInvariant.CallOk(m, e.wallets, e.commits, e.nextOid, e.locks, c, e.calls[c]);
  }

  lemma NoCommitStep(cfg: Config, s: S.State, a: S.Action)
    requires S.Inv(cfg, s) && S.Enabled(cfg, s, a) && cfg.maxRetries < 1
    ensures S.Apply(cfg, s, a).eng.commits == s.eng.commits
  {
    if a.Serve? {
      if a.w.CommitTx? {
        WorkIsAnAttempt(cfg.maxRetries, s.eng, a.w.c);
      } else {
        S.NoCommitNoChange(cfg.maxRetries, s.eng, a.w);
      }
    }
  }

  /** A deployment keeps the events of every (topic, key) in commit order, in all its runs, if and only
      if it never makes an attempt, or no relay publishes anything, or it has one relay whose batches
      have one row or whose writer appends per-partition prefixes and nothing after a failure. */
  lemma OrderedIff(n: int, hash: T.Hash, pol: Policy)
    ensures AlwaysOrdered(n, hash, pol) <==> n < 1 || KeepsOrder(pol)
  {
    var cfg := T.Deployed(n, hash);
    if n >= 1 && !KeepsOrder(pol) {
      var acts := DisorderIsReached(n, hash, pol);
    } else {
      forall acts | S.Legal(cfg, S.INIT, acts) && FollowsRun(cfg, pol, S.INIT, acts)
        ensures LogOrdered(cfg, T.After(n, hash, acts).eng.commits, T.After(n, hash, acts).bus.log)
      {
        if KeepsOrder(pol) {
          LogFollowsCommitOrder(n, hash, pol, acts);
        } else {
          T.DeployedIsFaithful(n, hash);
          S.InitInv(cfg);
          NoAttemptNoCommit(cfg, S.INIT, acts);
        }
      }
    }
  }
}
