/** Per-wallet order in the log: which deployments keep the events of one (topic, key) in commit order.
    With one relay they do if its batches have one row, or if its writer appends per-partition prefixes
    and appends nothing after a failed write has returned. */
module Order {
  import opened Types
  import opened Engine
  import opened Bus
  import B = Bus
  import opened BusInvariant
  import S = System
  import T = Theorems
  import EngineInvariant

  type Log = map<Partition, seq<Message>>

  /** Same topic and same message key: the same kind of event of the same wallet. */
  predicate SameKey(a: Commit, b: Commit) {
    a.tx.from.Some? == b.tx.from.Some? && OwnOf(a.tx) == OwnOf(b.tx)
  }

  ghost predicate Keyed(cfg: Config) {
    forall a: Commit, b: Commit :: SameKey(a, b) ==> PartitionFor(cfg, cfg.encode(a)) == PartitionFor(cfg, cfg.encode(b))
  }

  ghost predicate EncodingsDiffer(cfg: Config, cs: seq<Commit>) {
    forall i, j :: 0 <= i < j < |cs| ==> cfg.encode(cs[i]) != cfg.encode(cs[j])
  }

  // ---------- the order of the log ----------

  /** Every occurrence of a later event comes after an occurrence of each earlier one. */
  ghost predicate LogOrdered(cfg: Config, cs: seq<Commit>, log: Log) {
    forall i, j, k :: 0 <= i < j < |cs| && SameKey(cs[i], cs[j]) && OccursAt(cfg, log, cfg.encode(cs[j]), k) ==>
      OccursBefore(cfg, log, cfg.encode(cs[i]), k)
  }

  ghost predicate OccursAt(cfg: Config, log: Log, m: Message, k: int) {
    var l := LogOf(log, PartitionFor(cfg, m));
    0 <= k < |l| && l[k] == m
  }

  ghost predicate OccursBefore(cfg: Config, log: Log, m: Message, k: int) {
    exists h :: h < k && OccursAt(cfg, log, m, h)
  }

  lemma AppendOrdered(cfg: Config, cs: seq<Commit>, log: Log, m: Message)
    requires LogOrdered(cfg, cs, log) && Keyed(cfg) && Preceded(cfg, cs, log, m)
    ensures LogOrdered(cfg, cs, Append(cfg, log, m))
  {
    var log' := Append(cfg, log, m);
    forall i, j, k | 0 <= i < j < |cs| && SameKey(cs[i], cs[j]) && OccursAt(cfg, log', cfg.encode(cs[j]), k)
      ensures OccursBefore(cfg, log', cfg.encode(cs[i]), k)
    {
      var mi, mj := cfg.encode(cs[i]), cfg.encode(cs[j]);
      var l := LogOf(log, PartitionFor(cfg, mi));
      if OccursAt(cfg, log, mj, k) {
        assert OccursBefore(cfg, log, mi, k);
        var h :| h < k && OccursAt(cfg, log, mi, h);
        assert OccursAt(cfg, log', mi, h);
      } else {
        assert k == |l| && m == mj;
        assert mi in l;
        var h :| 0 <= h < |l| && l[h] == mi;
        assert OccursAt(cfg, log', mi, h);
      }
    }
  }

  // ---------- the deployment ----------

  /** The relays that run, their batch size, whether their writer appends the messages of a partition
      in batch order, and whether it may append messages of a write that has already failed. */
  datatype Policy = Policy(relays: set<RelayId>, batchSize: nat, prefixWrites: bool, lateAppends: bool)

  /** What the writer appended of a batch, repetitions included: each message only after every earlier
      message of the batch for its partition. */
  ghost predicate PrefixPicks(cfg: Config, messages: seq<Message>, picks: seq<nat>)
    requires forall t :: 0 <= t < |picks| ==> picks[t] < |messages|
  {
    forall t, x :: 0 <= t < |picks| && 0 <= x < picks[t] ==>
      PartitionFor(cfg, messages[x]) == PartitionFor(cfg, messages[picks[t]]) ==> x in picks[..t]
  }

  ghost predicate Follows(cfg: Config, pol: Policy, b: Bus, cs: seq<Commit>, r: B.Action)
    requires B.Enabled(b, cs, r)
  {
    match r
    case Claim(q, _, _, limit) => q in pol.relays && limit == pol.batchSize
    case Publish(q, picks, _) => pol.prefixWrites ==> PrefixPicks(cfg, b.relays[q].messages, picks)
    case LateAppend(_) => pol.lateAppends
    case _ => true
  }

  ghost predicate FollowsStep(cfg: Config, pol: Policy, s: S.State, a: S.Action)
    requires S.Enabled(cfg, s, a)
  {
    a.Relay? ==> Follows(cfg, pol, s.bus, s.eng.commits, a.r)
  }

  ghost predicate FollowsRun(cfg: Config, pol: Policy, s: S.State, acts: seq<S.Action>)
    requires S.Legal(cfg, s, acts)
    decreases |acts|
  {
    acts == [] || (FollowsStep(cfg, pol, s, acts[0]) && FollowsRun(cfg, pol, S.Apply(cfg, s, acts[0]), acts[1..]))
  }

  /** At most one message is ever on its way to the log. */
  predicate Singles(pol: Policy) {
    pol.relays == {} || pol.batchSize == 0 || (|pol.relays| == 1 && pol.batchSize == 1)
  }

  /** The deployments that keep the order. */
  predicate KeepsOrder(pol: Policy) {
    Singles(pol) || (|pol.relays| == 1 && pol.prefixWrites && !pol.lateAppends)
  }

  lemma OnlyOne(s: set<RelayId>, x: RelayId, y: RelayId)
    requires |s| == 1 && x in s && y in s
    ensures x == y
  {
    var rest := s - {x};
    assert s == rest + {x};
    assert |rest| == 0;
  }

  // ---------- the invariant of their runs ----------

  /** A claimed row brings every earlier unpublished row of its key along. */
  ghost predicate BatchClosed(cs: seq<Commit>, b: Bus, batch: Batch) {
    && (forall x, y :: 0 <= x < y < |batch.ids| ==> batch.ids[x] < batch.ids[y])
    && (forall i, j :: 0 <= i < j < |cs| && SameKey(cs[i], cs[j]) && cs[j].oid in batch.ids && Unpublished(b, cs[i].oid)
          ==> cs[i].oid in batch.ids)
  }

  ghost predicate OrderInv(cfg: Config, pol: Policy, cs: seq<Commit>, b: Bus) {
    && (forall r :: r in b.relays ==> r in pol.relays && 1 <= |b.relays[r].ids| <= pol.batchSize)
    && (forall r :: r in b.relays ==> BatchClosed(cs, b, b.relays[r]))
    && LogOrdered(cfg, cs, b.log)
    && (Singles(pol) ==> forall m :: m in b.limbo ==> Preceded(cfg, cs, b.log, m))
  }

  /** What the engine contributes: ids of one key in commit order, and no id twice. */
  ghost predicate IdsOrdered(cs: seq<Commit>) {
    && (forall i, j :: 0 <= i < j < |cs| && SameKey(cs[i], cs[j]) ==> cs[i].oid < cs[j].oid)
    && (forall i, j :: 0 <= i < j < |cs| ==> cs[i].oid != cs[j].oid)
  }

  lemma ClaimCloses(cs: seq<Commit>, b: Bus, q: RelayId, ids: seq<nat>, snapshot: nat, limit: nat)
    requires IdsOrdered(cs) && CanClaim(b, cs, q, ids, snapshot, limit) && b.relays == map[]
    ensures BatchClosed(cs, b, Batch(ids, [], false))
  {
    forall i, j | 0 <= i < j < |cs| && SameKey(cs[i], cs[j]) && cs[j].oid in ids && Unpublished(b, cs[i].oid)
      ensures cs[i].oid in ids
    {
      var x :| 0 <= x < |ids| && ids[x] == cs[j].oid;
      assert ids[x] in Claimable(b, cs, snapshot);
      assert !Locked(b, cs[i].oid);
      assert cs[i].oid in Claimable(b, cs, snapshot);
    }
  }

  /** Everything of its key that committed before this event is in the log. */
  ghost predicate Preceded(cfg: Config, cs: seq<Commit>, log: Log, m: Message) {
    forall i, j :: 0 <= i < j < |cs| && SameKey(cs[i], cs[j]) && m == cfg.encode(cs[j]) ==>
      InLog(cfg, log, cfg.encode(cs[i]))
  }

  /** Messages that go into the log one by one, each after its predecessors. */
  lemma {:induction false} WriteOrdered(cfg: Config, cs: seq<Commit>, log: Log, ms: seq<Message>)
    requires Keyed(cfg) && LogOrdered(cfg, cs, log)
    requires forall n :: 0 <= n < |ms| ==> Preceded(cfg, cs, AppendAll(cfg, log, ms[..n]), ms[n])
    ensures LogOrdered(cfg, cs, AppendAll(cfg, log, ms))
    decreases |ms|
  {
    if ms != [] {
      var rest := ms[..|ms| - 1];
      forall n | 0 <= n < |rest| ensures Preceded(cfg, cs, AppendAll(cfg, log, rest[..n]), rest[n]) {
        assert rest[..n] == ms[..n];
      }
      WriteOrdered(cfg, cs, log, rest);
      AppendOrdered(cfg, cs, AppendAll(cfg, log, rest), ms[|ms| - 1]);
    }
  }

  lemma PicksPreceded(cfg: Config, cs: seq<Commit>, b: Bus, batch: Batch, picks: seq<nat>, n: nat)
    requires n < |picks| && forall t :: 0 <= t < |picks| ==> picks[t] < |batch.messages|
    requires Keyed(cfg) && IdsOrdered(cs) && EncodingsDiffer(cfg, cs)
    requires RowsOk(cfg, cs, b) && NoLoss(cfg, cs, b) && BatchOk(cfg, b, batch)
    requires BatchClosed(cs, b, batch) && PrefixPicks(cfg, batch.messages, picks)
    ensures var ms := Picked(batch.messages, picks);
            Preceded(cfg, cs, AppendAll(cfg, b.log, ms[..n]), ms[n])
  {
    forall i, j | 0 <= i < j < |cs| && SameKey(cs[i], cs[j]) && batch.messages[picks[n]] == cfg.encode(cs[j])
      ensures InLog(cfg, AppendAll(cfg, b.log, Picked(batch.messages, picks)[..n]), cfg.encode(cs[i]))
    {
      PredecessorWritten(cfg, cs, b, batch, picks, n, i, j);
    }
  }

  lemma PredecessorWritten(cfg: Config, cs: seq<Commit>, b: Bus, batch: Batch, picks: seq<nat>, n: nat, i: nat, j: nat)
    requires n < |picks| && forall t :: 0 <= t < |picks| ==> picks[t] < |batch.messages|
    requires Keyed(cfg) && IdsOrdered(cs) && EncodingsDiffer(cfg, cs)
    requires RowsOk(cfg, cs, b) && NoLoss(cfg, cs, b) && BatchOk(cfg, b, batch)
    requires BatchClosed(cs, b, batch) && PrefixPicks(cfg, batch.messages, picks)
    requires i < j < |cs| && SameKey(cs[i], cs[j]) && batch.messages[picks[n]] == cfg.encode(cs[j])
    ensures InLog(cfg, AppendAll(cfg, b.log, Picked(batch.messages, picks)[..n]), cfg.encode(cs[i]))
  {
    var ms, mi := Picked(batch.messages, picks), cfg.encode(cs[i]);
    AppendAllGrows(cfg, b.log, ms[..n]);
    if !Unpublished(b, cs[i].oid) {
      GrownKeepsInLog(cfg, b.log, AppendAll(cfg, b.log, ms[..n]), mi);
    } else {
      var x := PredecessorClaimed(cfg, cs, b, batch, picks[n], i, j);
      var t := PickedBefore(cfg, batch.messages, picks, n, x);
      assert ms[..n][t] == mi;
    }
  }

  lemma PredecessorClaimed(cfg: Config, cs: seq<Commit>, b: Bus, batch: Batch, y: nat, i: nat, j: nat) returns (x: nat)
    requires IdsOrdered(cs) && EncodingsDiffer(cfg, cs) && RowsOk(cfg, cs, b) && BatchOk(cfg, b, batch)
    requires BatchClosed(cs, b, batch) && y < |batch.messages|
    requires i < j < |cs| && SameKey(cs[i], cs[j]) && batch.messages[y] == cfg.encode(cs[j])
    requires Unpublished(b, cs[i].oid)
    ensures x < y && batch.messages[x] == cfg.encode(cs[i])
  {
    RowOfMessage(cfg, cs, b, batch, y, j);
    assert cs[j].oid in batch.ids;
    x :| 0 <= x < |batch.ids| && batch.ids[x] == cs[i].oid;
    assert batch.ids[x] < batch.ids[y];
  }

  lemma PickedBefore(cfg: Config, messages: seq<Message>, picks: seq<nat>, n: nat, x: nat) returns (t: nat)
    requires n < |picks| && forall t :: 0 <= t < |picks| ==> picks[t] < |messages|
    requires PrefixPicks(cfg, messages, picks) && x < picks[n]
    requires PartitionFor(cfg, messages[x]) == PartitionFor(cfg, messages[picks[n]])
    ensures t < n && picks[t] == x
  {
    assert x in picks[..n];
    t :| 0 <= t < n && picks[..n][t] == x;
  }

  /** A batch message is the event of the commit whose row was claimed. */
  lemma RowOfMessage(cfg: Config, cs: seq<Commit>, b: Bus, batch: Batch, y: nat, j: nat)
    requires RowsOk(cfg, cs, b) && BatchOk(cfg, b, batch) && EncodingsDiffer(cfg, cs)
    requires y < |batch.messages| && j < |cs| && batch.messages[y] == cfg.encode(cs[j])
    ensures batch.ids[y] == cs[j].oid
  {
    var id := batch.ids[y];
    assert Unpublished(b, id);
    var h :| 0 <= h < |cs| && cs[h].oid == id;
    assert cfg.encode(cs[h]) == cfg.encode(cs[j]);
  }

  // ---------- batches of one row ----------

  /** What committed before the row of a batch of one is published already. */
  lemma SinglePreceded(cfg: Config, cs: seq<Commit>, b: Bus, batch: Batch)
    requires |batch.ids| == 1 && BatchClosed(cs, b, batch) && BatchOk(cfg, b, batch)
    requires IdsOrdered(cs) && EncodingsDiffer(cfg, cs) && RowsOk(cfg, cs, b) && NoLoss(cfg, cs, b)
    ensures |batch.messages| == 1 && Preceded(cfg, cs, b.log, batch.messages[0])
  {
    forall i, j | 0 <= i < j < |cs| && SameKey(cs[i], cs[j]) && batch.messages[0] == cfg.encode(cs[j])
      ensures InLog(cfg, b.log, cfg.encode(cs[i]))
    {
      RowOfMessage(cfg, cs, b, batch, 0, j);
      assert !Unpublished(b, cs[i].oid);
    }
  }

  lemma PrecededStays(cfg: Config, cs: seq<Commit>, log: Log, log': Log, m: Message)
    requires Preceded(cfg, cs, log, m) && LogGrew(log, log')
    ensures Preceded(cfg, cs, log', m)
  {
    forall i, j | 0 <= i < j < |cs| && SameKey(cs[i], cs[j]) && m == cfg.encode(cs[j])
      ensures InLog(cfg, log', cfg.encode(cs[i]))
    {
      GrownKeepsInLog(cfg, log, log', cfg.encode(cs[i]));
    }
  }

  // ---------- preservation ----------

  lemma CloseKept(cs: seq<Commit>, b: Bus, b': Bus, batch: Batch)
    requires BatchClosed(cs, b, batch) && forall id :: Unpublished(b', id) ==> Unpublished(b, id)
    ensures BatchClosed(cs, b', batch)
  {
  }

  /** What every relay knows of its batch, and the rows behind it. */
  ghost predicate Backed(cfg: Config, cs: seq<Commit>, b: Bus) {
    && RowsOk(cfg, cs, b) && NoLoss(cfg, cs, b)
    && (forall q :: q in b.relays ==> BatchOk(cfg, b, b.relays[q]))
    && Keyed(cfg) && IdsOrdered(cs) && EncodingsDiffer(cfg, cs)
  }

  lemma EnqueueOrdered(cfg: Config, pol: Policy, cs: seq<Commit>, b: Bus, cm: Commit)
    requires OrderInv(cfg, pol, cs, b) && BusInvariant.Inv(cfg, cs, b)
    requires forall i :: 0 <= i < |cs| ==> cs[i].oid != cm.oid
    requires !Relayed(cfg, cs, cfg.encode(cm))
    ensures OrderInv(cfg, pol, cs + [cm], Enqueue(cfg, b, cm))
  {
    var cs', b' := cs + [cm], Enqueue(cfg, b, cm);
    assert cm.oid !in b.outbox;
    forall r | r in b'.relays ensures BatchClosed(cs', b', b'.relays[r]) {
      var batch := b.relays[r];
      assert BatchOk(cfg, b, batch);
      assert cm.oid !in batch.ids;
      assert BatchClosed(cs, b, batch);
    }
    EnqueueKeepsLog(cfg, cs, b.log, cm);
    if Singles(pol) {
      forall m | m in b'.limbo ensures Preceded(cfg, cs', b'.log, m) {
        NewCommitPrecedesNothing(cfg, cs, b.log, cm, m);
      }
    }
  }

  lemma EnqueueKeepsLog(cfg: Config, cs: seq<Commit>, log: Log, cm: Commit)
    requires LogOrdered(cfg, cs, log) && LogOk(cfg, cs, log) && !Relayed(cfg, cs, cfg.encode(cm))
    ensures LogOrdered(cfg, cs + [cm], log)
  {
    var cs' := cs + [cm];
    forall i, j, k | 0 <= i < j < |cs'| && SameKey(cs'[i], cs'[j]) && OccursAt(cfg, log, cfg.encode(cs'[j]), k)
      ensures OccursBefore(cfg, log, cfg.encode(cs'[i]), k)
    {
      var p := PartitionFor(cfg, cfg.encode(cs'[j]));
      assert Relayed(cfg, cs, log[p][k]);
      assert j < |cs|;
    }
  }

  lemma NewCommitPrecedesNothing(cfg: Config, cs: seq<Commit>, log: Log, cm: Commit, m: Message)
    requires Preceded(cfg, cs, log, m) && Relayed(cfg, cs, m) && !Relayed(cfg, cs, cfg.encode(cm))
    ensures Preceded(cfg, cs + [cm], log, m)
  {
  }

  /** Mark and Cleanup: the log stays, batches and unpublished rows only disappear. */
  lemma QuietOrdered(cfg: Config, pol: Policy, cs: seq<Commit>, b: Bus, b': Bus)
    requires OrderInv(cfg, pol, cs, b) && b'.log == b.log
    requires forall r :: r in b'.relays ==> r in b.relays && b'.relays[r] == b.relays[r]
    requires forall id :: Unpublished(b', id) ==> Unpublished(b, id)
    requires Singles(pol) ==> forall m :: m in b'.limbo ==> Preceded(cfg, cs, b.log, m)
    ensures OrderInv(cfg, pol, cs, b')
  {
    forall r | r in b'.relays ensures BatchClosed(cs, b', b'.relays[r]) {
      CloseKept(cs, b, b', b.relays[r]);
    }
  }

  lemma CrashOrdered(cfg: Config, pol: Policy, cs: seq<Commit>, b: Bus, q: RelayId)
    requires OrderInv(cfg, pol, cs, b) && Backed(cfg, cs, b) && q in b.relays
    ensures OrderInv(cfg, pol, cs, b.(relays := b.relays - {q}, limbo := b.limbo + set m | m in b.relays[q].messages))
  {
    var b' := b.(relays := b.relays - {q}, limbo := b.limbo + set m | m in b.relays[q].messages);
    if Singles(pol) {
      LimboPreceded(cfg, cs, b, b.relays[q]);
    }
    QuietOrdered(cfg, pol, cs, b, b');
  }

  lemma LimboPreceded(cfg: Config, cs: seq<Commit>, b: Bus, batch: Batch)
    requires |batch.ids| == 1 && BatchClosed(cs, b, batch) && BatchOk(cfg, b, batch)
    requires IdsOrdered(cs) && EncodingsDiffer(cfg, cs) && RowsOk(cfg, cs, b) && NoLoss(cfg, cs, b)
    ensures forall m :: m in batch.messages ==> Preceded(cfg, cs, b.log, m)
  {
    SinglePreceded(cfg, cs, b, batch);
    assert forall m :: m in batch.messages ==> m == batch.messages[0];
  }

  /** Whatever the writer appends of a batch, and however often, each event follows its predecessors. */
  lemma WriteFollows(cfg: Config, pol: Policy, cs: seq<Commit>, b: Bus, q: RelayId, picks: seq<nat>)
    requires OrderInv(cfg, pol, cs, b) && Backed(cfg, cs, b) && q in b.relays
    requires forall t :: 0 <= t < |picks| ==> picks[t] < |b.relays[q].messages|
    requires Singles(pol) || PrefixPicks(cfg, b.relays[q].messages, picks)
    ensures LogOrdered(cfg, cs, AppendAll(cfg, b.log, Picked(b.relays[q].messages, picks)))
  {
    var batch := b.relays[q];
    var ms := Picked(batch.messages, picks);
    forall n | 0 <= n < |ms| ensures Preceded(cfg, cs, AppendAll(cfg, b.log, ms[..n]), ms[n]) {
      if Singles(pol) {
        SinglePreceded(cfg, cs, b, batch);
        AppendAllGrows(cfg, b.log, ms[..n]);
        PrecededStays(cfg, cs, b.log, AppendAll(cfg, b.log, ms[..n]), ms[n]);
      } else {
        PicksPreceded(cfg, cs, b, batch, picks, n);
      }
    }
    WriteOrdered(cfg, cs, b.log, ms);
  }

  /** A longer log that is still in order. */
  lemma GrownOrdered(cfg: Config, pol: Policy, cs: seq<Commit>, b: Bus, log: Log)
    requires OrderInv(cfg, pol, cs, b) && LogGrew(b.log, log) && LogOrdered(cfg, cs, log)
    ensures OrderInv(cfg, pol, cs, b.(log := log))
  {
    var b' := b.(log := log);
    forall r | r in b'.relays ensures BatchClosed(cs, b', b'.relays[r]) {
      CloseKept(cs, b, b', b.relays[r]);
    }
    if Singles(pol) {
      forall m | m in b'.limbo ensures Preceded(cfg, cs, log, m) {
        PrecededStays(cfg, cs, b.log, log, m);
      }
    }
  }

  lemma BackedKept(cfg: Config, cs: seq<Commit>, b: Bus, log: Log)
    requires Backed(cfg, cs, b) && LogGrew(b.log, log)
    ensures Backed(cfg, cs, b.(log := log))
  {
    var b' := b.(log := log);
    forall i | 0 <= i < |cs| ensures Unpublished(b', cs[i].oid) || InLog(cfg, log, cfg.encode(cs[i])) {
      if InLog(cfg, b.log, cfg.encode(cs[i])) {
        GrownKeepsInLog(cfg, b.log, log, cfg.encode(cs[i]));
      }
    }
    forall q | q in b'.relays ensures BatchOk(cfg, b', b'.relays[q]) {
      BatchKept(cfg, b, log, b.relays[q]);
    }
  }

  lemma BatchKept(cfg: Config, b: Bus, log: Log, batch: Batch)
    requires BatchOk(cfg, b, batch) && LogGrew(b.log, log)
    ensures BatchOk(cfg, b.(log := log), batch)
  {
    forall i | 0 <= i < |batch.messages| && batch.sent ensures InLog(cfg, log, batch.messages[i]) {
      GrownKeepsInLog(cfg, b.log, log, batch.messages[i]);
    }
  }

  lemma WrittenOrdered(cfg: Config, pol: Policy, cs: seq<Commit>, b: Bus, q: RelayId, picks: seq<nat>)
    requires OrderInv(cfg, pol, cs, b) && Backed(cfg, cs, b) && q in b.relays
    requires forall t :: 0 <= t < |picks| ==> picks[t] < |b.relays[q].messages|
    requires Singles(pol) || PrefixPicks(cfg, b.relays[q].messages, picks)
    ensures var b1 := b.(log := AppendAll(cfg, b.log, Picked(b.relays[q].messages, picks)));
            OrderInv(cfg, pol, cs, b1) && Backed(cfg, cs, b1)
  {
    var log := AppendAll(cfg, b.log, Picked(b.relays[q].messages, picks));
    AppendAllGrows(cfg, b.log, Picked(b.relays[q].messages, picks));
    WriteFollows(cfg, pol, cs, b, q, picks);
    GrownOrdered(cfg, pol, cs, b, log);
    BackedKept(cfg, cs, b, log);
  }

  lemma SentOrdered(cfg: Config, pol: Policy, cs: seq<Commit>, b: Bus, q: RelayId)
    requires OrderInv(cfg, pol, cs, b) && q in b.relays
    ensures OrderInv(cfg, pol, cs, b.(relays := b.relays[q := b.relays[q].(sent := true)]))
  {
    var b' := b.(relays := b.relays[q := b.relays[q].(sent := true)]);
    forall r | r in b'.relays ensures BatchClosed(cs, b', b'.relays[r]) {
      CloseKept(cs, b, b', b.relays[r]);
    }
  }

  lemma PublishOrdered(cfg: Config, pol: Policy, cs: seq<Commit>, b: Bus, q: RelayId, picks: seq<nat>, ok: bool)
    requires CanPublish(b, q, picks, ok) && OrderInv(cfg, pol, cs, b) && Backed(cfg, cs, b)
    requires Singles(pol) || PrefixPicks(cfg, b.relays[q].messages, picks)
    ensures OrderInv(cfg, pol, cs, DoPublish(cfg, b, q, picks, ok))
  {
    var b1 := b.(log := AppendAll(cfg, b.log, Picked(b.relays[q].messages, picks)));
    WrittenOrdered(cfg, pol, cs, b, q, picks);
    if ok {
      SentOrdered(cfg, pol, cs, b1, q);
    } else {
      CrashOrdered(cfg, pol, cs, b1, q);
    }
  }

  lemma LateOrdered(cfg: Config, pol: Policy, cs: seq<Commit>, b: Bus, m: Message)
    requires OrderInv(cfg, pol, cs, b) && Keyed(cfg) && Singles(pol) && m in b.limbo
    ensures OrderInv(cfg, pol, cs, b.(log := Append(cfg, b.log, m)))
  {
    AppendOrdered(cfg, cs, b.log, m);
    GrownOrdered(cfg, pol, cs, b, Append(cfg, b.log, m));
  }

  lemma ClaimOrdered(cfg: Config, pol: Policy, cs: seq<Commit>, b: Bus, q: RelayId, ids: seq<nat>, snapshot: nat)
    requires CanClaim(b, cs, q, ids, snapshot, pol.batchSize) && q in pol.relays
    requires OrderInv(cfg, pol, cs, b) && IdsOrdered(cs) && (pol.batchSize == 0 || |pol.relays| == 1)
    ensures OrderInv(cfg, pol, cs, DoClaim(b, q, ids))
  {
    if ids != [] {
      forall r | r in b.relays ensures false {
        OnlyOne(pol.relays, q, r);
      }
      assert b.relays == map[];
      ClaimCloses(cs, b, q, ids, snapshot, pol.batchSize);
      CloseKept(cs, b, DoClaim(b, q, ids), DoClaim(b, q, ids).relays[q]);
    }
  }

  lemma RelayOrdered(cfg: Config, pol: Policy, cs: seq<Commit>, b: Bus, r: B.Action)
    requires KeepsOrder(pol) && B.Enabled(b, cs, r) && Follows(cfg, pol, b, cs, r)
    requires OrderInv(cfg, pol, cs, b) && Backed(cfg, cs, b)
    ensures OrderInv(cfg, pol, cs, B.Apply(cfg, b, cs, r))
  {
    match r
    case Claim(q, ids, snapshot, limit) => ClaimOrdered(cfg, pol, cs, b, q, ids, snapshot);
    case Publish(q, picks, ok) => PublishOrdered(cfg, pol, cs, b, q, picks, ok);
    case Crash(q) => CrashOrdered(cfg, pol, cs, b, q);
    case LateAppend(m) => LateOrdered(cfg, pol, cs, b, m);
    case _ => QuietOrdered(cfg, pol, cs, b, B.Apply(cfg, b, cs, r));
  }

  // ---------- runs ----------

  lemma EngineGivesIds(cfg: Config, s: S.State)
    requires S.Inv(cfg, s) && Faithful(cfg)
    ensures IdsOrdered(s.eng.commits) && EncodingsDiffer(cfg, s.eng.commits)
  {
    var cs := s.eng.commits;
    forall i, j | 0 <= i < j < |cs|
      ensures cs[i].oid != cs[j].oid && cfg.encode(cs[i]) != cfg.encode(cs[j])
      ensures SameKey(cs[i], cs[j]) ==> cs[i].oid < cs[j].oid
    {
      CommitsDiffer(cfg, s.eng, i, j);
    }
  }

  lemma CommitsDiffer(cfg: Config, e: Engine, i: nat, j: nat)
    requires EngineInvariant.CommitsOk(e.wallets, e.commits, e.nextOid) && Faithful(cfg)
    requires i < j < |e.commits|
    ensures var a, b := e.commits[i], e.commits[j];
            a.oid != b.oid && cfg.encode(a) != cfg.encode(b) && (SameKey(a, b) ==> a.oid < b.oid)
  {
    var a, b := e.commits[i], e.commits[j];
    assert EngineInvariant.Distinct(a, b);
    assert EngineInvariant.TxOk(e.wallets, a.tx) && EngineInvariant.TxOk(e.wallets, b.tx);
    assert cfg.decode(cfg.encode(a)) == Valid(EntryOf(a.tx));
    assert cfg.decode(cfg.encode(b)) == Valid(EntryOf(b.tx));
    assert a.tx.id != b.tx.id;
    assert SameKey(a, b) ==> ShareWallet(a.tx, b.tx);
  }

  lemma NewEncoding(cfg: Config, s: S.State, s': S.State, cm: Commit)
    requires S.Inv(cfg, s') && Faithful(cfg) && s'.eng.commits == s.eng.commits + [cm]
    ensures !Relayed(cfg, s.eng.commits, cfg.encode(cm))
    ensures forall i :: 0 <= i < |s.eng.commits| ==> s.eng.commits[i].oid != cm.oid
  {
    EngineGivesIds(cfg, s');
    var cs' := s'.eng.commits;
    forall i | 0 <= i < |s.eng.commits|
      ensures cfg.encode(s.eng.commits[i]) != cfg.encode(cm) && s.eng.commits[i].oid != cm.oid
    {
      assert cs'[i] == s.eng.commits[i] && cs'[|s.eng.commits|] == cm;
    }
  }

  lemma StepOrdered(cfg: Config, pol: Policy, s: S.State, a: S.Action)
    requires Faithful(cfg) && Keyed(cfg) && S.Inv(cfg, s) && S.Enabled(cfg, s, a)
    requires KeepsOrder(pol) && FollowsStep(cfg, pol, s, a) && OrderInv(cfg, pol, s.eng.commits, s.bus)
    ensures var s' := S.Apply(cfg, s, a); OrderInv(cfg, pol, s'.eng.commits, s'.bus)
  {
    match a
    case Serve(w) =>
      if w.CommitTx? {
        S.StepKeeps(cfg, s, a);
        var cm := CommitRecord(s.eng, w.c);
        S.CommitAppends(cfg.maxRetries, s.eng, w.c, w.replyLost);
        NewEncoding(cfg, s, S.Apply(cfg, s, a), cm);
        EnqueueOrdered(cfg, pol, s.eng.commits, s.bus, cm);
      } else {
        S.NoCommitNoChange(cfg.maxRetries, s.eng, w);
      }
    case Relay(r) =>
      EngineGivesIds(cfg, s);
      RelayOrdered(cfg, pol, s.eng.commits, s.bus, r);
    case Book(b) =>
  }

  lemma {:induction false} RunOrdered(cfg: Config, pol: Policy, s: S.State, acts: seq<S.Action>)
    requires Faithful(cfg) && Keyed(cfg) && S.Inv(cfg, s) && S.Legal(cfg, s, acts)
    requires KeepsOrder(pol) && FollowsRun(cfg, pol, s, acts) && OrderInv(cfg, pol, s.eng.commits, s.bus)
    ensures var s' := S.Run(cfg, s, acts); OrderInv(cfg, pol, s'.eng.commits, s'.bus)
    decreases |acts|
  {
    if acts != [] {
      StepOrdered(cfg, pol, s, acts[0]);
      S.StepKeeps(cfg, s, acts[0]);
      RunOrdered(cfg, pol, S.Apply(cfg, s, acts[0]), acts[1..]);
    }
  }

  /** In every run of a deployment that keeps order, no event is in the log before the events of its
      (topic, key) that committed earlier: first occurrences are in commit order. */
  lemma LogFollowsCommitOrder(n: int, hash: T.Hash, pol: Policy, acts: seq<S.Action>)
    requires S.Legal(T.Deployed(n, hash), S.INIT, acts)
    requires KeepsOrder(pol) && FollowsRun(T.Deployed(n, hash), pol, S.INIT, acts)
    ensures var s := T.After(n, hash, acts);
            LogOrdered(T.Deployed(n, hash), s.eng.commits, s.bus.log)
  {
    var cfg := T.Deployed(n, hash);
    T.DeployedIsFaithful(n, hash);
    S.InitInv(cfg);
    RunOrdered(cfg, pol, S.INIT, acts);
  }
}
