/** The transactional outbox, its relays (services/wallet/outbox.go) and the Kafka log.

    Any number of relays run. A relay's batch is a database transaction: it claims unpublished
    rows with SKIP LOCKED, hands them to the Kafka writer, marks them published, commits. The
    writer may fail after appending any part of the batch, even later; a relay may crash at any
    point; cleanup deletes published rows. */
module Bus {
  import opened Types

  type RelayId = nat

  datatype OutboxRow = OutboxRow(message: Message, published: bool)

  /** A relay's open transaction: the rows it locked, in id order. */
  datatype Batch = Batch(ids: seq<nat>, messages: seq<Message>, sent: bool)

  /** `limbo` holds the messages of failed writes, which the broker may still append. */
  datatype Bus = Bus(outbox: map<nat, OutboxRow>, relays: map<RelayId, Batch>,
                     limbo: set<Message>, log: map<Partition, seq<Message>>)

  const INIT := Bus(map[], map[], {}, map[])

  datatype Action =
    | Claim(r: RelayId, ids: seq<nat>, snapshot: nat, limit: nat)
    | Publish(r: RelayId, picks: seq<nat>, ok: bool)
    | Mark(r: RelayId)
    | Crash(r: RelayId)
    | LateAppend(m: Message)
    | Cleanup(rows: set<nat>)

  // ---------- the log ----------

  function LogOf(log: map<Partition, seq<Message>>, p: Partition): seq<Message> {
    if p in log then log[p] else []
  }

  function Append(cfg: Config, log: map<Partition, seq<Message>>, m: Message): map<Partition, seq<Message>> {
    var p := PartitionFor(cfg, m);
    log[p := LogOf(log, p) + [m]]
  }

  function AppendAll(cfg: Config, log: map<Partition, seq<Message>>, ms: seq<Message>): map<Partition, seq<Message>> {
    if ms == [] then log else Append(cfg, AppendAll(cfg, log, ms[..|ms| - 1]), ms[|ms| - 1])
  }

  ghost predicate InLog(cfg: Config, log: map<Partition, seq<Message>>, m: Message) {
    m in LogOf(log, PartitionFor(cfg, m))
  }

  // ---------- claiming rows ----------

  predicate Unpublished(b: Bus, id: nat) {
    id in b.outbox && !b.outbox[id].published
  }

  predicate Locked(b: Bus, id: nat) {
    exists r :: r in b.relays && id in b.relays[r].ids
  }

  /** The rows a SELECT ... SKIP LOCKED can return: committed before its snapshot, unpublished,
      and not locked by another relay. */
  ghost function Claimable(b: Bus, cs: seq<Commit>, snapshot: nat): set<nat>
    requires snapshot <= |cs|
  {
    set i | 0 <= i < snapshot && Unpublished(b, cs[i].oid) && !Locked(b, cs[i].oid) :: cs[i].oid
  }

  /** The first `limit` elements of s, in increasing order. */
  ghost predicate FirstOf(ids: seq<nat>, s: set<nat>, limit: nat) {
    && (forall i, j :: 0 <= i < j < |ids| ==> ids[i] < ids[j])
    && (forall i :: 0 <= i < |ids| ==> ids[i] in s)
    && |ids| == (if |s| <= limit then |s| else limit)
    && (forall x, i :: x in s && x !in ids && 0 <= i < |ids| ==> ids[i] < x)
  }

  ghost predicate CanClaim(b: Bus, cs: seq<Commit>, r: RelayId, ids: seq<nat>, snapshot: nat, limit: nat) {
    && r !in b.relays && snapshot <= |cs|
    && FirstOf(ids, Claimable(b, cs, snapshot), limit)
    && forall i :: 0 <= i < |ids| ==> ids[i] in b.outbox
  }

  function DoClaim(b: Bus, r: RelayId, ids: seq<nat>): Bus
    requires forall i :: 0 <= i < |ids| ==> ids[i] in b.outbox
  {
    var messages := seq(|ids|, i requires 0 <= i < |ids| => b.outbox[ids[i]].message);
    if ids == [] then b else b.(relays := b.relays[r := Batch(ids, messages, false)])
  }

  // ---------- publishing ----------

  /** The writer appended the picked messages, in that order; success means all of them, each at
      least once. Nothing else is promised: retries inside the writer may repeat messages, and a
      failed write may have appended any part. */
  ghost predicate CanPublish(b: Bus, r: RelayId, picks: seq<nat>, ok: bool) {
    && r in b.relays && !b.relays[r].sent
    && (forall i :: 0 <= i < |picks| ==> picks[i] < |b.relays[r].messages|)
    && (ok ==> forall k :: 0 <= k < |b.relays[r].messages| ==> k in picks)
  }

  function Picked(messages: seq<Message>, picks: seq<nat>): seq<Message>
    requires forall i :: 0 <= i < |picks| ==> picks[i] < |messages|
  {
    seq(|picks|, i requires 0 <= i < |picks| => messages[picks[i]])
  }

  function DoPublish(cfg: Config, b: Bus, r: RelayId, picks: seq<nat>, ok: bool): Bus
    requires r in b.relays && forall i :: 0 <= i < |picks| ==> picks[i] < |b.relays[r].messages|
  {
    var batch := b.relays[r];
    var log := AppendAll(cfg, b.log, Picked(batch.messages, picks));
    if ok then b.(log := log, relays := b.relays[r := batch.(sent := true)])
    else b.(log := log, relays := b.relays - {r}, limbo := b.limbo + set m | m in batch.messages)
  }

  predicate CanMark(b: Bus, r: RelayId) {
    r in b.relays && b.relays[r].sent
  }

  /** UPDATE ... SET published_at = now() WHERE id = ANY(ids); COMMIT. */
  function DoMark(b: Bus, r: RelayId): Bus
    requires r in b.relays
  {
    var ids := b.relays[r].ids;
    b.(outbox := map id | id in b.outbox :: if id in ids then b.outbox[id].(published := true) else b.outbox[id],
       relays := b.relays - {r})
  }

  ghost predicate CanCleanup(b: Bus, ids: set<nat>) {
    forall id :: id in ids ==> id in b.outbox && b.outbox[id].published
  }

  // ---------- the step function ----------

  ghost predicate Enabled(b: Bus, cs: seq<Commit>, a: Action) {
    match a
    case Claim(r, ids, snapshot, limit) => CanClaim(b, cs, r, ids, snapshot, limit)
    case Publish(r, picks, ok) => CanPublish(b, r, picks, ok)
    case Mark(r) => CanMark(b, r)
    case Crash(r) => r in b.relays
    case LateAppend(m) => m in b.limbo
    case Cleanup(ids) => CanCleanup(b, ids)
  }

  ghost function Apply(cfg: Config, b: Bus, cs: seq<Commit>, a: Action): Bus
    requires Enabled(b, cs, a)
  {
    match a
    case Claim(r, ids, snapshot, limit) => DoClaim(b, r, ids)
    case Publish(r, picks, ok) => DoPublish(cfg, b, r, picks, ok)
    case Mark(r) => DoMark(b, r)
    case Crash(r) => b.(relays := b.relays - {r},
                        limbo := b.limbo + set m | m in b.relays[r].messages)
    case LateAppend(m) => b.(log := Append(cfg, b.log, m))
    case Cleanup(ids) => b.(outbox := b.outbox - ids)
  }

  /** The INSERT INTO wallet.outbox becomes visible with the commit. */
  function Enqueue(cfg: Config, b: Bus, cm: Commit): Bus {
    b.(outbox := b.outbox[cm.oid := OutboxRow(cfg.encode(cm), false)])
  }
}

/** No event is lost and no event is invented. */
module BusInvariant {
  import opened Types
  import opened Bus

  ghost predicate Relayed(cfg: Config, cs: seq<Commit>, m: Message) {
    exists i :: 0 <= i < |cs| && m == cfg.encode(cs[i])
  }

  /** Each outbox row is the row of the commit with that id. */
  ghost predicate RowsOk(cfg: Config, cs: seq<Commit>, b: Bus) {
    && (forall i :: 0 <= i < |cs| && cs[i].oid in b.outbox ==> b.outbox[cs[i].oid].message == cfg.encode(cs[i]))
    && (forall id :: id in b.outbox ==> exists i :: 0 <= i < |cs| && cs[i].oid == id)
  }

  /** Every committed event waits in an unpublished row or is in the log. */
  ghost predicate NoLoss(cfg: Config, cs: seq<Commit>, b: Bus) {
    forall i :: 0 <= i < |cs| ==> Unpublished(b, cs[i].oid) || InLog(cfg, b.log, cfg.encode(cs[i]))
  }

  /** Everything in the log, or still on its way there, is a committed event in its partition. */
  ghost predicate NoPhantom(cfg: Config, cs: seq<Commit>, b: Bus) {
    && (forall p, k :: p in b.log && 0 <= k < |b.log[p]| ==>
          Relayed(cfg, cs, b.log[p][k]) && p == PartitionFor(cfg, b.log[p][k]))
    && (forall m :: m in b.limbo ==> Relayed(cfg, cs, m))
  }

  ghost predicate BatchOk(cfg: Config, b: Bus, batch: Batch) {
    && |batch.ids| == |batch.messages|
    && (forall i :: 0 <= i < |batch.ids| ==>
          Unpublished(b, batch.ids[i]) && b.outbox[batch.ids[i]].message == batch.messages[i])
    && (batch.sent ==> forall i :: 0 <= i < |batch.ids| ==> InLog(cfg, b.log, batch.messages[i]))
  }

  ghost predicate RelaysOk(cfg: Config, b: Bus) {
    && (forall r :: r in b.relays ==> BatchOk(cfg, b, b.relays[r]))
    && (forall r, q, id :: r in b.relays && q in b.relays && id in b.relays[r].ids && id in b.relays[q].ids ==> r == q)
  }

  ghost predicate Inv(cfg: Config, cs: seq<Commit>, b: Bus) {
    RowsOk(cfg, cs, b) && NoLoss(cfg, cs, b) && NoPhantom(cfg, cs, b) && RelaysOk(cfg, b)
  }

  lemma InitInv(cfg: Config)
    ensures Inv(cfg, [], INIT)
  {
  }

  // ---------- appending ----------

  ghost predicate LogGrew(log: map<Partition, seq<Message>>, log': map<Partition, seq<Message>>) {
    forall p :: LogOf(log, p) <= LogOf(log', p)
  }

  lemma {:induction false} AppendAllGrows(cfg: Config, log: map<Partition, seq<Message>>, ms: seq<Message>)
    ensures LogGrew(log, AppendAll(cfg, log, ms))
    ensures forall m :: m in ms ==> InLog(cfg, AppendAll(cfg, log, ms), m)
  {
    if ms != [] {
      var n := |ms| - 1;
      AppendAllGrows(cfg, log, ms[..n]);
      forall m | m in ms ensures InLog(cfg, AppendAll(cfg, log, ms), m) {
        assert m == ms[n] || m in ms[..n];
      }
    }
  }

  lemma GrownKeepsInLog(cfg: Config, log: map<Partition, seq<Message>>, log': map<Partition, seq<Message>>, m: Message)
    requires LogGrew(log, log') && InLog(cfg, log, m)
    ensures InLog(cfg, log', m)
  {
    var p := PartitionFor(cfg, m);
    var k :| 0 <= k < |LogOf(log, p)| && LogOf(log, p)[k] == m;
    assert LogOf(log', p)[k] == m;
  }

  ghost predicate LogOk(cfg: Config, cs: seq<Commit>, log: map<Partition, seq<Message>>) {
    forall p, k :: p in log && 0 <= k < |log[p]| ==>
      Relayed(cfg, cs, log[p][k]) && p == PartitionFor(cfg, log[p][k])
  }

  lemma {:induction false} AppendAllOk(cfg: Config, cs: seq<Commit>, log: map<Partition, seq<Message>>, ms: seq<Message>)
    requires LogOk(cfg, cs, log) && forall m :: m in ms ==> Relayed(cfg, cs, m)
    ensures LogOk(cfg, cs, AppendAll(cfg, log, ms))
  {
    if ms != [] {
      var n := |ms| - 1;
      AppendAllOk(cfg, cs, log, ms[..n]);
      assert ms[n] in ms;
    }
  }

  /** What an append of relayed messages leaves true. */
  lemma AppendKeeps(cfg: Config, cs: seq<Commit>, b: Bus, ms: seq<Message>)
    requires Inv(cfg, cs, b) && forall m :: m in ms ==> Relayed(cfg, cs, m)
    ensures Inv(cfg, cs, b.(log := AppendAll(cfg, b.log, ms)))
  {
    var b' := b.(log := AppendAll(cfg, b.log, ms));
    AppendAllGrows(cfg, b.log, ms);
    AppendAllOk(cfg, cs, b.log, ms);
    forall i | 0 <= i < |cs| ensures Unpublished(b', cs[i].oid) || InLog(cfg, b'.log, cfg.encode(cs[i])) {
      if InLog(cfg, b.log, cfg.encode(cs[i])) {
        GrownKeepsInLog(cfg, b.log, b'.log, cfg.encode(cs[i]));
      }
    }
    forall r | r in b.relays ensures BatchOk(cfg, b', b'.relays[r]) {
      var batch := b.relays[r];
      assert BatchOk(cfg, b, batch);
      if batch.sent {
        forall i | 0 <= i < |batch.ids| ensures InLog(cfg, b'.log, batch.messages[i]) {
          GrownKeepsInLog(cfg, b.log, b'.log, batch.messages[i]);
        }
      }
    }
  }

  // ---------- the actions ----------

  lemma BatchIsRelayed(cfg: Config, cs: seq<Commit>, b: Bus, r: RelayId, m: Message)
    requires Inv(cfg, cs, b) && r in b.relays && m in b.relays[r].messages
    ensures Relayed(cfg, cs, m)
  {
    var batch := b.relays[r];
    assert BatchOk(cfg, b, batch);
    var i :| 0 <= i < |batch.messages| && batch.messages[i] == m;
    var id := batch.ids[i];
    var j :| 0 <= j < |cs| && cs[j].oid == id;
    assert m == cfg.encode(cs[j]);
  }

  lemma ClaimKeeps(cfg: Config, cs: seq<Commit>, b: Bus, r: RelayId, ids: seq<nat>, snapshot: nat, limit: nat)
    requires Inv(cfg, cs, b) && CanClaim(b, cs, r, ids, snapshot, limit)
    ensures Inv(cfg, cs, DoClaim(b, r, ids))
  {
    var b' := DoClaim(b, r, ids);
    if ids != [] {
      forall i | 0 <= i < |ids| ensures Unpublished(b, ids[i]) && !Locked(b, ids[i]) {
        assert ids[i] in Claimable(b, cs, snapshot);
      }
      forall q, id | q in b.relays && id in b.relays[q].ids ensures id !in ids {
        assert Locked(b, id);
      }
      assert BatchOk(cfg, b', b'.relays[r]);
      forall q | q in b.relays ensures BatchOk(cfg, b', b'.relays[q]) {
        assert BatchOk(cfg, b, b.relays[q]);
      }
    }
  }

  lemma DropRelayKeeps(cfg: Config, cs: seq<Commit>, b: Bus, r: RelayId)
    requires Inv(cfg, cs, b) && r in b.relays
    ensures Inv(cfg, cs, b.(relays := b.relays - {r}, limbo := b.limbo + set m | m in b.relays[r].messages))
  {
    var b' := b.(relays := b.relays - {r}, limbo := b.limbo + set m | m in b.relays[r].messages);
    forall m | m in b'.limbo ensures Relayed(cfg, cs, m) {
      if m in b.relays[r].messages {
        BatchIsRelayed(cfg, cs, b, r, m);
      }
    }
    forall q | q in b'.relays ensures BatchOk(cfg, b', b'.relays[q]) {
      assert BatchOk(cfg, b, b.relays[q]);
    }
  }

  lemma SentKeeps(cfg: Config, cs: seq<Commit>, b: Bus, r: RelayId)
    requires Inv(cfg, cs, b) && r in b.relays
    requires forall i :: 0 <= i < |b.relays[r].messages| ==> InLog(cfg, b.log, b.relays[r].messages[i])
    ensures Inv(cfg, cs, b.(relays := b.relays[r := b.relays[r].(sent := true)]))
  {
    var b' := b.(relays := b.relays[r := b.relays[r].(sent := true)]);
    forall q | q in b'.relays ensures BatchOk(cfg, b', b'.relays[q]) {
      assert BatchOk(cfg, b, b.relays[q]);
    }
  }

  lemma PublishKeeps(cfg: Config, cs: seq<Commit>, b: Bus, r: RelayId, picks: seq<nat>, ok: bool)
    requires Inv(cfg, cs, b) && CanPublish(b, r, picks, ok)
    ensures Inv(cfg, cs, DoPublish(cfg, b, r, picks, ok))
  {
    var batch := b.relays[r];
    var ms := Picked(batch.messages, picks);
    forall m | m in ms ensures Relayed(cfg, cs, m) {
      BatchIsRelayed(cfg, cs, b, r, m);
    }
    AppendKeeps(cfg, cs, b, ms);
    AppendAllGrows(cfg, b.log, ms);
    var b1 := b.(log := AppendAll(cfg, b.log, ms));
    if ok {
      forall k | 0 <= k < |batch.messages| ensures InLog(cfg, b1.log, batch.messages[k]) {
        assert k in picks;
        var i :| 0 <= i < |picks| && picks[i] == k;
        assert ms[i] in ms;
      }
      SentKeeps(cfg, cs, b1, r);
    } else {
      DropRelayKeeps(cfg, cs, b1, r);
    }
  }

  lemma MarkKeeps(cfg: Config, cs: seq<Commit>, b: Bus, r: RelayId)
    requires Inv(cfg, cs, b) && CanMark(b, r)
    ensures Inv(cfg, cs, DoMark(b, r))
  {
    var b', batch := DoMark(b, r), b.relays[r];
    assert BatchOk(cfg, b, batch);
    forall i | 0 <= i < |cs| ensures Unpublished(b', cs[i].oid) || InLog(cfg, b'.log, cfg.encode(cs[i])) {
      if Unpublished(b, cs[i].oid) && cs[i].oid in batch.ids {
        var k :| 0 <= k < |batch.ids| && batch.ids[k] == cs[i].oid;
        assert batch.messages[k] == cfg.encode(cs[i]);
      }
    }
    forall q | q in b'.relays ensures BatchOk(cfg, b', b'.relays[q]) {
      assert BatchOk(cfg, b, b.relays[q]);
      forall i | 0 <= i < |b.relays[q].ids| ensures b.relays[q].ids[i] !in batch.ids {
        assert b.relays[q].ids[i] in b.relays[q].ids;
      }
    }
  }

  lemma CleanupKeeps(cfg: Config, cs: seq<Commit>, b: Bus, ids: set<nat>)
    requires Inv(cfg, cs, b) && CanCleanup(b, ids)
    ensures Inv(cfg, cs, b.(outbox := b.outbox - ids))
  {
    var b' := b.(outbox := b.outbox - ids);
    forall q | q in b'.relays ensures BatchOk(cfg, b', b'.relays[q]) {
      assert BatchOk(cfg, b, b.relays[q]);
    }
  }

  /** A commit whose outbox id is new adds its row. */
  lemma EnqueueKeeps(cfg: Config, cs: seq<Commit>, b: Bus, cm: Commit)
    requires Inv(cfg, cs, b) && forall i :: 0 <= i < |cs| ==> cs[i].oid != cm.oid
    ensures Inv(cfg, cs + [cm], Enqueue(cfg, b, cm))
  {
    var cs', b' := cs + [cm], Enqueue(cfg, b, cm);
    forall m | Relayed(cfg, cs, m) ensures Relayed(cfg, cs', m) {
      var i :| 0 <= i < |cs| && m == cfg.encode(cs[i]);
      assert m == cfg.encode(cs'[i]);
    }
    forall id | id in b'.outbox ensures exists i :: 0 <= i < |cs'| && cs'[i].oid == id {
      if id == cm.oid {
        assert cs'[|cs|].oid == id;
      } else {
        var i :| 0 <= i < |cs| && cs[i].oid == id;
        assert cs'[i].oid == id;
      }
    }
    assert cm.oid !in b.outbox;
    forall q | q in b'.relays ensures BatchOk(cfg, b', b'.relays[q]) {
      assert BatchOk(cfg, b, b.relays[q]);
    }
  }

  lemma ActionKeeps(cfg: Config, cs: seq<Commit>, b: Bus, a: Action)
    requires Inv(cfg, cs, b) && Enabled(b, cs, a)
    ensures Inv(cfg, cs, Apply(cfg, b, cs, a))
  {
    match a
    case Claim(r, ids, snapshot, limit) => ClaimKeeps(cfg, cs, b, r, ids, snapshot, limit);
    case Publish(r, picks, ok) => PublishKeeps(cfg, cs, b, r, picks, ok);
    case Mark(r) => MarkKeeps(cfg, cs, b, r);
    case Crash(r) => DropRelayKeeps(cfg, cs, b, r);
    case LateAppend(m) =>
      AppendKeeps(cfg, cs, b, [m]);
      assert AppendAll(cfg, b.log, [m]) == Append(cfg, b.log, m);
    case Cleanup(ids) => CleanupKeeps(cfg, cs, b, ids);
  }

  // ---------- pending rows ----------

  ghost function Pending(b: Bus): set<nat> {
    set id | id in b.outbox && !b.outbox[id].published
  }

  lemma ClaimableIs(cfg: Config, cs: seq<Commit>, b: Bus, id: nat)
    requires RowsOk(cfg, cs, b)
    ensures id in Claimable(b, cs, |cs|) <==> Unpublished(b, id) && !Locked(b, id)
  {
    if Unpublished(b, id) && !Locked(b, id) {
      var i :| 0 <= i < |cs| && cs[i].oid == id;
      assert cs[i].oid in Claimable(b, cs, |cs|);
    }
  }

  /** With nothing locked, every pending row can be claimed. */
  lemma PendingIsClaimable(cfg: Config, cs: seq<Commit>, b: Bus)
    requires b.relays == map[] && RowsOk(cfg, cs, b)
    ensures Claimable(b, cs, |cs|) == Pending(b)
  {
    forall id: nat ensures id in Claimable(b, cs, |cs|) <==> id in Pending(b) {
      ClaimableIs(cfg, cs, b, id);
    }
  }
}
