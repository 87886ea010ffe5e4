/** services/wallet/outbox.go as the code runs: one relay among any number of others. */
module RelayWorker {
  import opened Types
  import opened Bus
  import opened BusInvariant
  import opened World
  import S = System

  /** What the Kafka writer did with a batch: which messages it appended, in which order, and
      whether it reported success. */
  datatype WriteResult = WriteResult(picks: seq<nat>, ok: bool)

  type Writer = (nat, seq<Message>) -> WriteResult

  /** The writer appends only messages it was given, and all of them if it reports success. */
  ghost predicate Honest(writer: Writer) {
    forall t: nat, ms: seq<Message> ::
      && (forall i :: 0 <= i < |writer(t, ms).picks| ==> writer(t, ms).picks[i] < |ms|)
      && (writer(t, ms).ok ==> forall k :: 0 <= k < |ms| ==> k in writer(t, ms).picks)
  }

  // ---------- choosing rows ----------

  ghost function Elements(ids: seq<nat>): set<nat> {
    set i | 0 <= i < |ids| :: ids[i]
  }

  lemma ElementsSnoc(ids: seq<nat>, id: nat)
    ensures Elements(ids + [id]) == Elements(ids) + {id}
  {
    forall x | x in Elements(ids) + {id} ensures x in Elements(ids + [id]) {
      if x == id {
        assert (ids + [id])[|ids|] == x;
      } else {
        var i :| 0 <= i < |ids| && ids[i] == x;
        assert (ids + [id])[i] == x;
      }
    }
  }

  lemma {:induction false} AscendingSize(ids: seq<nat>)
    requires forall i, j :: 0 <= i < j < |ids| ==> ids[i] < ids[j]
    ensures |Elements(ids)| == |ids|
  {
    if ids != [] {
      var n := |ids| - 1;
      AscendingSize(ids[..n]);
      ElementsSnoc(ids[..n], ids[n]);
      assert ids == ids[..n] + [ids[n]];
    }
  }

  lemma SubsetSize(a: set<nat>, b: set<nat>)
    requires a <= b
    ensures |a| <= |b|
  {
    assert b == a + (b - a);
  }

  /** A scan in id order that stopped at the limit or at the end returns the first rows. */
  lemma ScanIsFirst(ids: seq<nat>, s: set<nat>, limit: nat, next: nat, end: nat)
    requires forall i, j :: 0 <= i < j < |ids| ==> ids[i] < ids[j]
    requires |ids| <= limit && (|ids| == limit || next == end)
    requires forall x :: x in s ==> x < end
    requires forall x :: x in Elements(ids) <==> x in s && x < next
    ensures FirstOf(ids, s, limit)
  {
    AscendingSize(ids);
    assert Elements(ids) <= s;
    SubsetSize(Elements(ids), s);
    if next == end {
      assert Elements(ids) == s;
    }
    forall i | 0 <= i < |ids| ensures ids[i] in s && ids[i] < next {
      assert ids[i] in Elements(ids);
    }
    forall x, i | x in s && x !in ids && 0 <= i < |ids| ensures ids[i] < x {
      assert x !in Elements(ids);
    }
  }

  class Relay {
    const w: Shared
    const r: RelayId
    const batchSize: nat
    const writer: Writer
    /** Per tick: the pod dies, or the database connection is lost. */
    const down: nat -> bool
    /** Per tick: a COMMIT succeeds but its reply is lost. */
    const replyLost: nat -> bool

    constructor (w: Shared, r: RelayId, batchSize: nat, writer: Writer, down: nat -> bool, replyLost: nat -> bool)
      ensures this.w == w && this.r == r && this.batchSize == batchSize && this.writer == writer
      ensures this.down == down && this.replyLost == replyLost
    {
      this.w := w;
      this.r := r;
      this.batchSize := batchSize;
      this.writer := writer;
      this.down := down;
      this.replyLost := replyLost;
    }

    ghost predicate Ready()
      reads w
    {
      w.Valid() && Rely(w.cfg, w.env, Publisher(r)) && Honest(writer)
    }

    /** Nothing else makes publishBatch fail: the database is gone, the writer refused the claimed
        batch, or the reply to COMMIT was lost. */
    ghost predicate Excused(ids: seq<nat>)
      reads w
    {
      down(w.tick) || replyLost(w.tick) || exists s :: Refused(s, ids)
    }

    /** The writer has just refused the messages of the rows that the relay had claimed in state s. */
    ghost predicate Refused(s: S.State, ids: seq<nat>)
      reads w
    {
      && r in s.bus.relays && s.bus.relays[r].ids == ids
      && var res := writer(w.tick, s.bus.relays[r].messages);
         && !res.ok && (forall i :: 0 <= i < |res.picks| ==> res.picks[i] < |s.bus.relays[r].messages|)
         && w.st == s.(bus := DoPublish(w.cfg, s.bus, r, res.picks, false))
    }

    /** Kafka and the database are up, no new rows are committed and no other relay acts. Calls that
        do not commit, consumers, cleanup and late appends go on. */
    ghost predicate Quiet() {
      && (forall t: nat, s: S.State :: S.Inv(w.cfg, s) ==>
            exists acts :: Reaction(w.cfg, Publisher(r), s, w.env(t, s), acts) && AllCalm(acts))
      && (forall t: nat :: !down(t) && !replyLost(t))
      && (forall t: nat, ms: seq<Message> :: writer(t, ms).ok)
    }

    /** The environment runs; if all is quiet, it leaves relays and pending rows alone. */
    method Pause()
      requires Ready()
      modifies w
      ensures Ready() && old(w.trace) <= w.trace && SameFor(Publisher(r), old(w.st), w.st)
      ensures Quiet() ==> w.st.bus.relays == old(w.st.bus.relays) && Pending(w.st.bus) == old(Pending(w.st.bus))
    {
      QuietReaction();
      w.Interfere(Publisher(r));
    }

    lemma QuietReaction()
      requires w.Valid()
      ensures var s' := w.env(w.tick, w.st);
              Quiet() ==> s'.bus.relays == w.st.bus.relays && Pending(s'.bus) == Pending(w.st.bus)
    {
      w.Holds();
      if Quiet() {
        var acts :| Reaction(w.cfg, Publisher(r), w.st, w.env(w.tick, w.st), acts) && AllCalm(acts);
        CalmRun(w.cfg, w.st, acts);
      }
    }

    /** SELECT ... WHERE published_at IS NULL ORDER BY id LIMIT batchSize FOR UPDATE SKIP LOCKED */
    method SelectRows() returns (ids: seq<nat>)
      requires w.Valid() && r !in w.st.bus.relays
      ensures CanClaim(w.st.bus, w.st.eng.commits, r, ids, |w.st.eng.commits|, batchSize)
    {
      var b, next := w.st.bus, w.st.eng.nextOid;
      ghost var cs := w.st.eng.commits;
      ghost var rows := Claimable(b, cs, |cs|);
      RowFacts();
      ids := [];
      var id := 0;
      while id < next && |ids| < batchSize
        invariant 0 <= id <= next && |ids| <= batchSize
        invariant forall i, j :: 0 <= i < j < |ids| ==> ids[i] < ids[j]
        invariant forall i :: 0 <= i < |ids| ==> ids[i] < id
        invariant forall x :: x in Elements(ids) <==> x in rows && x < id
      {
        if Unpublished(b, id) && !Locked(b, id) {
          ElementsSnoc(ids, id);
          ids := ids + [id];
        }
        id := id + 1;
      }
      ScanIsFirst(ids, rows, batchSize, id, next);
    }

    lemma RowFacts()
      requires w.Valid()
      ensures var b, cs := w.st.bus, w.st.eng.commits;
              && (forall id :: id in Claimable(b, cs, |cs|) <==> Unpublished(b, id) && !Locked(b, id))
              && (forall id :: id in Claimable(b, cs, |cs|) ==> id < w.st.eng.nextOid)
    {
      w.Holds();
      var b, cs := w.st.bus, w.st.eng.commits;
      forall id: nat ensures id in Claimable(b, cs, |cs|) <==> Unpublished(b, id) && !Locked(b, id) {
        ClaimableIs(w.cfg, cs, b, id);
      }
    }

    /** Lock the batch and build the messages. */
    method ClaimBatch() returns (ids: seq<nat>)
      requires w.Valid() && r !in w.st.bus.relays
      modifies w
      ensures w.Valid() && old(w.trace) <= w.trace
      ensures CanClaim(old(w.st.bus), w.st.eng.commits, r, ids, |w.st.eng.commits|, batchSize) && w.tick == old(w.tick)
      ensures w.st == old(w.st).(bus := DoClaim(old(w.st.bus), r, ids))
    {
      ids := SelectRows();
      var b := w.st.bus;
      if ids != [] {
        var messages := [];
        for i := 0 to |ids|
          invariant |messages| == i
          invariant forall j :: 0 <= j < i ==> messages[j] == b.outbox[ids[j]].message
        {
          messages := messages + [b.outbox[ids[i]].message];
        }
        b := b.(relays := b.relays[r := Batch(ids, messages, false)]);
        assert b.relays[r].messages == DoClaim(w.st.bus, r, ids).relays[r].messages;
      }
      w.Relay(Claim(r, ids, |w.st.eng.commits|, batchSize), b);
    }

    /** ClaimBatch, and what the claimed ids tell. */
    method TakeRows() returns (ids: seq<nat>)
      requires w.Valid() && r !in w.st.bus.relays
      modifies w
      ensures w.Valid() && old(w.trace) <= w.trace && w.tick == old(w.tick) && |ids| <= batchSize
      ensures Pending(w.st.bus) == old(Pending(w.st.bus))
      ensures w.st.bus.relays - {r} == old(w.st.bus.relays)
      ensures ids == [] ==> r !in w.st.bus.relays
      ensures ids != [] ==> r in w.st.bus.relays && !w.st.bus.relays[r].sent && w.st.bus.relays[r].ids == ids
      ensures ids == [] && batchSize > 0 ==> AllLocked(w.st.bus)
      ensures old(w.st.bus.relays) == map[] ==> FirstOf(ids, old(Pending(w.st.bus)), batchSize)
    {
      ghost var b := w.st.bus;
      RowsKnown();
      ids := ClaimBatch();
      ClaimedRows(w.cfg, w.st.eng.commits, b, r, ids, batchSize);
      ClaimLocks(b, r, ids);
    }

    /** writer.WriteMessages */
    method SendBatch(ghost ids: seq<nat>) returns (ok: bool)
      requires w.Valid() && Honest(writer)
      requires r in w.st.bus.relays && !w.st.bus.relays[r].sent && w.st.bus.relays[r].ids == ids
      modifies w
      ensures w.Valid() && old(w.trace) <= w.trace && w.tick == old(w.tick)
      ensures ok == writer(w.tick, old(w.st.bus.relays[r].messages)).ok
      ensures ok ==> CanMark(w.st.bus, r) && w.st.bus.relays == old(w.st.bus.relays)[r := old(w.st.bus.relays[r]).(sent := true)]
      ensures !ok ==> r !in w.st.bus.relays && Refused(old(w.st), ids)
      ensures w.st.eng == old(w.st.eng) && w.st.bus.outbox == old(w.st.bus.outbox)
    {
      var res := writer(w.tick, w.st.bus.relays[r].messages);
      ok := res.ok;
      w.Relay(Publish(r, res.picks, res.ok), DoPublish(w.cfg, w.st.bus, r, res.picks, res.ok));
    }

    /** UPDATE ... SET published_at = now(); COMMIT: exactly the claimed rows stop being pending, and
        each of their events is in the log. */
    method MarkBatch(ghost ids: seq<nat>)
      requires w.Valid() && CanMark(w.st.bus, r) && w.st.bus.relays[r].ids == ids
      modifies w
      ensures w.Valid() && old(w.trace) <= w.trace && w.tick == old(w.tick)
      ensures forall i :: 0 <= i < |ids| ==> Delivered(w.cfg, w.st, ids[i])
      ensures Pending(w.st.bus) == old(Pending(w.st.bus)) - Elements(ids)
      ensures w.st.bus.relays == old(w.st.bus.relays) - {r} && w.st.bus.log == old(w.st.bus.log)
      ensures w.st == old(w.st).(bus := w.st.bus)
    {
      Marked(ids);
      MarkedAreGone(w.st.bus, r);
      w.Relay(Mark(r), DoMark(w.st.bus, r));
    }

    /** publishBatch: on success all n claimed rows are published and their events are in the log,
        and n is zero only if every pending row is locked; it fails only for a reason. When all is
        quiet, exactly the first batchSize pending rows disappear. */
    method PublishBatch() returns (n: nat, err: bool, ghost ids: seq<nat>)
      requires Ready() && r !in w.st.bus.relays
      modifies w
      ensures Ready() && r !in w.st.bus.relays && old(w.trace) <= w.trace
      ensures n <= batchSize && (err ==> n == 0 && Excused(ids))
      ensures !err ==> |ids| == n && forall i :: 0 <= i < n ==> Delivered(w.cfg, w.st, ids[i])
      ensures !err && n == 0 && batchSize > 0 ==> AllLocked(w.st.bus)
      ensures Quiet() && old(w.st.bus.relays) == map[] ==> !err && Shrunk(old(Pending(w.st.bus)), ids)
    {
      Pause();
      if down(w.tick) {
        return 0, true, [];
      }
      n, err, ids := ClaimAndSend();
    }

    /** Exactly the first batchSize of the rows in p are gone, and nothing is locked. */
    ghost predicate Shrunk(p: set<nat>, ids: seq<nat>)
      reads w
    {
      w.st.bus.relays == map[] && FirstOf(ids, p, batchSize) && Pending(w.st.bus) == p - Elements(ids)
    }

    /** The transaction of publishBatch, from the SELECT on. */
    method ClaimAndSend() returns (n: nat, err: bool, ghost ids: seq<nat>)
      requires Ready() && r !in w.st.bus.relays
      modifies w
      ensures Ready() && r !in w.st.bus.relays && old(w.trace) <= w.trace
      ensures n <= batchSize && (err ==> n == 0 && Excused(ids))
      ensures !err ==> |ids| == n && forall i :: 0 <= i < n ==> Delivered(w.cfg, w.st, ids[i])
      ensures !err && n == 0 && batchSize > 0 ==> AllLocked(w.st.bus)
      ensures Quiet() && old(w.st.bus.relays) == map[] ==> !err && Shrunk(old(Pending(w.st.bus)), ids)
    {
      var claimed := TakeRows();
      ids := claimed;
      if claimed == [] {
        return 0, false, ids;
      }
      err := FinishBatch(ids);
      n := if err then 0 else |claimed|;
    }

    /** From the Kafka write to COMMIT. */
    method FinishBatch(ghost ids: seq<nat>) returns (err: bool)
      requires Ready() && r in w.st.bus.relays && !w.st.bus.relays[r].sent && w.st.bus.relays[r].ids == ids
      modifies w
      ensures Ready() && r !in w.st.bus.relays && old(w.trace) <= w.trace
      ensures err ==> Excused(ids)
      ensures !err ==> forall i :: 0 <= i < |ids| ==> Delivered(w.cfg, w.st, ids[i])
      ensures Quiet() ==>
                && !err && w.st.bus.relays == old(w.st.bus.relays) - {r}
                && Pending(w.st.bus) == old(Pending(w.st.bus)) - Elements(ids)
    {
      Pause();
      var ok := SendBatch(ids);
      if !ok {
        return true;
      }
      Pause();
      if down(w.tick) {
        w.Relay(Crash(r), w.st.bus.(relays := w.st.bus.relays - {r},
                                    limbo := w.st.bus.limbo + set m | m in w.st.bus.relays[r].messages));
        return true;
      }
      MarkBatch(ids);
      return replyLost(w.tick);
    }

    lemma Marked(ids: seq<nat>)
      requires w.Valid() && CanMark(w.st.bus, r) && w.st.bus.relays[r].ids == ids
      ensures forall i :: 0 <= i < |ids| ==>
                Delivered(w.cfg, w.st.(bus := DoMark(w.st.bus, r)), ids[i])
    {
      w.Holds();
      MarkDelivers(w.cfg, w.st, r);
    }

    // ---------- draining ----------

    lemma RowsKnown()
      requires w.Valid()
      ensures RowsOk(w.cfg, w.st.eng.commits, w.st.bus)
    {
      w.Holds();
    }

    /** loop, while all is quiet: the outbox empties, in exactly ceil(pending / batchSize) non-empty
        batches, each of which leaves fewer rows pending. */
    method Drain() returns (rounds: nat)
      requires Ready() && Quiet() && w.st.bus.relays == map[] && batchSize > 0
      modifies w
      ensures Ready() && old(w.trace) <= w.trace
      ensures Pending(w.st.bus) == {}
      ensures rounds == Rounds(old(|Pending(w.st.bus)|), batchSize)
    {
      rounds := 0;
      var n := NextBatch();
      ghost var pending: nat := old(|Pending(w.st.bus)|);
      while n > 0
        invariant Ready() && w.st.bus.relays == map[] && old(w.trace) <= w.trace
        invariant n == Least(batchSize, pending) && |Pending(w.st.bus)| == pending - n
        invariant rounds + Rounds(pending, batchSize) == Rounds(old(|Pending(w.st.bus)|), batchSize)
        decreases pending
      {
        rounds := rounds + 1;
        pending := pending - n;
        n := NextBatch();
      }
    }

    /** One turn of the loop, while all is quiet. */
    method NextBatch() returns (n: nat)
      requires Ready() && Quiet() && w.st.bus.relays == map[]
      modifies w
      ensures Ready() && w.st.bus.relays == map[] && old(w.trace) <= w.trace
      ensures n == Least(batchSize, old(|Pending(w.st.bus)|)) && |Pending(w.st.bus)| == old(|Pending(w.st.bus)|) - n
    {
      ghost var p := Pending(w.st.bus);
      var m, err, ids := PublishBatch();
      FirstShrinks(p, ids, batchSize);
      n := m;
    }
  }

  // ---------- calm surroundings ----------

  /** Neither commits a new row nor is a step of a relay. */
  predicate Calm(a: S.Action) {
    match a
    case Serve(w) => !w.CommitTx?
    case Relay(r) => r.LateAppend? || r.Cleanup?
    case Book(_) => true
  }

  predicate AllCalm(acts: seq<S.Action>) {
    forall i :: 0 <= i < |acts| ==> Calm(acts[i])
  }

  lemma CalmStep(cfg: Config, s: S.State, a: S.Action)
    requires S.Enabled(cfg, s, a) && Calm(a)
    ensures var b := S.Apply(cfg, s, a).bus; b.relays == s.bus.relays && Pending(b) == Pending(s.bus)
  {
  }

  lemma {:induction false} CalmRun(cfg: Config, s: S.State, acts: seq<S.Action>)
    requires S.Legal(cfg, s, acts) && AllCalm(acts)
    ensures var b := S.Run(cfg, s, acts).bus; b.relays == s.bus.relays && Pending(b) == Pending(s.bus)
    decreases |acts|
  {
    if acts != [] {
      CalmStep(cfg, s, acts[0]);
      CalmRun(cfg, S.Apply(cfg, s, acts[0]), acts[1..]);
    }
  }

  lemma FirstShrinks(p: set<nat>, ids: seq<nat>, limit: nat)
    requires FirstOf(ids, p, limit)
    ensures |ids| == Least(limit, |p|) && |p - Elements(ids)| == |p| - |ids|
  {
    AscendingSize(ids);
    assert Elements(ids) <= p;
  }

  /** What a claim tells: nothing claimed means every pending row is locked, and with nothing locked
      the batch is the first batchSize pending rows. */
  lemma ClaimedRows(cfg: Config, cs: seq<Commit>, b: Bus, r: RelayId, ids: seq<nat>, limit: nat)
    requires CanClaim(b, cs, r, ids, |cs|, limit) && RowsOk(cfg, cs, b)
    ensures |ids| <= limit
    ensures b.relays == map[] ==> FirstOf(ids, Pending(b), limit)
    ensures ids == [] && limit > 0 ==> AllLocked(b)
  {
    if ids == [] && limit > 0 {
      NothingClaimable(cfg, cs, b);
    }
    if b.relays == map[] {
      PendingIsClaimable(cfg, cs, b);
    }
  }

  lemma ClaimLocks(b: Bus, r: RelayId, ids: seq<nat>)
    requires r !in b.relays && forall i :: 0 <= i < |ids| ==> ids[i] in b.outbox
    ensures var b' := DoClaim(b, r, ids);
            && Pending(b') == Pending(b) && b'.relays - {r} == b.relays
            && (ids == [] ==> b' == b)
            && (ids != [] ==> r in b'.relays && !b'.relays[r].sent && b'.relays[r].ids == ids)
  {
  }

  lemma MarkDelivers(cfg: Config, s: S.State, r: RelayId)
    requires CanMark(s.bus, r) && BatchOk(cfg, s.bus, s.bus.relays[r])
    ensures var ids := s.bus.relays[r].ids;
            forall i :: 0 <= i < |ids| ==> Delivered(cfg, s.(bus := DoMark(s.bus, r)), ids[i])
  {
    var batch := s.bus.relays[r];
    forall i | 0 <= i < |batch.ids| ensures Delivered(cfg, s.(bus := DoMark(s.bus, r)), batch.ids[i]) {
      assert Unpublished(s.bus, batch.ids[i]) && s.bus.outbox[batch.ids[i]].message == batch.messages[i];
    }
  }

  /** Every pending row is locked by some relay. */
  ghost predicate AllLocked(b: Bus) {
    forall id :: Unpublished(b, id) ==> Locked(b, id)
  }

  lemma NothingClaimable(cfg: Config, cs: seq<Commit>, b: Bus)
    requires RowsOk(cfg, cs, b) && Claimable(b, cs, |cs|) == {}
    ensures AllLocked(b)
  {
    forall id: nat | Unpublished(b, id) ensures Locked(b, id) {
      ClaimableIs(cfg, cs, b, id);
    }
  }

  lemma MarkedAreGone(b: Bus, r: RelayId)
    requires r in b.relays
    ensures Pending(DoMark(b, r)) == Pending(b) - Elements(b.relays[r].ids)
  {
    var ids := b.relays[r].ids;
    assert forall id :: id in Elements(ids) <==> id in ids;
  }

  function Least(a: nat, b: nat): nat {
    if a <= b then a else b
  }

  /** Non-empty batches until nothing is pending. */
  function Rounds(pending: nat, batch: nat): nat
    requires batch > 0
  {
    if pending == 0 then 0 else 1 + Rounds(pending - Least(batch, pending), batch)
  }

  /** Rounds is the ceiling of pending / batch. */
  lemma {:induction false} RoundsIsCeiling(pending: nat, batch: nat)
    requires batch > 0
    ensures pending <= Rounds(pending, batch) * batch < pending + batch
    decreases pending
  {
    if pending > 0 {
      var rest := pending - Least(batch, pending);
      RoundsIsCeiling(rest, batch);
      assert Rounds(pending, batch) * batch == batch + Rounds(rest, batch) * batch;
    }
  }

  /** The row is published, and its event is in the log. */
  ghost predicate Delivered(cfg: Config, s: S.State, id: nat) {
    id in s.bus.outbox && s.bus.outbox[id].published && InLog(cfg, s.bus.log, s.bus.outbox[id].message)
  }
}
