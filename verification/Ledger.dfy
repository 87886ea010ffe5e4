/** The ledger's consumers and journal (services/ledger: LedgerListener, JournalService, and the
    tables and triggers of db/migrations/V3__ledger.sql).

    Any number of consumers are assigned partitions, several possibly the same one around a
    rebalance. A consumer starts at the group's committed offset, handles one record at a time,
    and commits its position only after a record is handled. `post` is a database transaction:
    INSERT of the entry (ON CONFLICT DO NOTHING), one INSERT per line, COMMIT with the deferred
    balance trigger. */
module Ledger {
  import opened Types

  type ConsumerId = nat

  /** `rows` are the uncommitted rows of journal_lines inserted so far. */
  datatype Stage = Idle | Posting(entry: Entry, rows: seq<Line>)

  datatype Consumer = Consumer(part: Partition, pos: nat, stage: Stage)

  /** `journal` is journal_entries with the lines of each entry, in commit order. */
  datatype Ledger = Ledger(consumers: map<ConsumerId, Consumer>, offsets: map<Partition, nat>,
                           journal: seq<Entry>, dlq: seq<Message>)

  const INIT := Ledger(map[], map[], [], [])

  datatype Action =
    | Assign(k: ConsumerId, part: Partition)
    | StartPost(k: ConsumerId)
    | InsertLine(k: ConsumerId)
    | CommitPost(k: ConsumerId, replyLost: bool)
    | Rollback(k: ConsumerId)
    | CommitOffset(k: ConsumerId)
    | Stop(k: ConsumerId)

  function OffsetOf(l: Ledger, p: Partition): nat {
    if p in l.offsets then l.offsets[p] else 0
  }

  predicate Recorded(journal: seq<Entry>, eventId: string) {
    exists i :: 0 <= i < |journal| && journal[i].eventId == eventId
  }

  /** An uncommitted entry with this event_id: a second INSERT waits for it. */
  predicate BeingPosted(l: Ledger, eventId: string) {
    exists k :: k in l.consumers && l.consumers[k].stage.Posting? && l.consumers[k].stage.entry.eventId == eventId
  }

  // ---------- the balance trigger ----------

  function Signed(line: Line): int {
    if line.direction == CREDIT then line.amount else -line.amount
  }

  function SumLines(lines: seq<Line>): int {
    if lines == [] then 0 else SumLines(lines[..|lines| - 1]) + Signed(lines[|lines| - 1])
  }

  /** ledger.check_entry_balanced: debits equal credits. */
  predicate Balanced(entry: Entry) {
    SumLines(entry.lines) == 0
  }

  // ---------- the steps ----------

  predicate IsIdle(l: Ledger, k: ConsumerId) {
    k in l.consumers && l.consumers[k].stage.Idle?
  }

  predicate IsPosting(l: Ledger, k: ConsumerId) {
    k in l.consumers && l.consumers[k].stage.Posting?
  }

  function Advance(l: Ledger, k: ConsumerId): Ledger
    requires k in l.consumers
  {
    var c := l.consumers[k];
    l.(consumers := l.consumers[k := c.(pos := c.pos + 1, stage := Idle)])
  }

  function SetStage(l: Ledger, k: ConsumerId, stage: Stage): Ledger
    requires k in l.consumers
  {
    l.(consumers := l.consumers[k := l.consumers[k].(stage := stage)])
  }

  predicate HasRecord(log: map<Partition, seq<Message>>, c: Consumer) {
    c.part in log && c.pos < |log[c.part]|
  }

  function Record(log: map<Partition, seq<Message>>, c: Consumer): Message
    requires HasRecord(log, c)
  {
    log[c.part][c.pos]
  }

  predicate CanStartPost(cfg: Config, l: Ledger, log: map<Partition, seq<Message>>, k: ConsumerId) {
    && IsIdle(l, k) && HasRecord(log, l.consumers[k])
    && var parsed := cfg.decode(Record(log, l.consumers[k]));
       parsed.Valid? && !Recorded(l.journal, parsed.entry.eventId) ==> !BeingPosted(l, parsed.entry.eventId)
  }

  /** onEvent: an invalid message goes to the DLQ, a recorded event is skipped, otherwise the
      entry row is inserted. */
  function DoStartPost(cfg: Config, l: Ledger, log: map<Partition, seq<Message>>, k: ConsumerId): Ledger
    requires IsIdle(l, k) && HasRecord(log, l.consumers[k])
  {
    var m := Record(log, l.consumers[k]);
    match cfg.decode(m)
    case Invalid(_) => Advance(l, k).(dlq := l.dlq + [m])
    case Valid(entry) =>
      if Recorded(l.journal, entry.eventId) then Advance(l, k)
      else SetStage(l, k, Posting(entry, []))
  }

  predicate CanInsertLine(l: Ledger, k: ConsumerId) {
    IsPosting(l, k) && |l.consumers[k].stage.rows| < |l.consumers[k].stage.entry.lines|
  }

  function DoInsertLine(l: Ledger, k: ConsumerId): Ledger
    requires CanInsertLine(l, k)
  {
    var s := l.consumers[k].stage;
    SetStage(l, k, s.(rows := s.rows + [s.entry.lines[|s.rows|]]))
  }

  predicate CanCommitPost(l: Ledger, k: ConsumerId) {
    IsPosting(l, k) && |l.consumers[k].stage.rows| == |l.consumers[k].stage.entry.lines|
  }

  /** COMMIT runs the trigger; an unbalanced entry rolls the transaction back. When the reply is lost
      the listener fails, and the container delivers the same record again. */
  function DoCommitPost(l: Ledger, k: ConsumerId, replyLost: bool): Ledger
    requires CanCommitPost(l, k)
  {
    var entry := l.consumers[k].stage.entry.(lines := l.consumers[k].stage.rows);
    if !Balanced(entry) then SetStage(l, k, Idle)
    else (if replyLost then SetStage(l, k, Idle) else Advance(l, k)).(journal := l.journal + [entry])
  }

  function DoCommitOffset(l: Ledger, k: ConsumerId): Ledger
    requires k in l.consumers
  {
    l.(offsets := l.offsets[l.consumers[k].part := l.consumers[k].pos])
  }

  // ---------- the step function ----------

  ghost predicate Enabled(cfg: Config, l: Ledger, log: map<Partition, seq<Message>>, a: Action) {
    match a
    case Assign(k, part) => k !in l.consumers
    case StartPost(k) => CanStartPost(cfg, l, log, k)
    case InsertLine(k) => CanInsertLine(l, k)
    case CommitPost(k, replyLost) => CanCommitPost(l, k)
    case Rollback(k) => IsPosting(l, k)
    case CommitOffset(k) => IsIdle(l, k)
    case Stop(k) => k in l.consumers
  }

  ghost function Apply(cfg: Config, l: Ledger, log: map<Partition, seq<Message>>, a: Action): Ledger
    requires Enabled(cfg, l, log, a)
  {
    match a
    case Assign(k, part) => l.(consumers := l.consumers[k := Consumer(part, OffsetOf(l, part), Idle)])
    case StartPost(k) => DoStartPost(cfg, l, log, k)
    case InsertLine(k) => DoInsertLine(l, k)
    case CommitPost(k, replyLost) => DoCommitPost(l, k, replyLost)
    case Rollback(k) => SetStage(l, k, Idle)
    case CommitOffset(k) => DoCommitOffset(l, k)
    case Stop(k) => l.(consumers := l.consumers - {k})
  }
}

/** Each relayed event is journalled at most once, with its own lines; everything below a
    committed offset is journalled; nothing relayed is dead-lettered. */
module LedgerInvariant {
  import opened Types
  import opened Bus
  import opened BusInvariant
  import opened Ledger
  import L = Ledger

  type Log = map<Partition, seq<Message>>

  ghost predicate EntryIs(cs: seq<Commit>, entry: Entry) {
    exists i :: 0 <= i < |cs| && entry == EntryOf(cs[i].tx)
  }

  ghost predicate JournalOk(cs: seq<Commit>, journal: seq<Entry>) {
    && (forall i :: 0 <= i < |journal| ==> EntryIs(cs, journal[i]))
    && (forall i, j :: 0 <= i < j < |journal| ==> journal[i].eventId != journal[j].eventId)
  }

  /** The first n records of a partition are all journalled. */
  ghost predicate DoneUpTo(cfg: Config, log: Log, journal: seq<Entry>, p: Partition, n: nat) {
    && n <= |LogOf(log, p)|
    && forall k :: 0 <= k < n ==>
         var parsed := cfg.decode(LogOf(log, p)[k]);
         parsed.Valid? && Recorded(journal, parsed.entry.eventId)
  }

  ghost predicate ConsumerOk(cfg: Config, cs: seq<Commit>, log: Log, journal: seq<Entry>, c: Consumer) {
    && DoneUpTo(cfg, log, journal, c.part, c.pos)
    && (c.stage.Posting? ==>
          && HasRecord(log, c) && cfg.decode(Record(log, c)) == Valid(c.stage.entry)
          && EntryIs(cs, c.stage.entry)
          && !Recorded(journal, c.stage.entry.eventId)
          && c.stage.rows <= c.stage.entry.lines)
  }

  /** Two consumers never post the same event at the same time. */
  ghost predicate PostsApart(l: Ledger) {
    forall k, n :: IsPosting(l, k) && IsPosting(l, n) && k != n ==>
      l.consumers[k].stage.entry.eventId != l.consumers[n].stage.entry.eventId
  }

  ghost predicate Inv(cfg: Config, cs: seq<Commit>, log: Log, l: Ledger) {
    && JournalOk(cs, l.journal)
    && (forall k :: k in l.consumers ==> ConsumerOk(cfg, cs, log, l.journal, l.consumers[k]))
    && PostsApart(l)
    && (forall p :: p in l.offsets ==> DoneUpTo(cfg, log, l.journal, p, l.offsets[p]))
    && l.dlq == []
  }

  lemma InitInv(cfg: Config)
    ensures Inv(cfg, [], map[], L.INIT)
  {
  }

  // ---------- the environment: more commits, a longer log ----------

  lemma DoneKept(cfg: Config, log: Log, log': Log, journal: seq<Entry>, journal': seq<Entry>, p: Partition, n: nat)
    requires DoneUpTo(cfg, log, journal, p, n) && LogGrew(log, log') && journal <= journal'
    ensures DoneUpTo(cfg, log', journal', p, n)
  {
    assert LogOf(log, p) <= LogOf(log', p);
    forall k | 0 <= k < n
      ensures var parsed := cfg.decode(LogOf(log', p)[k]); parsed.Valid? && Recorded(journal', parsed.entry.eventId)
    {
      var eventId := cfg.decode(LogOf(log, p)[k]).entry.eventId;
      var i :| 0 <= i < |journal| && journal[i].eventId == eventId;
      assert journal'[i].eventId == eventId;
    }
  }

  lemma EntryIsKept(cs: seq<Commit>, cs': seq<Commit>, entry: Entry)
    requires EntryIs(cs, entry) && cs <= cs'
    ensures EntryIs(cs', entry)
  {
    var i :| 0 <= i < |cs| && entry == EntryOf(cs[i].tx);
    assert entry == EntryOf(cs'[i].tx);
  }

  lemma WorldGrows(cfg: Config, cs: seq<Commit>, cs': seq<Commit>, log: Log, log': Log, l: Ledger)
    requires Inv(cfg, cs, log, l) && cs <= cs' && LogGrew(log, log')
    ensures Inv(cfg, cs', log', l)
  {
    forall i | 0 <= i < |l.journal| ensures EntryIs(cs', l.journal[i]) {
      EntryIsKept(cs, cs', l.journal[i]);
    }
    forall k | k in l.consumers ensures ConsumerOk(cfg, cs', log', l.journal, l.consumers[k]) {
      var c := l.consumers[k];
      assert ConsumerOk(cfg, cs, log, l.journal, c);
      DoneKept(cfg, log, log', l.journal, l.journal, c.part, c.pos);
      if c.stage.Posting? {
        EntryIsKept(cs, cs', c.stage.entry);
        assert LogOf(log, c.part) <= LogOf(log', c.part);
      }
    }
    forall p | p in l.offsets ensures DoneUpTo(cfg, log', l.journal, p, l.offsets[p]) {
      DoneKept(cfg, log, log', l.journal, l.journal, p, l.offsets[p]);
    }
  }

  // ---------- the actions ----------

  /** A record in the log decodes to the entry of a committed transaction. */
  lemma RecordIsEntry(cfg: Config, cs: seq<Commit>, m: Message)
    requires Faithful(cfg) && (forall i :: 0 <= i < |cs| ==> TxShape(cs[i].tx)) && Relayed(cfg, cs, m)
    ensures cfg.decode(m).Valid? && EntryIs(cs, cfg.decode(m).entry)
  {
    var i :| 0 <= i < |cs| && m == cfg.encode(cs[i]);
    assert cfg.decode(m) == Valid(EntryOf(cs[i].tx));
  }

  lemma AdvanceOk(cfg: Config, cs: seq<Commit>, log: Log, journal: seq<Entry>, c: Consumer)
    requires ConsumerOk(cfg, cs, log, journal, c) && HasRecord(log, c)
    requires cfg.decode(Record(log, c)).Valid? && Recorded(journal, cfg.decode(Record(log, c)).entry.eventId)
    ensures ConsumerOk(cfg, cs, log, journal, c.(pos := c.pos + 1, stage := Idle))
  {
  }

  lemma SetConsumerKeeps(cfg: Config, cs: seq<Commit>, log: Log, l: Ledger, k: ConsumerId, c: Consumer)
    requires Inv(cfg, cs, log, l) && ConsumerOk(cfg, cs, log, l.journal, c)
    requires c.stage.Posting? ==>
               forall n :: IsPosting(l, n) && n != k ==> l.consumers[n].stage.entry.eventId != c.stage.entry.eventId
    ensures Inv(cfg, cs, log, l.(consumers := l.consumers[k := c]))
  {
  }

  /** What StartPost does with a record that decodes. */
  lemma StartPostIs(cfg: Config, l: Ledger, log: Log, k: ConsumerId, entry: Entry)
    requires IsIdle(l, k) && HasRecord(log, l.consumers[k])
    requires cfg.decode(Record(log, l.consumers[k])) == Valid(entry)
    ensures var c := l.consumers[k];
            DoStartPost(cfg, l, log, k) == l.(consumers := l.consumers[k :=
              if Recorded(l.journal, entry.eventId) then c.(pos := c.pos + 1, stage := Idle)
              else c.(stage := Posting(entry, []))])
  {
  }

  lemma StartPostKeeps(cfg: Config, cs: seq<Commit>, log: Log, l: Ledger, k: ConsumerId)
    requires Inv(cfg, cs, log, l) && CanStartPost(cfg, l, log, k)
    requires Faithful(cfg) && (forall i :: 0 <= i < |cs| ==> TxShape(cs[i].tx)) && LogOk(cfg, cs, log)
    ensures Inv(cfg, cs, log, DoStartPost(cfg, l, log, k))
  {
    var c := l.consumers[k];
    RecordIsEntry(cfg, cs, Record(log, c));
    StartPostStep(cfg, cs, log, l, k, cfg.decode(Record(log, c)).entry);
  }

  lemma StartPostStep(cfg: Config, cs: seq<Commit>, log: Log, l: Ledger, k: ConsumerId, entry: Entry)
    requires Inv(cfg, cs, log, l) && CanStartPost(cfg, l, log, k)
    requires cfg.decode(Record(log, l.consumers[k])) == Valid(entry) && EntryIs(cs, entry)
    ensures Inv(cfg, cs, log, DoStartPost(cfg, l, log, k))
  {
    var c := l.consumers[k];
    StartPostIs(cfg, l, log, k, entry);
    if Recorded(l.journal, entry.eventId) {
      AdvanceOk(cfg, cs, log, l.journal, c);
      SetConsumerKeeps(cfg, cs, log, l, k, c.(pos := c.pos + 1, stage := Idle));
    } else {
      SetConsumerKeeps(cfg, cs, log, l, k, c.(stage := Posting(entry, [])));
    }
  }

  lemma EntryBalances(tx: Tx)
    ensures Balanced(EntryOf(tx))
  {
    SumOfTwo(LinesOf(tx)[0], LinesOf(tx)[1]);
  }

  lemma SumOfTwo(a: Line, b: Line)
    ensures SumLines([a, b]) == Signed(a) + Signed(b)
  {
    assert [a, b][..1] == [a];
    assert SumLines([a]) == SumLines([]) + Signed(a);
  }

  /** The deferred trigger accepts every entry of a committed transaction. */
  lemma EntryIsBalanced(cs: seq<Commit>, entry: Entry)
    requires EntryIs(cs, entry)
    ensures Balanced(entry)
  {
    var i :| 0 <= i < |cs| && entry == EntryOf(cs[i].tx);
    EntryBalances(cs[i].tx);
  }

  /** Another consumer's committed entry leaves this consumer as it was. */
  lemma ConsumerKept(cfg: Config, cs: seq<Commit>, log: Log, journal: seq<Entry>, entry: Entry, c: Consumer)
    requires ConsumerOk(cfg, cs, log, journal, c)
    requires c.stage.Posting? ==> c.stage.entry.eventId != entry.eventId
    ensures ConsumerOk(cfg, cs, log, journal + [entry], c)
  {
    DoneKept(cfg, log, log, journal, journal + [entry], c.part, c.pos);
  }

  lemma JournalGrows(cs: seq<Commit>, journal: seq<Entry>, entry: Entry)
    requires JournalOk(cs, journal) && EntryIs(cs, entry) && !Recorded(journal, entry.eventId)
    ensures JournalOk(cs, journal + [entry]) && Recorded(journal + [entry], entry.eventId)
  {
    assert (journal + [entry])[|journal|].eventId == entry.eventId;
  }

  /** After COMMIT the poster is idle, at the next record or, its reply lost, at the same one. */
  ghost predicate AfterPost(c: Consumer, c': Consumer) {
    c' == c.(pos := c'.pos, stage := Idle) && c.pos <= c'.pos <= c.pos + 1
  }

  lemma PosterOk(cfg: Config, cs: seq<Commit>, log: Log, journal: seq<Entry>, c: Consumer, c': Consumer)
    requires ConsumerOk(cfg, cs, log, journal, c) && c.stage.Posting? && AfterPost(c, c')
    requires Recorded(journal + [c.stage.entry], c.stage.entry.eventId)
    ensures ConsumerOk(cfg, cs, log, journal + [c.stage.entry], c')
  {
    var journal' := journal + [c.stage.entry];
    DoneKept(cfg, log, log, journal, journal', c.part, c.pos);
    AdvanceOk(cfg, cs, log, journal', c.(stage := Idle));
  }

  lemma CommitPostKeeps(cfg: Config, cs: seq<Commit>, log: Log, l: Ledger, k: ConsumerId, replyLost: bool)
    requires Inv(cfg, cs, log, l) && CanCommitPost(l, k)
    ensures Balanced(l.consumers[k].stage.entry) && l.consumers[k].stage.rows == l.consumers[k].stage.entry.lines
    ensures Inv(cfg, cs, log, DoCommitPost(l, k, replyLost))
  {
    var c := l.consumers[k];
    assert ConsumerOk(cfg, cs, log, l.journal, c);
    EntryIsBalanced(cs, c.stage.entry);
    var c' := PostIs(l, k, replyLost);
    JournalGrows(cs, l.journal, c.stage.entry);
    PostedKeeps(cfg, cs, log, l, k, c');
  }

  /** What COMMIT does when all lines are in and balance. */
  lemma PostIs(l: Ledger, k: ConsumerId, replyLost: bool) returns (c': Consumer)
    requires CanCommitPost(l, k) && Balanced(l.consumers[k].stage.entry)
    requires l.consumers[k].stage.rows <= l.consumers[k].stage.entry.lines
    ensures l.consumers[k].stage.rows == l.consumers[k].stage.entry.lines && AfterPost(l.consumers[k], c')
    ensures DoCommitPost(l, k, replyLost)
              == l.(consumers := l.consumers[k := c'], journal := l.journal + [l.consumers[k].stage.entry])
  {
    var c := l.consumers[k];
    assert c.stage.entry.(lines := c.stage.rows) == c.stage.entry;
    c' := if replyLost then c.(stage := Idle) else c.(pos := c.pos + 1, stage := Idle);
  }

  lemma PostedConsumerOk(cfg: Config, cs: seq<Commit>, log: Log, l: Ledger, k: ConsumerId, c': Consumer, n: ConsumerId)
    requires IsPosting(l, k) && n in l.consumers && PostsApart(l) && AfterPost(l.consumers[k], c')
    requires ConsumerOk(cfg, cs, log, l.journal, l.consumers[k]) && ConsumerOk(cfg, cs, log, l.journal, l.consumers[n])
    requires var entry := l.consumers[k].stage.entry; Recorded(l.journal + [entry], entry.eventId)
    ensures ConsumerOk(cfg, cs, log, l.journal + [l.consumers[k].stage.entry], l.consumers[k := c'][n])
  {
    if n == k {
      PosterOk(cfg, cs, log, l.journal, l.consumers[k], c');
    } else {
      ConsumerKept(cfg, cs, log, l.journal, l.consumers[k].stage.entry, l.consumers[n]);
    }
  }

  lemma PostedKeeps(cfg: Config, cs: seq<Commit>, log: Log, l: Ledger, k: ConsumerId, c': Consumer)
    requires Inv(cfg, cs, log, l) && IsPosting(l, k) && AfterPost(l.consumers[k], c')
    requires var entry := l.consumers[k].stage.entry;
             JournalOk(cs, l.journal + [entry]) && Recorded(l.journal + [entry], entry.eventId)
    ensures Inv(cfg, cs, log, l.(consumers := l.consumers[k := c'], journal := l.journal + [l.consumers[k].stage.entry]))
  {
    var entry := l.consumers[k].stage.entry;
    var l' := l.(consumers := l.consumers[k := c'], journal := l.journal + [entry]);
    forall n | n in l'.consumers ensures ConsumerOk(cfg, cs, log, l'.journal, l'.consumers[n]) {
      PostedConsumerOk(cfg, cs, log, l, k, c', n);
    }
    assert PostsApart(l');
    forall p | p in l'.offsets ensures DoneUpTo(cfg, log, l'.journal, p, l'.offsets[p]) {
      DoneKept(cfg, log, log, l.journal, l'.journal, p, l.offsets[p]);
    }
  }

  lemma AssignKeeps(cfg: Config, cs: seq<Commit>, log: Log, l: Ledger, k: ConsumerId, part: Partition)
    requires Inv(cfg, cs, log, l)
    ensures Inv(cfg, cs, log, l.(consumers := l.consumers[k := Consumer(part, OffsetOf(l, part), Idle)]))
  {
    SetConsumerKeeps(cfg, cs, log, l, k, Consumer(part, OffsetOf(l, part), Idle));
  }

  lemma InsertLineKeeps(cfg: Config, cs: seq<Commit>, log: Log, l: Ledger, k: ConsumerId)
    requires Inv(cfg, cs, log, l) && CanInsertLine(l, k)
    ensures Inv(cfg, cs, log, DoInsertLine(l, k))
  {
    var c := l.consumers[k];
    SetConsumerKeeps(cfg, cs, log, l, k, c.(stage := c.stage.(rows := c.stage.rows + [c.stage.entry.lines[|c.stage.rows|]])));
  }

  lemma RollbackKeeps(cfg: Config, cs: seq<Commit>, log: Log, l: Ledger, k: ConsumerId)
    requires Inv(cfg, cs, log, l) && k in l.consumers
    ensures Inv(cfg, cs, log, SetStage(l, k, Idle))
  {
    SetConsumerKeeps(cfg, cs, log, l, k, l.consumers[k].(stage := Idle));
  }

  lemma CommitOffsetKeeps(cfg: Config, cs: seq<Commit>, log: Log, l: Ledger, k: ConsumerId)
    requires Inv(cfg, cs, log, l) && k in l.consumers
    ensures Inv(cfg, cs, log, DoCommitOffset(l, k))
  {
    assert ConsumerOk(cfg, cs, log, l.journal, l.consumers[k]);
  }

  lemma StopKeeps(cfg: Config, cs: seq<Commit>, log: Log, l: Ledger, k: ConsumerId)
    requires Inv(cfg, cs, log, l)
    ensures Inv(cfg, cs, log, l.(consumers := l.consumers - {k}))
  {
  }

  lemma ActionKeeps(cfg: Config, cs: seq<Commit>, log: Log, l: Ledger, a: L.Action)
    requires Inv(cfg, cs, log, l) && L.Enabled(cfg, l, log, a)
    requires Faithful(cfg) && (forall i :: 0 <= i < |cs| ==> TxShape(cs[i].tx)) && LogOk(cfg, cs, log)
    ensures Inv(cfg, cs, log, L.Apply(cfg, l, log, a))
  {
    match a
    case Assign(k, part) => AssignKeeps(cfg, cs, log, l, k, part);
    case StartPost(k) => StartPostKeeps(cfg, cs, log, l, k);
    case InsertLine(k) => InsertLineKeeps(cfg, cs, log, l, k);
    case CommitPost(k, replyLost) => CommitPostKeeps(cfg, cs, log, l, k, replyLost);
    case Rollback(k) => RollbackKeeps(cfg, cs, log, l, k);
    case CommitOffset(k) => CommitOffsetKeeps(cfg, cs, log, l, k);
    case Stop(k) => StopKeeps(cfg, cs, log, l, k);
  }

  /** The journal is append-only: no action changes or removes an entry or a line. */
  lemma JournalOnlyGrows(cfg: Config, l: Ledger, log: Log, a: L.Action)
    requires L.Enabled(cfg, l, log, a)
    ensures l.journal <= L.Apply(cfg, l, log, a).journal
  {
  }
}
