/** LedgerListener.onEvent and JournalService.post as the code runs: one consumer among any number of
    others, with the environment acting between any two statements. */
module LedgerConsumer {
  import opened Types
  import opened Ledger
  import L = Ledger
  import LedgerInvariant
  import opened World
  import S = System

  /** How the handling of one record ended. */
  datatype Handled = NoRecord | DeadLettered | Duplicate | Posted | Waiting | RolledBack | Unanswered

  class Listener {
    const w: Shared
    const k: ConsumerId
    /** Per tick: the statement about to run fails and the transaction is rolled back. */
    const down: nat -> bool
    /** Per tick: a COMMIT succeeds but its reply is lost. */
    const replyLost: nat -> bool

    constructor (w: Shared, k: ConsumerId, down: nat -> bool, replyLost: nat -> bool)
      ensures this.w == w && this.k == k && this.down == down && this.replyLost == replyLost
    {
      this.w := w;
      this.k := k;
      this.down := down;
      this.replyLost := replyLost;
    }

    ghost predicate Ready()
      reads w
    {
      w.Valid() && Rely(w.cfg, w.env, Reader(k)) && k in w.st.led.consumers
    }

    function Me(): Consumer
      reads w
      requires k in w.st.led.consumers
    {
      w.st.led.consumers[k]
    }

    /** The last thing that happened is this step. */
    ghost predicate Did(a: L.Action)
      reads w
    {
      w.trace != [] && w.trace[|w.trace| - 1] == S.Book(a)
    }

    /** The environment runs, then this consumer's database connection may fail. */
    method Turn() returns (alive: bool)
      requires Ready() && Me().stage.Posting?
      modifies w
      ensures Ready() && old(w.trace) <= w.trace
      ensures alive == !down(w.tick)
      ensures alive ==> Me() == old(Me())
      ensures !alive ==> Me() == old(Me()).(stage := Idle) && Did(Rollback(k))
    {
      w.Interfere(Reader(k));
      alive := !down(w.tick);
      if !alive {
        w.Book(Rollback(k), SetStage(w.st.led, k, Idle));
      }
    }

    /** INSERT INTO ledger.journal_lines, for line i. */
    method InsertRow(entry: Entry, i: nat) returns (alive: bool)
      requires Ready() && i < |entry.lines| && Me().stage == Posting(entry, entry.lines[..i])
      modifies w
      ensures Ready() && old(w.trace) <= w.trace && alive == !down(w.tick)
      ensures alive ==> Me() == old(Me()).(stage := Posting(entry, entry.lines[..i + 1]))
      ensures !alive ==> Me() == old(Me()).(stage := Idle) && Did(Rollback(k))
    {
      alive := Turn();
      if alive {
        assert entry.lines[..i] + [entry.lines[i]] == entry.lines[..i + 1];
        w.Book(InsertLine(k), DoInsertLine(w.st.led, k));
      }
    }

    /** How a transaction that reaches its COMMIT, or fails before it, ends. */
    function Outcome(tick: nat): Handled {
      if down(tick) then RolledBack else if replyLost(tick) then Unanswered else Posted
    }

    /** COMMIT, with the deferred trigger. */
    method CommitEntry(entry: Entry) returns (handled: Handled)
      requires Ready() && Me().stage == Posting(entry, entry.lines)
      modifies w
      ensures Ready() && old(w.trace) <= w.trace && handled == Outcome(w.tick)
      ensures Me() == old(Me()).(pos := old(Me().pos) + if handled.Posted? then 1 else 0, stage := Idle)
      ensures !handled.RolledBack? ==> PostedLast(w.cfg, w.st, Me().part, old(Me().pos))
      ensures handled.RolledBack? ==> Did(Rollback(k))
    {
      var alive := Turn();
      if !alive {
        return RolledBack;
      }
      TriggerAccepts(entry);
      var lost := replyLost(w.tick);
      w.Book(CommitPost(k, lost), DoCommitPost(w.st.led, k, lost));
      return if lost then Unanswered else Posted;
    }

    /** post: the entry row is inserted; now the lines, one INSERT each, and COMMIT. */
    method PostLines(entry: Entry) returns (handled: Handled)
      requires Ready() && Me().stage == Posting(entry, [])
      modifies w
      ensures Ready() && old(w.trace) <= w.trace && handled == Outcome(w.tick)
      ensures Me() == old(Me()).(pos := old(Me().pos) + if handled.Posted? then 1 else 0, stage := Idle)
      ensures !handled.RolledBack? ==> PostedLast(w.cfg, w.st, Me().part, old(Me().pos))
      ensures handled.RolledBack? ==> Did(Rollback(k))
    {
      var i := 0;
      while i < |entry.lines|
        invariant 0 <= i <= |entry.lines| && old(w.trace) <= w.trace
        invariant Ready() && Me() == old(Me()).(stage := Posting(entry, entry.lines[..i]))
      {
        var alive := InsertRow(entry, i);
        if !alive {
          return RolledBack;
        }
        i := i + 1;
      }
      assert entry.lines[..i] == entry.lines;
      handled := CommitEntry(entry);
    }

    /** The deferred trigger never rejects the entry of a relayed event. */
    lemma TriggerAccepts(entry: Entry)
      requires w.Valid() && CanCommitPost(w.st.led, k) && w.st.led.consumers[k].stage.entry == entry
      ensures Balanced(entry) && HasRecord(w.st.bus.log, Me()) && w.cfg.decode(Record(w.st.bus.log, Me())) == Valid(entry)
    {
      w.Holds();
      assert LedgerInvariant.ConsumerOk(w.cfg, w.st.eng.commits, w.st.bus.log, w.st.led.journal, Me());
      LedgerInvariant.CommitPostKeeps(w.cfg, w.st.eng.commits, w.st.bus.log, w.st.led, k, false);
    }

    /** onEvent on the record at the consumer's position. A new event becomes the last journal entry,
        with exactly its own lines; a recorded one is skipped; in both cases the event is journalled
        when the method returns. A record that does not parse goes to the DLQ. Otherwise the position
        stays, for a reason; if only the reply to COMMIT was lost, the event is journalled all the same. */
    method OnEvent() returns (handled: Handled)
      requires Ready() && Me().stage.Idle?
      modifies w
      ensures Ready() && old(w.trace) <= w.trace && Me().stage.Idle? && Me().part == old(Me().part)
      ensures Me().pos == old(Me().pos) + if handled.Posted? || handled.Duplicate? || handled.DeadLettered? then 1 else 0
      ensures handled.Posted? || handled.Duplicate? || handled.Unanswered? ==>
                JournalledAt(w.cfg, w.st, Me().part, old(Me().pos))
      ensures handled.Posted? || handled.Unanswered? ==> PostedLast(w.cfg, w.st, Me().part, old(Me().pos))
      ensures handled.Unanswered? ==> replyLost(w.tick)
      ensures handled.Duplicate? || handled.DeadLettered? ==> Did(StartPost(k))
      ensures handled.NoRecord? ==> !HasRecord(w.st.bus.log, Me())
      ensures handled.Waiting? ==>
                && HasRecord(w.st.bus.log, Me()) && w.cfg.decode(Record(w.st.bus.log, Me())).Valid?
                && BeingPosted(w.st.led, w.cfg.decode(Record(w.st.bus.log, Me())).entry.eventId)
      ensures handled.RolledBack? ==> down(w.tick) && Did(Rollback(k))
      ensures handled.DeadLettered? ==>
                w.st.led.dlq != [] && w.cfg.decode(w.st.led.dlq[|w.st.led.dlq| - 1]).Invalid?
    {
      w.Interfere(Reader(k));
      var l, log := w.st.led, w.st.bus.log;
      if !HasRecord(log, Me()) {
        return NoRecord;
      }
      var parsed := w.cfg.decode(Record(log, Me()));
      if parsed.Invalid? {
        w.Book(StartPost(k), DoStartPost(w.cfg, l, log, k));
        return DeadLettered;
      }
      if Recorded(l.journal, parsed.entry.eventId) {
        w.Book(StartPost(k), DoStartPost(w.cfg, l, log, k));
        return Duplicate;
      }
      if BeingPosted(l, parsed.entry.eventId) {
        return Waiting;
      }
      handled := Post(parsed.entry);
    }

    /** JournalService.post for an event that is not recorded yet. */
    method Post(entry: Entry) returns (handled: Handled)
      requires Ready() && Me().stage.Idle? && HasRecord(w.st.bus.log, Me())
      requires w.cfg.decode(Record(w.st.bus.log, Me())) == Valid(entry)
      requires !Recorded(w.st.led.journal, entry.eventId) && !BeingPosted(w.st.led, entry.eventId)
      modifies w
      ensures Ready() && old(w.trace) <= w.trace && Me().stage.Idle? && Me().part == old(Me().part)
      ensures handled == Outcome(w.tick)
      ensures Me().pos == old(Me().pos) + if handled.Posted? then 1 else 0
      ensures !handled.RolledBack? ==>
                && JournalledAt(w.cfg, w.st, Me().part, old(Me().pos))
                && PostedLast(w.cfg, w.st, Me().part, old(Me().pos))
      ensures handled.RolledBack? ==> Did(Rollback(k))
    {
      w.Book(StartPost(k), DoStartPost(w.cfg, w.st.led, w.st.bus.log, k));
      handled := PostLines(entry);
    }

    /** The container commits the offset after the listener has returned: everything below the new
        offset is journalled, whatever happens to this consumer afterwards. */
    method CommitPosition()
      requires Ready() && Me().stage.Idle?
      modifies w
      ensures Ready() && old(w.trace) <= w.trace && Me() == old(Me())
      ensures OffsetOf(w.st.led, Me().part) == Me().pos
      ensures forall i :: 0 <= i < Me().pos ==> JournalledAt(w.cfg, w.st, Me().part, i)
      ensures w.st == old(w.st).(led := w.st.led) && w.st.led == old(w.st.led).(offsets := w.st.led.offsets)
      ensures forall p :: p != Me().part ==> OffsetOf(w.st.led, p) == OffsetOf(old(w.st.led), p)
    {
      w.Book(CommitOffset(k), DoCommitOffset(w.st.led, k));
      AllBelow();
    }

    lemma AllBelow()
      requires Ready()
      ensures forall i :: 0 <= i < Me().pos ==> JournalledAt(w.cfg, w.st, Me().part, i)
    {
      w.Holds();
      assert LedgerInvariant.ConsumerOk(w.cfg, w.st.eng.commits, w.st.bus.log, w.st.led.journal, Me());
    }
  }

  /** The record at this position is valid and its event has a journal entry. */
  ghost predicate JournalledAt(cfg: Config, s: S.State, part: Partition, pos: nat) {
    && part in s.bus.log && pos < |s.bus.log[part]|
    && var parsed := cfg.decode(s.bus.log[part][pos]);
       parsed.Valid? && Recorded(s.led.journal, parsed.entry.eventId)
  }

  /** The journal's newest entry is the one the record at this position asks for. */
  ghost predicate PostedLast(cfg: Config, s: S.State, part: Partition, pos: nat) {
    && part in s.bus.log && pos < |s.bus.log[part]| && s.led.journal != []
    && cfg.decode(s.bus.log[part][pos]) == Valid(s.led.journal[|s.led.journal| - 1])
  }
}
