/** The system can always be drained: from every reachable state there is a continuation without any new
    commit after which the outbox is published and the ledger has caught up. */
module Draining {
  import opened Types
  import Bus
  import opened BusInvariant
  import L = Ledger
  import LedgerInvariant
  import S = System
  import T = Theorems

  type Log = map<Partition, seq<Message>>

  // ---------- runs of the relays alone, and of the ledger alone ----------

  ghost predicate Relaying(cfg: Config, cs: seq<Commit>, b: Bus.Bus, rs: seq<Bus.Action>, b': Bus.Bus)
    decreases |rs|
  {
    if rs == [] then b' == b
    else Bus.Enabled(b, cs, rs[0]) && Relaying(cfg, cs, Bus.Apply(cfg, b, cs, rs[0]), rs[1..], b')
  }

  ghost predicate Booking(cfg: Config, log: Log, l: L.Ledger, bs: seq<L.Action>, l': L.Ledger)
    decreases |bs|
  {
    if bs == [] then l' == l
    else L.Enabled(cfg, l, log, bs[0]) && Booking(cfg, log, L.Apply(cfg, l, log, bs[0]), bs[1..], l')
  }

  /** The relays can take the bus from b to b'. */
  ghost predicate Relays(cfg: Config, cs: seq<Commit>, b: Bus.Bus, b': Bus.Bus) {
    exists rs :: Relaying(cfg, cs, b, rs, b')
  }

  /** The consumers can take the ledger from l to l'. */
  ghost predicate Books(cfg: Config, log: Log, l: L.Ledger, l': L.Ledger) {
    exists bs :: Booking(cfg, log, l, bs, l')
  }

  lemma {:induction false} RelayingAppends(cfg: Config, cs: seq<Commit>, b: Bus.Bus, rs: seq<Bus.Action>, b1: Bus.Bus,
                                           more: seq<Bus.Action>, b': Bus.Bus)
    requires Relaying(cfg, cs, b, rs, b1) && Relaying(cfg, cs, b1, more, b')
    ensures Relaying(cfg, cs, b, rs + more, b')
    decreases |rs|
  {
    if rs == [] {
      assert rs + more == more;
    } else {
      assert (rs + more)[1..] == rs[1..] + more;
      RelayingAppends(cfg, cs, Bus.Apply(cfg, b, cs, rs[0]), rs[1..], b1, more, b');
    }
  }

  lemma {:induction false} BookingAppends(cfg: Config, log: Log, l: L.Ledger, bs: seq<L.Action>,
                                          l1: L.Ledger, more: seq<L.Action>, l': L.Ledger)
    requires Booking(cfg, log, l, bs, l1) && Booking(cfg, log, l1, more, l')
    ensures Booking(cfg, log, l, bs + more, l')
    decreases |bs|
  {
    if bs == [] {
      assert bs + more == more;
    } else {
      assert (bs + more)[1..] == bs[1..] + more;
      BookingAppends(cfg, log, L.Apply(cfg, l, log, bs[0]), bs[1..], l1, more, l');
    }
  }

  lemma RelaysThen(cfg: Config, cs: seq<Commit>, b: Bus.Bus, b1: Bus.Bus, b': Bus.Bus)
    requires Relays(cfg, cs, b, b1) && Relays(cfg, cs, b1, b')
    ensures Relays(cfg, cs, b, b')
  {
    var rs :| Relaying(cfg, cs, b, rs, b1);
    var more :| Relaying(cfg, cs, b1, more, b');
    RelayingAppends(cfg, cs, b, rs, b1, more, b');
  }

  lemma BooksThen(cfg: Config, log: Log, l: L.Ledger, l1: L.Ledger, l': L.Ledger)
    requires Books(cfg, log, l, l1) && Books(cfg, log, l1, l')
    ensures Books(cfg, log, l, l')
  {
    var bs :| Booking(cfg, log, l, bs, l1);
    var more :| Booking(cfg, log, l1, more, l');
    BookingAppends(cfg, log, l, bs, l1, more, l');
  }

  lemma RelayStays(cfg: Config, cs: seq<Commit>, b: Bus.Bus)
    ensures Relays(cfg, cs, b, b)
  {
    assert Relaying(cfg, cs, b, [], b);
  }

  lemma BookStays(cfg: Config, log: Log, l: L.Ledger)
    ensures Books(cfg, log, l, l)
  {
    assert Booking(cfg, log, l, [], l);
  }

  lemma RelayStep(cfg: Config, cs: seq<Commit>, b: Bus.Bus, r: Bus.Action)
    requires Bus.Enabled(b, cs, r)
    ensures Relays(cfg, cs, b, Bus.Apply(cfg, b, cs, r))
  {
    assert [r][1..] == [];
    assert Relaying(cfg, cs, b, [r], Bus.Apply(cfg, b, cs, r));
  }

  lemma BookStep(cfg: Config, log: Log, l: L.Ledger, a: L.Action)
    requires L.Enabled(cfg, l, log, a)
    ensures Books(cfg, log, l, L.Apply(cfg, l, log, a))
  {
    assert [a][1..] == [];
    assert Booking(cfg, log, l, [a], L.Apply(cfg, l, log, a));
  }

  // ---------- publishing what is pending ----------

  lemma Smaller<K, V>(m: map<K, V>, k: K)
    requires k in m
    ensures |m - {k}| < |m|
  {
    assert (m - {k}).Keys == m.Keys - {k};
    assert |(m - {k}).Keys| == |m.Keys| - 1;
  }

  /** A relay that stops releases its rows. */
  lemma {:induction false} StopRelays(cfg: Config, cs: seq<Commit>, b: Bus.Bus) returns (b': Bus.Bus)
    ensures Relays(cfg, cs, b, b') && b'.relays == map[] && b'.outbox == b.outbox
    decreases |b.relays|
  {
    if r :| r in b.relays {
      var b1 := Bus.Apply(cfg, b, cs, Bus.Crash(r));
      RelayStep(cfg, cs, b, Bus.Crash(r));
      Smaller(b.relays, r);
      b' := StopRelays(cfg, cs, b1);
      RelaysThen(cfg, cs, b, b1, b');
    } else {
      RelayStays(cfg, cs, b);
      b' := b;
    }
  }

  lemma {:induction false} Smallest(s: set<nat>) returns (x: nat)
    requires s != {}
    ensures x in s && forall y :: y in s ==> x <= y
    decreases s
  {
    var z :| z in s;
    x := z;
    if s != {z} {
      var y := Smallest(s - {z});
      x := if y < z then y else z;
      assert forall v :: v in s ==> v == z || v in s - {z};
    }
  }

  lemma ClaimFirst(cfg: Config, cs: seq<Commit>, b: Bus.Bus, x: nat)
    requires RowsOk(cfg, cs, b) && b.relays == map[]
    requires x in Pending(b) && forall y :: y in Pending(b) ==> x <= y
    ensures Bus.CanClaim(b, cs, 0, [x], |cs|, 1)
  {
    PendingIsClaimable(cfg, cs, b);
    assert Pending(b) == (Pending(b) - {x}) + {x};
  }

  /** Claim, publish and mark one row. */
  lemma ThreeSteps(cfg: Config, cs: seq<Commit>, b: Bus.Bus, x: nat) returns (b': Bus.Bus)
    requires Bus.CanClaim(b, cs, 0, [x], |cs|, 1) && b.relays == map[] && x in b.outbox
    ensures Relays(cfg, cs, b, b') && b'.relays == map[]
    ensures b'.outbox == b.outbox[x := b.outbox[x].(published := true)]
  {
    var b1 := Bus.Apply(cfg, b, cs, Bus.Claim(0, [x], |cs|, 1));
    RelayStep(cfg, cs, b, Bus.Claim(0, [x], |cs|, 1));
    var b2 := Bus.Apply(cfg, b1, cs, Bus.Publish(0, [0], true));
    RelayStep(cfg, cs, b1, Bus.Publish(0, [0], true));
    b' := Bus.Apply(cfg, b2, cs, Bus.Mark(0));
    RelayStep(cfg, cs, b2, Bus.Mark(0));
    RelaysThen(cfg, cs, b, b1, b2);
    RelaysThen(cfg, cs, b, b2, b');
  }

  lemma PublishedRow(cfg: Config, cs: seq<Commit>, b: Bus.Bus, b': Bus.Bus, x: nat)
    requires RowsOk(cfg, cs, b) && x in Pending(b) && b'.outbox == b.outbox[x := b.outbox[x].(published := true)]
    ensures RowsOk(cfg, cs, b') && |Pending(b')| < |Pending(b)|
  {
    assert Pending(b') == Pending(b) - {x};
  }

  /** One row goes from the outbox into the log. */
  lemma PublishFirst(cfg: Config, cs: seq<Commit>, b: Bus.Bus) returns (b': Bus.Bus)
    requires RowsOk(cfg, cs, b) && b.relays == map[] && Pending(b) != {}
    ensures Relays(cfg, cs, b, b') && b'.relays == map[] && RowsOk(cfg, cs, b')
    ensures |Pending(b')| < |Pending(b)|
  {
    var x := Smallest(Pending(b));
    ClaimFirst(cfg, cs, b, x);
    b' := ThreeSteps(cfg, cs, b, x);
    PublishedRow(cfg, cs, b, b', x);
  }

  lemma {:induction false} PublishAll(cfg: Config, cs: seq<Commit>, b: Bus.Bus) returns (b': Bus.Bus)
    requires RowsOk(cfg, cs, b) && b.relays == map[]
    ensures Relays(cfg, cs, b, b') && Pending(b') == {}
    decreases |Pending(b)|
  {
    if Pending(b) == {} {
      RelayStays(cfg, cs, b);
      b' := b;
    } else {
      var b1 := PublishFirst(cfg, cs, b);
      b' := PublishAll(cfg, cs, b1);
      RelaysThen(cfg, cs, b, b1, b');
    }
  }

  lemma DrainBus(cfg: Config, cs: seq<Commit>, b: Bus.Bus) returns (b': Bus.Bus)
    requires RowsOk(cfg, cs, b)
    ensures Relays(cfg, cs, b, b') && Pending(b') == {}
  {
    var b1 := StopRelays(cfg, cs, b);
    b' := PublishAll(cfg, cs, b1);
    RelaysThen(cfg, cs, b, b1, b');
  }

  // ---------- the ledger catches up ----------

  /** What the ledger finds in the log: events of committed transactions. */
  ghost predicate Fed(cfg: Config, cs: seq<Commit>, log: Log) {
    Faithful(cfg) && (forall i :: 0 <= i < |cs| ==> TxShape(cs[i].tx)) && LogOk(cfg, cs, log)
  }

  ghost predicate Fine(cfg: Config, cs: seq<Commit>, log: Log, l: L.Ledger) {
    Fed(cfg, cs, log) && LedgerInvariant.Inv(cfg, cs, log, l)
  }

  lemma {:induction false} BookingKeeps(cfg: Config, cs: seq<Commit>, log: Log, l: L.Ledger, bs: seq<L.Action>, l': L.Ledger)
    requires Fine(cfg, cs, log, l) && Booking(cfg, log, l, bs, l')
    ensures Fine(cfg, cs, log, l')
    decreases |bs|
  {
    if bs != [] {
      LedgerInvariant.ActionKeeps(cfg, cs, log, l, bs[0]);
      BookingKeeps(cfg, cs, log, L.Apply(cfg, l, log, bs[0]), bs[1..], l');
    }
  }

  lemma BooksKeeps(cfg: Config, cs: seq<Commit>, log: Log, l: L.Ledger, l': L.Ledger)
    requires Fine(cfg, cs, log, l) && Books(cfg, log, l, l')
    ensures Fine(cfg, cs, log, l')
  {
    var bs :| Booking(cfg, log, l, bs, l');
    BookingKeeps(cfg, cs, log, l, bs, l');
  }

  lemma {:induction false} StopConsumers(cfg: Config, log: Log, l: L.Ledger) returns (l': L.Ledger)
    ensures Books(cfg, log, l, l') && l'.consumers == map[]
    decreases |l.consumers|
  {
    if k :| k in l.consumers {
      var l1 := L.Apply(cfg, l, log, L.Stop(k));
      BookStep(cfg, log, l, L.Stop(k));
      Smaller(l.consumers, k);
      l' := StopConsumers(cfg, log, l1);
      BooksThen(cfg, log, l, l1, l');
    } else {
      BookStays(cfg, log, l);
      l' := l;
    }
  }

  /** The ledger with this one consumer. */
  ghost function Alone(l: L.Ledger, c: L.Consumer): L.Ledger {
    l.(consumers := map[0 := c])
  }

  lemma {:induction false} InsertAll(cfg: Config, log: Log, l: L.Ledger, c: L.Consumer, entry: Entry, n: nat)
    requires n <= |entry.lines| && c.stage == L.Posting(entry, [])
    ensures Books(cfg, log, Alone(l, c), Alone(l, c.(stage := L.Posting(entry, entry.lines[..n]))))
  {
    if n == 0 {
      assert entry.lines[..0] == [];
      BookStays(cfg, log, Alone(l, c));
    } else {
      InsertAll(cfg, log, l, c, entry, n - 1);
      var l1 := Alone(l, c.(stage := L.Posting(entry, entry.lines[..n - 1])));
      var l2 := Alone(l, c.(stage := L.Posting(entry, entry.lines[..n])));
      BookStep(cfg, log, l1, L.InsertLine(0));
      assert entry.lines[..n - 1] + [entry.lines[n - 1]] == entry.lines[..n];
      assert L.Apply(cfg, l1, log, L.InsertLine(0)) == l2;
      BooksThen(cfg, log, Alone(l, c), l1, l2);
    }
  }

  lemma CommitAlone(cfg: Config, log: Log, l: L.Ledger, c: L.Consumer, entry: Entry)
    requires c.stage == L.Posting(entry, entry.lines) && L.Balanced(entry)
    ensures Books(cfg, log, Alone(l, c), Alone(l, c.(pos := c.pos + 1, stage := L.Idle)).(journal := l.journal + [entry]))
  {
    assert entry.(lines := entry.lines) == entry;
    BookStep(cfg, log, Alone(l, c), L.CommitPost(0, false));
    assert L.Apply(cfg, Alone(l, c), log, L.CommitPost(0, false))
        == Alone(l, c.(pos := c.pos + 1, stage := L.Idle)).(journal := l.journal + [entry]);
  }

  lemma EntryBeingPostedBalances(cfg: Config, cs: seq<Commit>, log: Log, l: L.Ledger, c: L.Consumer)
    requires Fine(cfg, cs, log, Alone(l, c)) && c.stage.Posting?
    ensures L.Balanced(c.stage.entry)
  {
    assert LedgerInvariant.ConsumerOk(cfg, cs, log, l.journal, Alone(l, c).consumers[0]);
    LedgerInvariant.EntryIsBalanced(cs, c.stage.entry);
  }

  /** A new event: its entry is posted, and the consumer stands behind its record. */
  lemma PostNew(cfg: Config, log: Log, l: L.Ledger, c: L.Consumer, entry: Entry)
    requires c.stage == L.Posting(entry, []) && L.Balanced(entry)
    ensures Books(cfg, log, Alone(l, c), Alone(l, c.(pos := c.pos + 1, stage := L.Idle)).(journal := l.journal + [entry]))
  {
    InsertAll(cfg, log, l, c, entry, |entry.lines|);
    assert entry.lines[..|entry.lines|] == entry.lines;
    var c1 := c.(stage := L.Posting(entry, entry.lines));
    CommitAlone(cfg, log, l, c1, entry);
    BooksThen(cfg, log, Alone(l, c), Alone(l, c1),
              Alone(l, c.(pos := c.pos + 1, stage := L.Idle)).(journal := l.journal + [entry]));
  }

  /** What handling a record starts with: skipping it, or posting its entry. */
  ghost function Started(l: L.Ledger, c: L.Consumer, entry: Entry): L.Consumer {
    if L.Recorded(l.journal, entry.eventId) then c.(pos := c.pos + 1) else c.(stage := L.Posting(entry, []))
  }

  lemma StartAlone(cfg: Config, log: Log, l: L.Ledger, c: L.Consumer, entry: Entry)
    requires c.stage.Idle? && L.HasRecord(log, c) && cfg.decode(L.Record(log, c)) == Valid(entry)
    ensures Books(cfg, log, Alone(l, c), Alone(l, Started(l, c, entry)))
  {
    LedgerInvariant.StartPostIs(cfg, Alone(l, c), log, 0, entry);
    assert !L.BeingPosted(Alone(l, c), entry.eventId);
    BookStep(cfg, log, Alone(l, c), L.StartPost(0));
    assert L.DoStartPost(cfg, Alone(l, c), log, 0).consumers == map[0 := Started(l, c, entry)];
  }

  /** A record is handled: posted, or skipped as a duplicate. */
  lemma Handle(cfg: Config, cs: seq<Commit>, log: Log, l: L.Ledger, c: L.Consumer) returns (journal: seq<Entry>)
    requires Fine(cfg, cs, log, Alone(l, c)) && c.stage.Idle? && L.HasRecord(log, c)
    ensures Books(cfg, log, Alone(l, c), Alone(l, c.(pos := c.pos + 1)).(journal := journal))
  {
    LedgerInvariant.RecordIsEntry(cfg, cs, L.Record(log, c));
    var entry := cfg.decode(L.Record(log, c)).entry;
    StartAlone(cfg, log, l, c, entry);
    if L.Recorded(l.journal, entry.eventId) {
      journal := l.journal;
      assert Alone(l, c.(pos := c.pos + 1)).(journal := journal) == Alone(l, c.(pos := c.pos + 1));
    } else {
      journal := l.journal + [entry];
      var c1 := c.(stage := L.Posting(entry, []));
      BooksKeeps(cfg, cs, log, Alone(l, c), Alone(l, c1));
      EntryBeingPostedBalances(cfg, cs, log, l, c1);
      PostNew(cfg, log, l, c1, entry);
      assert c1.(pos := c1.pos + 1, stage := L.Idle) == c.(pos := c.pos + 1);
      BooksThen(cfg, log, Alone(l, c), Alone(l, c1), Alone(l, c.(pos := c.pos + 1)).(journal := journal));
    }
  }

  lemma AssignAlone(cfg: Config, log: Log, l: L.Ledger, p: Partition)
    requires l.consumers == map[]
    ensures Books(cfg, log, l, Alone(l, L.Consumer(p, L.OffsetOf(l, p), L.Idle)))
  {
    BookStep(cfg, log, l, L.Assign(0, p));
    assert L.Apply(cfg, l, log, L.Assign(0, p)) == Alone(l, L.Consumer(p, L.OffsetOf(l, p), L.Idle));
  }

  lemma CommitAndStop(cfg: Config, log: Log, l: L.Ledger) returns (l': L.Ledger)
    requires l.consumers.Keys == {0} && l.consumers[0].stage.Idle?
    ensures Books(cfg, log, l, l') && l'.consumers == map[]
    ensures l'.offsets == l.offsets[l.consumers[0].part := l.consumers[0].pos]
  {
    var l1 := L.Apply(cfg, l, log, L.CommitOffset(0));
    BookStep(cfg, log, l, L.CommitOffset(0));
    l' := L.Apply(cfg, l1, log, L.Stop(0));
    BookStep(cfg, log, l1, L.Stop(0));
    BooksThen(cfg, log, l, l1, l');
  }

  /** The committed offset of one partition moves one record ahead. */
  lemma BookOne(cfg: Config, cs: seq<Commit>, log: Log, l: L.Ledger, p: Partition) returns (l': L.Ledger)
    requires Fine(cfg, cs, log, l) && l.consumers == map[] && p in log && L.OffsetOf(l, p) < |log[p]|
    ensures Books(cfg, log, l, l') && l'.consumers == map[] && l'.offsets == l.offsets[p := L.OffsetOf(l, p) + 1]
  {
    var c := L.Consumer(p, L.OffsetOf(l, p), L.Idle);
    AssignAlone(cfg, log, l, p);
    BooksKeeps(cfg, cs, log, l, Alone(l, c));
    var journal := Handle(cfg, cs, log, l, c);
    var l1 := Alone(l, c.(pos := c.pos + 1)).(journal := journal);
    BooksThen(cfg, log, l, Alone(l, c), l1);
    l' := CommitAndStop(cfg, log, l1);
    BooksThen(cfg, log, l, l1, l');
  }

  lemma OffsetInLog(cfg: Config, cs: seq<Commit>, log: Log, l: L.Ledger, p: Partition)
    requires Fine(cfg, cs, log, l) && p in log
    ensures L.OffsetOf(l, p) <= |log[p]|
  {
    assert p in l.offsets ==> LedgerInvariant.DoneUpTo(cfg, log, l.journal, p, l.offsets[p]);
  }

  /** One partition is read to its end; the others' offsets stay. */
  lemma {:induction false} BookPartition(cfg: Config, cs: seq<Commit>, log: Log, l: L.Ledger, p: Partition)
    returns (l': L.Ledger)
    requires Fine(cfg, cs, log, l) && l.consumers == map[] && p in log && L.OffsetOf(l, p) <= |log[p]|
    ensures Books(cfg, log, l, l') && l'.consumers == map[] && L.OffsetOf(l', p) == |log[p]|
    ensures forall q :: q != p ==> L.OffsetOf(l', q) == L.OffsetOf(l, q)
    decreases |log[p]| - L.OffsetOf(l, p)
  {
    if L.OffsetOf(l, p) == |log[p]| {
      BookStays(cfg, log, l);
      l' := l;
    } else {
      var l1 := BookOne(cfg, cs, log, l, p);
      BooksKeeps(cfg, cs, log, l, l1);
      l' := BookPartition(cfg, cs, log, l1, p);
      BooksThen(cfg, log, l, l1, l');
    }
  }

  ghost predicate CaughtUp(log: Log, l: L.Ledger, ps: set<Partition>) {
    forall p :: p in ps && p in log ==> L.OffsetOf(l, p) == |log[p]|
  }

  lemma {:induction false} BookAll(cfg: Config, cs: seq<Commit>, log: Log, l: L.Ledger, ps: set<Partition>)
    returns (l': L.Ledger)
    requires Fine(cfg, cs, log, l) && l.consumers == map[] && ps <= log.Keys && CaughtUp(log, l, log.Keys - ps)
    ensures Books(cfg, log, l, l') && CaughtUp(log, l', log.Keys)
    decreases ps
  {
    if p :| p in ps {
      OffsetInLog(cfg, cs, log, l, p);
      var l1 := BookPartition(cfg, cs, log, l, p);
      BooksKeeps(cfg, cs, log, l, l1);
      l' := BookAll(cfg, cs, log, l1, ps - {p});
      BooksThen(cfg, log, l, l1, l');
    } else {
      BookStays(cfg, log, l);
      l' := l;
    }
  }

  lemma DrainLedger(cfg: Config, cs: seq<Commit>, log: Log, l: L.Ledger) returns (l': L.Ledger)
    requires Fine(cfg, cs, log, l)
    ensures Books(cfg, log, l, l') && CaughtUp(log, l', log.Keys)
  {
    var l1 := StopConsumers(cfg, log, l);
    BooksKeeps(cfg, cs, log, l, l1);
    l' := BookAll(cfg, cs, log, l1, log.Keys);
    BooksThen(cfg, log, l, l1, l');
  }

  // ---------- the whole system ----------

  /** No wallet statement at all, and so no commit. */
  predicate NoServing(acts: seq<S.Action>) {
    forall i :: 0 <= i < |acts| ==> !acts[i].Serve?
  }

  lemma {:induction false} LiftRelaying(cfg: Config, s: S.State, rs: seq<Bus.Action>, b: Bus.Bus) returns (acts: seq<S.Action>)
    requires Relaying(cfg, s.eng.commits, s.bus, rs, b)
    ensures S.Legal(cfg, s, acts) && S.Run(cfg, s, acts) == s.(bus := b) && NoServing(acts)
    decreases |rs|
  {
    if rs == [] {
      acts := [];
    } else {
      var rest := LiftRelaying(cfg, S.Apply(cfg, s, S.Relay(rs[0])), rs[1..], b);
      acts := [S.Relay(rs[0])] + rest;
      assert acts[1..] == rest;
    }
  }

  lemma {:induction false} LiftBooking(cfg: Config, s: S.State, bs: seq<L.Action>, l: L.Ledger) returns (acts: seq<S.Action>)
    requires Booking(cfg, s.bus.log, s.led, bs, l)
    ensures S.Legal(cfg, s, acts) && S.Run(cfg, s, acts) == s.(led := l) && NoServing(acts)
    decreases |bs|
  {
    if bs == [] {
      acts := [];
    } else {
      var rest := LiftBooking(cfg, S.Apply(cfg, s, S.Book(bs[0])), bs[1..], l);
      acts := [S.Book(bs[0])] + rest;
      assert acts[1..] == rest;
    }
  }

  lemma FineInSystem(cfg: Config, s: S.State)
    requires Faithful(cfg) && S.Inv(cfg, s)
    ensures Fine(cfg, s.eng.commits, s.bus.log, s.led)
  {
    S.ShapesOk(s.eng);
  }

  lemma PendingIsUnpublished(b: Bus.Bus)
    requires Pending(b) == {}
    ensures forall id :: id in b.outbox ==> b.outbox[id].published
  {
    assert forall id :: id in b.outbox && !b.outbox[id].published ==> id in Pending(b);
  }

  lemma DrainFrom(cfg: Config, s: S.State) returns (acts: seq<S.Action>)
    requires Faithful(cfg) && S.Inv(cfg, s)
    ensures S.Legal(cfg, s, acts) && NoServing(acts)
    ensures T.Drained(S.Run(cfg, s, acts)) && S.Run(cfg, s, acts).eng == s.eng
  {
    var b := DrainBus(cfg, s.eng.commits, s.bus);
    var rs :| Relaying(cfg, s.eng.commits, s.bus, rs, b);
    var sends := LiftRelaying(cfg, s, rs, b);
    S.RunKeeps(cfg, s, sends);
    var s1 := s.(bus := b);
    FineInSystem(cfg, s1);
    var l := DrainLedger(cfg, s1.eng.commits, b.log, s1.led);
    var bs :| Booking(cfg, b.log, s1.led, bs, l);
    var books := LiftBooking(cfg, s1, bs, l);
    S.RunAppends(cfg, s, sends, books);
    acts := sends + books;
    PendingIsUnpublished(b);
  }

  /** The continuation has no wallet statement, drains the system and leaves the wallets as they were. */
  ghost predicate Drains(n: int, hash: T.Hash, acts: seq<S.Action>, more: seq<S.Action>)
    requires S.Legal(T.Deployed(n, hash), S.INIT, acts)
  {
    && S.Legal(T.Deployed(n, hash), S.INIT, acts + more) && NoServing(more)
    && T.Drained(T.After(n, hash, acts + more))
    && T.After(n, hash, acts + more).eng == T.After(n, hash, acts).eng
  }

  /** From every reachable state, some continuation without any wallet statement drains the system. */
  lemma DrainedIsReachable(n: int, hash: T.Hash, acts: seq<S.Action>)
    requires S.Legal(T.Deployed(n, hash), S.INIT, acts)
    ensures exists more :: Drains(n, hash, acts, more)
  {
    var cfg := T.Deployed(n, hash);
    T.DeployedIsFaithful(n, hash);
    T.AfterInv(n, hash, acts);
    var more := DrainFrom(cfg, T.After(n, hash, acts));
    S.RunAppends(cfg, S.INIT, acts, more);
    assert Drains(n, hash, acts, more);
  }
}
