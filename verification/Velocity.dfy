/** The fraud worker's velocity rule (services/fraud/app/rules.py): one Redis sorted set per wallet,
    member = eventId, score = event time in milliseconds. */
module Velocity {

  const WINDOW_MS := 60_000

  type SortedSet = map<string, int>

  function ZremRangeByScore(z: SortedSet, lo: int, hi: int): SortedSet {
    map id | id in z && !(lo <= z[id] <= hi) :: z[id]
  }

  /** ZADD, then ZREMRANGEBYSCORE key 0 at-WINDOW. */
  function Slide(z: SortedSet, id: string, at: int): SortedSet {
    ZremRangeByScore(z[id := at], 0, at - WINDOW_MS)
  }

  /** The members ZCOUNT key at-WINDOW at counts. */
  function Counted(z: SortedSet, at: int): set<string> {
    set id | id in z && at - WINDOW_MS <= z[id] <= at
  }

  // ---------- histories ----------

  /** What can happen to one wallet's key. */
  datatype Op = Deliver(id: string, at: int) | Expire

  function After(ops: seq<Op>): SortedSet {
    if ops == [] then map[]
    else match ops[|ops| - 1]
         case Deliver(id, at) => Slide(After(ops[..|ops| - 1]), id, at)
         case Expire => map[]
  }

  /** The distinct events ever delivered with a time in (lo, hi]. */
  ghost function Seen(ops: seq<Op>, lo: int, hi: int): set<string> {
    set k | 0 <= k < |ops| && ops[k].Deliver? && lo < ops[k].at <= hi :: ops[k].id
  }

  lemma SeenMember(ops: seq<Op>, lo: int, hi: int, k: nat)
    requires k < |ops| && ops[k].Deliver? && lo < ops[k].at <= hi
    ensures ops[k].id in Seen(ops, lo, hi)
  {
  }

  /** Every member was delivered with the score it has. */
  lemma {:induction false} MemberWasDelivered(ops: seq<Op>, id: string) returns (k: nat)
    requires id in After(ops)
    ensures k < |ops| && ops[k] == Deliver(id, After(ops)[id])
    decreases |ops|
  {
    var n := |ops| - 1;
    var last := ops[n];
    if last.id == id {
      k := n;
    } else {
      k := MemberWasDelivered(ops[..n], id);
    }
  }

  lemma SubsetSize(a: set<string>, b: set<string>)
    requires a <= b
    ensures |a| <= |b|
  {
    var rest := b - a;
    assert b == a + rest;
  }

  /** An event always carries the same time: redeliveries are exact copies. */
  predicate Consistent(ops: seq<Op>) {
    forall j, k :: 0 <= j < |ops| && 0 <= k < |ops| && ops[j].Deliver? && ops[k].Deliver? && ops[j].id == ops[k].id
      ==> ops[j].at == ops[k].at
  }

  /** The pruning removes scores from 0 on, so it covers the lower end of the window unless that lies
      before 1970 and some other event in the set has exactly that time. */
  predicate LowerEndPruned(z: SortedSet, id: string, at: int) {
    at >= 60_000 || forall m :: m in z && m != id ==> z[m] != at - 60_000
  }

  lemma CountedWasSeen(ops: seq<Op>, id: string, at: int, m: string)
    requires LowerEndPruned(After(ops), id, at)
    requires m in Counted(After(ops + [Deliver(id, at)]), at)
    ensures m in Seen(ops + [Deliver(id, at)], at - 60_000, at)
  {
    var ops' := ops + [Deliver(id, at)];
    assert ops'[..|ops|] == ops;
    var k := MemberWasDelivered(ops', m);
    SeenMember(ops', at - 60_000, at, k);
  }

  /** Whatever was delivered, in whatever order, with duplicates and key expiries: only distinct
      events with a time in the last minute (at - WINDOW, at] are counted. */
  lemma CountNeverExceedsHistory(ops: seq<Op>, id: string, at: int)
    requires LowerEndPruned(After(ops), id, at)
    ensures var ops' := ops + [Deliver(id, at)];
            && Counted(After(ops'), at) <= Seen(ops', at - 60_000, at)
            && |Counted(After(ops'), at)| <= |Seen(ops', at - 60_000, at)|
  {
    var ops' := ops + [Deliver(id, at)];
    forall m | m in Counted(After(ops'), at) ensures m in Seen(ops', at - 60_000, at) {
      CountedWasSeen(ops, id, at, m);
    }
    SubsetSize(Counted(After(ops'), at), Seen(ops', at - 60_000, at));
  }

  /** ... and the condition is exact: without it the count includes an event one minute old. */
  lemma CountBoundIff(ops: seq<Op>, id: string, at: int)
    requires Consistent(ops + [Deliver(id, at)])
    ensures var ops' := ops + [Deliver(id, at)];
            Counted(After(ops'), at) <= Seen(ops', at - 60_000, at) <==> LowerEndPruned(After(ops), id, at)
  {
    var ops' := ops + [Deliver(id, at)];
    assert ops'[..|ops|] == ops;
    if LowerEndPruned(After(ops), id, at) {
      CountNeverExceedsHistory(ops, id, at);
    } else {
      var m :| m in After(ops) && m != id && After(ops)[m] == at - 60_000;
      assert m in Counted(After(ops'), at);
      var k := MemberWasDelivered(ops', m);
      assert ops'[k] == Deliver(m, at - 60_000);
    }
  }

  /** Times from 1970 on meet the condition. */
  lemma TimesSince1970(ops: seq<Op>, id: string, at: int)
    requires forall k :: 0 <= k < |ops| && ops[k].Deliver? ==> ops[k].at >= 0
    ensures LowerEndPruned(After(ops), id, at)
  {
    forall m | m in After(ops) ensures After(ops)[m] >= 0 {
      var k := MemberWasDelivered(ops, m);
    }
  }

  /** A time before 1970 need not: an event of exactly one minute ago is still counted. */
  lemma PreEpochCountIsHigh()
    ensures var ops := [Deliver("a", -60_000), Deliver("b", 0)];
            Counted(After(ops), 0) == {"a", "b"} && Seen(ops, -60_000, 0) == {"b"}
  {
    var ops := [Deliver("a", -60_000), Deliver("b", 0)];
    assert ops[..1] == [Deliver("a", -60_000)];
    assert After([Deliver("a", -60_000)]) == Slide(After([]), "a", -60_000);
    assert After(ops) == map["a" := -60_000, "b" := 0];
    assert ops[1].id in Seen(ops, -60_000, 0);
  }

  // ---------- no event is missed ----------

  predicate NoExpiry(ops: seq<Op>) {
    forall k :: 0 <= k < |ops| ==> ops[k].Deliver?
  }

  predicate UpTo(ops: seq<Op>, t: int) {
    forall k :: 0 <= k < |ops| && ops[k].Deliver? ==> ops[k].at <= t
  }

  /** An event younger than the latest time minus the window is still in the set. */
  lemma {:induction false} RecentIsKept(ops: seq<Op>, k: nat, t: int)
    requires NoExpiry(ops) && Consistent(ops) && UpTo(ops, t)
    requires k < |ops| && ops[k].at > t - 60_000
    ensures ops[k].id in After(ops) && After(ops)[ops[k].id] == ops[k].at
    decreases |ops|
  {
    var n := |ops| - 1;
    if ops[n].id != ops[k].id {
      RecentIsKept(ops[..n], k, t);
    } else {
      assert ops[n].at == ops[k].at;
    }
  }

  /** Without key expiry, every distinct event with a time in (max(at, t) - WINDOW, at] is counted,
      where t bounds the times delivered before. */
  lemma CountMissesNothingRecent(ops: seq<Op>, id: string, at: int, t: int)
    requires var ops' := ops + [Deliver(id, at)]; NoExpiry(ops') && Consistent(ops')
    requires UpTo(ops, t)
    ensures var ops' := ops + [Deliver(id, at)];
            var late := if at < t then t else at;
            && Seen(ops', late - 60_000, at) <= Counted(After(ops'), at)
            && |Seen(ops', late - 60_000, at)| <= |Counted(After(ops'), at)|
  {
    var ops' := ops + [Deliver(id, at)];
    var late := if at < t then t else at;
    forall m | m in Seen(ops', late - 60_000, at) ensures m in Counted(After(ops'), at) {
      var k :| 0 <= k < |ops'| && ops'[k].Deliver? && late - 60_000 < ops'[k].at <= at && ops'[k].id == m;
      RecentIsKept(ops', k, late);
    }
    SubsetSize(Seen(ops', late - 60_000, at), Counted(After(ops'), at));
  }

  /** Delivered in time order, the count is exactly the number of distinct events of the last
      minute, so the rule fires exactly when there were more than the limit. */
  lemma InOrderCountIsExact(ops: seq<Op>, id: string, at: int, maxPerMinute: int)
    requires var ops' := ops + [Deliver(id, at)]; NoExpiry(ops') && Consistent(ops')
    requires UpTo(ops, at) && LowerEndPruned(After(ops), id, at)
    ensures var ops' := ops + [Deliver(id, at)];
            && Counted(After(ops'), at) == Seen(ops', at - 60_000, at)
            && (|Counted(After(ops'), at)| > maxPerMinute <==> |Seen(ops', at - 60_000, at)| > maxPerMinute)
  {
    CountNeverExceedsHistory(ops, id, at);
    CountMissesNothingRecent(ops, id, at, at);
  }

  /** Handling an event twice in a row is handling it once. */
  lemma SlideIsIdempotent(z: SortedSet, id: string, at: int)
    ensures Slide(Slide(z, id, at), id, at) == Slide(z, id, at)
  {
  }

  /** Delivered in time order, with consistent times from 1970 on and no expiry. */
  ghost predicate InOrder(ops: seq<Op>, id: string, at: int) {
    NoExpiry(ops) && Consistent(ops + [Deliver(id, at)]) && UpTo(ops, at) && LowerEndPruned(After(ops), id, at)
  }

  /** What the count on delivery of (id, at) after ops says about the distinct events delivered: never
      more than those of the last minute; without expiry, at least those of the last minute before the
      latest time; in time order, exactly those of the last minute. */
  ghost predicate Tells(ops: seq<Op>, id: string, at: int, count: nat) {
    var ops' := ops + [Deliver(id, at)];
    && (LowerEndPruned(After(ops), id, at) ==> count <= |Seen(ops', at - 60_000, at)|)
    && (NoExpiry(ops) && Consistent(ops') ==>
          forall t :: at <= t && UpTo(ops, t) ==> |Seen(ops', t - 60_000, at)| <= count)
    && (InOrder(ops, id, at) ==> count == |Seen(ops', at - 60_000, at)|)
  }

  lemma CountTells(ops: seq<Op>, id: string, at: int)
    ensures Tells(ops, id, at, |Counted(After(ops + [Deliver(id, at)]), at)|)
  {
    var ops' := ops + [Deliver(id, at)];
    if LowerEndPruned(After(ops), id, at) {
      CountNeverExceedsHistory(ops, id, at);
    }
    if NoExpiry(ops) && Consistent(ops') {
      forall t | at <= t && UpTo(ops, t) ensures |Seen(ops', t - 60_000, at)| <= |Counted(After(ops'), at)| {
        CountMissesNothingRecent(ops, id, at, t);
      }
    }
    if InOrder(ops, id, at) {
      InOrderCountIsExact(ops, id, at, 0);
    }
  }

  // ---------- the rule as it runs ----------

  class WalletWindow {
    var scores: SortedSet
    /** Everything that has happened to the wallet's key. */
    ghost var history: seq<Op>

    ghost predicate Valid()
      reads this
    {
      scores == After(history)
    }

    constructor ()
      ensures Valid() && history == []
    {
      scores := map[];
      history := [];
    }

    /** The key expires. */
    method Lapse()
      requires Valid()
      modifies this
      ensures Valid() && history == old(history) + [Expire]
    {
      scores := map[];
      history := history + [Expire];
    }

    /** The MULTI/EXEC pipeline and the comparison after it. An alert means that more than maxPerMinute
        distinct events with a time in the last minute were delivered; in time order and without
        expiry, no alert means that there were not. */
    method Velocity(maxPerMinute: int, id: string, at: int) returns (count: nat, alert: bool)
      requires Valid()
      modifies this
      ensures Valid() && history == old(history) + [Deliver(id, at)]
      ensures alert <==> count > maxPerMinute
      ensures Tells(old(history), id, at, count)
      ensures InOrder(old(history), id, at) ==> (alert <==> |Seen(history, at - 60_000, at)| > maxPerMinute)
    {
      scores := scores[id := at];
      scores := map m | m in scores && !(0 <= scores[m] <= at - WINDOW_MS) :: scores[m];
      count := |Counted(scores, at)|;
      alert := !(count <= maxPerMinute);
      ghost var before := history;
      history := history + [Deliver(id, at)];
      assert history[..|before|] == before;
      CountTells(before, id, at);
    }
  }
}
