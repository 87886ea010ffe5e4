/** The fraud worker's handling of one event (services/fraud/app/worker.py): alerts are sent before
    their dedupe key is set, and any I/O operation may fail, with or without having taken effect. */
module Alerts {
  import opened Types
  import opened Velocity

  datatype Rule = LARGE_AMOUNT | VELOCITY

  datatype Event = Event(id: string, amount: int, at: int)

  datatype Limits = Limits(maxAmount: int, maxPerMinute: int)

  /** An alert of fraud.alerts, identified by its eventId field "<eventId>:<rule>". */
  datatype Alert = Alert(eventId: string, rule: Rule)

  /** One wallet's Redis keys and the fraud.alerts topic. */
  datatype State = State(window: SortedSet, alerted: set<Alert>, topic: seq<Alert>)

  // ---------- evaluate ----------

  /** The rules that fire, in the order evaluate appends them, given the pruned window. */
  function Fired(lim: Limits, window: SortedSet, ev: Event): seq<Rule> {
    (if ev.amount > lim.maxAmount then [LARGE_AMOUNT] else []) +
    (if |Counted(window, ev.at)| > lim.maxPerMinute then [VELOCITY] else [])
  }

  // ---------- handle, cut off after a number of I/O operations ----------

  /** Where a pass fails: `ops` I/O operations take effect and no more. The operation that raises the
      error is the next one, which has no effect, or, if `lost`, the last of these, whose reply is
      lost. A pass that needs fewer operations does not fail. */
  datatype Cut = Cut(ops: nat, lost: bool)

  /** The loop over the alerts when `f` more operations take effect: the state, and how many of these
      are left when the loop completes. Each alert costs EXISTS, then, unless already alerted, a send
      and a SET. */
  function Raise(s: State, eventId: string, rules: seq<Rule>, f: nat): (State, Option<nat>)
    decreases |rules|
  {
    if rules == [] then (s, Some(f))
    else
      var a := Alert(eventId, rules[0]);
      if f == 0 then (s, None)
      else if a in s.alerted then Raise(s, eventId, rules[1..], f - 1)
      else if f == 1 then (s, None)
      else if f == 2 then (s.(topic := s.topic + [a]), None)
      else Raise(s.(topic := s.topic + [a], alerted := s.alerted + {a}), eventId, rules[1..], f - 3)
  }

  /** The state after handling ev with this failure, and whether handle returned. */
  function Handle(lim: Limits, s: State, ev: Event, cut: Cut): (State, bool) {
    if cut.ops == 0 then (s, false)
    else
      var window := Slide(s.window, ev.id, ev.at);
      var (s', left) := Raise(s.(window := window), ev.id, Fired(lim, window, ev), cut.ops - 1);
      (s', left.Some? && !(cut.lost && left.value == 0))
  }

  /** Enough operations for a pass without failure: one pipeline and three per rule. */
  const CLEAN := Cut(7, false)

  lemma {:induction false} RaiseCompletes(s: State, eventId: string, rules: seq<Rule>, f: nat)
    requires f >= 3 * |rules|
    ensures Raise(s, eventId, rules, f).1.Some?
    decreases |rules|
  {
    if rules != [] {
      var a := Alert(eventId, rules[0]);
      if a in s.alerted {
        RaiseCompletes(s, eventId, rules[1..], f - 1);
      } else {
        RaiseCompletes(s.(topic := s.topic + [a], alerted := s.alerted + {a}), eventId, rules[1..], f - 3);
      }
    }
  }

  lemma CleanPassCompletes(lim: Limits, s: State, ev: Event)
    ensures Handle(lim, s, ev, CLEAN).1
  {
    var window := Slide(s.window, ev.id, ev.at);
    RaiseCompletes(s.(window := window), ev.id, Fired(lim, window, ev), CLEAN.ops - 1);
  }

  // ---------- which alerts an event is due ----------

  /** An event above the amount limit, and an event with more than the limit counted in its minute. */
  function Due(lim: Limits, window: SortedSet, ev: Event): set<Alert> {
    (if ev.amount > lim.maxAmount then {Alert(ev.id, LARGE_AMOUNT)} else {}) +
    (if |Counted(window, ev.at)| > lim.maxPerMinute then {Alert(ev.id, VELOCITY)} else {})
  }

  ghost function AlertsOf(eventId: string, rules: seq<Rule>): set<Alert> {
    set i | 0 <= i < |rules| :: Alert(eventId, rules[i])
  }

  predicate Distinct(rules: seq<Rule>) {
    forall i, j :: 0 <= i < j < |rules| ==> rules[i] != rules[j]
  }

  lemma AlertsOfCons(eventId: string, rule: Rule, rest: seq<Rule>)
    ensures AlertsOf(eventId, [rule] + rest) == {Alert(eventId, rule)} + AlertsOf(eventId, rest)
  {
    var rules := [rule] + rest;
    forall a | a in {Alert(eventId, rule)} + AlertsOf(eventId, rest) ensures a in AlertsOf(eventId, rules) {
      if a == Alert(eventId, rule) {
        assert Alert(eventId, rules[0]) == a;
      } else {
        var i :| 0 <= i < |rest| && Alert(eventId, rest[i]) == a;
        assert Alert(eventId, rules[i + 1]) == a;
      }
    }
    forall a | a in AlertsOf(eventId, rules) ensures a in {Alert(eventId, rule)} + AlertsOf(eventId, rest) {
      var i :| 0 <= i < |rules| && Alert(eventId, rules[i]) == a;
      assert i > 0 ==> Alert(eventId, rest[i - 1]) == a;
    }
  }

  /** evaluate finds exactly the alerts that are due, each once. */
  lemma FiredIsDue(lim: Limits, window: SortedSet, ev: Event)
    ensures AlertsOf(ev.id, Fired(lim, window, ev)) == Due(lim, window, ev) && Distinct(Fired(lim, window, ev))
  {
    RulesAre(ev.id, ev.amount > lim.maxAmount, |Counted(window, ev.at)| > lim.maxPerMinute);
  }

  lemma RulesAre(eventId: string, large: bool, many: bool)
    ensures var rules := (if large then [LARGE_AMOUNT] else []) + (if many then [VELOCITY] else []);
            && AlertsOf(eventId, rules) == (if large then {Alert(eventId, LARGE_AMOUNT)} else {})
                                         + (if many then {Alert(eventId, VELOCITY)} else {})
            && Distinct(rules)
  {
    var second := if many then [VELOCITY] else [];
    assert AlertsOf(eventId, []) == {};
    if many {
      assert second == [VELOCITY] + [];
      AlertsOfCons(eventId, VELOCITY, []);
    }
    if large {
      AlertsOfCons(eventId, LARGE_AMOUNT, second);
    } else {
      assert [] + second == second;
    }
  }

  // ---------- what a pass does, wherever it is cut off ----------

  /** A dedupe key is only present when its alert is in the topic. */
  predicate Sent(s: State) {
    forall a :: a in s.alerted ==> a in s.topic
  }

  /** Only alerts among `due` whose key was absent are sent, each of them once. */
  ghost predicate Sends(s: State, s': State, due: set<Alert>) {
    && s.topic <= s'.topic
    && (forall i :: |s.topic| <= i < |s'.topic| ==> s'.topic[i] in due && s'.topic[i] !in s.alerted)
    && (forall i, j :: |s.topic| <= i < j < |s'.topic| ==> s'.topic[i] != s'.topic[j])
  }

  /** Dedupe keys grow towards the full set, and are complete when the pass completes. */
  ghost predicate Remembers(s: State, s': State, due: set<Alert>, done: bool) {
    s.alerted <= s'.alerted <= s.alerted + due && (done ==> s'.alerted == s.alerted + due)
  }

  lemma {:induction false} RaiseEffect(s: State, eventId: string, rules: seq<Rule>, f: nat)
    requires Sent(s) && Distinct(rules)
    ensures var (s', left) := Raise(s, eventId, rules, f);
            && s'.window == s.window && Sent(s')
            && Sends(s, s', AlertsOf(eventId, rules)) && Remembers(s, s', AlertsOf(eventId, rules), left.Some?)
    decreases |rules|
  {
    if rules == [] {
      assert AlertsOf(eventId, rules) == {};
    } else {
      var a, rest := Alert(eventId, rules[0]), rules[1..];
      assert rules == [rules[0]] + rest;
      AlertsOfCons(eventId, rules[0], rest);
      if f > 0 && a in s.alerted {
        RaiseEffect(s, eventId, rest, f - 1);
      } else if f > 2 {
        var s1 := s.(topic := s.topic + [a], alerted := s.alerted + {a});
        RaiseEffect(s1, eventId, rest, f - 3);
        SendsAfter(s, s1, Raise(s1, eventId, rest, f - 3).0, a, AlertsOf(eventId, rest));
      }
    }
  }

  lemma SendsAfter(s: State, s1: State, s': State, a: Alert, due: set<Alert>)
    requires a !in s.alerted && s1 == s.(topic := s.topic + [a], alerted := s.alerted + {a}) && Sends(s1, s', due)
    ensures Sends(s, s', {a} + due)
  {
    assert s'.topic[|s.topic|] == a;
  }

  lemma PassEffect(lim: Limits, s: State, ev: Event, cut: Cut)
    requires Sent(s)
    ensures var (s', done) := Handle(lim, s, ev, cut);
            var window := Slide(s.window, ev.id, ev.at);
            && Sent(s') && Sends(s, s', Due(lim, window, ev)) && Remembers(s, s', Due(lim, window, ev), done)
            && s'.window == (if cut.ops == 0 then s.window else window)
  {
    if cut.ops > 0 {
      var window := Slide(s.window, ev.id, ev.at);
      FiredIsDue(lim, window, ev);
      RaiseEffect(s.(window := window), ev.id, Fired(lim, window, ev), cut.ops - 1);
    }
  }

  /** Wherever a pass is cut off: keys stay behind their alerts, and the topic grows only by alerts that
      are due and whose key was absent, each once. */
  lemma HandleKeepsSent(lim: Limits, s: State, ev: Event, cut: Cut)
    requires Sent(s)
    ensures var s' := Handle(lim, s, ev, cut).0;
            && Sent(s') && s.topic <= s'.topic
            && (forall i :: |s.topic| <= i < |s'.topic| ==>
                  var a := s'.topic[i];
                  && a.eventId == ev.id && a !in s.alerted
                  && if a.rule == LARGE_AMOUNT then ev.amount > lim.maxAmount
                     else |Counted(Slide(s.window, ev.id, ev.at), ev.at)| > lim.maxPerMinute)
            && (forall i, j :: |s.topic| <= i < j < |s'.topic| ==> s'.topic[i] != s'.topic[j])
  {
    PassEffect(lim, s, ev, cut);
  }

  /** After a pass that completed, a redelivery of the event changes nothing and sends nothing. */
  lemma SecondPassIsSilent(lim: Limits, s: State, ev: Event, cut: Cut, again: Cut)
    requires Sent(s) && Handle(lim, s, ev, cut).1
    ensures var s' := Handle(lim, s, ev, cut).0; Handle(lim, s', ev, again).0 == s'
  {
    var s' := Handle(lim, s, ev, cut).0;
    PassEffect(lim, s, ev, cut);
    PassEffect(lim, s', ev, again);
    SlideIsIdempotent(s.window, ev.id, ev.at);
    var t := Handle(lim, s', ev, again).0;
    assert t.alerted == s'.alerted;
    NothingToSend(s', t, Due(lim, Slide(s.window, ev.id, ev.at), ev));
  }

  lemma NothingToSend(s: State, t: State, due: set<Alert>)
    requires Sends(s, t, due) && due <= s.alerted
    ensures t.topic == s.topic
  {
    if |t.topic| > |s.topic| {
      var a := FirstSent(s, t, due);
    }
  }

  lemma FirstSent(s: State, t: State, due: set<Alert>) returns (a: Alert)
    requires Sends(s, t, due) && |t.topic| > |s.topic|
    ensures a in due && a !in s.alerted
  {
    a := t.topic[|s.topic|];
  }

  // ---------- any deliveries ----------

  datatype Pass = Pass(ev: Event, cut: Cut)

  /** The state after these passes, of any events, cut off anywhere. */
  function AfterAll(lim: Limits, s: State, passes: seq<Pass>): State {
    if passes == [] then s
    else var last := passes[|passes| - 1]; Handle(lim, AfterAll(lim, s, passes[..|passes| - 1]), last.ev, last.cut).0
  }

  function Copies(topic: seq<Alert>, a: Alert): nat {
    if topic == [] then 0 else Copies(topic[..|topic| - 1], a) + if topic[|topic| - 1] == a then 1 else 0
  }

  lemma {:induction false} NoMoreCopies(topic: seq<Alert>, topic': seq<Alert>, a: Alert)
    requires topic <= topic' && forall i :: |topic| <= i < |topic'| ==> topic'[i] != a
    ensures Copies(topic', a) == Copies(topic, a)
    decreases |topic'|
  {
    if |topic'| > |topic| {
      NoMoreCopies(topic, topic'[..|topic'| - 1], a);
    } else {
      assert topic' == topic;
    }
  }

  /** Once its key is set, an alert is never sent again, whatever is delivered how often and fails where. */
  lemma {:induction false} NeverAlertedAgain(lim: Limits, s: State, passes: seq<Pass>, a: Alert)
    requires Sent(s) && a in s.alerted
    ensures var t := AfterAll(lim, s, passes); Sent(t) && a in t.alerted && Copies(t.topic, a) == Copies(s.topic, a)
    decreases |passes|
  {
    if passes != [] {
      var rest, last := passes[..|passes| - 1], passes[|passes| - 1];
      NeverAlertedAgain(lim, s, rest, a);
      var t := AfterAll(lim, s, rest);
      PassEffect(lim, t, last.ev, last.cut);
      NoMoreCopies(t.topic, Handle(lim, t, last.ev, last.cut).0.topic, a);
    }
  }

  // ---------- retrying ----------

  /** The Redis state of one clean pass. */
  ghost predicate CleanRedis(lim: Limits, s: State, ev: Event, t: State) {
    var window := Slide(s.window, ev.id, ev.at);
    t.window == window && t.alerted == s.alerted + Due(lim, window, ev)
  }

  /** A pass cut off anywhere leaves the same target for the next pass. */
  lemma FailedPassIsHarmless(lim: Limits, s: State, ev: Event, cut: Cut, t: State)
    requires Sent(s)
    ensures CleanRedis(lim, Handle(lim, s, ev, cut).0, ev, t) <==> CleanRedis(lim, s, ev, t)
    ensures Handle(lim, s, ev, cut).1 ==> CleanRedis(lim, s, ev, Handle(lim, s, ev, cut).0)
  {
    PassEffect(lim, s, ev, cut);
    SlideIsIdempotent(s.window, ev.id, ev.at);
  }

  /** The state after passes of ev cut off as listed, none of them needing to complete. */
  function Passes(lim: Limits, s: State, ev: Event, failures: seq<Cut>): State {
    if failures == [] then s else Handle(lim, Passes(lim, s, ev, failures[..|failures| - 1]), ev, failures[|failures| - 1]).0
  }

  lemma {:induction false} PassesKeepTarget(lim: Limits, s: State, ev: Event, failures: seq<Cut>, t: State)
    requires Sent(s)
    ensures Sent(Passes(lim, s, ev, failures)) && s.topic <= Passes(lim, s, ev, failures).topic
    ensures CleanRedis(lim, Passes(lim, s, ev, failures), ev, t) <==> CleanRedis(lim, s, ev, t)
    decreases |failures|
  {
    if failures != [] {
      var n := |failures| - 1;
      PassesKeepTarget(lim, s, ev, failures[..n], t);
      PassEffect(lim, Passes(lim, s, ev, failures[..n]), ev, failures[n]);
      FailedPassIsHarmless(lim, Passes(lim, s, ev, failures[..n]), ev, failures[n], t);
    }
  }

  /** However the earlier passes were cut off, the pass that completes reaches exactly the Redis state of
      one clean pass, and each alert that is due is in the topic. */
  lemma RetryReachesCleanPass(lim: Limits, s: State, ev: Event, failures: seq<Cut>, cut: Cut)
    requires Sent(s) && Handle(lim, Passes(lim, s, ev, failures), ev, cut).1
    ensures var t, clean := Handle(lim, Passes(lim, s, ev, failures), ev, cut).0, Handle(lim, s, ev, CLEAN).0;
            && t.window == clean.window && t.alerted == clean.alerted && s.topic <= t.topic
            && (ev.amount > lim.maxAmount ==> Alert(ev.id, LARGE_AMOUNT) in t.topic)
            && (|Counted(t.window, ev.at)| > lim.maxPerMinute ==> Alert(ev.id, VELOCITY) in t.topic)
  {
    var mid := Passes(lim, s, ev, failures);
    var t, clean := Handle(lim, mid, ev, cut).0, Handle(lim, s, ev, CLEAN).0;
    PassesKeepTarget(lim, s, ev, failures, t);
    FailedPassIsHarmless(lim, mid, ev, cut, t);
    PassEffect(lim, mid, ev, cut);
    CleanPassCompletes(lim, s, ev);
    FailedPassIsHarmless(lim, s, ev, CLEAN, clean);
  }

  // ---------- what alerts say about the deliveries ----------

  function Delivery(ev: Event): Op {
    Deliver(ev.id, ev.at)
  }

  /** The alert says something true: the amount is above the limit, or more than the limit of distinct
      events with a time in the last minute have been delivered. */
  ghost predicate Justified(lim: Limits, history: seq<Op>, ev: Event, a: Alert) {
    && a.eventId == ev.id
    && if a.rule == LARGE_AMOUNT then ev.amount > lim.maxAmount
       else LowerEndPruned(After(history), ev.id, ev.at) ==>
              |Seen(history + [Delivery(ev)], ev.at - 60_000, ev.at)| > lim.maxPerMinute
  }

  /** The alert must be raised: the amount is above the limit, or deliveries came in time order and more
      than the limit of distinct events have a time in the last minute. */
  ghost predicate Owed(lim: Limits, history: seq<Op>, ev: Event, a: Alert) {
    && a.eventId == ev.id
    && if a.rule == LARGE_AMOUNT then ev.amount > lim.maxAmount
       else InOrder(history, ev.id, ev.at)
            && |Seen(history + [Delivery(ev)], ev.at - 60_000, ev.at)| > lim.maxPerMinute
  }

  lemma DueMeans(lim: Limits, history: seq<Op>, ev: Event, a: Alert)
    ensures var due := Due(lim, Slide(After(history), ev.id, ev.at), ev);
            (Owed(lim, history, ev, a) ==> a in due) && (a in due ==> Justified(lim, history, ev, a))
  {
    assert (history + [Delivery(ev)])[..|history|] == history;
    CountTells(history, ev.id, ev.at);
  }

  // ---------- the worker ----------

  class FraudWorker {
    const lim: Limits
    var s: State
    /** What has been delivered for this wallet; repeated passes of one event count once. */
    ghost var history: seq<Op>

    ghost predicate Valid()
      reads this
    {
      s.window == After(history) && Sent(s)
    }

    constructor (lim: Limits)
      ensures Valid() && this.lim == lim && s == State(map[], {}, []) && history == []
    {
      this.lim := lim;
      s := State(map[], {}, []);
      history := [];
    }

    /** worker.handle, failing where `cut` says. */
    method HandleOnce(ev: Event, cut: Cut) returns (done: bool)
      modifies this`s
      ensures (s, done) == Handle(lim, old(s), ev, cut)
    {
      if cut.ops == 0 {
        return false;
      }
      var window := Slide(s.window, ev.id, ev.at);
      s := s.(window := window);
      var rules := Fired(lim, window, ev);
      var left, i := cut.ops - 1, 0;
      ghost var s0 := s;
      while i < |rules|
        invariant 0 <= i <= |rules| && left >= 0
        invariant Raise(s0, ev.id, rules, cut.ops - 1) == Raise(s, ev.id, rules[i..], left)
      {
        var a := Alert(ev.id, rules[i]);
        assert rules[i..][1..] == rules[i + 1..];
        if left == 0 {
          return false;
        }
        left := left - 1;
        if a !in s.alerted {
          if left == 0 {
            return false;
          }
          s := s.(topic := s.topic + [a]);
          left := left - 1;
          if left == 0 {
            return false;
          }
          s := s.(alerted := s.alerted + {a});
          left := left - 1;
        }
        i := i + 1;
      }
      return !(cut.lost && left == 0);
    }

    /** worker.handle_with_retry on a valid event: try again after every failure until a pass completes,
        or until the worker is stopping. `failures[i]` says where attempt i fails; later attempts do not
        fail. It gives up only when stopping, after a failed attempt. Every alert it sends is justified
        and was not remembered; when it returns true, every alert that is owed is in the topic. */
    method HandleWithRetry(ev: Event, failures: seq<Cut>, stopAfter: nat) returns (handled: bool)
      requires Valid()
      modifies this
      ensures Valid() && old(s.topic) <= s.topic
      ensures forall i :: |old(s.topic)| <= i < |s.topic| ==>
                Justified(lim, old(history), ev, s.topic[i]) && s.topic[i] !in old(s.alerted)
      ensures handled ==> CleanRedis(lim, old(s), ev, s) && history == old(history) + [Delivery(ev)]
      ensures handled ==> forall a :: Owed(lim, old(history), ev, a) ==> a in s.topic
      ensures !handled ==> stopAfter < |failures| && (history == old(history) || history == old(history) + [Delivery(ev)])
      ensures !handled ==> forall t :: CleanRedis(lim, s, ev, t) <==> CleanRedis(lim, old(s), ev, t)
    {
      handled := Retry(ev, failures, stopAfter);
      ghost var before := history;
      assert (before + [Delivery(ev)])[..|before|] == before;
      if handled || s.window != After(before) {
        history := before + [Delivery(ev)];
      }
      forall a ensures Owed(lim, before, ev, a) ==> a in Due(lim, Slide(After(before), ev.id, ev.at), ev)
               ensures a in Due(lim, Slide(After(before), ev.id, ev.at), ev) ==> Justified(lim, before, ev, a)
      {
        DueMeans(lim, before, ev, a);
      }
    }

    /** The retry loop. */
    method Retry(ev: Event, failures: seq<Cut>, stopAfter: nat) returns (handled: bool)
      requires Sent(s)
      modifies this`s
      ensures Sent(s) && Grew(old(s), ev, s)
      ensures handled ==> CleanRedis(lim, old(s), ev, s)
      ensures !handled ==> stopAfter < |failures| && forall t :: CleanRedis(lim, s, ev, t) <==> CleanRedis(lim, old(s), ev, t)
    {
      var attempt := 0;
      ghost var s0 := s;
      while true
        invariant Sent(s) && Grew(s0, ev, s)
        invariant forall t :: CleanRedis(lim, s, ev, t) <==> CleanRedis(lim, s0, ev, t)
        decreases |failures| - attempt
      {
        ghost var before := s;
        var cut := if attempt < |failures| then failures[attempt] else CLEAN;
        CleanPassCompletes(lim, s, ev);
        handled := HandleOnce(ev, cut);
        PassEffect(lim, before, ev, cut);
        StillGrew(s0, ev, before, s, cut);
        forall t ensures CleanRedis(lim, s, ev, t) <==> CleanRedis(lim, before, ev, t) {
          FailedPassIsHarmless(lim, before, ev, cut, t);
        }
        if handled {
          FailedPassIsHarmless(lim, before, ev, cut, s);
          return;
        }
        if attempt >= stopAfter {
          return false;
        }
        attempt := attempt + 1;
      }
    }

    /** What any number of passes of ev did: the window has slid or not, keys only grew, and the topic
        grew by alerts that are due and were not remembered. */
    ghost predicate Grew(s0: State, ev: Event, t: State) {
      var window := Slide(s0.window, ev.id, ev.at);
      && (t.window == s0.window || t.window == window) && s0.alerted <= t.alerted && s0.topic <= t.topic
      && (forall i :: |s0.topic| <= i < |t.topic| ==> t.topic[i] in Due(lim, window, ev) && t.topic[i] !in s0.alerted)
    }

    lemma StillGrew(s0: State, ev: Event, before: State, after: State, cut: Cut)
      requires Sent(before) && Grew(s0, ev, before) && after == Handle(lim, before, ev, cut).0
      ensures Grew(s0, ev, after)
    {
      PassEffect(lim, before, ev, cut);
      SlideIsIdempotent(s0.window, ev.id, ev.at);
    }
  }
}
