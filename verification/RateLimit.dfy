/** The gateway's fixed-window rate limiter (services/gateway/ratelimit.go): one Redis counter per
    (key, minute), with an expiry that every request pushes 70 seconds ahead. */
module RateLimit {

  const WINDOW_S := 60
  const TTL_MS := 70_000

  /** What happened to the INCR/EXPIRE transaction: it was answered, it was not executed, or it was
      executed and its answer was lost. In the last two cases the request is let through. */
  datatype RedisCall = Answered | Unreachable | AnswerLost

  /** One request of one client on the common clock, in milliseconds. */
  datatype Request = Request(now: nat, redis: RedisCall)

  datatype Counter = Counter(count: nat, expires: nat)

  /** The counters of one client, by window. */
  type Counters = map<nat, Counter>

  function Unix(now: nat): nat {
    now / 1000
  }

  function Window(now: nat): nat {
    Unix(now) / WINDOW_S
  }

  /** Redis drops a counter when its expiry has passed. */
  function Purge(cs: Counters, now: nat): Counters {
    map w | w in cs && now < cs[w].expires :: cs[w]
  }

  /** INCR and EXPIRE in one transaction. */
  function Bump(cs: Counters, now: nat): Counters {
    var w := Window(now);
    cs[w := Counter((if w in cs then cs[w].count else 0) + 1, now + TTL_MS)]
  }

  datatype Verdict = Unchecked | Admitted(remaining: nat) | Refused(retryAfter: nat)

  function Decide(perMinute: int, count: nat, now: nat): Verdict {
    if count > perMinute then Refused(WINDOW_S - Unix(now) % WINDOW_S)
    else Admitted(perMinute - count)
  }

  predicate LetThrough(v: Verdict) {
    !v.Refused?
  }

  /** Counters after a request, and the verdict on it. */
  function Handle(perMinute: int, cs: Counters, r: Request): (Counters, Verdict) {
    var live := Purge(cs, r.now);
    var cs' := if r.redis.Unreachable? then live else Bump(live, r.now);
    (cs', if r.redis.Answered? then Decide(perMinute, cs'[Window(r.now)].count, r.now) else Unchecked)
  }

  // ---------- runs ----------

  /** The requests of one client arrive on one clock that never runs backwards. */
  predicate Ordered(rs: seq<Request>) {
    forall i, j :: 0 <= i < j < |rs| ==> rs[i].now <= rs[j].now
  }

  function CountersAfter(perMinute: int, rs: seq<Request>): Counters {
    if rs == [] then map[] else Handle(perMinute, CountersAfter(perMinute, rs[..|rs| - 1]), rs[|rs| - 1]).0
  }

  /** The verdict on the i-th request. */
  function VerdictOn(perMinute: int, rs: seq<Request>, i: nat): Verdict
    requires i < |rs|
  {
    Handle(perMinute, CountersAfter(perMinute, rs[..i]), rs[i]).1
  }

  /** Requests of minute w (since 1970) that reached Redis. */
  function Reached(rs: seq<Request>, w: nat): nat {
    if rs == [] then 0
    else Reached(rs[..|rs| - 1], w)
         + if rs[|rs| - 1].now / 60_000 == w && !rs[|rs| - 1].redis.Unreachable? then 1 else 0
  }

  lemma WindowIsMinute(now: nat)
    ensures Window(now) == now / 60_000
  {
  }

  /** The counter of a window counts every request of that window: its expiry, set by the latest
      of them, lies beyond the window's end. */
  ghost predicate Exact(cs: Counters, rs: seq<Request>, w: nat) {
    && (Reached(rs, w) == 0 ==> w !in cs)
    && (Reached(rs, w) > 0 ==> w in cs && cs[w].count == Reached(rs, w) && cs[w].expires > (w + 1) * 60_000)
  }

  lemma TtlOutlivesWindow(now: nat)
    ensures now < (Window(now) + 1) * 60_000 < now + TTL_MS
  {
  }

  /** Until window w is over, the expiry has not dropped its counter. */
  lemma {:induction false} CountersAreExact(perMinute: int, rs: seq<Request>, w: nat)
    requires Ordered(rs) && (rs == [] || rs[|rs| - 1].now < (w + 1) * 60_000)
    ensures Exact(CountersAfter(perMinute, rs), rs, w)
    decreases |rs|
  {
    if rs != [] {
      var rest, r := rs[..|rs| - 1], rs[|rs| - 1];
      CountersAreExact(perMinute, rest, w);
      TtlOutlivesWindow(r.now);
      WindowIsMinute(r.now);
    }
  }

  /** The rank of the i-th request among the requests of its minute that reached Redis. */
  function Rank(rs: seq<Request>, i: nat): nat
    requires i < |rs|
  {
    Reached(rs[..i + 1], rs[i].now / 60_000)
  }

  /** The i-th request, if answered, is refused if and only if its rank in its minute exceeds the limit,
      and otherwise it is told how many are left; if Redis failed it goes through unchecked. */
  lemma VerdictIsExact(perMinute: int, rs: seq<Request>, i: nat)
    requires Ordered(rs) && i < |rs|
    ensures var v, k := VerdictOn(perMinute, rs, i), Rank(rs, i);
            if !rs[i].redis.Answered? then v == Unchecked
            else if k > perMinute then v.Refused?
            else v == Admitted(perMinute - k)
  {
    var w := Window(rs[i].now);
    WindowIsMinute(rs[i].now);
    TtlOutlivesWindow(rs[i].now);
    CountersAreExact(perMinute, rs[..i], w);
    assert rs[..i + 1][..i] == rs[..i];
  }

  ghost predicate ExpireBy(cs: Counters, time: nat) {
    forall w :: w in cs ==> cs[w].expires <= time
  }

  lemma HandlingExpires(perMinute: int, cs: Counters, r: Request, now: nat)
    requires ExpireBy(cs, now + 70_000) && r.now <= now
    ensures ExpireBy(Handle(perMinute, cs, r).0, now + 70_000)
  {
  }

  lemma {:induction false} ExpiriesAreNear(perMinute: int, rs: seq<Request>, now: nat)
    requires forall i :: 0 <= i < |rs| ==> rs[i].now <= now
    ensures ExpireBy(CountersAfter(perMinute, rs), now + 70_000)
    decreases |rs|
  {
    if rs != [] {
      var rest, r := rs[..|rs| - 1], rs[|rs| - 1];
      ExpiriesAreNear(perMinute, rest, now);
      HandlingExpires(perMinute, CountersAfter(perMinute, rest), r, now);
    }
  }

  /** Seventy seconds after a client's last request nothing is stored for it. */
  lemma IdleCountersVanish(perMinute: int, rs: seq<Request>, last: nat, now: nat)
    requires (forall i :: 0 <= i < |rs| ==> rs[i].now <= last) && now >= last + 70_000
    ensures Purge(CountersAfter(perMinute, rs), now) == map[]
  {
    ExpiriesAreNear(perMinute, rs, last);
  }

  // ---------- how many requests get through ----------

  predicate Passed(perMinute: int, rs: seq<Request>, i: nat)
    requires i < |rs|
  {
    rs[i].redis.Answered? && LetThrough(VerdictOn(perMinute, rs, i))
  }

  /** Requests among the first n that were counted and let through with now in [from, to). */
  function PassedWithin(perMinute: int, rs: seq<Request>, n: nat, from: int, to: int): nat
    requires n <= |rs|
  {
    if n == 0 then 0
    else PassedWithin(perMinute, rs, n - 1, from, to)
         + if from <= rs[n - 1].now < to && Passed(perMinute, rs, n - 1) then 1 else 0
  }

  /** Requests let through because Redis failed. */
  function FailedOpen(rs: seq<Request>, n: nat, from: int, to: int): nat
    requires n <= |rs|
  {
    if n == 0 then 0
    else FailedOpen(rs, n - 1, from, to)
         + if from <= rs[n - 1].now < to && !rs[n - 1].redis.Answered? then 1 else 0
  }

  /** All requests let through. */
  function LetThroughWithin(perMinute: int, rs: seq<Request>, n: nat, from: int, to: int): nat
    requires n <= |rs|
  {
    if n == 0 then 0
    else LetThroughWithin(perMinute, rs, n - 1, from, to)
         + if from <= rs[n - 1].now < to && LetThrough(VerdictOn(perMinute, rs, n - 1)) then 1 else 0
  }

  lemma {:induction false} LetThroughSplits(perMinute: int, rs: seq<Request>, n: nat, from: int, to: int)
    requires n <= |rs|
    ensures LetThroughWithin(perMinute, rs, n, from, to)
         == PassedWithin(perMinute, rs, n, from, to) + FailedOpen(rs, n, from, to)
  {
    if n > 0 {
      LetThroughSplits(perMinute, rs, n - 1, from, to);
    }
  }

  function Cap(perMinute: int): nat {
    if perMinute < 0 then 0 else perMinute
  }

  function Min(a: nat, b: nat): nat {
    if a < b then a else b
  }

  lemma ReachedSnoc(rs: seq<Request>, i: nat, w: nat)
    requires i < |rs|
    ensures Reached(rs[..i + 1], w)
         == Reached(rs[..i], w) + if rs[i].now / 60_000 == w && !rs[i].redis.Unreachable? then 1 else 0
  {
    assert rs[..i + 1][..i] == rs[..i];
  }

  lemma InWindow(now: nat, w: nat)
    ensures w * 60_000 <= now < (w + 1) * 60_000 <==> now / 60_000 == w
  {
  }

  /** In one window, the requests let through number at most perMinute. */
  lemma {:induction false} WindowBound(perMinute: int, rs: seq<Request>, n: nat, w: nat)
    requires Ordered(rs) && n <= |rs|
    ensures PassedWithin(perMinute, rs, n, w * 60_000, (w + 1) * 60_000)
         <= Min(Cap(perMinute), Reached(rs[..n], w))
  {
    if n > 0 {
      WindowBound(perMinute, rs, n - 1, w);
      ReachedSnoc(rs, n - 1, w);
      InWindow(rs[n - 1].now, w);
      if rs[n - 1].redis.Answered? {
        VerdictIsExact(perMinute, rs, n - 1);
      }
    }
  }

  lemma {:induction false} Splits(perMinute: int, rs: seq<Request>, n: nat, from: int, mid: int, to: int, a: int, b: int)
    requires n <= |rs| && a <= from <= mid <= to <= b
    ensures PassedWithin(perMinute, rs, n, from, to)
         <= PassedWithin(perMinute, rs, n, a, mid) + PassedWithin(perMinute, rs, n, mid, b)
  {
    if n > 0 {
      Splits(perMinute, rs, n - 1, from, mid, to, a, b);
    }
  }

  /** Any 60 seconds, wherever they start, let through at most 2 * perMinute requests plus those
      that found Redis failing. */
  lemma SlidingBound(perMinute: int, rs: seq<Request>, from: nat)
    requires Ordered(rs)
    ensures LetThroughWithin(perMinute, rs, |rs|, from, from + 60_000)
         <= 2 * Cap(perMinute) + FailedOpen(rs, |rs|, from, from + 60_000)
  {
    var w := from / 60_000;
    var n, to := |rs|, from + 60_000;
    var mid := (w + 1) * 60_000;
    InWindow(from, w);
    LetThroughSplits(perMinute, rs, n, from, to);
    Splits(perMinute, rs, n, from, mid, to, w * 60_000, (w + 2) * 60_000);
    WindowBound(perMinute, rs, n, w);
    WindowBound(perMinute, rs, n, w + 1);
  }

  /** Waiting Retry-After seconds (section 10.2.3 of RFC 9110) lands in the first second of the
      next minute, where the client's counter starts afresh. */
  lemma RetryAfterIsNextWindow(perMinute: int, rs: seq<Request>, i: nat)
    requires i < |rs| && VerdictOn(perMinute, rs, i).Refused?
    ensures var wait := VerdictOn(perMinute, rs, i).retryAfter;
            var then_ := rs[i].now + wait * 1000;
            && 1 <= wait <= 60
            && then_ / 60_000 == rs[i].now / 60_000 + 1 && then_ % 60_000 < 1000
            && (Ordered(rs) ==> Reached(rs[..i + 1], then_ / 60_000) == 0)
  {
    var now := rs[i].now;
    RetryArithmetic(now);
    if Ordered(rs) {
      NothingYet(rs, i + 1, now / 60_000 + 1);
    }
  }

  lemma RetryArithmetic(now: nat)
    ensures var wait := WINDOW_S - Unix(now) % WINDOW_S;
            && 1 <= wait <= 60
            && (now + wait * 1000) / 60_000 == now / 60_000 + 1 && (now + wait * 1000) % 60_000 < 1000
  {
    var ms, minute := now % 1000, now / 60_000;
    assert now / 1000 == minute * 60 + (now / 1000) % 60;
    assert now == (now / 1000) * 1000 + ms;
    assert now + (60 - (now / 1000) % 60) * 1000 == (minute + 1) * 60_000 + ms;
  }

  lemma {:induction false} NothingYet(rs: seq<Request>, n: nat, w: nat)
    requires n <= |rs| && forall i :: 0 <= i < n ==> rs[i].now / 60_000 < w
    ensures Reached(rs[..n], w) == 0
  {
    if n > 0 {
      NothingYet(rs, n - 1, w);
      ReachedSnoc(rs, n - 1, w);
    }
  }

  // ---------- the handler as the gateway runs it ----------

  /** One client's counters behind one handler. */
  class Limiter {
    const perMinute: int
    var counters: Counters
    /** The client's requests so far. */
    ghost var history: seq<Request>

    ghost predicate Valid()
      reads this
    {
      counters == CountersAfter(perMinute, history)
    }

    constructor (perMinute: int)
      ensures Valid() && this.perMinute == perMinute && history == []
    {
      this.perMinute := perMinute;
      counters := map[];
      history := [];
    }

    /** On a clock that does not run backwards, an answered request is refused if and only if more than
        perMinute requests of its minute have reached Redis, itself included, and is then told to come
        back in the first second of the next minute; otherwise it is told how many are left. Without
        an answer from Redis it goes through. */
    method Limit(r: Request) returns (v: Verdict)
      requires Valid()
      modifies this
      ensures Valid() && history == old(history) + [r]
      ensures r.redis != Answered ==> v == Unchecked
      ensures r.redis == Answered && Ordered(history) ==> Judged(perMinute, Reached(history, r.now / 60_000), r.now, v)
    {
      v := Check(r);
      ghost var n := |history|;
      history := history + [r];
      assert history[..n] == old(history) && history[..n + 1] == history;
      if Ordered(history) && r.redis == Answered {
        VerdictIsJudged(perMinute, history, n);
      }
    }

    /** The body of the handler. */
    method Check(r: Request) returns (v: Verdict)
      modifies this`counters
      ensures (counters, v) == Handle(perMinute, old(counters), r)
    {
      var window := Window(r.now);
      counters := Purge(counters, r.now);
      if r.redis.Unreachable? {
        return Unchecked;
      }
      var count := 1;
      if window in counters {
        count := counters[window].count + 1;
      }
      counters := counters[window := Counter(count, r.now + TTL_MS)];
      if r.redis.AnswerLost? {
        return Unchecked;
      }
      if count > perMinute {
        v := Refused(WINDOW_S - Unix(r.now) % WINDOW_S);
      } else {
        v := Admitted(perMinute - count);
      }
    }
  }

  /** The verdict on an answered request of rank k in its minute. */
  ghost predicate Judged(perMinute: int, k: nat, now: nat, v: Verdict) {
    if k > perMinute then
      && v.Refused?
      && (now + v.retryAfter * 1000) / 60_000 == now / 60_000 + 1
      && (now + v.retryAfter * 1000) % 60_000 < 1000
    else v == Admitted(perMinute - k)
  }

  lemma VerdictIsJudged(perMinute: int, rs: seq<Request>, i: nat)
    requires Ordered(rs) && i < |rs| && rs[i].redis.Answered?
    ensures Judged(perMinute, Rank(rs, i), rs[i].now, VerdictOn(perMinute, rs, i))
  {
    VerdictIsExact(perMinute, rs, i);
    if VerdictOn(perMinute, rs, i).Refused? {
      RetryAfterIsNextWindow(perMinute, rs, i);
    }
  }

  // ---------- the sliding bound is tight ----------

  /** n requests in the last millisecond of window 0, then n in the first of window 1. */
  function EdgeBurst(n: nat): seq<Request> {
    seq(2 * n, i => Request(if i < n then 59_999 else 60_000, Answered))
  }

  lemma {:induction false} EdgeBurstReached(n: nat, k: nat)
    requires k <= 2 * n
    ensures Reached(EdgeBurst(n)[..k], 0) == (if k < n then k else n)
    ensures Reached(EdgeBurst(n)[..k], 1) == (if k < n then 0 else k - n)
  {
    if k > 0 {
      EdgeBurstReached(n, k - 1);
      ReachedSnoc(EdgeBurst(n), k - 1, 0);
      ReachedSnoc(EdgeBurst(n), k - 1, 1);
    }
  }

  lemma BurstPasses(n: nat, i: nat)
    requires i < 2 * n
    ensures LetThrough(VerdictOn(n, EdgeBurst(n), i))
  {
    EdgeBurstReached(n, i + 1);
    VerdictIsExact(n, EdgeBurst(n), i);
  }

  /** For every limit there is a run in which 60 seconds let through twice the limit. */
  lemma {:induction false} BurstAtTheEdge(n: nat, k: nat)
    requires k <= 2 * n
    ensures LetThroughWithin(n, EdgeBurst(n), k, 30_000, 90_000) == k
  {
    if k > 0 {
      BurstAtTheEdge(n, k - 1);
      BurstPasses(n, k - 1);
    }
  }
}
