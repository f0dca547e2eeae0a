/** The per-address request limiter of the relay: counters with a reset time, and their cleanup. */
module RateLimit {
  import opened Bytes

  datatype Counter = Counter(count: nat, resetAt: int)

  datatype Config = Config(limit: nat, window: nat)

  /** What happens to a limiter, in lock order. */
  datatype Event = Request(key: string, time: int) | Cleanup(time: int)

  /** One request against one counter: the counter afterwards and the answer. */
  function Hit(cfg: Config, c: Option<Counter>, now: int): (Counter, bool) {
    if c.None? || now > c.value.resetAt then (Counter(1, now + cfg.window), true)
    else if c.value.count >= cfg.limit then (c.value, false)
    else (c.value.(count := c.value.count + 1), true)
  }

  function Lookup(m: map<string, Counter>, key: string): Option<Counter> {
    if key in m then Some(m[key]) else None
  }

  function Swept(m: map<string, Counter>, now: int): map<string, Counter> {
    map key | key in m && !(now > m[key].resetAt) :: m[key]
  }

  /** The counter table after a trace of requests and cleanups. */
  function Table(cfg: Config, trace: seq<Event>): map<string, Counter> {
    if trace == [] then map[] else
      var m := Table(cfg, trace[..|trace| - 1]);
      match trace[|trace| - 1]
      case Request(key, now) => m[key := Hit(cfg, Lookup(m, key), now).0]
      case Cleanup(now) => Swept(m, now)
  }

  /** The answers one key received along a trace, in order. */
  function Answers(cfg: Config, trace: seq<Event>, key: string): seq<bool> {
    if trace == [] then [] else
      var before := trace[..|trace| - 1];
      match trace[|trace| - 1]
      case Request(k, now) =>
        Answers(cfg, before, key) + if k == key then [Hit(cfg, Lookup(Table(cfg, before), key), now).1] else []
      case Cleanup(_) => Answers(cfg, before, key)
  }

  /** The times of one key's requests along a trace. */
  function TimesOf(trace: seq<Event>, key: string): seq<int> {
    if trace == [] then [] else
      var e := trace[|trace| - 1];
      TimesOf(trace[..|trace| - 1], key) + if e.Request? && e.key == key then [e.time] else []
  }

  /** A limiter that knows only one key and never cleans up. */
  function Solo(cfg: Config, times: seq<int>): Option<Counter> {
    if times == [] then None
    else Some(Hit(cfg, Solo(cfg, times[..|times| - 1]), times[|times| - 1]).0)
  }

  function SoloAnswers(cfg: Config, times: seq<int>): (a: seq<bool>)
    ensures |a| == |times|
  {
    if times == [] then [] else
      var before := times[..|times| - 1];
      SoloAnswers(cfg, before) + [Hit(cfg, Solo(cfg, before), times[|times| - 1]).1]
  }

  ghost predicate Ordered(trace: seq<Event>) {
    forall i, j :: 0 <= i <= j < |trace| ==> trace[i].time <= trace[j].time
  }

  ghost predicate OrderedTimes(times: seq<int>) {
    forall i, j :: 0 <= i <= j < |times| ==> times[i] <= times[j]
  }

  // ----- cleanup is invisible and keys do not interfere

  /** A swept counter and an expired one answer the next request in the same way. */
  ghost predicate Agree(kept: Option<Counter>, solo: Option<Counter>, now: int) {
    kept == solo || (kept.None? && solo.Some? && now > solo.value.resetAt)
  }

  lemma {:induction false} TableAgreesWithSolo(cfg: Config, trace: seq<Event>, key: string, now: int)
    requires Ordered(trace)
    requires trace != [] ==> trace[|trace| - 1].time <= now
    ensures Agree(Lookup(Table(cfg, trace), key), Solo(cfg, TimesOf(trace, key)), now)
  {
    if trace != [] {
      var before, e := trace[..|trace| - 1], trace[|trace| - 1];
      TableAgreesWithSolo(cfg, before, key, e.time);
      if e.Request? && e.key == key {
        SoloSnoc(cfg, TimesOf(before, key), e.time);
      } else {
        assert TimesOf(trace, key) == TimesOf(before, key);
      }
    }
  }

  lemma SoloSnoc(cfg: Config, times: seq<int>, t: int)
    ensures Solo(cfg, times + [t]) == Some(Hit(cfg, Solo(cfg, times), t).0)
    ensures SoloAnswers(cfg, times + [t]) == SoloAnswers(cfg, times) + [Hit(cfg, Solo(cfg, times), t).1]
  {
    assert (times + [t])[..|times|] == times;
  }

  /**
   * Whatever the other keys do and whenever the cleanup runs, a key receives the answers that a
   * limiter with this key alone and without cleanup would give.
   */
  lemma {:induction false} CleanupInvisible(cfg: Config, trace: seq<Event>, key: string)
    requires Ordered(trace)
    ensures Answers(cfg, trace, key) == SoloAnswers(cfg, TimesOf(trace, key))
  {
    if trace != [] {
      var before, e := trace[..|trace| - 1], trace[|trace| - 1];
      CleanupInvisible(cfg, before, key);
      if e.Request? && e.key == key {
        TableAgreesWithSolo(cfg, before, key, e.time);
        SoloSnoc(cfg, TimesOf(before, key), e.time);
      } else {
        assert TimesOf(trace, key) == TimesOf(before, key);
      }
    }
  }

  // ----- the window bound

  /** How many of the requests at the given times were allowed with lo <= time <= hi. */
  function Allowed(times: seq<int>, answers: seq<bool>, lo: int, hi: int): nat
    requires |times| == |answers|
  {
    if times == [] then 0 else
      var n := |times| - 1;
      Allowed(times[..n], answers[..n], lo, hi) + if answers[n] && lo <= times[n] <= hi then 1 else 0
  }

  lemma TimesOrdered(trace: seq<Event>, key: string)
    requires Ordered(trace)
    ensures OrderedTimes(TimesOf(trace, key))
    ensures trace != [] ==> forall i :: 0 <= i < |TimesOf(trace, key)| ==>
      TimesOf(trace, key)[i] <= trace[|trace| - 1].time
  {
    if trace != [] {
      TimesOrdered(trace[..|trace| - 1], key);
    }
  }

  lemma SoloAnswersPrefix(cfg: Config, times: seq<int>)
    requires times != []
    ensures var n := |times| - 1;
      SoloAnswers(cfg, times)[..n] == SoloAnswers(cfg, times[..n])
  {
  }

  /** Nothing before lo counts. */
  lemma {:induction false} NoneBefore(times: seq<int>, answers: seq<bool>, lo: int, hi: int)
    requires |times| == |answers|
    requires forall i :: 0 <= i < |times| ==> times[i] < lo
    ensures Allowed(times, answers, lo, hi) == 0
  {
    if times != [] {
      var n := |times| - 1;
      NoneBefore(times[..n], answers[..n], lo, hi);
    }
  }

  /**
   * The counter says how many requests were allowed since its window opened, and never exceeds
   * the limit; the window lasts exactly cfg.window.
   */
  lemma {:induction false} WindowCount(cfg: Config, times: seq<int>)
    requires cfg.limit >= 1 && OrderedTimes(times) && times != []
    ensures Solo(cfg, times).Some?
    ensures var c := Solo(cfg, times).value;
      && 1 <= c.count <= cfg.limit
      && c.resetAt - cfg.window <= times[|times| - 1] <= c.resetAt
      && Allowed(times, SoloAnswers(cfg, times), c.resetAt - cfg.window, c.resetAt) == c.count
  {
    var n := |times| - 1;
    var before, now := times[..n], times[n];
    SoloAnswersPrefix(cfg, times);
    if n > 0 {
      WindowCount(cfg, before);
    }
    if n == 0 || now > Solo(cfg, before).value.resetAt {
      NoneBefore(before, SoloAnswers(cfg, before), now, now + cfg.window);
    }
  }

  /** The invariant behind the bound: what a window contributes to [lo, lo + window]. */
  lemma {:induction false} Contribution(cfg: Config, times: seq<int>, lo: int)
    requires cfg.limit >= 1 && OrderedTimes(times) && times != []
    requires times[|times| - 1] <= lo + cfg.window
    ensures var n := Allowed(times, SoloAnswers(cfg, times), lo, lo + cfg.window);
      var c := Solo(cfg, times).value;
      if c.resetAt - cfg.window >= lo then n <= c.count + cfg.limit - 1 else n <= c.count - 1
  {
    var n := |times| - 1;
    var before, now := times[..n], times[n];
    SoloAnswersPrefix(cfg, times);
    WindowCount(cfg, times);
    if n > 0 {
      WindowCount(cfg, before);
      Contribution(cfg, before, lo);
    }
    if now < lo {
      NoneBefore(before, SoloAnswers(cfg, before), lo, lo + cfg.window);
    }
  }

  lemma {:induction false} SoloBound(cfg: Config, times: seq<int>, lo: int)
    requires cfg.limit >= 1 && OrderedTimes(times)
    ensures Allowed(times, SoloAnswers(cfg, times), lo, lo + cfg.window) <= 2 * cfg.limit - 1
  {
    if times != [] {
      var n := |times| - 1;
      if times[n] <= lo + cfg.window {
        Contribution(cfg, times, lo);
        WindowCount(cfg, times);
      } else {
        SoloAnswersPrefix(cfg, times);
        SoloBound(cfg, times[..n], lo);
      }
    }
  }

  /** Along any trace, a closed interval as long as the window holds at most 2 limit - 1 allowed requests of a key. */
  lemma SharpBound(cfg: Config, trace: seq<Event>, key: string, lo: int)
    requires cfg.limit >= 1 && Ordered(trace)
    ensures |Answers(cfg, trace, key)| == |TimesOf(trace, key)|
    ensures Allowed(TimesOf(trace, key), Answers(cfg, trace, key), lo, lo + cfg.window) <= 2 * cfg.limit - 1
  {
    CleanupInvisible(cfg, trace, key);
    TimesOrdered(trace, key);
    SoloBound(cfg, TimesOf(trace, key), lo);
  }

  // ----- the bound is attained

  lemma AllowedSnoc(times: seq<int>, answers: seq<bool>, t: int, a: bool, lo: int, hi: int)
    requires |times| == |answers|
    ensures Allowed(times + [t], answers + [a], lo, hi)
      == Allowed(times, answers, lo, hi) + if a && lo <= t <= hi then 1 else 0
  {
    assert (times + [t])[..|times|] == times;
    assert (answers + [a])[..|times|] == answers;
  }

  /** The last window of a key opened no later than its last request. */
  lemma {:induction false} ResetBound(cfg: Config, times: seq<int>)
    requires OrderedTimes(times) && times != []
    ensures Solo(cfg, times).value.resetAt <= times[|times| - 1] + cfg.window
  {
    if |times| > 1 {
      ResetBound(cfg, times[..|times| - 1]);
    }
  }

  /** After a cleanup a key is on record exactly if its window has not passed. */
  lemma CleanupKeeps(cfg: Config, trace: seq<Event>, now: int, key: string)
    requires Ordered(trace + [Event.Cleanup(now)])
    ensures var t := trace + [Event.Cleanup(now)]; var solo := Solo(cfg, TimesOf(trace, key));
      && TimesOf(t, key) == TimesOf(trace, key)
      && (key in Table(cfg, t) <==> solo.Some? && now <= solo.value.resetAt)
      && (key in Table(cfg, t) ==> Table(cfg, t)[key] == solo.value)
  {
    var t := trace + [Event.Cleanup(now)];
    assert t[..|trace|] == trace;
    assert Ordered(trace) && (trace != [] ==> trace[|trace| - 1].time <= now) by {
      hide Table, TimesOf;
      assert forall i :: 0 <= i < |trace| ==> trace[i] == t[i];
      assert t[|trace|].time == now;
    }
    TableAgreesWithSolo(cfg, trace, key, now);
    assert TimesOf(t, key) == TimesOf(trace, key) + [];
  }

  /** So no key stays on record that made no request within the last window: the memory follows the traffic. */
  lemma CleanupForgets(cfg: Config, trace: seq<Event>, now: int, key: string)
    requires Ordered(trace + [Event.Cleanup(now)]) && key in Table(cfg, trace + [Event.Cleanup(now)])
    ensures exists i ::
      0 <= i < |trace| && trace[i].Request? && trace[i].key == key && trace[i].time >= now - cfg.window
  {
    hide Table;
    CleanupKeeps(cfg, trace, now, key);
    var times := TimesOf(trace, key);
    assert Ordered(trace) by {
      hide TimesOf;
      assert forall i :: 0 <= i < |trace| ==> trace[i] == (trace + [Event.Cleanup(now)])[i];
    }
    TimesOrdered(trace, key);
    SoloSome(cfg, times);
    ResetBound(cfg, times);
    var i := LastRequest(trace, key);
  }

  lemma SoloSome(cfg: Config, times: seq<int>)
    ensures Solo(cfg, times).Some? <==> times != []
  {
  }

  lemma {:induction false} LastRequest(trace: seq<Event>, key: string) returns (i: nat)
    requires TimesOf(trace, key) != []
    ensures i < |trace| && trace[i].Request? && trace[i].key == key
    ensures trace[i].time == TimesOf(trace, key)[|TimesOf(trace, key)| - 1]
  {
    var e := trace[|trace| - 1];
    if e.Request? && e.key == key {
      i := |trace| - 1;
    } else {
      i := LastRequest(trace[..|trace| - 1], key);
    }
  }

  /** A request is denied only when the limit was already allowed within the window that ends with it. */
  lemma DeniedMeansFull(cfg: Config, times: seq<int>, t: int)
    requires cfg.limit >= 1 && OrderedTimes(times) && forall i :: 0 <= i < |times| ==> times[i] <= t
    requires !SoloAnswers(cfg, times + [t])[|times|]
    ensures Allowed(times, SoloAnswers(cfg, times), t - cfg.window, t) >= cfg.limit
  {
    hide Solo, SoloAnswers, Allowed, Hit, OrderedTimes;
    SoloSnoc(cfg, times, t);
    SoloSome(cfg, times);
    Denied(cfg, Solo(cfg, times), t);
    if times != [] {
      WindowCount(cfg, times);
      var c := Solo(cfg, times).value;
      AllowedWithin(times, SoloAnswers(cfg, times), c.resetAt - cfg.window, c.resetAt, t - cfg.window, t);
    }
  }

  lemma Denied(cfg: Config, c: Option<Counter>, now: int)
    requires !Hit(cfg, c, now).1
    ensures c.Some? && now <= c.value.resetAt && c.value.count >= cfg.limit
  {
  }

  /** Nothing that an interval counts is lost in a wider one, or one that reaches past the last request. */
  lemma {:induction false} AllowedWithin(times: seq<int>, answers: seq<bool>, lo: int, hi: int, lo': int, hi': int)
    requires |times| == |answers| && lo' <= lo && forall i :: 0 <= i < |times| ==> times[i] <= hi'
    ensures Allowed(times, answers, lo, hi) <= Allowed(times, answers, lo', hi')
  {
    if times != [] {
      AllowedWithin(times[..|times| - 1], answers[..|answers| - 1], lo, hi, lo', hi');
    }
  }

  /** The same of any trace, cleanups and other keys included. */
  lemma DenialExplained(cfg: Config, trace: seq<Event>, key: string, time: int)
    requires cfg.limit >= 1 && Ordered(trace + [Request(key, time)]) && Ordered(trace)
    requires Answers(cfg, trace + [Request(key, time)], key) == Answers(cfg, trace, key) + [false]
    ensures |TimesOf(trace, key)| == |Answers(cfg, trace, key)|
    ensures Allowed(TimesOf(trace, key), Answers(cfg, trace, key), time - cfg.window, time) >= cfg.limit
  {
    hide Answers, Allowed, Table, Solo;
    var t := trace + [Request(key, time)];
    CleanupInvisible(cfg, trace, key);
    CleanupInvisible(cfg, t, key);
    TimesOrdered(trace, key);
    TimesOrdered(t, key);
    TimesSnoc(trace, key, time);
    BeforeLast(TimesOf(trace, key), time);
    DeniedMeansFull(cfg, TimesOf(trace, key), time);
  }

  lemma BeforeLast(times: seq<int>, t: int)
    requires OrderedTimes(times + [t])
    ensures forall i :: 0 <= i < |times| ==> times[i] <= t
  {
    assert forall i :: 0 <= i < |times| ==> times[i] == (times + [t])[i] <= (times + [t])[|times|];
  }

  lemma TimesSnoc(trace: seq<Event>, key: string, time: int)
    ensures TimesOf(trace + [Request(key, time)], key) == TimesOf(trace, key) + [time]
  {
    assert (trace + [Request(key, time)])[..|trace|] == trace;
  }

  /** One more request of the key at the end of a trace. */
  lemma OneMore(cfg: Config, trace: seq<Event>, key: string, time: int)
    ensures var t := trace + [Request(key, time)];
      && var (c, ok) := Hit(cfg, Lookup(Table(cfg, trace), key), time);
      && Lookup(Table(cfg, t), key) == Some(c)
      && TimesOf(t, key) == TimesOf(trace, key) + [time]
      && Answers(cfg, t, key) == Answers(cfg, trace, key) + [ok]
  {
    assert (trace + [Request(key, time)])[..|trace|] == trace;
  }

  lemma OneSweep(cfg: Config, trace: seq<Event>, now: int)
    ensures Table(cfg, trace + [Cleanup(now)]) == Swept(Table(cfg, trace), now)
  {
    assert (trace + [Cleanup(now)])[..|trace|] == trace;
  }

  ghost predicate EndsAt(trace: seq<Event>, last: int) {
    Ordered(trace) && trace != [] && trace[|trace| - 1].time == last
  }

  lemma EndsLater(trace: seq<Event>, last: int, key: string, time: int)
    requires EndsAt(trace, last) && last <= time
    ensures EndsAt(trace + [Request(key, time)], time)
  {
  }

  /**
   * The trace ends at time `last`, the key's counter is c, and `counted` of its requests were allowed in the window
   * that starts at 1.
   */
  ghost predicate Spent(cfg: Config, trace: seq<Event>, key: string, c: Counter, counted: nat, last: int) {
    && EndsAt(trace, last)
    && |TimesOf(trace, key)| == |Answers(cfg, trace, key)|
    && Lookup(Table(cfg, trace), key) == Some(c)
    && Allowed(TimesOf(trace, key), Answers(cfg, trace, key), 1, 1 + cfg.window) == counted
  }

  lemma SpendOne(cfg: Config, trace: seq<Event>, key: string, c: Counter, counted: nat, last: int, time: int)
    returns (t: seq<Event>)
    requires Spent(cfg, trace, key, c, counted, last) && last <= time && 1 <= time <= 1 + cfg.window
    ensures var (c', ok) := Hit(cfg, Some(c), time);
      Spent(cfg, t, key, c', counted + if ok then 1 else 0, time)
  {
    EndsLater(trace, last, key, time);
    t := CountOne(cfg, trace, key, c, time);
  }

  lemma CountOne(cfg: Config, trace: seq<Event>, key: string, c: Counter, time: int) returns (t: seq<Event>)
    requires |TimesOf(trace, key)| == |Answers(cfg, trace, key)|
    requires Lookup(Table(cfg, trace), key) == Some(c) && 1 <= time <= 1 + cfg.window
    ensures t == trace + [Request(key, time)]
    ensures |TimesOf(t, key)| == |Answers(cfg, t, key)|
    ensures Lookup(Table(cfg, t), key) == Some(Hit(cfg, Some(c), time).0)
    ensures Allowed(TimesOf(t, key), Answers(cfg, t, key), 1, 1 + cfg.window)
      == Allowed(TimesOf(trace, key), Answers(cfg, trace, key), 1, 1 + cfg.window)
       + if Hit(cfg, Some(c), time).1 then 1 else 0
  {
    t := trace + [Request(key, time)];
    OneMore(cfg, trace, key, time);
    AllowedSnoc(TimesOf(trace, key), Answers(cfg, trace, key), time, Hit(cfg, Some(c), time).1, 1, 1 + cfg.window);
  }

  /** Requests at one moment until the window is used up. */
  lemma {:induction false} FillWindow(
    cfg: Config, trace: seq<Event>, key: string, c: Counter, counted: nat, last: int, time: int)
    returns (t: seq<Event>)
    requires Spent(cfg, trace, key, c, counted, last) && last <= time
    requires 1 <= time <= 1 + cfg.window && time <= c.resetAt && c.count <= cfg.limit
    ensures Spent(cfg, t, key, c.(count := cfg.limit), counted + cfg.limit - c.count,
      if c.count == cfg.limit then last else time)
    decreases cfg.limit - c.count
  {
    t := trace;
    if c.count < cfg.limit {
      t := SpendOne(cfg, trace, key, c, counted, last, time);
      t := FillWindow(cfg, t, key, c.(count := c.count + 1), counted + 1, time, time);
    }
  }

  lemma FirstRequest(cfg: Config, key: string) returns (t: seq<Event>)
    requires cfg.limit >= 1
    ensures Spent(cfg, t, key, Counter(1, cfg.window), 0, 0)
  {
    OneMore(cfg, [], key, 0);
    t := [Request(key, 0)];
    assert [] + t == t;
    AllowedSnoc([], [], 0, true, 1, 1 + cfg.window);
    assert [] + [0] == [0] && [] + [true] == [true];
  }

  /**
   * The bound of SharpBound is met with equality: one request, the rest of its window as late as
   * possible, then a full new window at once.
   */
  lemma BoundAttained(cfg: Config, key: string) returns (t: seq<Event>)
    requires cfg.limit >= 1 && cfg.window >= 1
    ensures Ordered(t) && |TimesOf(t, key)| == |Answers(cfg, t, key)|
    ensures Allowed(TimesOf(t, key), Answers(cfg, t, key), 1, 1 + cfg.window) == 2 * cfg.limit - 1
  {
    var w, l := cfg.window, cfg.limit;
    t := FirstRequest(cfg, key);
    t := FillWindow(cfg, t, key, Counter(1, w), 0, 0, w);
    t := SpendOne(cfg, t, key, Counter(l, w), l - 1, if l == 1 then 0 else w, w + 1);
    t := FillWindow(cfg, t, key, Counter(1, w + 1 + w), l, w + 1, w + 1);
  }

  /** Key's requests allowed in the closed interval of one window that starts at lo. */
  function AllowedFrom(cfg: Config, trace: seq<Event>, key: string, lo: int): nat {
    var times, answers := TimesOf(trace, key), Answers(cfg, trace, key);
    if |times| == |answers| then Allowed(times, answers, lo, lo + cfg.window) else 0
  }

  /** What a sliding window would promise: never more than the limit in any interval of one window. */
  ghost predicate Sliding(cfg: Config) {
    forall trace, key, lo :: Ordered(trace) ==> AllowedFrom(cfg, trace, key, lo) <= cfg.limit
  }

  /** The limiter keeps that promise only for a limit of one request. */
  lemma SlidingExactly(cfg: Config)
    requires cfg.limit >= 1 && cfg.window >= 1
    ensures Sliding(cfg) <==> cfg.limit == 1
  {
    hide Ordered, TimesOf, Answers, Allowed;
    if cfg.limit == 1 {
      forall trace, key, lo | Ordered(trace) ensures AllowedFrom(cfg, trace, key, lo) <= cfg.limit {
        SharpBound(cfg, trace, key, lo);
      }
    } else {
      var t := BoundAttained(cfg, "");
      assert AllowedFrom(cfg, t, "", 1) == 2 * cfg.limit - 1;
    }
  }

  // ----- the limiter itself

  lemma TableOneMore(cfg: Config, trace: seq<Event>, key: string, time: int)
    ensures Table(cfg, trace + [Request(key, time)]) ==
      Table(cfg, trace)[key := Hit(cfg, Lookup(Table(cfg, trace), key), time).0]
  {
    assert (trace + [Request(key, time)])[..|trace|] == trace;
  }

  class RateCounter {
    var count: nat
    var resetAt: int

    constructor (count: nat, resetAt: int)
      ensures this.count == count && this.resetAt == resetAt
    {
      this.count := count;
      this.resetAt := resetAt;
    }
  }

  class IpRateLimiter {
    const limit: nat
    const window: nat
    var counters: map<string, RateCounter>
    ghost var trace: seq<Event>  // what has happened to this limiter

    /** The counters are distinct objects. */
    ghost predicate Apart()
      reads this
    {
      forall k, l :: k in counters && l in counters && k != l ==> counters[k] != counters[l]
    }

    /** And they hold what the trace says. */
    ghost predicate Valid()
      reads this, counters.Values
    {
      Apart() && Contents() == Table(Config(limit, window), trace)
    }

    ghost function Contents(): map<string, Counter>
      reads this, counters.Values
    {
      map k | k in counters :: Counter(counters[k].count, counters[k].resetAt)
    }

    constructor (limit: nat, window: nat)
      ensures Valid() && trace == []
      ensures this.limit == limit && this.window == window
    {
      this.limit := limit;
      this.window := window;
      counters := map[];
      trace := [];
    }

    method Allow(key: string, now: int) returns (ok: bool)
      requires Valid()
      modifies this, counters.Values
      ensures Valid() && counters.Values <= old(counters.Values) + set c: RateCounter | c in counters.Values && fresh(c)
      ensures trace == old(trace) + [Request(key, now)]
      ensures Answers(Config(limit, window), trace, key) == Answers(Config(limit, window), old(trace), key) + [ok]
    {
      hide Answers, TimesOf, Hit, Table;
      ghost var cfg := Config(limit, window);
      OneMore(cfg, trace, key, now);
      TableOneMore(cfg, trace, key, now);
      ok := Count(key, now);
      trace := trace + [Request(key, now)];
    }

    /** The locked part of allow, on the counters alone. */
    method Count(key: string, now: int) returns (ok: bool)
      requires Apart()
      modifies this`counters, counters.Values
      ensures Apart()
      ensures counters.Values <= old(counters.Values) + set c: RateCounter | c in counters.Values && fresh(c)
      ensures var (c, answer) := Hit(Config(limit, window), Lookup(old(Contents()), key), now);
        Contents() == old(Contents())[key := c] && ok == answer
    {
      if key !in counters || now > counters[key].resetAt {
        var c := new RateCounter(1, now + window);
        counters := counters[key := c];
        ok := true;
      } else {
        var c := counters[key];
        assert c in counters.Values;
        ok := c.count < limit;
        if ok {
          c.count := c.count + 1;
        }
        assert forall k :: k in counters && k != key ==> counters[k] in old(counters.Values);
      }
    }

    /** One tick of cleanupLoop. */
    method Cleanup(now: int)
      requires Valid()
      modifies this
      ensures Valid() && counters.Values <= old(counters.Values)
      ensures trace == old(trace) + [Event.Cleanup(now)]
    {
      hide Table;
      OneSweep(Config(limit, window), trace, now);
      Sweep(now);
      trace := trace + [Event.Cleanup(now)];
    }

    /** The locked part of a tick, on the counters alone. */
    method Sweep(now: int)
      requires Apart()
      modifies this`counters
      ensures Apart() && counters.Values <= old(counters.Values)
      ensures Contents() == Swept(old(Contents()), now)
    {
      var todo := counters.Keys;
      while todo != {}
        invariant todo <= counters.Keys <= old(counters.Keys)
        invariant forall k :: k in counters ==> counters[k] == old(counters[k])
        invariant forall k :: k in old(counters) && k !in todo ==>
          (k in counters <==> !(now > old(counters[k]).resetAt))
        decreases todo
      {
        var key :| key in todo;
        if now > counters[key].resetAt {
          counters := map k | k in counters && k != key :: counters[k];
        }
        todo := todo - {key};
      }
      assert forall c :: c in counters.Values ==> exists k :: k in counters && counters[k] == c;
    }
  }
}
