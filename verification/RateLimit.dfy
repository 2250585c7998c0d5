/** The in-memory sliding-window limiters (internal/api/ratelimit.go, internal/api/trading_handlers.go). Times are
    nanoseconds; each limiter's mutex makes its calls atomic, so a run is a sequence of calls. */
module RateLimit {
  type Times = seq<int>
  type Table = map<string, Times>

  const SECOND := 1000000000

  function Get(t: Table, key: string): Times {
    if key in t then t[key] else []
  }

  /** The entries at `from` or later, in order. */
  function Since(s: Times, from: int): Times {
    if s == [] then []
    else Since(s[..|s| - 1], from) + if s[|s| - 1] >= from then [s[|s| - 1]] else []
  }

  /** It keeps every entry at `from` or later as often as it was there, and no other. */
  lemma {:induction false} SinceInFigures(s: Times, from: int)
    ensures forall x :: multiset(Since(s, from))[x] == if x >= from then multiset(s)[x] else 0
  {
    if s == [] {
    } else {
      var init, x := s[..|s| - 1], s[|s| - 1];
      assert s == init + [x];
      SinceInFigures(init, from);
    }
  }

  /** How many entries are at `from` or later. */
  function CountFrom(s: Times, from: int): nat {
    if s == [] then 0 else (if s[0] >= from then 1 else 0) + CountFrom(s[1..], from)
  }

  lemma {:induction false} CountAppend(s: Times, x: int, from: int)
    ensures CountFrom(s + [x], from) == CountFrom(s, from) + if x >= from then 1 else 0
  {
    if s == [] {
    } else {
      assert (s + [x])[1..] == s[1..] + [x];
      CountAppend(s[1..], x, from);
    }
  }

  lemma {:induction false} SinceCounts(s: Times, from: int)
    ensures |Since(s, from)| == CountFrom(s, from)
  {
    if s == [] {
    } else {
      var init, x := s[..|s| - 1], s[|s| - 1];
      assert s == init + [x];
      SinceCounts(init, from);
      CountAppend(init, x, from);
    }
  }

  // ---------------------------------------------------------------- what is stored and what is meant

  /** A request at `now` counts the entries not older than `span`: the window less one tick where the lower edge is
      strict (RateLimiter, apiKeyRateLimiter), the whole window where it is inclusive (orderRateLimiter). */
  datatype Rule = Rule(limit: int, span: int)

  datatype Event = Allow(key: string, now: int) | Reset(key: string) | Cleanup(now: int) | Sweep

  predicate Admits(t: Table, r: Rule, key: string, now: int) {
    |Since(Get(t, key), now - r.span)| < r.limit
  }

  /** A limiter with a strict window admits a request exactly if fewer than `limit` stored requests of its key are less
      than `window` old; the order limiter, if fewer than 20 are at most sixty seconds old. */
  lemma AdmitsInFigures(t: Table, limit: int, window: int, key: string, now: int)
    ensures var times := if key in t then t[key] else [];
            && (Admits(t, Rule(limit, window - 1), key, now) <==> CountFrom(times, now - window + 1) < limit)
            && (Admits(t, Rule(20, 60000000000), key, now) <==> CountFrom(times, now - 60000000000) < 20)
  {
    SinceCounts(Get(t, key), now - window + 1);
    SinceCounts(Get(t, key), now - 60000000000);
  }

  /** What allow leaves: old entries are pruned whatever the answer, and an accepted request is added. */
  function AllowTable(t: Table, r: Rule, key: string, now: int): Table {
    var valid := Since(Get(t, key), now - r.span);
    t[key := if |valid| < r.limit then valid + [now] else valid]
  }

  /** The cleanup loops: prune every entry and drop the keys with nothing left. */
  function CleanTable(t: Table, from: int): Table {
    map k | k in t && Since(t[k], from) != [] :: Since(t[k], from)
  }

  /** The order limiter's sweep only drops keys without entries. */
  function SweepTable(t: Table): Table {
    map k | k in t && t[k] != [] :: t[k]
  }

  function TableNext(t: Table, r: Rule, e: Event): Table {
    match e
    case Allow(key, now) => AllowTable(t, r, key, now)
    case Reset(key) => t - {key}
    case Cleanup(now) => CleanTable(t, now - r.span)
    case Sweep => SweepTable(t)
  }

  function Answers(t: Table, r: Rule, events: seq<Event>): seq<bool>
    decreases |events|
  {
    if events == [] then []
    else
      (match events[0] case Allow(key, now) => [Admits(t, r, key, now)] case _ => [])
      + Answers(TableNext(t, r, events[0]), r, events[1..])
  }

  /** The reference forgets nothing: every accepted request since the key's last reset is kept for ever, and pruning
      does not exist. */
  function LogNext(log: Table, r: Rule, e: Event): Table {
    match e
    case Allow(key, now) => if Admits(log, r, key, now) then log[key := Get(log, key) + [now]] else log
    case Reset(key) => log - {key}
    case Cleanup(_) => log
    case Sweep => log
  }

  function LogAnswers(log: Table, r: Rule, events: seq<Event>): seq<bool>
    decreases |events|
  {
    if events == [] then []
    else
      (match events[0] case Allow(key, now) => [Admits(log, r, key, now)] case _ => [])
      + LogAnswers(LogNext(log, r, events[0]), r, events[1..])
  }

  function TimeOf(e: Event, clock: int): int {
    if e.Allow? || e.Cleanup? then e.now else clock
  }

  /** The clock never runs backwards. */
  predicate Monotone(events: seq<Event>, clock: int)
    decreases |events|
  {
    events == [] || (TimeOf(events[0], clock) >= clock && Monotone(events[1..], TimeOf(events[0], clock)))
  }

  // ---------------------------------------------------------------- Since

  lemma {:induction false} SinceTwice(s: Times, a: int, b: int)
    requires a <= b
    ensures Since(Since(s, a), b) == Since(s, b)
  {
    if s == [] {
    } else {
      var init, x := s[..|s| - 1], s[|s| - 1];
      SinceTwice(init, a, b);
      if x >= a {
        assert (Since(init, a) + [x])[..|Since(init, a)|] == Since(init, a);
      } else {
        assert Since(init, a) + [] == Since(init, a);
      }
    }
  }

  lemma SinceAppend(s: Times, x: int, from: int)
    ensures Since(s + [x], from) == Since(s, from) + if x >= from then [x] else []
  {
    assert (s + [x])[..|s|] == s;
  }

  /** In order, and nothing later than `clock`. */
  predicate Ordered(s: Times, clock: int) {
    && (forall i, j :: 0 <= i < j < |s| ==> s[i] <= s[j])
    && (forall i :: 0 <= i < |s| ==> s[i] <= clock)
  }

  predicate AllBefore(s: Times, from: int) { forall i :: 0 <= i < |s| ==> s[i] < from }
  predicate NoneBefore(s: Times, from: int) { forall i :: 0 <= i < |s| ==> s[i] >= from }

  lemma {:induction false} SinceNone(s: Times, from: int)
    requires AllBefore(s, from)
    ensures Since(s, from) == []
  {
    if s == [] {
    } else {
      SinceNone(s[..|s| - 1], from);
    }
  }

  lemma {:induction false} SinceConcat(s: Times, t: Times, from: int)
    requires AllBefore(s, from) && NoneBefore(t, from)
    ensures Since(s + t, from) == t
  {
    if t == [] {
      assert s + t == s;
      SinceNone(s, from);
    } else {
      var n := |t| - 1;
      SinceConcat(s, t[..n], from);
      SinceAppend(s + t[..n], t[n], from);
      assert s + t == s + t[..n] + [t[n]];
    }
  }

  /** In an ordered list the recent entries are a suffix, so dropping the front one by one finds them. */
  lemma SinceIsSuffix(s: Times, clock: int, i: nat, from: int)
    requires Ordered(s, clock) && i <= |s|
    requires (forall j :: 0 <= j < i ==> s[j] < from) && (i < |s| ==> s[i] >= from)
    ensures Since(s, from) == s[i..]
  {
    SinceConcat(s[..i], s[i..], from);
    assert s == s[..i] + s[i..];
  }

  lemma {:induction false} SinceOrdered(s: Times, clock: int, from: int)
    requires Ordered(s, clock)
    ensures Ordered(Since(s, from), clock)
    ensures forall i :: 0 <= i < |Since(s, from)| ==> Since(s, from)[i] >= from
  {
    if s == [] {
    } else {
      var init, x := s[..|s| - 1], s[|s| - 1];
      assert Ordered(init, x) && x <= clock;
      SinceOrdered(init, x, from);
      var kept := Since(init, from);
      assert Since(s, from) == kept + if x >= from then [x] else [];
      hide Since;
    }
  }

  // ---------------------------------------------------------------- the invariant

  /** Any limit + 1 accepted requests lie more than `span` apart. */
  predicate Spaced(s: Times, r: Rule) {
    if r.limit <= 0 then s == []
    else forall i :: 0 <= i && i + r.limit < |s| ==> s[i + r.limit] - s[i] > r.span
  }

  /** For one key: the stored list and the full log have the same recent entries. */
  predicate KeyInv(stored: Times, logged: Times, r: Rule, clock: int) {
    && Ordered(stored, clock) && Ordered(logged, clock) && Spaced(logged, r)
    && Since(stored, clock - r.span) == Since(logged, clock - r.span)
  }

  ghost predicate Inv(t: Table, log: Table, r: Rule, clock: int) {
    forall k :: KeyInv(Get(t, k), Get(log, k), r, clock)
  }

  lemma KeyInvLater(stored: Times, logged: Times, r: Rule, clock: int, now: int)
    requires KeyInv(stored, logged, r, clock) && now >= clock
    ensures KeyInv(stored, logged, r, now)
  {
    hide Since, Spaced;
    SinceTwice(stored, clock - r.span, now - r.span);
    SinceTwice(logged, clock - r.span, now - r.span);
  }

  /** Pruning keeps the invariant. */
  lemma KeyInvPruned(stored: Times, logged: Times, r: Rule, clock: int)
    requires KeyInv(stored, logged, r, clock)
    ensures KeyInv(Since(stored, clock - r.span), logged, r, clock)
  {
    SinceTwice(stored, clock - r.span, clock - r.span);
    SinceOrdered(stored, clock, clock - r.span);
  }

  lemma NothingStored(r: Rule, now: int)
    ensures KeyInv([], [], r, now)
  {
  }

  lemma OrderedAppend(s: Times, now: int)
    requires Ordered(s, now)
    ensures Ordered(s + [now], now)
  {
  }

  lemma SpacedAppend(s: Times, r: Rule, now: int)
    requires Ordered(s, now) && Spaced(s, r) && |Since(s, now - r.span)| < r.limit
    ensures Spaced(s + [now], r) && Ordered(s + [now], now)
  {
    var f := FirstSince(s, now - r.span);
    SinceIsSuffix(s, now, f, now - r.span);
    OrderedAppend(s, now);
    hide Since, Ordered;
    var t := s + [now];
    forall i | 0 <= i && i + r.limit < |t| ensures t[i + r.limit] - t[i] > r.span {
      if i + r.limit == |s| {
        assert i < f;
      }
    }
  }

  lemma KeyInvAccepted(stored: Times, logged: Times, r: Rule, now: int)
    requires KeyInv(stored, logged, r, now) && |Since(logged, now - r.span)| < r.limit
    ensures KeyInv(stored + [now], logged + [now], r, now)
  {
    hide Since, Spaced, Ordered;
    OrderedAppend(stored, now);
    SinceAppend(stored, now, now - r.span);
    SinceAppend(logged, now, now - r.span);
    SpacedAppend(logged, r, now);
  }

  function FirstSince(s: Times, from: int): (i: nat)
    ensures i <= |s| && (forall j :: 0 <= j < i ==> s[j] < from) && (i < |s| ==> s[i] >= from)
  {
    if s == [] || s[0] >= from then 0 else 1 + FirstSince(s[1..], from)
  }

  lemma AdmitsAgree(t: Table, log: Table, r: Rule, clock: int, key: string, now: int)
    requires Inv(t, log, r, clock) && now >= clock
    ensures Admits(t, r, key, now) <==> Admits(log, r, key, now)
  {
    assert KeyInv(Get(t, key), Get(log, key), r, clock);
    KeyInvLater(Get(t, key), Get(log, key), r, clock, now);
  }

  lemma KeyNext(t: Table, log: Table, r: Rule, clock: int, e: Event, k: string)
    requires Inv(t, log, r, clock) && r.span >= 0 && TimeOf(e, clock) >= clock
    ensures KeyInv(Get(TableNext(t, r, e), k), Get(LogNext(log, r, e), k), r, TimeOf(e, clock))
  {
    hide Since, Spaced, Ordered;
    var s, g, now := Get(t, k), Get(log, k), TimeOf(e, clock);
    assert KeyInv(s, g, r, clock);
    KeyInvLater(s, g, r, clock, now);
    match e
    case Allow(key, _) =>
      if key == k {
        AdmitsAgree(t, log, r, clock, key, now);
        KeyInvPruned(s, g, r, now);
        if Admits(t, r, key, now) {
          KeyInvAccepted(Since(s, now - r.span), g, r, now);
        }
      }
    case Reset(key) => NothingStored(r, now);
    case Cleanup(_) => KeyInvPruned(s, g, r, now);
    case Sweep =>
  }

  lemma InvNext(t: Table, log: Table, r: Rule, clock: int, e: Event)
    requires Inv(t, log, r, clock) && r.span >= 0 && TimeOf(e, clock) >= clock
    ensures Inv(TableNext(t, r, e), LogNext(log, r, e), r, TimeOf(e, clock))
  {
    forall k ensures KeyInv(Get(TableNext(t, r, e), k), Get(LogNext(log, r, e), k), r, TimeOf(e, clock)) {
      KeyNext(t, log, r, clock, e, k);
    }
  }

  /** The empty limiter and the empty log. */
  lemma InvStart(r: Rule, clock: int)
    ensures Inv(map[], map[], r, clock)
  {
  }

  // ---------------------------------------------------------------- theorems over runs

  /** Every run of calls, resets, cleanups and sweeps is answered as by the log that forgets nothing. */
  lemma {:induction false} LimiterRefinesLog(t: Table, log: Table, r: Rule, clock: int, events: seq<Event>)
    requires Inv(t, log, r, clock) && r.span >= 0 && Monotone(events, clock)
    ensures Answers(t, r, events) == LogAnswers(log, r, events)
    decreases |events|
  {
    if events == [] {
    } else {
      var e := events[0];
      if e.Allow? { AdmitsAgree(t, log, r, clock, e.key, e.now); }
      InvNext(t, log, r, clock, e);
      LimiterRefinesLog(TableNext(t, r, e), LogNext(log, r, e), r, TimeOf(e, clock), events[1..]);
    }
  }

  /** The calls and resets of a run, without the housekeeping. */
  function Requests(events: seq<Event>): seq<Event> {
    if events == [] then []
    else (if events[0].Cleanup? || events[0].Sweep? then [] else [events[0]]) + Requests(events[1..])
  }

  lemma {:induction false} LogIgnoresHousekeeping(log: Table, r: Rule, events: seq<Event>)
    ensures LogAnswers(log, r, Requests(events)) == LogAnswers(log, r, events)
    decreases |events|
  {
    if events == [] {
    } else {
      LogIgnoresHousekeeping(LogNext(log, r, events[0]), r, events[1..]);
      if events[0].Cleanup? || events[0].Sweep? {
        assert Requests(events) == Requests(events[1..]);
      } else {
        assert Requests(events)[1..] == Requests(events[1..]);
      }
    }
  }

  lemma {:induction false} MonotoneWithout(events: seq<Event>, clock: int, before: int)
    requires Monotone(events, clock) && before <= clock
    ensures Monotone(Requests(events), before)
    decreases |events|
  {
    if events == [] {
    } else {
      var e := events[0];
      if e.Cleanup? || e.Sweep? {
        assert Requests(events) == Requests(events[1..]);
        MonotoneWithout(events[1..], TimeOf(e, clock), before);
      } else {
        assert Requests(events)[1..] == Requests(events[1..]);
        MonotoneWithout(events[1..], TimeOf(e, clock), TimeOf(e, before));
      }
    }
  }

  /** Pruning and cleaning up, whenever it happens, changes no answer of the limiter. */
  lemma HousekeepingIsInvisible(r: Rule, clock: int, events: seq<Event>)
    requires r.span >= 0 && Monotone(events, clock)
    ensures Answers(map[], r, events) == Answers(map[], r, Requests(events))
  {
    InvStart(r, clock);
    LimiterRefinesLog(map[], map[], r, clock, events);
    LogIgnoresHousekeeping(map[], r, events);
    MonotoneWithout(events, clock, clock);
    LimiterRefinesLog(map[], map[], r, clock, Requests(events));
  }

  function TableAfter(t: Table, r: Rule, events: seq<Event>): Table
    decreases |events|
  {
    if events == [] then t else TableAfter(TableNext(t, r, events[0]), r, events[1..])
  }

  function LogAfter(log: Table, r: Rule, events: seq<Event>): Table
    decreases |events|
  {
    if events == [] then log else LogAfter(LogNext(log, r, events[0]), r, events[1..])
  }

  function ClockAfter(events: seq<Event>, clock: int): int
    decreases |events|
  {
    if events == [] then clock else ClockAfter(events[1..], TimeOf(events[0], clock))
  }

  lemma {:induction false} InvAfter(t: Table, log: Table, r: Rule, clock: int, events: seq<Event>)
    requires Inv(t, log, r, clock) && r.span >= 0 && Monotone(events, clock)
    ensures Inv(TableAfter(t, r, events), LogAfter(log, r, events), r, ClockAfter(events, clock))
    decreases |events|
  {
    if events == [] {
    } else {
      InvNext(t, log, r, clock, events[0]);
      InvAfter(TableNext(t, r, events[0]), LogNext(log, r, events[0]), r, TimeOf(events[0], clock), events[1..]);
    }
  }

  /** The limit itself: however a run goes, between two resets no limit + 1 requests of one key are accepted within
      `span` of each other. */
  lemma NeverMoreThanLimit(r: Rule, clock: int, events: seq<Event>, key: string, i: nat)
    requires r.limit > 0 && r.span >= 0 && Monotone(events, clock)
    requires i + r.limit < |Get(LogAfter(map[], r, events), key)|
    ensures var accepted := Get(LogAfter(map[], r, events), key); accepted[i + r.limit] - accepted[i] > r.span
  {
    InvStart(r, clock);
    InvAfter(map[], map[], r, clock, events);
    var t, log := TableAfter(map[], r, events), LogAfter(map[], r, events);
    assert KeyInv(Get(t, key), Get(log, key), r, ClockAfter(events, clock));
  }

  // ---------------------------------------------------------------- retry-after

  lemma FarApart(s: Times, r: Rule, i: nat)
    requires Spaced(s, r) && r.limit > 0 && i + r.limit < |s|
    ensures s[i + r.limit] - s[i] > r.span
  {
  }

  /** In reachable states at most `limit` entries are in the window. */
  lemma AtMostLimit(stored: Times, logged: Times, r: Rule, now: int)
    requires KeyInv(stored, logged, r, now) && r.limit > 0
    ensures |Since(stored, now - r.span)| <= r.limit
  {
    var i := FirstSince(logged, now - r.span);
    SinceIsSuffix(logged, now, i, now - r.span);
    if |logged| - i > r.limit {
      FarApart(logged, r, i);
    }
  }

  /** The oldest request a call at `now` counts. */
  function Oldest(t: Table, r: Rule, key: string, now: int): int
    requires Since(Get(t, key), now - r.span) != []
  {
    Since(Get(t, key), now - r.span)[0]
  }

  /** Fewer than all of `valid` are left at `from` exactly when its first entry is not. */
  lemma FirstLeavesFirst(valid: Times, clock: int, from: int)
    requires valid != [] && Ordered(valid, clock)
    ensures |Since(valid, from)| <= |valid|
    ensures |Since(valid, from)| < |valid| <==> valid[0] < from
  {
    var i := FirstSince(valid, from);
    SinceIsSuffix(valid, clock, i, from);
  }

  lemma PrunedCount(t: Table, log: Table, r: Rule, clock: int, key: string, now: int)
    requires Inv(t, log, r, clock) && r.limit > 0 && clock <= now && !Admits(t, r, key, now)
    ensures var valid := Since(Get(t, key), now - r.span);
            |valid| == r.limit && Ordered(valid, now) && valid[0] >= now - r.span
  {
    assert KeyInv(Get(t, key), Get(log, key), r, clock);
    KeyInvLater(Get(t, key), Get(log, key), r, clock, now);
    AtMostLimit(Get(t, key), Get(log, key), r, now);
    SinceOrdered(Get(t, key), now, now - r.span);
  }

  /** After a refusal, with no other request of the key in between, a call succeeds exactly when the oldest counted
      request has left the window. */
  lemma RetrySucceedsIff(t: Table, log: Table, r: Rule, clock: int, key: string, now: int, later: int)
    requires Inv(t, log, r, clock) && r.limit > 0 && clock <= now <= later
    requires !Admits(t, r, key, now)
    ensures Since(Get(t, key), now - r.span) != [] && Oldest(t, r, key, now) >= now - r.span
    ensures Admits(AllowTable(t, r, key, now), r, key, later) <==> later > Oldest(t, r, key, now) + r.span
  {
    hide Since, Ordered, Inv;
    PrunedCount(t, log, r, clock, key, now);
    FirstLeavesFirst(Since(Get(t, key), now - r.span), now, later - r.span);
  }

  /** What the Retry-After header says, in whole seconds. */
  function HeaderSeconds(retry: int): int { retry / SECOND + 1 }

  /** The header's whole seconds are more than the time, by at most one second. */
  lemma HeaderIsEnough(retry: int)
    ensures retry < HeaderSeconds(retry) * 1000000000 <= retry + 1000000000
  {
  }

  /** apiKeyRateLimiter: retryAfter is the earliest moment that succeeds, and it is in the future. A client that waits
      what the header says succeeds as well. */
  lemma ApiKeyRetryIsEarliest(t: Table, log: Table, r: Rule, clock: int, key: string, now: int, retry: int, wait: int)
    requires r.limit > 0 && Inv(t, log, r, clock) && clock <= now && wait >= 0 && !Admits(t, r, key, now)
    requires Since(Get(t, key), now - r.span) != [] && retry == Oldest(t, r, key, now) + (r.span + 1) - now
    ensures retry > 0 && HeaderSeconds(retry) * SECOND > retry
    ensures Admits(AllowTable(t, r, key, now), r, key, now + wait) <==> wait >= retry
  {
    hide Inv, Since, AllowTable, Admits, Oldest, HeaderSeconds;
    RetrySucceedsIff(t, log, r, clock, key, now, now + wait);
    HeaderIsEnough(retry);
  }

  function Max(x: int, y: int): int { if x >= y then x else y }

  /** orderRateLimiter: its window includes the lower edge, so after waiting exactly the reported time a client is
      refused again, unless the one-second floor had raised that time; the header's seconds are enough. */
  lemma OrderRetryFallsShort(t: Table, log: Table, r: Rule, clock: int, key: string, now: int, left: int)
    requires r.limit > 0 && Inv(t, log, r, clock) && clock <= now && !Admits(t, r, key, now)
    requires Since(Get(t, key), now - r.span) != [] && left == Oldest(t, r, key, now) + r.span - now
    ensures Admits(AllowTable(t, r, key, now), r, key, now + Max(left, SECOND)) <==> left < SECOND
    ensures Admits(AllowTable(t, r, key, now), r, key, now + HeaderSeconds(Max(left, SECOND)) * SECOND)
  {
    hide Inv, Since, AllowTable, Admits, Oldest;
    var retry := Max(left, SECOND);
    var header := HeaderSeconds(retry) * SECOND;
    HeaderIsEnough(retry);
    hide HeaderSeconds;
    RetrySucceedsIff(t, log, r, clock, key, now, now + retry);
    RetrySucceedsIff(t, log, r, clock, key, now, now + header);
  }

  /** Orders of one user, all at time zero. */
  function Burst(n: nat): seq<Event> {
    seq(n, _ => Allow("u", 0))
  }

  function Zeros(n: nat): Times {
    seq(n, _ => 0)
  }

  lemma {:induction false} TableAfterAppend(t: Table, r: Rule, events: seq<Event>, e: Event)
    ensures TableAfter(t, r, events + [e]) == TableNext(TableAfter(t, r, events), r, e)
    decreases |events|
  {
    if events == [] {
      assert [] + [e] == [e] && [e][1..] == [];
      assert TableAfter(t, r, [e]) == TableAfter(TableNext(t, r, e), r, []);
    } else {
      assert (events + [e])[1..] == events[1..] + [e];
      TableAfterAppend(TableNext(t, r, events[0]), r, events[1..], e);
    }
  }

  lemma ZerosStay(n: nat, from: int)
    requires from <= 0
    ensures Since(Zeros(n), from) == Zeros(n)
  {
    SinceConcat([], Zeros(n), from);
    assert [] + Zeros(n) == Zeros(n);
  }

  lemma {:induction false} BurstFills(r: Rule, n: nat)
    requires n <= r.limit && r.span >= 0
    ensures Get(TableAfter(map[], r, Burst(n)), "u") == Zeros(n)
  {
    if n == 0 {
    } else {
      hide TableAfter, Since, AllowTable, Zeros;
      BurstFills(r, n - 1);
      TableAfterAppend(map[], r, Burst(n - 1), Allow("u", 0));
      assert Burst(n) == Burst(n - 1) + [Allow("u", 0)];
      AllowFills(TableAfter(map[], r, Burst(n - 1)), r, n - 1);
    }
  }

  lemma AllowFills(t: Table, r: Rule, n: nat)
    requires Get(t, "u") == Zeros(n) && n < r.limit && r.span >= 0
    ensures Get(AllowTable(t, r, "u", 0), "u") == Zeros(n + 1)
  {
    ZerosStay(n, 0 - r.span);
    assert Zeros(n + 1) == Zeros(n) + [0];
  }

  lemma WindowIsFull(t: Table, r: Rule)
    requires r.limit > 0 && r.span >= 0 && Get(t, "u") == Zeros(r.limit)
    ensures !Admits(t, r, "u", 0) && Since(Get(t, "u"), 0 - r.span) != [] && Oldest(t, r, "u", 0) == 0
  {
    ZerosStay(r.limit, 0 - r.span);
  }

  lemma {:induction false} BurstIsMonotone(n: nat)
    ensures Monotone(Burst(n), 0) && ClockAfter(Burst(n), 0) == 0
  {
    if n == 0 {
    } else {
      assert Burst(n)[1..] == Burst(n - 1);
      BurstIsMonotone(n - 1);
    }
  }

  lemma BurstInv(r: Rule, n: nat)
    requires r.span >= 0
    ensures Inv(TableAfter(map[], r, Burst(n)), LogAfter(map[], r, Burst(n)), r, 0)
  {
    hide TableAfter, LogAfter, Inv, Burst;
    BurstIsMonotone(n);
    InvStart(r, 0);
    InvAfter(map[], map[], r, 0, Burst(n));
  }

  /** It happens: as many orders at once as are allowed, and one more that is told to retry after the whole window.
      After exactly that time it is refused again; after the header's seconds it is accepted. The limiter in use has
      limit 20 and a window of 60 seconds. */
  lemma WholeWindowIsTooShort(r: Rule, t: Table)
    requires r.limit > 0 && r.span >= SECOND && t == TableAfter(map[], r, Burst(r.limit))
    ensures !Admits(t, r, "u", 0) && Get(t, "u") == Zeros(r.limit)
    ensures Since(Get(t, "u"), 0 - r.span) != [] && Max(Oldest(t, r, "u", 0) + r.span - 0, SECOND) == r.span
    ensures !Admits(AllowTable(t, r, "u", 0), r, "u", r.span)
    ensures Admits(AllowTable(t, r, "u", 0), r, "u", HeaderSeconds(r.span) * SECOND)
  {
    hide TableAfter, LogAfter, Inv, AllowTable, HeaderSeconds, Burst, Since, Admits, Oldest, Zeros;
    BurstFills(r, r.limit);
    WindowIsFull(t, r);
    BurstInv(r, r.limit);
    OrderRetryFallsShort(t, LogAfter(map[], r, Burst(r.limit)), r, 0, "u", 0, r.span);
  }

  // ---------------------------------------------------------------- the order limiter's map never shrinks

  predicate OnlyRequests(events: seq<Event>) {
    forall i :: 0 <= i < |events| ==> events[i].Allow? || events[i].Sweep?
  }

  predicate NoEmptyEntry(t: Table) {
    forall k <- t :: t[k] != []
  }

  /** The sweep drops keys without entries, but the limiter never stores such a key: whatever happened before, the
      sweep removes nothing and idle users stay in the map. */
  lemma {:induction false} SweepRemovesNothing(t: Table, r: Rule, events: seq<Event>)
    requires r.limit > 0 && OnlyRequests(events) && NoEmptyEntry(t)
    ensures NoEmptyEntry(TableAfter(t, r, events))
    ensures SweepTable(TableAfter(t, r, events)) == TableAfter(t, r, events)
    ensures t.Keys <= TableAfter(t, r, events).Keys
    decreases |events|
  {
    if events == [] {
    } else {
      var e := events[0];
      assert OnlyRequests(events[1..]);
      if e.Allow? {
        assert NoEmptyEntry(AllowTable(t, r, e.key, e.now));
      } else {
        assert SweepTable(t) == t;
      }
      SweepRemovesNothing(TableNext(t, r, e), r, events[1..]);
    }
  }
}
