/**
  The Redis-backed fixed-window limiter in front of the auth endpoints
  (apps/api/src/auth/auth-rate-limit.ts).

  Time is in milliseconds; a rule's window is in seconds, as EXPIRE takes it. How Redis turns a
  remaining time into whole seconds in the reply of TTL is a parameter, so that nothing below
  rests on its rounding.
*/
module RateLimit {
  import opened Wrappers

  datatype Rule = Rule(window: nat, max: nat)

  /** A stored counter; no expiry means the key never leaves on its own. */
  datatype Counter = Counter(count: nat, expiry: Option<int>)

  predicate Live(k: Option<Counter>, now: int) {
    k.Some? && (k.value.expiry.None? || now < k.value.expiry.value)
  }

  /** The counter one consume leaves behind. */
  function Touch(k: Option<Counter>, now: int, rule: Rule): Counter {
    if !Live(k, now) then Counter(1, Some(now + 1000 * rule.window))
    else if k.value.expiry.None? then Counter(k.value.count + 1, Some(now + 1000 * rule.window))
    else Counter(k.value.count + 1, k.value.expiry)
  }

  function Admits(k: Option<Counter>, now: int, rule: Rule): bool {
    Touch(k, now, rule).count <= rule.max
  }

  class Store {
    var slots: map<string, Counter>
    /** The seconds TTL answers for a number of milliseconds left. */
    const ttlSeconds: nat -> nat

    constructor (ttlSeconds: nat -> nat)
      ensures slots == map[] && this.ttlSeconds == ttlSeconds
    {
      slots := map[];
      this.ttlSeconds := ttlSeconds;
    }

    function Lookup(key: string): Option<Counter>
      reads this`slots
    {
      if key in slots then Some(slots[key]) else None
    }

    /** INCR: creates the key at 1 with no expiry, keeps an expiry that is there. */
    method Incr(key: string, now: int) returns (count: nat)
      modifies this`slots
      ensures key in slots && count == slots[key].count
      ensures slots == old(slots)[key := if Live(old(Lookup(key)), now)
                                         then Counter(old(slots)[key].count + 1, old(slots)[key].expiry)
                                         else Counter(1, None)]
    {
      if Live(Lookup(key), now) {
        slots := slots[key := slots[key].(count := slots[key].count + 1)];
      } else {
        slots := slots[key := Counter(1, None)];
      }
      count := slots[key].count;
    }

    method Ttl(key: string, now: int) returns (ttl: int)
      requires key in slots && Live(Lookup(key), now)
      ensures ttl == if slots[key].expiry.None? then -1 else ttlSeconds(slots[key].expiry.value - now)
    {
      var k := slots[key];
      ttl := if k.expiry.None? then -1 else ttlSeconds(k.expiry.value - now);
    }

    method Expire(key: string, now: int, seconds: nat)
      requires key in slots
      modifies this`slots
      ensures slots == old(slots)[key := Counter(old(slots)[key].count, Some(now + 1000 * seconds))]
    {
      slots := slots[key := slots[key].(expiry := Some(now + 1000 * seconds))];
    }

    /** The script: count, open or repair the window, decide. */
    method Script(key: string, now: int, rule: Rule) returns (allowed: int, ttl: int)
      modifies this`slots
      ensures slots == old(slots)[key := Touch(old(Lookup(key)), now, rule)]
      ensures allowed == if Admits(old(Lookup(key)), now, rule) then 1 else 0
      ensures allowed == 0 && Live(old(Lookup(key)), now) && old(slots)[key].expiry.Some? ==>
                ttl == ttlSeconds(old(slots)[key].expiry.value - now)
      ensures allowed == 0 && !(Live(old(Lookup(key)), now) && old(slots)[key].expiry.Some?) ==> ttl == rule.window
    {
      var count := Incr(key, now);
      ttl := Ttl(key, now);
      if ttl < 0 {
        Expire(key, now, rule.window);
        ttl := rule.window;
      }
      if count > rule.max {
        return 0, ttl;
      }
      return 1, -1;
    }

    /**
      Decides one request. The other keys keep their counters; a refusal carries the wait that
      `Wait` states.
    */
    method Consume(key: string, now: int, rule: Rule) returns (allowed: bool, retryAfter: Option<nat>)
      modifies this`slots
      ensures slots == old(slots)[key := Touch(old(Lookup(key)), now, rule)]
      ensures allowed == Admits(old(Lookup(key)), now, rule)
      ensures retryAfter == if allowed then None else Some(Wait(old(Lookup(key)), now, rule, ttlSeconds))
    {
      var ok, wait := Script(key, now, rule);
      if ok == 1 {
        return true, None;
      }
      return false, Some(if wait > 0 then wait else rule.window);
    }
  }

  /** The seconds a refused caller is told to wait. */
  function Wait(k: Option<Counter>, now: int, rule: Rule, ttlSeconds: nat -> nat): nat {
    if Live(k, now) && k.value.expiry.Some? && ttlSeconds(k.value.expiry.value - now) > 0
    then ttlSeconds(k.value.expiry.value - now)
    else rule.window
  }

  // ---- Runs: one key, one rule, any timed sequence of consumes ----

  ghost predicate Timed(times: seq<int>) {
    forall i, j | 0 <= i < j < |times| :: times[i] <= times[j]
  }

  function After(k: Option<Counter>, times: seq<int>, rule: Rule): Option<Counter>
    decreases |times|
  {
    if times == [] then k else After(Some(Touch(k, times[0], rule)), times[1..], rule)
  }

  function Decisions(k: Option<Counter>, times: seq<int>, rule: Rule): (d: seq<bool>)
    ensures |d| == |times|
    decreases |times|
  {
    if times == [] then []
    else [Admits(k, times[0], rule)] + Decisions(Some(Touch(k, times[0], rule)), times[1..], rule)
  }

  function Trues(d: seq<bool>): nat {
    if d == [] then 0 else (if d[0] then 1 else 0) + Trues(d[1..])
  }

  lemma {:induction false} DecisionsFrom(k: Option<Counter>, times: seq<int>, rule: Rule, i: nat)
    requires i <= |times|
    ensures Decisions(k, times, rule)[i..] == Decisions(After(k, times[..i], rule), times[i..], rule)
    decreases |times|
  {
    if i > 0 {
      assert times[..i][1..] == times[1..][..i - 1] && times[1..][i - 1..] == times[i..];
      DecisionsFrom(Some(Touch(k, times[0], rule)), times[1..], rule, i - 1);
    }
  }

  lemma {:induction false} DecisionsUpTo(k: Option<Counter>, times: seq<int>, rule: Rule, i: nat)
    requires i <= |times|
    ensures Decisions(k, times, rule)[..i] == Decisions(k, times[..i], rule)
    decreases |times|
  {
    if i > 0 {
      assert times[..i][1..] == times[1..][..i - 1];
      DecisionsUpTo(Some(Touch(k, times[0], rule)), times[1..], rule, i - 1);
    }
  }

  /** Inside one window the n-th request is let through exactly while the budget lasts. */
  lemma {:induction false} WindowIsExact(k: Counter, times: seq<int>, rule: Rule)
    requires k.expiry.Some? && Timed(times) && forall t | t in times :: t < k.expiry.value
    ensures After(Some(k), times, rule) == Some(Counter(k.count + |times|, k.expiry))
    ensures forall i | 0 <= i < |times| :: Decisions(Some(k), times, rule)[i] <==> k.count + i + 1 <= rule.max
    decreases |times|
  {
    if times != [] {
      assert times[0] in times;
      var k' := Touch(Some(k), times[0], rule);
      forall t | t in times[1..] ensures t < k'.expiry.value { assert t in times; }
      WindowIsExact(k', times[1..], rule);
    }
  }

  ghost function Left(k: Option<Counter>, now: int, rule: Rule): nat {
    if !Live(k, now) then rule.max
    else if k.value.count <= rule.max then rule.max - k.value.count else 0
  }

  /**
    At most the rest of the open window plus one whole budget within a span shorter than the
    window, and no more than the rest when the window outlasts the span.
  */
  lemma {:induction false} SpanBound(k: Option<Counter>, times: seq<int>, rule: Rule)
    requires Timed(times) && times != [] && times[|times| - 1] - times[0] < 1000 * rule.window
    ensures Trues(Decisions(k, times, rule)) <= Left(k, times[0], rule) + rule.max
    ensures !Live(k, times[0]) || k.value.expiry.None? || times[|times| - 1] < k.value.expiry.value
            ==> Trues(Decisions(k, times, rule)) <= Left(k, times[0], rule)
    decreases |times|
  {
    var k' := Some(Touch(k, times[0], rule));
    var rest := times[1..];
    if rest == [] {
      assert Decisions(k, times, rule) == [Admits(k, times[0], rule)];
    } else {
      SpanBound(k', rest, rule);
      assert Decisions(k, times, rule)[1..] == Decisions(k', rest, rule);
    }
  }

  /** Over any start, never more than two budgets in a span shorter than the window. */
  lemma IntervalBound(k: Option<Counter>, times: seq<int>, rule: Rule, i: nat, j: nat)
    requires Timed(times) && i < j <= |times| && times[j - 1] - times[i] < 1000 * rule.window
    ensures Trues(Decisions(k, times, rule)[i..j]) <= 2 * rule.max
    ensures k.None? && rule.max > 0 ==> Trues(Decisions(k, times, rule)[i..j]) <= 2 * rule.max - 1
  {
    DecisionsUpTo(k, times, rule, j);
    DecisionsFrom(k, times[..j], rule, i);
    assert Decisions(k, times, rule)[i..j] == Decisions(k, times, rule)[..j][i..];
    var k' := After(k, times[..j][..i], rule);
    SpanBound(k', times[..j][i..], rule);
    if k.None? && i > 0 {
      CountsFromOne(k, times[..j][..i], rule);
    }
  }

  /** From an absent key, a stored counter has counted at least the request that stored it. */
  lemma {:induction false} CountsFromOne(k: Option<Counter>, times: seq<int>, rule: Rule)
    requires k.None? || k.value.count >= 1
    ensures After(k, times, rule).None? || After(k, times, rule).value.count >= 1
    decreases |times|
  {
    if times != [] {
      CountsFromOne(Some(Touch(k, times[0], rule)), times[1..], rule);
    }
  }

  ghost function Burst(n: nat, t: int): seq<int> { seq(n, _ => t) }

  /** The run that meets the bound: one request opens the window, the rest straddle its end. */
  ghost function Straddle(rule: Rule): seq<int>
    requires rule.max >= 1
  {
    [0] + Burst(rule.max - 1, 1000 * rule.window - 1) + Burst(rule.max, 1000 * rule.window)
  }

  lemma DecisionsAppend(k: Option<Counter>, a: seq<int>, b: seq<int>, rule: Rule)
    ensures Decisions(k, a + b, rule) == Decisions(k, a, rule) + Decisions(After(k, a, rule), b, rule)
  {
    DecisionsFrom(k, a + b, rule, |a|);
    DecisionsUpTo(k, a + b, rule, |a|);
    assert (a + b)[..|a|] == a && (a + b)[|a|..] == b;
    var d := Decisions(k, a + b, rule);
    assert d == d[..|a|] + d[|a|..];
  }

  /** A burst of the size of the budget on a window that is over, or not yet open. */
  lemma BurstPasses(k: Option<Counter>, n: nat, t: int, rule: Rule)
    requires !Live(k, t) && 1 <= n <= rule.max && rule.window >= 1
    ensures forall i | 0 <= i < n :: Decisions(k, Burst(n, t), rule)[i]
  {
    var start := Touch(k, t, rule);
    var later := Burst(n, t)[1..];
    WindowIsExact(start, later, rule);
    forall i | 0 <= i < n ensures Decisions(k, Burst(n, t), rule)[i] {
      assert i > 0 ==> Decisions(k, Burst(n, t), rule)[i] == Decisions(Some(start), later, rule)[i - 1];
    }
  }

  /** 2·max − 1 is reached by a fresh key, so the bound above is the best there is. */
  lemma IntervalBoundIsTight(rule: Rule)
    requires rule.max >= 1 && rule.window >= 1
    ensures var run := Straddle(rule);
            Timed(run) && run[|run| - 1] - run[1] < 1000 * rule.window
            && Trues(Decisions(None, run, rule)[1..]) == 2 * rule.max - 1
  {
    var run, w, m := Straddle(rule), 1000 * rule.window, rule.max;
    var first, second := Burst(m - 1, w - 1), Burst(m, w);
    var opening := Touch(None, 0, rule);
    assert run == [0] + (first + second) && run[1..] == first + second;
    assert Decisions(None, run, rule)[1..] == Decisions(Some(opening), first + second, rule);
    DecisionsAppend(Some(opening), first, second, rule);
    WindowIsExact(opening, first, rule);
    BurstPasses(After(Some(opening), first, rule), m, w, rule);
    AllTrue(Decisions(Some(opening), first + second, rule));
  }

  lemma {:induction false} AllTrue(d: seq<bool>)
    requires forall i | 0 <= i < |d| :: d[i]
    ensures Trues(d) == |d|
  {
    if d != [] {
      AllTrue(d[1..]);
    }
  }

  /**
    No client stays refused: whatever was stored, a key without an expiry included, a run of
    requests that outlasts the window holds one that is let through.
  */
  lemma NeverRefusedForever(k: Option<Counter>, times: seq<int>, rule: Rule, deadline: int)
    requires Timed(times) && |times| >= 2 && rule.max >= 1
    requires deadline >= times[0] + 1000 * rule.window
    requires Live(k, times[0]) && k.value.expiry.Some? ==> k.value.expiry.value <= deadline
    requires times[|times| - 1] >= deadline
    ensures true in Decisions(k, times, rule)
  {
    var d := Decisions(k, times, rule);
    if !Admits(k, times[0], rule) {
      var k' := Touch(k, times[0], rule);
      assert k'.expiry.value <= deadline;
      assert d[1..] == Decisions(Some(k'), times[1..], rule);
      WaitsOut(k', times[1..], rule, deadline);
      assert true in d[1..];
    } else {
      assert d[0];
    }
  }

  lemma {:induction false} WaitsOut(k: Counter, times: seq<int>, rule: Rule, deadline: int)
    requires Timed(times) && times != [] && rule.max >= 1
    requires k.expiry.Some? && k.expiry.value <= deadline <= times[|times| - 1]
    ensures true in Decisions(Some(k), times, rule)
    decreases |times|
  {
    var d := Decisions(Some(k), times, rule);
    if Live(Some(k), times[0]) {
      assert |times| > 1;
      assert d[1..] == Decisions(Some(Touch(Some(k), times[0], rule)), times[1..], rule);
      WaitsOut(Touch(Some(k), times[0], rule), times[1..], rule, deadline);
      assert true in d[1..];
    } else {
      assert d[0];
    }
  }

  // ---- The wait a refused caller is told ----

  /** A window with an end in sight. */
  predicate Closing(k: Option<Counter>, now: int) {
    Live(k, now) && k.value.expiry.Some?
  }

  /** The milliseconds the window of a request has left once the request is through. */
  function Rest(k: Option<Counter>, now: int, rule: Rule): nat {
    if Closing(k, now) then k.value.expiry.value - now else 1000 * rule.window
  }

  /** Requests that follow one at `now` while the window it left open lasts. */
  ghost predicate InSameWindow(others: seq<int>, k: Option<Counter>, now: int, rule: Rule) {
    Timed(others) && forall t | t in others :: now <= t < now + Rest(k, now, rule)
  }

  /** The first to come back once the window is over is let through, and nobody is before that. */
  lemma BackAfterRefusal(k: Option<Counter>, now: int, others: seq<int>, at: int, rule: Rule)
    requires !Admits(k, now, rule) && InSameWindow(others, k, now, rule) && at >= now
    ensures Admits(After(Some(Touch(k, now, rule)), others, rule), at, rule)
            <==> rule.max >= 1 && at >= now + Rest(k, now, rule)
    ensures forall i | 0 <= i < |others| :: !Decisions(Some(Touch(k, now, rule)), others, rule)[i]
  {
    WindowIsExact(Touch(k, now, rule), others, rule);
  }

  /**
    A refused caller that waits the told seconds and is the first in the new window, whoever else
    came before the old one ended, is let through exactly when the rule admits anyone and the
    seconds TTL answers for the rest of the window cover it. A repaired window is covered always.
  */
  lemma WaitIsEnoughIff(k: Option<Counter>, now: int, others: seq<int>, rule: Rule, ttlSeconds: nat -> nat)
    requires !Admits(k, now, rule) && InSameWindow(others, k, now, rule)
    ensures Admits(After(Some(Touch(k, now, rule)), others, rule), now + 1000 * Wait(k, now, rule, ttlSeconds), rule)
            <==> && rule.max >= 1
                 && (Closing(k, now) ==>
                       var rest := k.value.expiry.value - now;
                       if ttlSeconds(rest) > 0 then rest <= 1000 * ttlSeconds(rest) else rest <= 1000 * rule.window)
  {
    BackAfterRefusal(k, now, others, now + 1000 * Wait(k, now, rule, ttlSeconds), rule);
  }

  /** The seconds of a TTL reply that is rounded to the nearest second. */
  function NearestSecond(ms: nat): nat { (ms + 500) / 1000 }

  /**
    With such a reply and a window of a second or more, the wait is enough except when 500 ms or
    more are left and the part beyond the last whole second is from 1 to 499 ms.
  */
  lemma NearestSecondIff(k: Option<Counter>, now: int, others: seq<int>, rule: Rule)
    requires !Admits(k, now, rule) && InSameWindow(others, k, now, rule)
    ensures Admits(After(Some(Touch(k, now, rule)), others, rule), now + 1000 * Wait(k, now, rule, NearestSecond), rule)
            <==> && rule.max >= 1
                 && (Closing(k, now) ==>
                       var rest := k.value.expiry.value - now;
                       if rest < 500 then rest <= 1000 * rule.window else rest % 1000 == 0 || rest % 1000 >= 500)
  {
    WaitIsEnoughIff(k, now, others, rule, NearestSecond);
    if Closing(k, now) {
      Rounding(k.value.expiry.value - now);
    }
  }

  lemma Rounding(ms: nat)
    ensures NearestSecond(ms) > 0 <==> ms >= 500
    ensures ms % 1000 < 500 ==> ms - 1000 * NearestSecond(ms) == ms % 1000
    ensures ms % 1000 >= 500 ==> 1000 * NearestSecond(ms) - ms == 1000 - ms % 1000
  {
    var seconds, part := ms / 1000, ms % 1000;
    assert ms + 500 == 1000 * seconds + (part + 500);
    if part < 500 {
      Quotient(ms + 500, seconds, part + 500);
    } else {
      Quotient(ms + 500, seconds + 1, part - 500);
    }
  }

  lemma Quotient(n: nat, q: nat, rest: nat)
    requires n == 1000 * q + rest && rest < 1000
    ensures n / 1000 == q
  {
  }

  /** On every such rest, whatever the rule, the caller comes back too early by exactly that part. */
  lemma NearestSecondFallsShort(k: Option<Counter>, now: int, rule: Rule)
    requires !Admits(k, now, rule) && Closing(k, now)
    requires var rest := k.value.expiry.value - now; rest >= 500 && 0 < rest % 1000 < 500
    ensures var told := Wait(k, now, rule, NearestSecond);
            && now + 1000 * told + (k.value.expiry.value - now) % 1000 == k.value.expiry.value
            && !Admits(Some(Touch(k, now, rule)), now + 1000 * told, rule)
  {
    Rounding(k.value.expiry.value - now);
    BackAfterRefusal(k, now, [], now + 1000 * Wait(k, now, rule, NearestSecond), rule);
  }
}
