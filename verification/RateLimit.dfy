/**
 The fixed-window rate limiter on timed traces: a counter that is incremented by each request and forgotten `window`
 after the request that created it. Increment and expiry are one step.
 */
module RateLimit {
  import opened Basics

  datatype Counter = Missing | Count(n: nat, expiresAt: int)

  /** INCR, and EXPIRE for the request that created the counter. */
  function Hit(c: Counter, time: int, window: nat): Counter {
    if c.Missing? || time >= c.expiresAt then Count(1, time + window) else Count(c.n + 1, c.expiresAt)
  }

  function After(times: seq<int>, n: nat, window: nat): Counter
    requires n <= |times|
  {
    if n == 0 then Missing else Hit(After(times, n - 1, window), times[n - 1], window)
  }

  /** Request i finds at least nothing less than its own place left. */
  predicate Admitted(times: seq<int>, i: nat, limit: nat, window: nat)
    requires i < |times|
  {
    Hit(After(times, i, window), times[i], window).n <= limit
  }

  /** Request i starts a new window. */
  predicate Opens(times: seq<int>, i: nat, window: nat)
    requires i < |times|
  {
    var c := After(times, i, window);
    c.Missing? || times[i] >= c.expiresAt
  }

  ghost predicate Sorted(times: seq<int>) {
    forall i, j :: 0 <= i < j < |times| ==> times[i] <= times[j]
  }

  /** How many of the first n requests came in [from, from + window). */
  function Requests(times: seq<int>, n: nat, from: int, window: nat): nat
    requires n <= |times|
  {
    if n == 0 then 0
    else Requests(times, n - 1, from, window) + if from <= times[n - 1] < from + window then 1 else 0
  }

  /** How many of them were admitted. */
  function AdmittedIn(times: seq<int>, n: nat, from: int, limit: nat, window: nat): nat
    requires n <= |times|
  {
    if n == 0 then 0
    else AdmittedIn(times, n - 1, from, limit, window)
         + if from <= times[n - 1] < from + window && Admitted(times, n - 1, limit, window) then 1 else 0
  }

  /** Nothing is in an interval that has not begun. */
  lemma {:induction false} NothingYet(times: seq<int>, n: nat, from: int, limit: nat, window: nat)
    requires Sorted(times) && 0 < n <= |times| && times[n - 1] < from
    ensures Requests(times, n, from, window) == 0 && AdmittedIn(times, n, from, limit, window) == 0
  {
    if n > 1 {
      assert times[n - 2] <= times[n - 1];
      NothingYet(times, n - 1, from, limit, window);
    }
  }

  /** The window that holds after n > 0 requests began with one of them and has not seen later ones yet. */
  lemma {:induction false} WindowIsRecent(times: seq<int>, n: nat, window: nat)
    requires Sorted(times) && 0 < n <= |times| && window > 0
    ensures var c := After(times, n, window);
            c.Count? && c.n >= 1 && c.expiresAt - window <= times[n - 1] < c.expiresAt
  {
    if n > 1 {
      assert times[n - 2] <= times[n - 1];
      WindowIsRecent(times, n - 1, window);
    }
  }

  /** A window admits as many requests as came, up to the limit: none too many and none too few. */
  lemma {:induction false} WindowAdmitsUpToLimit(times: seq<int>, i: nat, n: nat, limit: nat, window: nat)
    requires Sorted(times) && window > 0 && i < n <= |times| && Opens(times, i, window)
    ensures AdmittedIn(times, n, times[i], limit, window) == Min(Requests(times, n, times[i], window), limit)
    ensures times[n - 1] < times[i] + window ==>
              After(times, n, window) == Count(Requests(times, n, times[i], window), times[i] + window)
  {
    if n == i + 1 {
      if i > 0 {
        WindowIsRecent(times, i, window);
        NothingYet(times, i, times[i], limit, window);
      }
    } else {
      assert times[n - 2] <= times[n - 1];
      WindowAdmitsUpToLimit(times, i, n - 1, limit, window);
    }
  }

  /** How many may have been admitted so far in an interval, by where the current window began. */
  ghost predicate Bounded(admitted: nat, c: Counter, from: int, limit: nat, window: nat)
    requires c.Count?
  {
    var start := c.expiresAt - window;
    if start < from then admitted + 1 <= Min(c.n, limit)
    else if start < from + window then admitted + 1 <= limit + Min(c.n, limit)
    else admitted + 1 <= 2 * limit
  }

  lemma {:induction false} BoundedSoFar(times: seq<int>, n: nat, from: int, limit: nat, window: nat)
    requires Sorted(times) && window > 0 && limit > 0 && 0 < n <= |times|
    ensures After(times, n, window).Count?
    ensures Bounded(AdmittedIn(times, n, from, limit, window), After(times, n, window), from, limit, window)
  {
    WindowIsRecent(times, n, window);
    if n > 1 {
      assert times[n - 2] <= times[n - 1];
      BoundedSoFar(times, n - 1, from, limit, window);
      WindowIsRecent(times, n - 1, window);
      if times[n - 1] < from {
        NothingYet(times, n - 1, from, limit, window);
      }
    }
  }

  /**
   In any interval as long as the window, wherever it lies, fewer than twice the limit are admitted. (The request
   that opened a window which is cut by the interval lies before it and has taken one of its places.)
   */
  lemma SlidingBound(times: seq<int>, from: int, limit: nat, window: nat)
    requires Sorted(times) && window > 0 && limit > 0
    ensures AdmittedIn(times, |times|, from, limit, window) <= 2 * limit - 1
  {
    if |times| > 0 {
      BoundedSoFar(times, |times|, from, limit, window);
    }
  }

  // ------------------------------------------------------------- it is sharp

  /** One request at time 0, limit - 1 at the last moment of its window, and then limit at the first moment after it. */
  function WorstCase(limit: nat, window: nat): seq<int> {
    seq(2 * limit, i => if i == 0 then 0 else if i < limit then window - 1 else window)
  }

  lemma {:induction false} WorstCaseCounts(limit: nat, window: nat, n: nat)
    requires limit > 0 && window > 1 && n <= 2 * limit
    ensures var times := WorstCase(limit, window);
            && AdmittedIn(times, n, window - 1, limit, window) == (if n == 0 then 0 else n - 1)
            && After(times, n, window) == (if n == 0 then Missing else if n <= limit then Count(n, window) else Count(n - limit, 2 * window))
  {
    if n > 0 {
      WorstCaseCounts(limit, window, n - 1);
    }
  }

  lemma SlidingBoundIsSharp(limit: nat, window: nat)
    requires limit > 0 && window > 1
    ensures var times := WorstCase(limit, window);
            Sorted(times) && AdmittedIn(times, |times|, window - 1, limit, window) == 2 * limit - 1
  {
    WorstCaseCounts(limit, window, 2 * limit);
  }

  // ------------------------------------------------------------- the guard

  type Key = nat

  /** A rule as it applies to one request: the key of its name and subject, its limit and its window. */
  datatype Rule = Rule(key: Key, limit: nat, window: nat)

  /** The window of each key is fixed by its rule. */
  ghost function Times(log: seq<(Key, int)>, key: Key): seq<int> {
    if log == [] then []
    else Times(log[..|log| - 1], key) + if log[|log| - 1].0 == key then [log[|log| - 1].1] else []
  }

  /** The counters in Redis, and the guard that consumes them. */
  class Limiter {
    var counters: map<Key, Counter>
    /** Every consumption, in order. */
    ghost var log: seq<(Key, int)>
    ghost const windows: map<Key, nat>

    constructor (ghost windows: map<Key, nat>)
      ensures this.windows == windows && log == [] && Valid()
    {
      counters, log, this.windows := map[], [], windows;
    }

    /** Each counter is what its own trace of requests left behind. */
    ghost predicate Valid()
      reads this
    {
      forall key :: key in windows ==>
        (if key in counters then counters[key] else Missing) == After(Times(log, key), |Times(log, key)|, windows[key])
    }

    /** consume */
    method Consume(rule: Rule, now: int) returns (remaining: int)
      requires Valid() && rule.key in windows && windows[rule.key] == rule.window
      modifies this
      ensures Valid() && log == old(log) + [(rule.key, now)]
      ensures Times(log, rule.key) == Times(old(log), rule.key) + [now]
      ensures remaining >= 0 <==> Admitted(Times(log, rule.key), |Times(old(log), rule.key)|, rule.limit, rule.window)
    {
      var c := Hit(if rule.key in counters then counters[rule.key] else Missing, now, rule.window);
      counters := counters[rule.key := c];
      log := log + [(rule.key, now)];
      remaining := rule.limit - c.n;
      forall key | key in windows
        ensures (if key in counters then counters[key] else Missing) == After(Times(log, key), |Times(log, key)|, windows[key])
      {
        TimesAppend(old(log), rule.key, now, key);
        HitAfter(Times(old(log), key), now, windows[key]);
      }
      TimesAppend(old(log), rule.key, now, rule.key);
      HitAfter(Times(old(log), rule.key), now, rule.window);
    }

    /**
     canActivate: the rules are consumed in order up to the first one that is exceeded; the request passes exactly if
     each of them admits it.
     */
    method CanActivate(rules: seq<Rule>, now: int) returns (ok: bool, ghost consumed: nat)
      requires Valid() && forall i :: 0 <= i < |rules| ==> rules[i].key in windows && windows[rules[i].key] == rules[i].window
      modifies this
      ensures Valid() && consumed <= |rules| && log == old(log) + Consumptions(rules[..consumed], now)
      ensures ok ==> consumed == |rules| && AllAdmit(old(log), rules, |rules|, now)
      ensures !ok ==> 0 < consumed && !RuleAdmits(old(log), rules, consumed - 1, now) && AllAdmit(old(log), rules, consumed - 1, now)
    {
      var i := 0;
      consumed := 0;
      assert log == old(log) + Consumptions(rules[..0], now);
      while i < |rules|
        invariant i <= |rules| && consumed == i && Valid()
        invariant log == old(log) + Consumptions(rules[..i], now)
        invariant AllAdmit(old(log), rules, i, now)
      {
        var remaining := ConsumeRule(rules, i, now, old(log));
        i := i + 1;
        consumed := i;
        if remaining < 0 {
          return false, consumed;
        }
      }
      ok := true;
    }

    method ConsumeRule(rules: seq<Rule>, i: nat, now: int, ghost before: seq<(Key, int)>) returns (remaining: int)
      requires Valid() && i < |rules| && rules[i].key in windows && windows[rules[i].key] == rules[i].window
      requires log == before + Consumptions(rules[..i], now)
      modifies this
      ensures Valid() && log == before + Consumptions(rules[..i + 1], now)
      ensures remaining >= 0 <==> RuleAdmits(before, rules, i, now)
    {
      remaining := Consume(rules[i], now);
      ConsumptionsMore(rules, i, now, before);
    }
  }

  /** Rule k admits a request at `now`, after the rules before it have been consumed for it. */
  ghost predicate RuleAdmits(log: seq<(Key, int)>, rules: seq<Rule>, k: nat, now: int)
    requires k < |rules|
  {
    var times := Times(log + Consumptions(rules[..k], now), rules[k].key);
    Admitted(times + [now], |times|, rules[k].limit, rules[k].window)
  }

  /** Each of the first n rules admits the request. */
  ghost predicate AllAdmit(log: seq<(Key, int)>, rules: seq<Rule>, n: nat, now: int)
    requires n <= |rules|
  {
    forall i :: 0 <= i < n ==> RuleAdmits(log, rules, i, now)
  }

  lemma TimesAppend(log: seq<(Key, int)>, consumed: Key, now: int, key: Key)
    ensures Times(log + [(consumed, now)], key) == if consumed == key then Times(log, key) + [now] else Times(log, key)
  {
    assert (log + [(consumed, now)])[..|log|] == log;
  }

  function Consumptions(rules: seq<Rule>, now: int): seq<(Key, int)> {
    seq(|rules|, i requires 0 <= i < |rules| => (rules[i].key, now))
  }

  lemma ConsumptionsMore(rules: seq<Rule>, i: nat, now: int, before: seq<(Key, int)>)
    requires i < |rules|
    ensures before + Consumptions(rules[..i + 1], now) == before + Consumptions(rules[..i], now) + [(rules[i].key, now)]
  {
  }

  lemma {:induction false} HitAfter(times: seq<int>, now: int, window: nat)
    ensures After(times + [now], |times| + 1, window) == Hit(After(times, |times|, window), now, window)
    ensures After(times + [now], |times|, window) == After(times, |times|, window)
  {
    AfterPrefix(times, now, |times|, window);
  }

  lemma {:induction false} AfterPrefix(times: seq<int>, now: int, n: nat, window: nat)
    requires n <= |times|
    ensures After(times + [now], n, window) == After(times, n, window)
  {
    if n > 0 {
      AfterPrefix(times, now, n - 1, window);
    }
  }

  /** Consumptions happen in the order of time. */
  ghost predicate InOrder(log: seq<(Key, int)>) {
    forall i, j :: 0 <= i < j < |log| ==> log[i].1 <= log[j].1
  }

  lemma {:induction false} TimesInOrder(log: seq<(Key, int)>, key: Key)
    requires InOrder(log)
    ensures Sorted(Times(log, key))
    ensures Times(log, key) != [] ==> Times(log, key)[|Times(log, key)| - 1] <= log[|log| - 1].1
  {
    if log != [] {
      TimesInOrder(log[..|log| - 1], key);
    }
  }

  /** However the requests to different rules and subjects mix, each rule admits fewer than twice its limit per interval. */
  lemma EachRuleIsBounded(log: seq<(Key, int)>, rule: Rule, from: int)
    requires InOrder(log) && rule.limit > 0 && rule.window > 0
    ensures AdmittedIn(Times(log, rule.key), |Times(log, rule.key)|, from, rule.limit, rule.window) <= 2 * rule.limit - 1
  {
    TimesInOrder(log, rule.key);
    SlidingBound(Times(log, rule.key), from, rule.limit, rule.window);
  }
}
