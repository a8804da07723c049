/** The clock-aligned rate limiter: one expiring counter per clock minute.

    Times are whole seconds on one clock.  The store failing is part of a request; the limiter
    then lets the request through. */
module RateLimiter {
  import opened Prelude

  const WINDOW: int := 60

  /** Which call to the store fails. */
  datatype Fault = NoFault | IncrFails | ExpireFails

  /** A request: when the minute is chosen, when retry_after would be computed, and the fault it meets. */
  datatype Request = Request(at: int, later: int, fault: Fault)

  datatype Counter = Counter(count: nat, expiresAt: Option<int>)
  type Store = map<int, Counter>

  datatype Outcome = Admitted | Rejected(retryAfter: int)

  function Live(s: Store, bucket: int, now: int): nat {
    if bucket in s && (s[bucket].expiresAt.Some? ==> now < s[bucket].expiresAt.value) then s[bucket].count else 0
  }

  function Check(limit: int, s: Store, r: Request): (Store, Outcome) {
    var bucket := r.at / WINDOW;
    if r.fault.IncrFails? then (s, Admitted) else
    var count := Live(s, bucket, r.at) + 1;
    var expiry := if count > 1 then s[bucket].expiresAt else if r.fault.ExpireFails? then None else Some(r.at + 2 * WINDOW);
    (s[bucket := Counter(count, expiry)],
     if (count == 1 && r.fault.ExpireFails?) || count <= limit then Admitted else Rejected(WINDOW - r.later % WINDOW))
  }

  function Run(limit: int, rs: seq<Request>): Store {
    if rs == [] then map[] else Check(limit, Run(limit, rs[..|rs| - 1]), rs[|rs| - 1]).0
  }

  /** The outcome of the last request of a run. */
  function LastOutcome(limit: int, rs: seq<Request>): Outcome
    requires rs != []
  {
    Check(limit, Run(limit, rs[..|rs| - 1]), rs[|rs| - 1]).1
  }

  predicate Sorted(rs: seq<Request>) {
    forall i, j :: 0 <= i < j < |rs| ==> rs[i].at <= rs[j].at
  }

  /** Requests of a minute that reached the counter, and those the store let down. */
  function Counted(rs: seq<Request>, bucket: int): nat {
    if rs == [] then 0 else
    var r := rs[|rs| - 1];
    Counted(rs[..|rs| - 1], bucket) + if r.at / WINDOW == bucket && !r.fault.IncrFails? then 1 else 0
  }

  function LetDown(rs: seq<Request>, bucket: int): nat {
    if rs == [] then 0 else
    var r := rs[|rs| - 1];
    LetDown(rs[..|rs| - 1], bucket) + if r.at / WINDOW == bucket && r.fault.IncrFails? then 1 else 0
  }

  function AdmittedIn(limit: int, rs: seq<Request>, bucket: int): nat {
    if rs == [] then 0 else
    AdmittedIn(limit, rs[..|rs| - 1], bucket)
      + if rs[|rs| - 1].at / WINDOW == bucket && LastOutcome(limit, rs).Admitted? then 1 else 0
  }

  function AdmittedBetween(limit: int, rs: seq<Request>, from: int, to: int): nat {
    if rs == [] then 0 else
    AdmittedBetween(limit, rs[..|rs| - 1], from, to)
      + if from <= rs[|rs| - 1].at < to && LastOutcome(limit, rs).Admitted? then 1 else 0
  }

  function Min(a: int, b: int): int { if a < b then a else b }
  function Max(a: int, b: int): int { if a < b then b else a }

  // ------------------------------------------------------------------ counters

  ghost predicate Outlives(s: Store) {
    forall b :: b in s && s[b].expiresAt.Some? ==> s[b].expiresAt.value >= (b + 2) * WINDOW
  }

  /** Every counter outlives its minute by another minute, whatever fails. */
  lemma {:induction false} CountersOutliveTheirMinute(limit: int, rs: seq<Request>)
    ensures Outlives(Run(limit, rs))
  {
    if rs == [] {
    } else {
      CountersOutliveTheirMinute(limit, rs[..|rs| - 1]);
      CheckOutlives(limit, Run(limit, rs[..|rs| - 1]), rs[|rs| - 1]);
    }
  }

  lemma CheckOutlives(limit: int, s: Store, r: Request)
    requires Outlives(s)
    ensures Outlives(Check(limit, s, r).0)
  {
    assert r.at >= r.at / WINDOW * WINDOW;
  }

  /** With the store up no counter lives for ever: the counter of a minute expires 120 seconds after that minute's first
      request. */
  lemma {:induction false} CountersExpire(limit: int, rs: seq<Request>, b: int)
    requires AllUp(rs)
    ensures b in Run(limit, rs) ==> Expires(rs, b, Run(limit, rs)[b])
  {
    if rs == [] {
    } else {
      var front, r := rs[..|rs| - 1], rs[|rs| - 1];
      CountersExpire(limit, front, b);
      CountersOutliveTheirMinute(limit, front);
      assert r.fault.NoFault? && r.at < (r.at / WINDOW + 1) * WINDOW;
      if b in Run(limit, front) {
        var i :| 0 <= i < |front| && FirstOf(front, b, i) && Run(limit, front)[b].expiresAt == Some(front[i].at + 120);
        assert FirstOf(rs, b, i);
      } else {
        forall j | 0 <= j < |front| ensures front[j].at / 60 != b { CounterIsThere(limit, front, j); }
        assert b in Run(limit, rs) ==> FirstOf(rs, b, |rs| - 1);
      }
    }
  }

  lemma {:induction false} CounterIsThere(limit: int, rs: seq<Request>, j: nat)
    requires AllUp(rs) && j < |rs|
    ensures rs[j].at / 60 in Run(limit, rs)
  {
    assert rs[|rs| - 1].fault.NoFault?;
    if j < |rs| - 1 { CounterIsThere(limit, rs[..|rs| - 1], j); }
  }

  /** Request i is the first of its minute. */
  predicate FirstOf(rs: seq<Request>, minute: int, i: nat)
    requires i < |rs|
  {
    rs[i].at / 60 == minute && forall j :: 0 <= j < i ==> rs[j].at / 60 != minute
  }

  ghost predicate Expires(rs: seq<Request>, minute: int, c: Counter) {
    c.count >= 1 && exists i :: 0 <= i < |rs| && FirstOf(rs, minute, i) && c.expiresAt == Some(rs[i].at + 120)
  }

  /** The counter of a minute is the number of its requests that reached it. */
  lemma {:induction false} CounterCounts(limit: int, rs: seq<Request>, bucket: int)
    ensures
      var s := Run(limit, rs);
      (if bucket in s then s[bucket].count else 0) == Counted(rs, bucket)
  {
    if rs == [] {
    } else {
      var r := rs[|rs| - 1];
      CounterCounts(limit, rs[..|rs| - 1], bucket);
      CountersOutliveTheirMinute(limit, rs[..|rs| - 1]);
      assert r.at < (r.at / WINDOW + 1) * WINDOW;
    }
  }

  // ----------------------------------------------------------------- admission

  /** Of the requests of a clock minute exactly the first LIMIT that reach the counter are admitted, and every one
      that does not reach it. */
  lemma {:induction false} AdmittedExactly(limit: int, rs: seq<Request>, bucket: int)
    requires limit >= 1 || forall i :: 0 <= i < |rs| ==> !rs[i].fault.ExpireFails?
    ensures AdmittedIn(limit, rs, bucket) == Min(Counted(rs, bucket), Max(limit, 0)) + LetDown(rs, bucket)
  {
    if rs == [] {
    } else {
      var before, r := rs[..|rs| - 1], rs[|rs| - 1];
      AdmittedExactly(limit, before, bucket);
      CounterCounts(limit, before, bucket);
      CountersOutliveTheirMinute(limit, before);
      assert r.at < (r.at / WINDOW + 1) * WINDOW;
    }
  }

  predicate AllUp(rs: seq<Request>) {
    forall i :: 0 <= i < |rs| ==> rs[i].fault.NoFault?
  }

  function InMinute(rs: seq<Request>, bucket: int): nat {
    if rs == [] then 0 else InMinute(rs[..|rs| - 1], bucket) + if rs[|rs| - 1].at / WINDOW == bucket then 1 else 0
  }

  /** With the store up, exactly min(n, LIMIT) of the n requests of a clock minute are admitted. */
  lemma {:induction false} AdmittedWithStoreUp(limit: int, rs: seq<Request>, bucket: int)
    requires AllUp(rs)
    ensures AdmittedIn(limit, rs, bucket) == Min(InMinute(rs, bucket), Max(limit, 0))
  {
    AdmittedExactly(limit, rs, bucket);
    UpMeansCounted(rs, bucket);
  }

  lemma {:induction false} UpMeansCounted(rs: seq<Request>, bucket: int)
    requires AllUp(rs)
    ensures Counted(rs, bucket) == InMinute(rs, bucket) && LetDown(rs, bucket) == 0
  {
    if rs == [] {
    } else {
      UpMeansCounted(rs[..|rs| - 1], bucket);
    }
  }

  lemma {:induction false} WindowMeetsTwoMinutes(limit: int, rs: seq<Request>, from: int)
    ensures AdmittedBetween(limit, rs, from, from + WINDOW) <=
      AdmittedIn(limit, rs, from / WINDOW) + AdmittedIn(limit, rs, from / WINDOW + 1)
  {
    if rs == [] {
    } else {
      WindowMeetsTwoMinutes(limit, rs[..|rs| - 1], from);
      var at := rs[|rs| - 1].at;
      if from <= at < from + WINDOW {
        assert from / WINDOW <= at / WINDOW <= from / WINDOW + 1;
      }
    }
  }

  /** Any 60-second window admits at most twice the limit. */
  lemma {:induction false} RollingWindowBound(limit: int, rs: seq<Request>, from: int)
    requires AllUp(rs)
    ensures AdmittedBetween(limit, rs, from, from + WINDOW) <= 2 * Max(limit, 0)
  {
    WindowMeetsTwoMinutes(limit, rs, from);
    AdmittedWithStoreUp(limit, rs, from / WINDOW);
    AdmittedWithStoreUp(limit, rs, from / WINDOW + 1);
  }

  /** A burst of a requests in the last second of the first minute, then b in the first second of the next. */
  function Burst(a: nat, b: nat): (rs: seq<Request>)
    decreases a + b
  {
    if b > 0 then Burst(a, b - 1) + [Request(60, 60, NoFault)] else
    if a > 0 then Burst(a - 1, 0) + [Request(59, 59, NoFault)] else []
  }

  lemma {:induction false} BurstShape(a: nat, b: nat)
    ensures AllUp(Burst(a, b)) && Sorted(Burst(a, b))
    ensures forall i :: 0 <= i < |Burst(a, b)| ==> 59 <= Burst(a, b)[i].at <= if b > 0 then 60 else 59
    decreases a + b
  {
    if b > 0 { BurstShape(a, b - 1); } else if a > 0 { BurstShape(a - 1, 0); }
  }

  lemma {:induction false} BurstMinutes(a: nat, b: nat)
    ensures InMinute(Burst(a, b), 0) == a && InMinute(Burst(a, b), 1) == b
    decreases a + b
  {
    if a + b > 0 {
      var rs := Burst(a, b);
      var before := if b > 0 then Burst(a, b - 1) else Burst(a - 1, 0);
      assert rs[..|rs| - 1] == before;
      if b > 0 { BurstMinutes(a, b - 1); } else { BurstMinutes(a - 1, 0); }
    }
  }

  /** Inside the two minutes every admission counts for the window. */
  lemma {:induction false} BetweenIsBoth(limit: int, rs: seq<Request>)
    requires forall i :: 0 <= i < |rs| ==> 59 <= rs[i].at <= 60
    ensures AdmittedBetween(limit, rs, 59, 119) == AdmittedIn(limit, rs, 0) + AdmittedIn(limit, rs, 1)
  {
    if rs == [] {
    } else {
      BetweenIsBoth(limit, rs[..|rs| - 1]);
      assert 59 / WINDOW == 0 && 60 / WINDOW == 1;
    }
  }

  lemma BurstAdmitted(limit: nat)
    ensures AdmittedBetween(limit, Burst(limit, limit), 59, 119) == 2 * limit
  {
    var rs := Burst(limit, limit);
    BurstShape(limit, limit);
    BurstMinutes(limit, limit);
    BetweenIsBoth(limit, rs);
    AdmittedWithStoreUp(limit, rs, 0);
    AdmittedWithStoreUp(limit, rs, 1);
  }

  /** The bound is reached: for every limit some run, in clock order, admits twice the limit within 60 seconds. */
  lemma RollingWindowBoundReached(limit: nat)
    ensures exists rs :: AllUp(rs) && Sorted(rs) && AdmittedBetween(limit, rs, 59, 59 + WINDOW) == 2 * limit
  {
    BurstAdmitted(limit);
    BurstShape(limit, limit);
    assert AdmittedBetween(limit, Burst(limit, limit), 59, 59 + WINDOW) == 2 * limit;
  }

  /** After any run a request is admitted exactly when it does not reach the counter or its minute's count is below
      the limit. */
  lemma AdmittedIffBelow(limit: int, rs: seq<Request>, r: Request)
    requires limit >= 1
    ensures Check(limit, Run(limit, rs), r).1.Admitted? <==> r.fault.IncrFails? || Counted(rs, r.at / WINDOW) < limit
  {
    CounterCounts(limit, rs, r.at / WINDOW);
    CountersOutliveTheirMinute(limit, rs);
    assert r.at < (r.at / WINDOW + 1) * WINDOW;
  }

  /** A rejection names a wait of 1 to 60 seconds that ends on the first second of the next minute. */
  lemma RetryAfterLandsOnMinute(limit: int, s: Store, r: Request)
    requires Check(limit, s, r).1.Rejected?
    ensures
      var wait := Check(limit, s, r).1.retryAfter;
      1 <= wait <= 60 && (r.later + wait) % 60 == 0
  {
  }

  // --------------------------------------------------------- the check, in place

  class Limiter {
    const limit: int
    var store: Store

    method CheckSimulationRateLimit(r: Request) returns (outcome: Outcome)
      modifies this`store
      ensures store == Check(limit, old(store), r).0 && outcome == Check(limit, old(store), r).1
    {
      var bucket := r.at / WINDOW;
      if r.fault.IncrFails? { return Admitted; }
      var count := Live(store, bucket, r.at) + 1;
      store := store[bucket := Counter(count, if count > 1 then store[bucket].expiresAt else None)];
      if count == 1 {
        if r.fault.ExpireFails? { return Admitted; }
        store := store[bucket := store[bucket].(expiresAt := Some(r.at + WINDOW * 2))];
        assert store == old(store)[bucket := Counter(1, Some(r.at + WINDOW * 2))];
      }
      if count > limit {
        outcome := Rejected(WINDOW - r.later % WINDOW);
      } else {
        outcome := Admitted;
      }
    }
  }
}
