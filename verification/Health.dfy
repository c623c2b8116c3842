/** What the server selector remembers of each server and how it scores it. */
module Health {
  import opened Bits
  import opened Options

  // Durations and clock readings are in nanoseconds.
  const MILLISECOND: nat := 1_000_000
  const SECOND: nat := 1_000_000_000
  const MINUTE: nat := 60 * SECOND

  datatype Health = Health(latencyEWMA: nat, successCount: nat, failureCount: nat, consecutiveFailures: nat,
                           lastFailure: Option<int>, lastSuccess: Option<int>, cooldownUntil: Option<int>)

  type Stats = map<string, Health>

  // The outcome of one dial to the server with the given key.
  datatype Report = Report(key: string, latency: int, ok: bool, now: int)

  // ----- Cooldown

  /** Two seconds to the number of failures, at most a minute. */
  function Cooldown(failures: int): (c: nat)
    ensures c <= MINUTE
  {
    if failures <= 0 then 0
    else if Pow2(failures) * SECOND <= MINUTE then Pow2(failures) * SECOND
    else MINUTE
  }

  method CooldownForFailures(consecutiveFailures: int) returns (cooldown: nat)
    ensures cooldown == Cooldown(consecutiveFailures)
  {
    if consecutiveFailures <= 0 {
      return 0;
    }
    cooldown := 2 * SECOND;
    var i := 1;
    while i < consecutiveFailures
      invariant 1 <= i <= consecutiveFailures
      invariant cooldown == Pow2(i) * SECOND < MINUTE
    {
      cooldown := cooldown * 2;
      i := i + 1;
      if cooldown >= MINUTE {
        if i < consecutiveFailures {
          Pow2Grows(i, consecutiveFailures);
        }
        return MINUTE;
      }
    }
  }

  lemma CooldownGrows(m: int, n: int)
    requires m <= n
    ensures Cooldown(m) <= Cooldown(n)
  {
    if 0 < m < n {
      Pow2Grows(m, n);
    }
  }

  /** Exactly two, four, eight, sixteen and thirty-two seconds, then a minute for ever. */
  lemma CooldownLadder(n: int)
    requires n >= 1
    ensures Cooldown(n)
         == (match n case 1 => 2 case 2 => 4 case 3 => 8 case 4 => 16 case 5 => 32 case _ => 60) * 1_000_000_000
  {
    assert Pow2(2) == 4 && Pow2(3) == 8 && Pow2(4) == 16;
    assert Pow2(5) == 32 && Pow2(6) == 64;
    if n > 6 {
      Pow2Grows(6, n);
    }
  }

  // ----- One report

  function Slot(stats: Stats, key: string): Option<Health> {
    if key in stats then Some(stats[key]) else None
  }

  function Fresh(): Health {
    Health(0, 0, 0, 0, None, None, None)
  }

  function Averaged(ewma: nat, latency: int): nat {
    if latency <= 0 then ewma
    else if ewma == 0 then latency
    else (ewma * 3 + latency) / 4
  }

  function Updated(h: Health, latency: int, ok: bool, now: int): Health {
    if ok then
      h.(successCount := h.successCount + 1, consecutiveFailures := 0, lastSuccess := Some(now),
         cooldownUntil := None, latencyEWMA := Averaged(h.latencyEWMA, latency))
    else
      h.(failureCount := h.failureCount + 1, consecutiveFailures := h.consecutiveFailures + 1,
         lastFailure := Some(now), cooldownUntil := Some(now + Cooldown(h.consecutiveFailures + 1)))
  }

  function Record(stats: Stats, r: Report): Stats {
    stats[r.key := Updated(if r.key in stats then stats[r.key] else Fresh(), r.latency, r.ok, r.now)]
  }

  // ----- Histories

  /** The statistics after a history of reports. */
  function Recorded(reports: seq<Report>): Stats {
    if reports == [] then map[]
    else Record(Recorded(reports[..|reports| - 1]), reports[|reports| - 1])
  }

  function HistoryOf(reports: seq<Report>, key: string): seq<Report> {
    if reports == [] then []
    else
      var last := reports[|reports| - 1];
      HistoryOf(reports[..|reports| - 1], key) + if last.key == key then [last] else []
  }

  function Count(h: seq<Report>, ok: bool): nat {
    if h == [] then 0
    else Count(h[..|h| - 1], ok) + if h[|h| - 1].ok == ok then 1 else 0
  }

  // The length of the run of failures at the end.
  function Trailing(h: seq<Report>): nat {
    if h == [] || h[|h| - 1].ok then 0 else Trailing(h[..|h| - 1]) + 1
  }

  function Last(h: seq<Report>, ok: bool): Option<int> {
    if h == [] then None
    else if h[|h| - 1].ok == ok then Some(h[|h| - 1].now)
    else Last(h[..|h| - 1], ok)
  }

  // The latencies that enter the average.
  function Samples(h: seq<Report>): seq<int> {
    if h == [] then []
    else Samples(h[..|h| - 1]) + if h[|h| - 1].ok && h[|h| - 1].latency > 0 then [h[|h| - 1].latency] else []
  }

  /** What the remembered numbers mean in terms of the reports about one server alone. */
  predicate Describes(slot: Option<Health>, h: seq<Report>) {
    if h == [] then slot.None?
    else
      && slot.Some?
      && slot.value.successCount == Count(h, true)
      && slot.value.failureCount == Count(h, false)
      && slot.value.consecutiveFailures == Trailing(h)
      && slot.value.lastFailure == Last(h, false)
      && slot.value.lastSuccess == Last(h, true)
      && slot.value.cooldownUntil ==
           (if h[|h| - 1].ok then None else Some(h[|h| - 1].now + Cooldown(Trailing(h))))
  }

  lemma DescribesStep(slot: Option<Health>, h: seq<Report>, r: Report)
    requires Describes(slot, h)
    ensures Describes(Some(Updated(if slot.Some? then slot.value else Fresh(), r.latency, r.ok, r.now)), h + [r])
  {
    assert (h + [r])[..|h + [r]| - 1] == h;
  }

  /**
   Over every history the record of a server counts its own successes and
   failures, its trailing failures, and cools down from the last of them.
   */
  lemma {:induction false} RecordDescribes(reports: seq<Report>, key: string)
    ensures Describes(Slot(Recorded(reports), key), HistoryOf(reports, key))
  {
    if reports != [] {
      var before, last := reports[..|reports| - 1], reports[|reports| - 1];
      RecordDescribes(before, key);
      if last.key == key {
        DescribesStep(Slot(Recorded(before), key), HistoryOf(before, key), last);
      } else {
        assert HistoryOf(reports, key) == HistoryOf(before, key);
      }
    }
  }

  // ----- The average latency

  function Smallest(s: seq<int>): int
    requires s != []
  {
    if |s| == 1 then s[0]
    else var rest := Smallest(s[..|s| - 1]); if s[|s| - 1] < rest then s[|s| - 1] else rest
  }

  function Largest(s: seq<int>): int
    requires s != []
  {
    if |s| == 1 then s[0]
    else var rest := Largest(s[..|s| - 1]); if s[|s| - 1] > rest then s[|s| - 1] else rest
  }

  predicate Averages(ewma: nat, samples: seq<int>) {
    if samples == [] then ewma == 0
    else 0 < Smallest(samples) <= ewma <= Largest(samples)
  }

  lemma AveragesStep(ewma: nat, samples: seq<int>, latency: int)
    requires Averages(ewma, samples) && latency > 0
    ensures Averages(Averaged(ewma, latency), samples + [latency])
  {
    var all := samples + [latency];
    assert all[..|all| - 1] == samples;
  }

  function Ewma(slot: Option<Health>): nat {
    if slot.Some? then slot.value.latencyEWMA else 0
  }

  lemma SamplesNext(h: seq<Report>, r: Report)
    ensures Samples(h + [r]) == Samples(h) + if r.ok && r.latency > 0 then [r.latency] else []
  {
    assert (h + [r])[..|h + [r]| - 1] == h;
  }

  lemma EwmaStep(slot: Option<Health>, h: seq<Report>, r: Report)
    requires Averages(Ewma(slot), Samples(h))
    ensures var before := if slot.Some? then slot.value else Fresh();
            Averages(Updated(before, r.latency, r.ok, r.now).latencyEWMA, Samples(h + [r]))
  {
    SamplesNext(h, r);
    if r.ok && r.latency > 0 {
      AveragesStep(Ewma(slot), Samples(h), r.latency);
    } else {
      assert Samples(h + [r]) == Samples(h);
    }
  }

  /**
   Over every history the average latency of a server lies between the
   smallest and the largest positive latency of its successes, and is zero
   exactly when there was none.
   */
  lemma {:induction false} AverageIsBounded(reports: seq<Report>, key: string)
    ensures Averages(Ewma(Slot(Recorded(reports), key)), Samples(HistoryOf(reports, key)))
  {
    if reports != [] {
      var before, last := reports[..|reports| - 1], reports[|reports| - 1];
      AverageIsBounded(before, key);
      if last.key == key {
        EwmaStep(Slot(Recorded(before), key), HistoryOf(before, key), last);
      } else {
        assert HistoryOf(reports, key) == HistoryOf(before, key);
      }
    }
  }

  lemma RecordedNext(reports: seq<Report>, r: Report)
    ensures Recorded(reports + [r]) == Record(Recorded(reports), r)
  {
    assert (reports + [r])[..|reports + [r]| - 1] == reports;
  }

  /**
   A success moves the average a quarter of the way to its latency, rounded down. The first positive
   latency is taken as it is, and a latency that is not positive, or a failure, moves nothing.
   */
  lemma AverageMoves(reports: seq<Report>, r: Report)
    ensures var e := Ewma(Slot(Recorded(reports), r.key));
            var e' := Ewma(Slot(Recorded(reports + [r]), r.key));
            if !r.ok || r.latency <= 0 then e' == e
            else if e == 0 then e' == r.latency
            else 3 * e + r.latency - 3 <= 4 * e' <= 3 * e + r.latency
  {
    RecordedNext(reports, r);
  }

  // ----- The score: lower is better

  function Penalty(until: Option<int>, now: int): nat {
    if until.Some? && now < until.value then 5000 + (until.value - now) / MILLISECOND else 0
  }

  function LatencyCharge(ewma: nat): nat {
    if ewma > 0 then ewma / MILLISECOND else 150
  }

  function Bonus(h: Health): nat {
    if h.successCount > h.failureCount then (h.successCount - h.failureCount) * 25 else 0
  }

  function BaseScore(weight: int): int {
    2000 / (if weight <= 0 then 1 else weight)
  }

  function Score(weight: int, slot: Option<Health>, now: int): int {
    if slot.None? then BaseScore(weight) + 250
    else
      BaseScore(weight) + LatencyCharge(slot.value.latencyEWMA)
      + slot.value.failureCount * 50 + slot.value.consecutiveFailures * 750
      + Penalty(slot.value.cooldownUntil, now) - Bonus(slot.value)
  }

  // A later end of the cooldown never costs less.
  lemma PenaltyGrows(until: int, until': int, now: int)
    requires until <= until'
    ensures Penalty(Some(until), now) <= Penalty(Some(until'), now)
  {
  }

  ghost predicate NotAfter(reports: seq<Report>, now: int) {
    forall r <- reports :: r.now <= now
  }

  lemma {:induction false} HistoryNotAfter(reports: seq<Report>, key: string, now: int)
    requires NotAfter(reports, now)
    ensures NotAfter(HistoryOf(reports, key), now)
  {
    if reports != [] {
      assert reports[|reports| - 1] in reports;
      assert NotAfter(reports[..|reports| - 1], now);
      HistoryNotAfter(reports[..|reports| - 1], key, now);
    }
  }

  // The remembered cooldown never outlasts the one a new failure would set.
  lemma CooldownExtends(reports: seq<Report>, key: string, now: int)
    requires NotAfter(reports, now)
    ensures var slot := Slot(Recorded(reports), key);
            slot.Some? && slot.value.cooldownUntil.Some? ==>
              slot.value.cooldownUntil.value <= now + Cooldown(slot.value.consecutiveFailures)
  {
    var h := HistoryOf(reports, key);
    RecordDescribes(reports, key);
    HistoryNotAfter(reports, key, now);
    if h != [] {
      assert h[|h| - 1] in h;
    }
  }

  /**
   After every history, a failed dial makes its server score at least 700
   worse at every later moment, and exactly 700 just when it is the first
   report about that server and its two seconds of cooldown are over. What
   stays when all cooldowns are over is 800, and 825 if it shrinks a surplus
   of successes.
   */
  lemma FailureCosts(reports: seq<Report>, r: Report, weight: int, later: int)
    requires NotAfter(reports, r.now) && !r.ok && r.now <= later
    ensures var before := Score(weight, Slot(Recorded(reports), r.key), later);
            var after := Score(weight, Slot(Recorded(reports + [r]), r.key), later);
            && after >= before + 700
            && (after == before + 700 <==> r.key !in Recorded(reports) && later >= r.now + 2 * SECOND)
            && (r.key in Recorded(reports) && later >= r.now + MINUTE ==>
                  var h := Recorded(reports)[r.key];
                  after == before + if h.successCount > h.failureCount then 825 else 800)
  {
    RecordedNext(reports, r);
    var slot := Slot(Recorded(reports), r.key);
    if slot.None? {
      CooldownLadder(1);
    } else {
      var n := slot.value.consecutiveFailures;
      CooldownExtends(reports, r.key, r.now);
      CooldownGrows(n, n + 1);
      if slot.value.cooldownUntil.Some? {
        PenaltyGrows(slot.value.cooldownUntil.value, r.now + Cooldown(n + 1), later);
      }
    }
  }

  lemma AverageStaysCheap(ewma: nat, latency: int)
    requires latency <= 0 || latency / MILLISECOND <= LatencyCharge(ewma)
    ensures LatencyCharge(Averaged(ewma, latency)) <= LatencyCharge(ewma)
  {
    if latency > 0 && ewma > 0 {
      var whole := ewma / MILLISECOND;
      assert ewma <= whole * MILLISECOND + (MILLISECOND - 1);
      assert latency <= whole * MILLISECOND + (MILLISECOND - 1);
      assert Averaged(ewma, latency) <= whole * MILLISECOND + (MILLISECOND - 1);
    }
  }

  /**
   A success no slower than the server is already charged for takes back the
   whole price of its trailing failures and the cooldown; without a latency it
   earns 25 more once there is a surplus of successes, and changes nothing else.
   */
  lemma SuccessHeals(reports: seq<Report>, r: Report, weight: int, later: int)
    requires r.ok && r.key in Recorded(reports)
    requires r.latency <= 0 || r.latency / MILLISECOND <= LatencyCharge(Recorded(reports)[r.key].latencyEWMA)
    ensures var h := Recorded(reports)[r.key];
            Score(weight, Slot(Recorded(reports + [r]), r.key), later)
              <= Score(weight, Some(h), later) - h.consecutiveFailures * 750 - Penalty(h.cooldownUntil, later)
    ensures var h := Recorded(reports)[r.key];
            r.latency <= 0 ==>
              Score(weight, Slot(Recorded(reports + [r]), r.key), later)
                == Score(weight, Some(h), later) - h.consecutiveFailures * 750 - Penalty(h.cooldownUntil, later)
                   - if h.successCount >= h.failureCount then 25 else 0
  {
    RecordedNext(reports, r);
    AverageStaysCheap(Recorded(reports)[r.key].latencyEWMA, r.latency);
  }

  lemma ProductGrows(a: nat, b: nat, c: nat, d: nat)
    requires a <= b && c <= d
    ensures a * c <= b * d
  {
    assert b * d == a * c + a * (d - c) + (b - a) * d;
  }

  // A larger divisor has no larger quotient.
  lemma QuotientFalls(w: nat, w': nat, q: nat, q': nat, total: nat)
    requires w <= w' && total < w * (q + 1) && w' * q' <= total
    ensures q' <= q
  {
    if q < q' {
      ProductGrows(w, w', q + 1, q');
      assert false;
    }
  }

  /** Measured latency costs a point for each full millisecond, and an unknown one as much as 150 milliseconds. */
  lemma LatencyCosts(weight: int, h: Health, a: nat, b: nat, now: int)
    requires b > 0
    ensures var slow, fast := h.(latencyEWMA := a), h.(latencyEWMA := b);
            Score(weight, Some(slow), now) - Score(weight, Some(fast), now)
              == (if a > 0 then a / 1_000_000 else 150) - b / 1_000_000
  {
  }

  /**
   A cooldown costs 5000 and a point for each full millisecond that is left of it, and nothing once it
   is over; without a cooldown the score does not depend on the time.
   */
  lemma CooldownCosts(weight: int, h: Health, now: int, later: int)
    ensures match h.cooldownUntil
            case None => Score(weight, Some(h), now) == Score(weight, Some(h), later)
            case Some(until) =>
              Score(weight, Some(h), now)
                == Score(weight, Some(h), until) + if now < until then 5000 + (until - now) / 1_000_000 else 0
  {
  }

  /** The share of the weight in a score, which is the whole score of a server never dialled, but for 250. */
  lemma WeightCosts(weight: int, slot: Option<Health>, now: int)
    ensures Score(weight, None, now) == 250 + if weight <= 0 then 2000 else 2000 / weight
    ensures Score(weight, slot, now) - Score(1, slot, now) == if weight <= 0 then 0 else 2000 / weight - 2000
  {
  }

  /** The scores after the first report about a server. */
  lemma FirstReportCosts(r: Report, weight: int, later: int)
    requires r.now <= later
    ensures var score := Score(weight, Slot(Recorded([r]), r.key), later);
            score - (Score(weight, None, later) - 250) ==
              if r.ok then (if r.latency > 0 then r.latency / 1_000_000 else 150) - 25
              else 950 + if later < r.now + 2 * SECOND then 5000 + (r.now + 2 * SECOND - later) / 1_000_000 else 0
  {
    assert [r][..0] == [] && Recorded([]) == map[];
    assert Recorded([r]) == Record(map[], r);
    CooldownLadder(1);
  }

  /** More weight never scores worse, and weight is worth at most 2000. */
  lemma WeightHelps(weight: int, weight': int, slot: Option<Health>, now: int)
    requires weight <= weight'
    ensures 0 <= Score(weight, slot, now) - Score(weight', slot, now) <= 2000
  {
    var w, w' := if weight <= 0 then 1 else weight, if weight' <= 0 then 1 else weight';
    QuotientFalls(w, w', 2000 / w, 2000 / w', 2000);
    QuotientFalls(1, w', 2000, 2000 / w', 2000);
    QuotientFalls(1, w, 2000, 2000 / w, 2000);
  }

  /** A report changes the score of no other server. */
  lemma OthersKeepTheirScore(reports: seq<Report>, r: Report, key: string, weight: int, later: int)
    requires key != r.key
    ensures Score(weight, Slot(Recorded(reports + [r]), key), later)
         == Score(weight, Slot(Recorded(reports), key), later)
  {
    RecordedNext(reports, r);
  }

  /** With no news a server never gets worse, and a minute after the last report it is not cooling down. */
  lemma TimeHeals(reports: seq<Report>, key: string, weight: int, now: int, later: int)
    requires NotAfter(reports, now) && now <= later
    ensures var slot := Slot(Recorded(reports), key);
            && Score(weight, slot, later) <= Score(weight, slot, now)
            && (slot.Some? && later >= now + MINUTE ==> Penalty(slot.value.cooldownUntil, later) == 0)
  {
    CooldownExtends(reports, key, now);
  }

  // ----- A healthy server against a failed one

  // No failure on record, and no success slower than 974 milliseconds.
  ghost predicate Healthy(h: seq<Report>) {
    forall i :: 0 <= i < |h| ==> h[i].ok && h[i].latency < 975 * MILLISECOND
  }

  ghost predicate Failed(h: seq<Report>) {
    h != [] && forall i :: 0 <= i < |h| ==> !h[i].ok
  }

  lemma {:induction false} HealthyNumbers(h: seq<Report>)
    requires Healthy(h)
    ensures Count(h, false) == Trailing(h) == 0 && Count(h, true) == |h|
    ensures Samples(h) != [] ==> Largest(Samples(h)) < 975 * MILLISECOND
  {
    if h != [] {
      var before := h[..|h| - 1];
      HealthyNumbers(before);
      if h[|h| - 1].latency > 0 {
        assert Samples(h)[..|Samples(h)| - 1] == Samples(before);
      } else {
        assert Samples(h) == Samples(before);
      }
    }
  }

  lemma {:induction false} FailedNumbers(h: seq<Report>)
    requires h != [] ==> Failed(h)
    ensures Count(h, false) == Trailing(h) == |h| && Count(h, true) == 0 && Samples(h) == []
  {
    if h != [] {
      FailedNumbers(h[..|h| - 1]);
    }
  }

  /**
   Whatever happened to other servers: one that only ever failed scores worse, at every moment, than
   one of the same weight that was never dialled or only ever answered within 974 milliseconds.
   */
  lemma HealthyBeatsFailed(reports: seq<Report>, healthy: string, failed: string, weight: int, now: int)
    requires Healthy(HistoryOf(reports, healthy)) && Failed(HistoryOf(reports, failed))
    ensures Score(weight, Slot(Recorded(reports), healthy), now) < Score(weight, Slot(Recorded(reports), failed), now)
  {
    RecordDescribes(reports, healthy);
    RecordDescribes(reports, failed);
    AverageIsBounded(reports, healthy);
    AverageIsBounded(reports, failed);
    HealthyNumbers(HistoryOf(reports, healthy));
    FailedNumbers(HistoryOf(reports, failed));
    hide HistoryOf, Recorded, Count, Trailing, Samples, Largest, Smallest, Last, Healthy, Failed;
  }
}
