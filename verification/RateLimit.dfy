/** The authentication rate limiter: 1000 attempts for each address in a fixed window of one minute. */
module RateLimit {
  import opened Options

  const LIMIT: nat := 1000
  // Nanoseconds, the unit of the clock.
  const MINUTE: nat := 60_000_000_000

  datatype Entry = Entry(count: nat, resetAt: int)

  type Rates = map<string, Entry>

  // What happens to the limiter, with the clock reading taken under its lock.
  datatype Event = Attempt(ip: string, now: int) | Sweep(now: int)

  datatype Verdict = Verdict(at: int, ok: bool)

  // ----- Specification of the two locked operations

  predicate Expired(e: Entry, now: int) {
    now > e.resetAt
  }

  /** The entry of one address after an attempt, and whether the attempt is admitted. */
  function Attempted(e: Option<Entry>, now: int): (Entry, bool) {
    if e.None? || Expired(e.value, now) then
      (Entry(1, now + MINUTE), true)
    else
      (Entry(e.value.count + 1, e.value.resetAt), e.value.count + 1 <= LIMIT)
  }

  function Slot(rates: Rates, ip: string): Option<Entry> {
    if ip in rates then Some(rates[ip]) else None
  }

  function Swept(rates: Rates, now: int): Rates {
    map ip | ip in rates && !Expired(rates[ip], now) :: rates[ip]
  }

  function After(rates: Rates, ev: Event): Rates {
    match ev
    case Attempt(ip, now) => rates[ip := Attempted(Slot(rates, ip), now).0]
    case Sweep(now) => Swept(rates, now)
  }

  // ----- The manager

  class RateEntry {
    var count: nat
    var resetAt: int

    constructor (count: nat, resetAt: int)
      ensures this.count == count && this.resetAt == resetAt
    {
      this.count, this.resetAt := count, resetAt;
    }
  }

  class AuthManager {
    var authRates: map<string, RateEntry>

    // No two addresses share an entry: counting one leaves the others alone.
    ghost predicate Valid()
      reads this
    {
      forall i, j :: i in authRates && j in authRates && i != j ==> authRates[i] != authRates[j]
    }

    ghost function Contents(): Rates
      reads this, authRates.Values
    {
      map ip | ip in authRates :: Entry(authRates[ip].count, authRates[ip].resetAt)
    }

    constructor ()
      ensures Valid() && Contents() == map[]
    {
      authRates := map[];
    }

    method CheckRateLimit(remoteIP: string, now: int) returns (ok: bool)
      requires Valid()
      modifies this, authRates.Values
      ensures Valid() && fresh(authRates.Values - old(authRates.Values))
      ensures Contents() == After(old(Contents()), Attempt(remoteIP, now))
      ensures ok == Attempted(Slot(old(Contents()), remoteIP), now).1
      ensures forall ip :: ip in old(Contents()) && ip != remoteIP ==>
                ip in Contents() && Contents()[ip] == old(Contents())[ip]
    {
      if remoteIP !in authRates || now > authRates[remoteIP].resetAt {
        var entry := new RateEntry(1, now + MINUTE);
        authRates := authRates[remoteIP := entry];
        return true;
      }
      var entry := authRates[remoteIP];
      entry.count := entry.count + 1;
      ok := entry.count <= LIMIT;
    }

    method CleanRateLimits(now: int)
      requires Valid()
      modifies this
      ensures Valid() && authRates.Values <= old(authRates.Values)
      ensures Contents() == After(old(Contents()), Sweep(now))
      ensures forall ip :: ip in Contents() <==> ip in old(Contents()) && now <= old(Contents())[ip].resetAt
      ensures forall ip :: ip in Contents() ==> Contents()[ip] == old(Contents())[ip]
    {
      ghost var was := authRates;
      var todo := authRates.Keys;
      while todo != {}
        invariant todo <= was.Keys
        invariant authRates.Keys <= was.Keys
        invariant forall ip :: ip in authRates ==> authRates[ip] == was[ip]
        invariant forall ip :: ip in was ==>
          (ip in authRates <==> ip in todo || !(now > was[ip].resetAt))
        decreases |todo|
      {
        var ip :| ip in todo;
        todo := todo - {ip};
        if now > authRates[ip].resetAt {
          authRates := authRates - {ip};
        }
      }
    }
  }

  // ----- Runs

  // The clock never runs backwards.
  ghost predicate Ordered(events: seq<Event>) {
    forall i, j :: 0 <= i < j < |events| ==> events[i].now <= events[j].now
  }

  /** What one address sees in a run. */
  function Log(rates: Rates, events: seq<Event>, ip: string): seq<Verdict>
    decreases |events|
  {
    if events == [] then []
    else
      (if events[0].Attempt? && events[0].ip == ip then
         [Verdict(events[0].now, Attempted(Slot(rates, ip), events[0].now).1)]
       else
         [])
      + Log(After(rates, events[0]), events[1..], ip)
  }

  /** When one address tries. */
  function Times(events: seq<Event>, ip: string): seq<int> {
    if events == [] then []
    else
      (if events[0].Attempt? && events[0].ip == ip then [events[0].now] else [])
      + Times(events[1..], ip)
  }

  /** A limiter that serves a single address and is never swept. */
  function LogAlone(e: Option<Entry>, times: seq<int>): (log: seq<Verdict>)
    ensures |log| == |times|
    decreases |times|
  {
    if times == [] then []
    else
      var (e', ok) := Attempted(e, times[0]);
      [Verdict(times[0], ok)] + LogAlone(Some(e'), times[1..])
  }

  // ----- Other addresses and sweeping decide nothing

  // The limiter for one address has the same entry, or one that has run out and was swept.
  predicate Agree(kept: Option<Entry>, slot: Option<Entry>, now: int) {
    slot == kept || (slot.None? && Expired(kept.value, now))
  }

  lemma AgreeStep(kept: Option<Entry>, rates: Rates, ev: Event, ip: string, clock: int)
    requires clock <= ev.now && Agree(kept, Slot(rates, ip), clock)
    ensures ev.Attempt? && ev.ip == ip ==>
              && Attempted(kept, ev.now) == Attempted(Slot(rates, ip), ev.now)
              && Slot(After(rates, ev), ip) == Some(Attempted(kept, ev.now).0)
    ensures !(ev.Attempt? && ev.ip == ip) ==> Agree(kept, Slot(After(rates, ev), ip), ev.now)
  {
  }

  /**
   However attempts of other addresses and sweeps are mixed in, an address is
   answered exactly as by a limiter of its own that is never swept.
   */
  lemma {:induction false} AnsweredAlone(kept: Option<Entry>, rates: Rates, events: seq<Event>, ip: string, clock: int)
    requires Ordered(events) && (events != [] ==> clock <= events[0].now)
    requires Agree(kept, Slot(rates, ip), clock)
    ensures Log(rates, events, ip) == LogAlone(kept, Times(events, ip))
    decreases |events|
  {
    if events == [] {
    } else {
      var ev := events[0];
      AgreeStep(kept, rates, ev, ip, clock);
      if ev.Attempt? && ev.ip == ip {
        var next := Some(Attempted(kept, ev.now).0);
        AnsweredAlone(next, After(rates, ev), events[1..], ip, ev.now);
        assert Times(events, ip)[1..] == Times(events[1..], ip);
      } else {
        AnsweredAlone(kept, After(rates, ev), events[1..], ip, ev.now);
        assert Times(events, ip) == Times(events[1..], ip);
      }
    }
  }


  function WithoutSweeps(events: seq<Event>): (r: seq<Event>)
    ensures forall ev <- r :: ev in events && !ev.Sweep?
  {
    if events == [] then []
    else (if events[0].Sweep? then [] else [events[0]]) + WithoutSweeps(events[1..])
  }

  lemma {:induction false} WithoutSweepsOrdered(events: seq<Event>)
    requires Ordered(events)
    ensures Ordered(WithoutSweeps(events))
  {
    if events != [] {
      WithoutSweepsOrdered(events[1..]);
      var rest := WithoutSweeps(events[1..]);
      forall j | 0 <= j < |rest| ensures events[0].now <= rest[j].now {
        assert rest[j] in events[1..];
      }
    }
  }

  lemma TimesCons(ev: Event, rest: seq<Event>, ip: string)
    ensures Times([ev] + rest, ip)
         == (if ev.Attempt? && ev.ip == ip then [ev.now] else []) + Times(rest, ip)
  {
    assert ([ev] + rest)[1..] == rest;
  }

  lemma {:induction false} WithoutSweepsTimes(events: seq<Event>, ip: string)
    ensures Times(WithoutSweeps(events), ip) == Times(events, ip)
  {
    if events != [] {
      var ev, rest := events[0], WithoutSweeps(events[1..]);
      WithoutSweepsTimes(events[1..], ip);
      if ev.Sweep? {
        assert WithoutSweeps(events) == rest;
        assert Times(events, ip) == Times(rest, ip);
      } else {
        assert WithoutSweeps(events) == [ev] + rest;
        TimesCons(ev, rest, ip);
      }
    }
  }

  /** Sweeping whenever one likes changes no answer. */
  lemma SweepingIsInvisible(events: seq<Event>, ip: string)
    requires Ordered(events)
    ensures Log(map[], events, ip) == Log(map[], WithoutSweeps(events), ip)
  {
    var kept := WithoutSweeps(events);
    WithoutSweepsOrdered(events);
    WithoutSweepsTimes(events, ip);
    AnsweredAlone(None, map[], events, ip, if events == [] then 0 else events[0].now);
    AnsweredAlone(None, map[], kept, ip, if kept == [] then 0 else kept[0].now);
  }

  // ----- The sliding window

  predicate Within(at: int, a: int) {
    a <= at <= a + 60_000_000_000
  }

  /** How many attempts were admitted in the closed minute that starts at `a`. */
  function Admitted(log: seq<Verdict>, a: int): nat {
    if log == [] then 0
    else (if log[0].ok && Within(log[0].at, a) then 1 else 0) + Admitted(log[1..], a)
  }

  /** How many attempts were made in it. */
  function Tries(times: seq<int>, a: int): nat {
    if times == [] then 0
    else (if Within(times[0], a) then 1 else 0) + Tries(times[1..], a)
  }

  ghost predicate Rising(times: seq<int>) {
    forall i, j :: 0 <= i < j < |times| ==> times[i] <= times[j]
  }

  // How many more admissions in the minute from `a` an entry can still lead to.
  function Budget(e: Option<Entry>, a: int): nat {
    if e.None? || e.value.resetAt < a then 2 * LIMIT - 1
    else
      (if e.value.count < LIMIT then LIMIT - e.value.count else 0)
      + (if e.value.resetAt < a + MINUTE then LIMIT else 0)
  }

  lemma BudgetSpent(e: Option<Entry>, now: int, a: int)
    requires now <= a + MINUTE
    ensures var (e', ok) := Attempted(e, now);
            Budget(Some(e'), a) + (if ok && Within(now, a) then 1 else 0) <= Budget(e, a)
  {
  }

  lemma {:induction false} NothingLater(e: Option<Entry>, times: seq<int>, a: int)
    requires forall t <- times :: t > a + MINUTE
    ensures Admitted(LogAlone(e, times), a) == 0
    decreases |times|
  {
    if times != [] {
      var (e', ok) := Attempted(e, times[0]);
      assert times[0] in times;
      assert forall t <- times[1..] :: t in times;
      NothingLater(Some(e'), times[1..], a);
      assert LogAlone(e, times)[1..] == LogAlone(Some(e'), times[1..]);
    }
  }

  lemma {:induction false} WithinBudget(e: Option<Entry>, times: seq<int>, a: int)
    requires Rising(times)
    ensures Admitted(LogAlone(e, times), a) <= Budget(e, a)
    decreases |times|
  {
    if times != [] {
      if times[0] > a + MINUTE {
        NothingLater(e, times, a);
      } else {
        var (e', ok) := Attempted(e, times[0]);
        BudgetSpent(e, times[0], a);
        WithinBudget(Some(e'), times[1..], a);
        assert LogAlone(e, times)[1..] == LogAlone(Some(e'), times[1..]);
      }
    }
  }

  lemma {:induction false} TimesAmong(events: seq<Event>, ip: string, t: int)
    requires t in Times(events, ip)
    ensures exists ev :: ev in events && ev.now == t
  {
    if events[0].Attempt? && events[0].ip == ip && t == events[0].now {
      assert events[0] in events;
    } else {
      TimesAmong(events[1..], ip, t);
      var ev :| ev in events[1..] && ev.now == t;
      assert ev in events;
    }
  }

  lemma {:induction false} TimesRise(events: seq<Event>, ip: string)
    requires Ordered(events)
    ensures Rising(Times(events, ip))
  {
    if events != [] {
      TimesRise(events[1..], ip);
      var rest := Times(events[1..], ip);
      forall j | 0 <= j < |rest| ensures events[0].now <= rest[j] {
        TimesAmong(events[1..], ip, rest[j]);
      }
    }
  }

  /**
   Over every run with a clock that never runs backwards, no closed minute
   admits an address more than 1999 times. The limit of 1000 is for each
   fixed window; two windows can share a sliding minute, but then the attempt
   that opened the first lies before it.
   */
  lemma SlidingWindow(events: seq<Event>, ip: string, a: int)
    requires Ordered(events)
    ensures Admitted(Log(map[], events, ip), a) <= 1999
  {
    AnsweredAlone(None, map[], events, ip, if events == [] then 0 else events[0].now);
    TimesRise(events, ip);
    WithinBudget(None, Times(events, ip), a);
  }

  // ----- The bound is reached

  function Burst(ip: string, now: int, n: nat): (r: seq<Event>)
    ensures |r| == n
  {
    seq(n, _ => Attempt(ip, now))
  }

  lemma {:induction false} BurstAdmitted(rates: Rates, ip: string, now: int, n: nat, rest: seq<Event>, a: int)
    requires ip in rates && !Expired(rates[ip], now) && rates[ip].count + n <= LIMIT
    requires Within(now, a)
    ensures var next := rates[ip := Entry(rates[ip].count + n, rates[ip].resetAt)];
            Admitted(Log(rates, Burst(ip, now, n) + rest, ip), a) == n + Admitted(Log(next, rest, ip), a)
    decreases n
  {
    var events := Burst(ip, now, n) + rest;
    if n == 0 {
      assert events == rest;
      assert rates == rates[ip := Entry(rates[ip].count, rates[ip].resetAt)];
    } else {
      var e := Entry(rates[ip].count + 1, rates[ip].resetAt);
      assert events[0] == Attempt(ip, now);
      assert events[1..] == Burst(ip, now, n - 1) + rest;
      BurstAdmitted(rates[ip := e], ip, now, n - 1, rest, a);
      assert rates[ip := e][ip := Entry(e.count + (n - 1), e.resetAt)]
          == rates[ip := Entry(rates[ip].count + n, rates[ip].resetAt)];
      assert Log(rates, events, ip)
          == [Verdict(now, true)] + Log(rates[ip := e], events[1..], ip);
    }
  }

  // One attempt opens a window, 999 use up its last instant, 1000 more fill the next one.
  function Worst(ip: string): seq<Event> {
    [Attempt(ip, 0)] + Burst(ip, MINUTE, LIMIT - 1) + [Attempt(ip, MINUTE + 1)] + Burst(ip, MINUTE + 1, LIMIT - 1)
  }

  lemma SlidingWindowIsTight(ip: string)
    ensures Ordered(Worst(ip))
    ensures Admitted(Log(map[], Worst(ip), ip), 1) == 1999
  {
    var tail := [Attempt(ip, MINUTE + 1)] + Burst(ip, MINUTE + 1, LIMIT - 1);
    var first: Rates := map[ip := Entry(1, MINUTE)];
    var full: Rates := map[ip := Entry(LIMIT, MINUTE)];
    var second: Rates := map[ip := Entry(1, MINUTE + 1 + MINUTE)];
    assert Worst(ip)[1..] == Burst(ip, MINUTE, LIMIT - 1) + tail;
    assert Log(map[], Worst(ip), ip) == [Verdict(0, true)] + Log(first, Worst(ip)[1..], ip) by {
      assert After(map[], Attempt(ip, 0)) == first;
    }
    BurstAdmitted(first, ip, MINUTE, LIMIT - 1, tail, 1);
    assert first[ip := Entry(1 + (LIMIT - 1), MINUTE)] == full;
    assert Log(full, tail, ip) == [Verdict(MINUTE + 1, true)] + Log(second, tail[1..], ip) by {
      assert After(full, Attempt(ip, MINUTE + 1)) == second;
    }
    assert tail[1..] == Burst(ip, MINUTE + 1, LIMIT - 1) + [];
    BurstAdmitted(second, ip, MINUTE + 1, LIMIT - 1, [], 1);
  }

  // ----- A refusal has a cause

  lemma {:induction false} TriesOfAppend(x: seq<int>, y: seq<int>, a: int)
    ensures Tries(x + y, a) == Tries(x, a) + Tries(y, a)
  {
    if x == [] {
      assert x + y == y;
    } else {
      TriesOfAppend(x[1..], y, a);
      assert (x + y)[1..] == x[1..] + y;
    }
  }

  // An entry never counts more attempts than were made since its window opened.
  predicate Counted(e: Option<Entry>, past: seq<int>, now: int) {
    e.Some? ==> e.value.resetAt - MINUTE <= now && e.value.count <= Tries(past, e.value.resetAt - MINUTE)
  }

  lemma CountedStep(e: Option<Entry>, past: seq<int>, clock: int, now: int)
    requires Counted(e, past, clock) && clock <= now
    ensures var (e', ok) := Attempted(e, now);
            && Counted(Some(e'), past + [now], now)
            && (!ok ==> Tries(past + [now], e'.resetAt - MINUTE) > LIMIT)
  {
    var (e', ok) := Attempted(e, now);
    TriesOfAppend(past, [now], e'.resetAt - MINUTE);
  }

  /** Every refusal is the last of more than 1000 attempts in one closed minute. */
  lemma {:induction false} RefusalHasCause(e: Option<Entry>, past: seq<int>, clock: int, times: seq<int>, k: nat)
    returns (a: int)
    requires Counted(e, past, clock) && Rising(times) && (times != [] ==> clock <= times[0])
    requires k < |LogAlone(e, times)| && !LogAlone(e, times)[k].ok
    ensures Tries(past + times[..k + 1], a) > LIMIT
    decreases |times|
  {
    var (e', ok) := Attempted(e, times[0]);
    CountedStep(e, past, clock, times[0]);
    if k == 0 {
      a := e'.resetAt - MINUTE;
      assert past + times[..1] == past + [times[0]];
    } else {
      assert times[..k + 1] == [times[0]] + times[1..][..k];
      assert past + times[..k + 1] == past + [times[0]] + times[1..][..k];
      a := RefusalHasCause(Some(e'), past + [times[0]], times[0], times[1..], k - 1);
    }
  }

  /** In a run: at the refusal the address has made more than 1000 attempts in one closed minute. */
  lemma RefusalIsEarned(events: seq<Event>, ip: string, k: nat) returns (a: int)
    requires Ordered(events) && k < |Log(map[], events, ip)| && !Log(map[], events, ip)[k].ok
    ensures k < |Times(events, ip)| && Tries(Times(events, ip)[..k + 1], a) > 1000
  {
    var times := Times(events, ip);
    AnsweredAlone(None, map[], events, ip, if events == [] then 0 else events[0].now);
    TimesRise(events, ip);
    a := RefusalHasCause(None, [], times[0], times, k);
    assert [] + times[..k + 1] == times[..k + 1];
  }

  lemma TriesOfPart(times: seq<int>, n: nat, a: int)
    requires n <= |times|
    ensures Tries(times[..n], a) <= Tries(times, a)
  {
    TriesOfAppend(times[..n], times[n..], a);
    assert times[..n] + times[n..] == times;
  }

  /** An address that keeps to 1000 attempts in every closed minute is never refused. */
  lemma ModerateIsNeverRefused(events: seq<Event>, ip: string)
    requires Ordered(events)
    requires forall a :: Tries(Times(events, ip), a) <= 1000
    ensures forall v <- Log(map[], events, ip) :: v.ok
  {
    var log := Log(map[], events, ip);
    forall k | 0 <= k < |log| ensures log[k].ok {
      if !log[k].ok {
        var a := RefusalIsEarned(events, ip, k);
        TriesOfPart(Times(events, ip), k + 1, a);
        assert false;
      }
    }
  }
}
