/** The server selector: weighted choice, health reports and the ranking of dial candidates. */
module Selector {
  import opened Options
  import opened Health
  import opened Ranking
  import opened Transports

  datatype AttemptGroup = AttemptGroup(base: ServerEntry, variants: seq<ServerEntry>)

  datatype ScoredGroup = ScoredGroup(group: AttemptGroup, score: int)

  // ----- Weighted choice

  /** The weights of the first `n` servers together. */
  function Upto(servers: seq<ServerEntry>, n: nat): int
    requires n <= |servers|
  {
    if n == 0 then 0 else Upto(servers, n - 1) + servers[n - 1].weight
  }

  ghost predicate Weighted(servers: seq<ServerEntry>) {
    forall i :: 0 <= i < |servers| ==> servers[i].weight >= 1
  }

  // The draw falls into the stretch that belongs to server `i`.
  predicate Lands(servers: seq<ServerEntry>, draw: int, i: nat)
    requires i < |servers|
  {
    Upto(servers, i) <= draw < Upto(servers, i + 1)
  }

  lemma {:induction false} UptoGrows(servers: seq<ServerEntry>, m: nat, n: nat)
    requires Weighted(servers) && m <= n <= |servers|
    ensures Upto(servers, m) + (n - m) <= Upto(servers, n)
  {
    if m < n {
      UptoGrows(servers, m, n - 1);
    }
  }

  predicate InStretch(r: int, lo: int, n: nat) {
    lo <= r < lo + n
  }

  lemma {:induction false} StretchSize(lo: int, n: nat)
    ensures |set r: int | lo <= r < lo + n && InStretch(r, lo, n)| == n
  {
    var all := set r: int | lo <= r < lo + n && InStretch(r, lo, n);
    if n == 0 {
      assert all == {};
    } else {
      var m := n - 1;
      var fewer := set r: int | lo <= r < lo + m && InStretch(r, lo, m);
      StretchSize(lo, n - 1);
      assert all == fewer + {lo + n - 1};
    }
  }

  /** Of the possible draws, exactly as many land on a server as it has weight, and each lands on no other. */
  lemma WeightIsShare(servers: seq<ServerEntry>, i: nat)
    requires Weighted(servers) && i < |servers|
    ensures |set r: int | 0 <= r < Upto(servers, |servers|) && Lands(servers, r, i)| == servers[i].weight
    ensures forall r, j: nat :: j < |servers| && Lands(servers, r, i) && Lands(servers, r, j) ==> i == j
  {
    var lo, all := Upto(servers, i), Upto(servers, |servers|);
    UptoGrows(servers, 0, i);
    UptoGrows(servers, i + 1, |servers|);
    var w := servers[i].weight;
    StretchSize(lo, w);
    assert (set r: int | 0 <= r < all && Lands(servers, r, i)) == set r: int | lo <= r < lo + w && InStretch(r, lo, w);
    forall r, j: nat | j < |servers| && Lands(servers, r, i) && Lands(servers, r, j) ensures i == j {
      if i < j {
        UptoGrows(servers, i + 1, j);
      } else if j < i {
        UptoGrows(servers, j + 1, i);
      }
    }
  }

  // ----- Ranking

  function ScoreOf(stats: Stats, server: ServerEntry, now: int): int {
    Score(server.weight, Slot(stats, StatsKey(server)), now)
  }

  function VariantKeys(stats: Stats, variants: seq<ServerEntry>, now: int): seq<Key> {
    seq(|variants|, k requires 0 <= k < |variants| => Key(ScoreOf(stats, variants[k], now), k))
  }

  /** One server with its candidates from the best to the worst. */
  function Group(stats: Stats, base: ServerEntry, preferred: string, now: int): (g: AttemptGroup)
    ensures g.base == base && g.variants != []
  {
    var vs := Variants(base, preferred);
    AttemptGroup(base, Arranged(vs, StableOrder(VariantKeys(stats, vs, now), |vs|)))
  }

  function Best(stats: Stats, g: AttemptGroup, now: int): int
    requires g.variants != []
  {
    ScoreOf(stats, g.variants[0], now)
  }

  function Scored(stats: Stats, base: ServerEntry, preferred: string, now: int): ScoredGroup {
    var g := Group(stats, base, preferred, now);
    ScoredGroup(g, Best(stats, g, now))
  }

  function ScoredUpto(stats: Stats, servers: seq<ServerEntry>, preferred: string, now: int, n: nat)
    : (r: seq<ScoredGroup>)
    requires n <= |servers|
    ensures |r| == n
  {
    if n == 0 then []
    else ScoredUpto(stats, servers, preferred, now, n - 1) + [Scored(stats, servers[n - 1], preferred, now)]
  }

  function SortKeys(scored: seq<ScoredGroup>): seq<Key> {
    seq(|scored|, k requires 0 <= k < |scored| => Key(scored[k].score, -scored[k].group.base.weight))
  }

  /** The groups by rising score, then by falling weight. */
  function Sorted(scored: seq<ScoredGroup>): (r: seq<AttemptGroup>)
    ensures |r| == |scored|
  {
    var order := StableOrder(SortKeys(scored), |scored|);
    seq(|scored|, k requires 0 <= k < |scored| => scored[order[k]].group)
  }

  /** All servers, the one with the best candidate first. */
  function Ranked(stats: Stats, servers: seq<ServerEntry>, preferred: string, now: int): (r: seq<AttemptGroup>)
    ensures |r| == |servers|
  {
    Sorted(ScoredUpto(stats, servers, preferred, now, |servers|))
  }

  lemma {:induction false} ScoredAt(stats: Stats, servers: seq<ServerEntry>, preferred: string, now: int,
                                    n: nat, k: nat)
    requires k < n <= |servers|
    ensures ScoredUpto(stats, servers, preferred, now, n)[k] == Scored(stats, servers[k], preferred, now)
  {
    hide Scored;
    if k < n - 1 {
      ScoredAt(stats, servers, preferred, now, n - 1, k);
    }
  }

  lemma SameGroup(stats: Stats, base: ServerEntry, preferred: string, now: int)
    ensures Group(stats, base, NormalizePreference(preferred), now) == Group(stats, base, preferred, now)
  {
    PreferenceNormalized(base, preferred);
  }

  lemma {:induction false} SameScored(stats: Stats, servers: seq<ServerEntry>, preferred: string, now: int, n: nat)
    requires n <= |servers|
    ensures ScoredUpto(stats, servers, NormalizePreference(preferred), now, n)
         == ScoredUpto(stats, servers, preferred, now, n)
  {
    hide Group;
    if n > 0 {
      SameScored(stats, servers, preferred, now, n - 1);
      SameGroup(stats, servers[n - 1], preferred, now);
    }
  }

  /** The candidates of a group are those of its server, ordered by score and then by preference. */
  lemma GroupIsOrdered(stats: Stats, base: ServerEntry, preferred: string, now: int) returns (order: seq<nat>)
    ensures var vs, g := Variants(base, preferred), Group(stats, base, preferred, now).variants;
            && Permutation(order, |vs|) && |g| == |vs|
            && (forall k :: 0 <= k < |vs| ==> g[k] == vs[order[k]])
            && (forall i, j :: 0 <= i < j < |vs| ==>
                  ScoreOf(stats, g[i], now) < ScoreOf(stats, g[j], now)
                  || (ScoreOf(stats, g[i], now) == ScoreOf(stats, g[j], now) && order[i] < order[j]))
  {
    var vs, g := Variants(base, preferred), Group(stats, base, preferred, now).variants;
    var keys := VariantKeys(stats, vs, now);
    order := StableOrder(keys, |vs|);
    StableOrderSorts(keys, |vs|);
    forall i, j | 0 <= i < j < |vs|
      ensures ScoreOf(stats, g[i], now) < ScoreOf(stats, g[j], now)
              || (ScoreOf(stats, g[i], now) == ScoreOf(stats, g[j], now) && order[i] < order[j])
    {
      assert Before(keys, order[i], order[j]);
    }
  }

  lemma GroupLeadsWithBest(stats: Stats, base: ServerEntry, preferred: string, now: int, v: ServerEntry)
    requires v in Variants(base, preferred)
    ensures Best(stats, Group(stats, base, preferred, now), now) <= ScoreOf(stats, v, now)
  {
    var order := GroupIsOrdered(stats, base, preferred, now);
    var vs, g := Variants(base, preferred), Group(stats, base, preferred, now).variants;
    var i :| 0 <= i < |vs| && vs[i] == v;
    assert i in order;
    var k :| 0 <= k < |order| && order[k] == i;
    assert g[k] == v;
  }

  /** The sort compares scores first, then weights, then positions. */
  lemma SortedPair(scored: seq<ScoredGroup>, i: nat, j: nat)
    requires i < j < |scored|
    ensures var order := StableOrder(SortKeys(scored), |scored|);
            && order[i] < |scored| && order[j] < |scored|
            && Sorted(scored)[i] == scored[order[i]].group && Sorted(scored)[j] == scored[order[j]].group
            && var (a, b) := (scored[order[i]], scored[order[j]]);
            || a.score < b.score
            || (a.score == b.score && a.group.base.weight > b.group.base.weight)
            || (a.score == b.score && a.group.base.weight == b.group.base.weight && order[i] < order[j])
  {
    var order := StableOrder(SortKeys(scored), |scored|);
    StableOrderSorts(SortKeys(scored), |scored|);
    assert Before(SortKeys(scored), order[i], order[j]);
  }

  lemma RankedPair(stats: Stats, servers: seq<ServerEntry>, preferred: string, now: int, i: nat, j: nat)
    requires i < j < |servers|
    ensures var order := StableOrder(SortKeys(ScoredUpto(stats, servers, preferred, now, |servers|)), |servers|);
            var r := Ranked(stats, servers, preferred, now);
            && order[i] < |servers| && r[i] == Group(stats, servers[order[i]], preferred, now)
            && order[j] < |servers| && r[j] == Group(stats, servers[order[j]], preferred, now)
            && var (x, y) := (ScoreOf(stats, r[i].variants[0], now), ScoreOf(stats, r[j].variants[0], now));
            || x < y
            || (x == y && r[i].base.weight > r[j].base.weight)
            || (x == y && r[i].base.weight == r[j].base.weight && order[i] < order[j])
  {
    hide Group, ScoreOf;
    var scored := ScoredUpto(stats, servers, preferred, now, |servers|);
    SortedPair(scored, i, j);
    var order := StableOrder(SortKeys(scored), |scored|);
    ScoredAt(stats, servers, preferred, now, |servers|, order[i]);
    ScoredAt(stats, servers, preferred, now, |servers|, order[j]);
    hide StableOrder, Sorted, ScoredUpto;
  }

  /**
   The ranking holds every configured server once, ordered by its best
   candidate, then by falling weight, then by position in the configuration.
   */
  lemma RankedIsOrdered(stats: Stats, servers: seq<ServerEntry>, preferred: string, now: int)
    returns (order: seq<nat>)
    ensures var r := Ranked(stats, servers, preferred, now);
            && Permutation(order, |servers|) && |r| == |servers|
            && (forall k :: 0 <= k < |r| ==> r[k] == Group(stats, servers[order[k]], preferred, now))
            && (forall i, j :: 0 <= i < j < |r| ==>
                  var (x, y) := (ScoreOf(stats, r[i].variants[0], now), ScoreOf(stats, r[j].variants[0], now));
                  || x < y
                  || (x == y && r[i].base.weight > r[j].base.weight)
                  || (x == y && r[i].base.weight == r[j].base.weight && order[i] < order[j]))
  {
    var scored := ScoredUpto(stats, servers, preferred, now, |servers|);
    order := StableOrder(SortKeys(scored), |servers|);
    StableOrderSorts(SortKeys(scored), |servers|);
    var r := Ranked(stats, servers, preferred, now);
    forall k | 0 <= k < |servers| ensures r[k] == Group(stats, servers[order[k]], preferred, now) {
      ScoredAt(stats, servers, preferred, now, |servers|, order[k]);
    }
    hide StableOrder, SortKeys, Sorted, Ranked, ScoredUpto, Group, ScoreOf;
    forall i, j | 0 <= i < j < |servers|
      ensures var (x, y) := (ScoreOf(stats, r[i].variants[0], now), ScoreOf(stats, r[j].variants[0], now));
              || x < y
              || (x == y && r[i].base.weight > r[j].base.weight)
              || (x == y && r[i].base.weight == r[j].base.weight && order[i] < order[j])
    {
      RankedPair(stats, servers, preferred, now, i, j);
    }
  }

  lemma FirstGroupLeads(stats: Stats, servers: seq<ServerEntry>, preferred: string, now: int, i: nat)
    requires i < |servers|
    ensures var r := Ranked(stats, servers, preferred, now);
            && r != [] && r[0].variants != []
            && Best(stats, r[0], now) <= Best(stats, Group(stats, servers[i], preferred, now), now)
  {
    var scored := ScoredUpto(stats, servers, preferred, now, |servers|);
    var keys := SortKeys(scored);
    StableOrderLeads(keys, i);
    ScoredAt(stats, servers, preferred, now, |servers|, i);
    ScoredAt(stats, servers, preferred, now, |servers|, StableOrder(keys, |keys|)[0]);
  }

  /** The first candidate of the first group scores best among all candidates of all servers. */
  lemma FirstIsBest(stats: Stats, servers: seq<ServerEntry>, preferred: string, now: int, i: nat, v: ServerEntry)
    requires i < |servers| && v in Variants(servers[i], preferred)
    ensures var r := Ranked(stats, servers, preferred, now);
            r != [] && r[0].variants != [] && ScoreOf(stats, r[0].variants[0], now) <= ScoreOf(stats, v, now)
  {
    FirstGroupLeads(stats, servers, preferred, now, i);
    GroupLeadsWithBest(stats, servers[i], preferred, now, v);
  }

  /** While a candidate in good health is configured, none of the same weight that only ever failed is dialled first. */
  lemma FailedIsNotFirst(reports: seq<Report>, servers: seq<ServerEntry>, preferred: string, now: int,
                         i: nat, v: ServerEntry, u: ServerEntry)
    requires i < |servers| && v in Variants(servers[i], preferred) && u.weight == v.weight
    requires Healthy(HistoryOf(reports, StatsKey(v))) && Failed(HistoryOf(reports, StatsKey(u)))
    ensures var r := Ranked(Recorded(reports), servers, preferred, now);
            r != [] && r[0].variants != [] && r[0].variants[0] != u
  {
    hide Ranked, Recorded, HistoryOf, Score, Variants, StatsKey, Healthy, Failed;
    FirstIsBest(Recorded(reports), servers, preferred, now, i, v);
    HealthyBeatsFailed(reports, StatsKey(v), StatsKey(u), v.weight, now);
  }

  /** Of two candidates that are equal otherwise, the one slower by a full millisecond is not dialled first. */
  lemma SlowerIsNotFirst(stats: Stats, servers: seq<ServerEntry>, preferred: string, now: int,
                         i: nat, v: ServerEntry, u: ServerEntry)
    requires i < |servers| && v in Variants(servers[i], preferred) && u.weight == v.weight
    requires StatsKey(u) in stats && StatsKey(v) in stats
    requires var (slow, fast) := (stats[StatsKey(u)], stats[StatsKey(v)]);
      && slow == fast.(latencyEWMA := slow.latencyEWMA)
      && slow.latencyEWMA / 1_000_000 > fast.latencyEWMA / 1_000_000 && fast.latencyEWMA > 0
    ensures var r := Ranked(stats, servers, preferred, now);
            r != [] && r[0].variants != [] && r[0].variants[0] != u
  {
    FirstIsBest(stats, servers, preferred, now, i, v);
    var (slow, fast) := (stats[StatsKey(u)], stats[StatsKey(v)]);
    LatencyCosts(v.weight, fast, slow.latencyEWMA, fast.latencyEWMA, now);
    hide Ranked, Variants, StatsKey, Score;
    assert fast == fast.(latencyEWMA := fast.latencyEWMA);
  }

  /** A candidate under a cooldown is charged for it until it is over. */
  lemma CoolingCandidate(stats: Stats, server: ServerEntry, until: int, now: int)
    requires StatsKey(server) in stats && stats[StatsKey(server)].cooldownUntil == Some(until)
    ensures ScoreOf(stats, server, now)
         == ScoreOf(stats, server, until) + if now < until then 5000 + (until - now) / 1_000_000 else 0
  {
    CooldownCosts(server.weight, stats[StatsKey(server)], now, until);
  }

  /** A candidate never dialled is charged for its weight alone, and 250. */
  lemma NewCandidate(stats: Stats, server: ServerEntry, now: int)
    requires StatsKey(server) !in stats
    ensures ScoreOf(stats, server, now) == 250 + if server.weight <= 0 then 2000 else 2000 / server.weight
  {
    WeightCosts(server.weight, None, now);
  }

  /** Of two candidates with the same statistics the heavier is ahead by its exact share. */
  lemma HeavierCandidate(stats: Stats, a: ServerEntry, b: ServerEntry, now: int)
    requires StatsKey(a) == StatsKey(b) && a.weight >= 1 && b.weight >= 1
    ensures ScoreOf(stats, a, now) - ScoreOf(stats, b, now) == 2000 / a.weight - 2000 / b.weight
  {
    hide StatsKey;
    WeightCosts(a.weight, Slot(stats, StatsKey(a)), now);
    WeightCosts(b.weight, Slot(stats, StatsKey(b)), now);
  }

  /** After every history a failed dial of a candidate costs it at least 700 at every later ranking. */
  lemma FailedDialCosts(reports: seq<Report>, server: ServerEntry, latency: int, now: int, later: int)
    requires NotAfter(reports, now) && now <= later
    ensures ScoreOf(Recorded(reports + [Report(StatsKey(server), latency, false, now)]), server, later)
         >= ScoreOf(Recorded(reports), server, later) + 700
  {
    FailureCosts(reports, Report(StatsKey(server), latency, false, now), server.weight, later);
  }

  lemma BestCandidate(stats: Stats, servers: seq<ServerEntry>, preferred: string, now: int) returns (index: nat)
    requires servers != []
    ensures var r := Ranked(stats, servers, preferred, now);
            && r != [] && r[0].variants != []
            && index < |servers| && r[0].variants[0] in Variants(servers[index], preferred)
            && (forall i, v :: 0 <= i < |servers| && v in Variants(servers[i], preferred) ==>
                  ScoreOf(stats, r[0].variants[0], now) <= ScoreOf(stats, v, now))
  {
    var order := RankedIsOrdered(stats, servers, preferred, now);
    index := order[0];
    var inner := GroupIsOrdered(stats, servers[index], preferred, now);
    forall i, v | 0 <= i < |servers| && v in Variants(servers[i], preferred)
      ensures ScoreOf(stats, Ranked(stats, servers, preferred, now)[0].variants[0], now) <= ScoreOf(stats, v, now)
    {
      FirstIsBest(stats, servers, preferred, now, i, v);
    }
  }

  // ----- The selector

  /** Takes the entries over in the caller's own array. */
  method NormalizeServerEntries(servers: array<ServerEntry>)
    modifies servers
    ensures forall i :: 0 <= i < servers.Length ==> servers[i] == Normalized(old(servers[i]))
  {
    var i := 0;
    while i < servers.Length
      invariant 0 <= i <= servers.Length
      invariant forall k :: 0 <= k < i ==> servers[k] == Normalized(old(servers[k]))
      invariant forall k :: i <= k < servers.Length ==> servers[k] == old(servers[k])
    {
      if servers[i].weight <= 0 {
        servers[i] := servers[i].(weight := 1);
      }
      servers[i] := servers[i].(transport := NormalizeStored(servers[i].transport));
      i := i + 1;
    }
  }

  class ServerHealthStats {
    var latencyEWMA: nat
    var successCount: nat
    var failureCount: nat
    var consecutiveFailures: nat
    var lastFailure: Option<int>
    var lastSuccess: Option<int>
    var cooldownUntil: Option<int>

    ghost function Contents(): Health
      reads this
    {
      Health(latencyEWMA, successCount, failureCount, consecutiveFailures, lastFailure, lastSuccess, cooldownUntil)
    }

    constructor ()
      ensures Contents() == Fresh()
    {
      latencyEWMA, successCount, failureCount, consecutiveFailures := 0, 0, 0, 0;
      lastFailure, lastSuccess, cooldownUntil := None, None, None;
    }

    method Update(latency: int, ok: bool, now: int)
      modifies this
      ensures Contents() == Updated(old(Contents()), latency, ok, now)
    {
      if ok {
        successCount := successCount + 1;
        consecutiveFailures := 0;
        lastSuccess := Some(now);
        cooldownUntil := None;
        if latency > 0 {
          if latencyEWMA == 0 {
            latencyEWMA := latency;
          } else {
            latencyEWMA := (latencyEWMA * 3 + latency) / 4;
          }
        }
        return;
      }
      failureCount := failureCount + 1;
      consecutiveFailures := consecutiveFailures + 1;
      lastFailure := Some(now);
      var cooldown := CooldownForFailures(consecutiveFailures);
      cooldownUntil := Some(now + cooldown);
    }
  }

  class ServerSelector {
    var servers: array<ServerEntry>
    var stats: map<string, ServerHealthStats>

    ghost predicate Valid()
      reads this, servers
    {
      && Weighted(servers[..])
      && forall i, j :: i in stats && j in stats && i != j ==> stats[i] != stats[j]
    }

    ghost function Contents(): Stats
      reads this, stats.Values
    {
      map key | key in stats :: stats[key].Contents()
    }

    constructor (servers: array<ServerEntry>)
      modifies servers
      ensures Valid() && this.servers == servers && Contents() == map[]
      ensures forall i :: 0 <= i < servers.Length ==> servers[i] == Normalized(old(servers[i]))
    {
      NormalizeServerEntries(servers);
      this.servers := servers;
      this.stats := map[];
    }

    /** The statistics survive an update of the servers. */
    method UpdateServers(servers: array<ServerEntry>)
      requires Valid()
      modifies this`servers, servers
      ensures Valid() && this.servers == servers && Contents() == old(Contents())
      ensures forall i :: 0 <= i < servers.Length ==> servers[i] == Normalized(old(servers[i]))
    {
      NormalizeServerEntries(servers);
      this.servers := servers;
    }

    /** The draw is a number below the sum of the weights. */
    method SelectServer(draw: nat) returns (chosen: Option<ServerEntry>, ghost index: nat)
      requires Valid() && (servers.Length > 0 ==> draw < Upto(servers[..], servers.Length))
      ensures servers.Length == 0 ==> chosen.None?
      ensures servers.Length > 0 ==>
                && index < servers.Length && Lands(servers[..], draw, index)
                && chosen == Some(servers[index])
    {
      index := 0;
      if servers.Length == 0 {
        return None, index;
      }
      var cumulative := 0;
      var i := 0;
      while i < servers.Length
        invariant 0 <= i <= servers.Length
        invariant cumulative == Upto(servers[..], i) <= draw
      {
        cumulative := cumulative + servers[i].weight;
        if draw < cumulative {
          return Some(servers[i]), i;
        }
        i := i + 1;
      }
      assert false;
    }

    method EnsureStats(server: ServerEntry) returns (entry: ServerHealthStats)
      requires Valid()
      modifies this`stats
      ensures Valid() && fresh(stats.Values - old(stats.Values))
      ensures StatsKey(server) in stats && stats[StatsKey(server)] == entry
      ensures forall k :: k in old(stats) ==> k in stats && stats[k] == old(stats)[k]
      ensures stats.Keys == old(stats).Keys + {StatsKey(server)}
      ensures StatsKey(server) !in old(stats) ==> fresh(entry) && entry.Contents() == Fresh()
    {
      var key := StatsKey(server);
      if key in stats {
        return stats[key];
      }
      entry := new ServerHealthStats();
      stats := stats[key := entry];
    }

    method ReportDialResult(server: ServerEntry, latency: int, ok: bool, now: int)
      requires Valid()
      modifies this`stats, stats.Values
      ensures Valid() && fresh(stats.Values - old(stats.Values))
      ensures Contents() == Record(old(Contents()), Report(StatsKey(server), latency, ok, now))
    {
      hide Updated, StatsKey;
      var entry := EnsureStats(server);
      entry.Update(latency, ok, now);
    }

    method CandidateScore(server: ServerEntry, now: int) returns (score: int)
      ensures score == ScoreOf(Contents(), server, now)
    {
      var weight := server.weight;
      if weight <= 0 {
        weight := 1;
      }
      score := 2000 / weight;
      var key := StatsKey(server);
      if key !in stats {
        return score + 250;
      }
      var entry := stats[key];
      if entry.latencyEWMA > 0 {
        score := score + entry.latencyEWMA / MILLISECOND;
      } else {
        score := score + 150;
      }
      score := score + entry.failureCount * 50;
      score := score + entry.consecutiveFailures * 750;
      if entry.cooldownUntil.Some? && now < entry.cooldownUntil.value {
        score := score + 5000 + (entry.cooldownUntil.value - now) / MILLISECOND;
      }
      if entry.successCount > entry.failureCount {
        score := score - (entry.successCount - entry.failureCount) * 25;
      }
    }

    // The candidates of one server, scored and sorted.
    method RankVariants(base: ServerEntry, preferred: string, now: int) returns (group: AttemptGroup, score: int)
      ensures group == Group(Contents(), base, preferred, now)
      ensures score == Best(Contents(), group, now)
    {
      var variants := BuildTransportVariants(base, preferred);
      var scored: seq<Key> := [];
      var k := 0;
      while k < |variants|
        invariant 0 <= k <= |variants|
        invariant |scored| == k
        invariant forall i :: 0 <= i < k ==> scored[i] == Key(ScoreOf(Contents(), variants[i], now), i)
      {
        var s := CandidateScore(variants[k], now);
        scored := scored + [Key(s, k)];
        k := k + 1;
      }
      assert scored == VariantKeys(Contents(), variants, now);
      var order := StableOrder(scored, |scored|);
      group := AttemptGroup(base, Arranged(variants, order));
      score := scored[order[0]].major;
    }

    // Ranks under a preference that is already a plain name.
    method RankAll(preferred: string, now: int) returns (result: seq<AttemptGroup>)
      ensures result == Ranked(Contents(), servers[..], preferred, now)
    {
      hide Group, Best, Sorted;
      ghost var health := Contents();
      var all := servers[..];
      var scored: seq<ScoredGroup> := [];
      var i := 0;
      while i < |all|
        invariant 0 <= i <= |all|
        invariant scored == ScoredUpto(health, all, preferred, now, i)
      {
        var group, score := RankVariants(all[i], preferred, now);
        scored := scored + [ScoredGroup(group, score)];
        i := i + 1;
      }
      result := Sorted(scored);
    }

    method RankServerGroups(preferredTransport: string, now: int) returns (result: seq<AttemptGroup>)
      ensures result == Ranked(Contents(), servers[..], preferredTransport, now)
    {
      SameScored(Contents(), servers[..], preferredTransport, now, servers.Length);
      result := RankAll(NormalizePreference(preferredTransport), now);
    }
  }

  // ----- The client's choice

  method ResolveAttemptGroups(selector: ServerSelector?, own: ServerEntry, preferred: string, now: int)
    returns (groups: seq<AttemptGroup>)
    ensures selector != null && selector.servers.Length > 0 ==>
              groups == Ranked(selector.Contents(), selector.servers[..], preferred, now)
    ensures selector == null || selector.servers.Length == 0 ==>
              groups == [AttemptGroup(own, Variants(own, preferred))]
  {
    if selector != null {
      groups := selector.RankServerGroups(preferred, now);
      if |groups| > 0 {
        return;
      }
    }
    var variants := BuildTransportVariants(own, preferred);
    groups := [AttemptGroup(own, variants)];
  }

  /** The client dials a candidate that no candidate of any configured server beats. */
  method ResolveServer(selector: ServerSelector?, own: ServerEntry, preferred: string, now: int)
    returns (server: ServerEntry, ghost index: nat)
    ensures selector != null && selector.servers.Length > 0 ==>
              && index < selector.servers.Length && server in Variants(selector.servers[index], preferred)
              && (forall i, v :: 0 <= i < selector.servers.Length && v in Variants(selector.servers[i], preferred) ==>
                    ScoreOf(selector.Contents(), server, now) <= ScoreOf(selector.Contents(), v, now))
    ensures selector == null || selector.servers.Length == 0 ==> server == Variants(own, preferred)[0]
  {
    hide Ranked, ScoreOf;
    var groups := ResolveAttemptGroups(selector, own, preferred, now);
    index := 0;
    if selector != null && selector.servers.Length > 0 {
      index := BestCandidate(selector.Contents(), selector.servers[..], preferred, now);
    }
    server := groups[0].variants[0];
  }
}
