/**
 * Request counters and success rates for the running service (backend/config/stats.py). The
 * clock reading is a parameter.
 */
module Stats {
  import opened Numeric

  /** The agents with a counter of their own. */
  const KnownAgents: seq<string> := ["harvest", "market", "spoilage", "preservation", "chat", "voice"]

  const KnownAgentSet: set<string> := set a | a in KnownAgents

  /** The sum of the counters of `agents` (a missing key counts 0). */
  function AgentSum(agents: seq<string>, byAgent: map<string, nat>): (n: nat) {
    if agents == [] then 0
    else AgentSum(agents[..|agents| - 1], byAgent)
         + (if agents[|agents| - 1] in byAgent then byAgent[agents[|agents| - 1]] else 0)
  }

  /** Adding one to the counter of `agent` adds one to the sum exactly when `agent` is listed. */
  lemma {:induction false} AgentSumIncrement(agents: seq<string>, byAgent: map<string, nat>, agent: string)
    requires agent in byAgent
    requires forall i, j :: 0 <= i < j < |agents| ==> agents[i] != agents[j]
    ensures AgentSum(agents, byAgent[agent := byAgent[agent] + 1])
         == AgentSum(agents, byAgent) + (if agent in agents then 1 else 0)
  {
    if agents != [] {
      var init := agents[..|agents| - 1];
      AgentSumIncrement(init, byAgent, agent);
      assert agent in agents <==> agent in init || agent == agents[|agents| - 1];
      assert agent == agents[|agents| - 1] ==> agent !in init;
    }
  }

  /** The counters agree: every request succeeded or failed, cache hits and per-agent requests
      are among all requests, and exactly the known agents have a counter. */
  predicate ConsistentCounts(total: nat, success: nat, error: nat, cacheHit: nat, byAgent: map<string, nat>) {
    && success + error == total
    && cacheHit <= total
    && byAgent.Keys == KnownAgentSet
    && AgentSum(KnownAgents, byAgent) <= total
  }

  /** One more request, counted as `record` counts it, keeps the counters consistent. */
  lemma RecordKeepsConsistent(
    total: nat, success: nat, error: nat, cacheHit: nat, byAgent: map<string, nat>,
    agent: string, ok: bool, cached: bool)
    requires ConsistentCounts(total, success, error, cacheHit, byAgent)
    ensures ConsistentCounts(
      total + 1,
      success + (if ok then 1 else 0),
      error + (if ok then 0 else 1),
      cacheHit + (if cached then 1 else 0),
      if agent in byAgent then byAgent[agent := byAgent[agent] + 1] else byAgent)
  {
    if agent in byAgent {
      KnownAgentsDistinct();
      AgentSumIncrement(KnownAgents, byAgent, agent);
      assert agent in KnownAgents;
      assert byAgent[agent := byAgent[agent] + 1].Keys == byAgent.Keys;
    }
  }

  /** The dictionary `get_summary` returns. */
  datatype Summary = Summary(
    uptimeSeconds: int,
    uptimeMinutes: real,
    total: nat,
    success: nat,
    error: nat,
    cacheHit: nat,
    byAgent: map<string, nat>,
    successRate: real,
    cacheHitRate: real)

  /** A percentage of `total`, rounded to one decimal, with an empty total read as one. */
  function RatePct(count: nat, total: nat): (r: real)
    ensures total == 0 && count == 0 ==> r == 0.0
    ensures count <= total ==> 0.0 <= r <= 100.0
    ensures total > 0 ==> -0.05 < r - count as real / total as real * 100.0 <= 0.05
  {
    var denominator := if total > 1 then total else 1;
    var exact := count as real / denominator as real * 100.0;
    RoundError(exact, 1);
    assert count <= total ==> 0.0 <= RoundTo(exact, 1) <= 100.0 by {
      if count <= total {
        DivMonotone(count as real, denominator as real, denominator as real);
        RoundNonNegative(exact, 1);
        RoundMonotone(exact, 100.0, 1);
        RoundOfInt(100, 1);
      }
    }
    assert total == 0 && count == 0 ==> RoundTo(exact, 1) == 0.0 by {
      if count == 0 {
        assert exact == 0.0;
        RoundOfInt(0, 1);
      }
    }
    RoundTo(exact, 1)
  }

  class RequestStats {
    var startedAt: real
    var total: nat
    var success: nat
    var error: nat
    var cacheHit: nat
    var byAgent: map<string, nat>

    /** What every sequence of `Record` calls keeps. */
    ghost predicate Valid()
      reads this
    {
      ConsistentCounts(total, success, error, cacheHit, byAgent)
    }

    /** All counters at zero, the clock started at `now`. */
    constructor(now: real)
      ensures Valid()
      ensures startedAt == now && total == 0 && success == 0 && error == 0 && cacheHit == 0
      ensures byAgent == map a | a in KnownAgents :: 0
    {
      startedAt := now;
      total, success, error, cacheHit := 0, 0, 0, 0;
      var zeros := map a | a in KnownAgents :: 0;
      ZeroSum(KnownAgents, zeros);
      byAgent := zeros;
    }

    /**
     * `record`: one more request; one more success or error; one more cache hit if it was
     * served from the cache; one more for the agent if it is a known one.
     */
    method Record(agent: string, ok: bool, cached: bool)
      modifies this
      ensures total == old(total) + 1
      ensures success == old(success) + (if ok then 1 else 0)
      ensures error == old(error) + (if ok then 0 else 1)
      ensures cacheHit == old(cacheHit) + (if cached then 1 else 0)
      ensures byAgent == if agent in old(byAgent) then old(byAgent)[agent := old(byAgent)[agent] + 1]
                         else old(byAgent)
      ensures startedAt == old(startedAt)
      ensures old(Valid()) ==> Valid()
    {
      if ConsistentCounts(total, success, error, cacheHit, byAgent) {
        RecordKeepsConsistent(total, success, error, cacheHit, byAgent, agent, ok, cached);
      }
      total := total + 1;
      if ok {
        success := success + 1;
      } else {
        error := error + 1;
      }
      if cached {
        cacheHit := cacheHit + 1;
      }
      if agent in byAgent {
        byAgent := byAgent[agent := byAgent[agent] + 1];
      }
    }

    /** `get_summary` at clock reading `now`. */
    function GetSummary(now: real): (s: Summary)
      reads this
      ensures s.total == total && s.success == success && s.error == error
      ensures s.cacheHit == cacheHit && s.byAgent == byAgent
      ensures now >= startedAt ==> s.uptimeSeconds as real <= now - startedAt < s.uptimeSeconds as real + 1.0
      // the minutes are the whole-second uptime over 60, to one decimal
      ensures -0.05 < s.uptimeMinutes - s.uptimeSeconds as real / 60.0 <= 0.05
      ensures s.successRate == RatePct(success, total) && s.cacheHitRate == RatePct(cacheHit, total)
      // with the counters consistent, both rates are percentages and nothing served is 0 %
      ensures Valid() ==> 0.0 <= s.successRate <= 100.0 && 0.0 <= s.cacheHitRate <= 100.0
      ensures Valid() && total == 0 ==> s.successRate == 0.0 && s.cacheHitRate == 0.0
    {
      var uptime := Trunc(now - startedAt);
      RoundError(uptime as real / 60.0, 1);
      Summary(uptime, RoundTo(uptime as real / 60.0, 1), total, success, error, cacheHit, byAgent,
              RatePct(success, total), RatePct(cacheHit, total))
    }
  }

  /** No agent is listed twice (their names even start with different letters). */
  lemma KnownAgentsDistinct()
    ensures forall i, j :: 0 <= i < j < |KnownAgents| ==> KnownAgents[i] != KnownAgents[j]
  {
    var initials := "hmspcv";
    assert forall i :: 0 <= i < |KnownAgents| ==> KnownAgents[i][0] == initials[i];
  }

  lemma {:induction false} ZeroSum(agents: seq<string>, byAgent: map<string, nat>)
    requires forall a :: a in agents ==> a in byAgent && byAgent[a] == 0
    ensures AgentSum(agents, byAgent) == 0
  {
    if agents != [] {
      ZeroSum(agents[..|agents| - 1], byAgent);
    }
  }

  /** Every request counted under an agent was counted in the total, so the agents' counters
      never add up to more than the total. */
  lemma AgentsWithinTotal(s: RequestStats)
    requires s.Valid()
    ensures forall a :: a in s.byAgent ==> s.byAgent[a] <= s.total
  {
    forall a | a in s.byAgent ensures s.byAgent[a] <= s.total {
      AgentSumBounds(KnownAgents, s.byAgent, a);
    }
  }

  lemma {:induction false} AgentSumBounds(agents: seq<string>, byAgent: map<string, nat>, a: string)
    requires a in agents && a in byAgent
    ensures byAgent[a] <= AgentSum(agents, byAgent)
  {
    var last := agents[|agents| - 1];
    if a != last {
      AgentSumBounds(agents[..|agents| - 1], byAgent, a);
    }
  }
}
