/** Per-domain user-agent rotation (scraper/user_agent.py). Each domain keeps
    the index of its current agent, a failure count per agent index and the
    index of the last success; the manager's table of those records is a map
    reassigned by its methods. */
module UserAgent {
  import opened Common

  /** UserAgentState: current_index, failures, last_success_index. */
  datatype AgentState = AgentState(currentIndex: int, failures: map<int, nat>, lastSuccessIndex: Option<int>)

  /** A fresh UserAgentState, as the defaultdict creates it. */
  const FreshState := AgentState(0, map[], None)

  /** After this many failures with one agent the domain switches agent. */
  const FailureThreshold: nat := 3

  /** failures.get(i, 0). */
  function FailuresOf(failures: map<int, nat>, i: int): nat
  {
    if i in failures then failures[i] else 0
  }

  /** The index in [0, n) with the fewest failures, the lowest such index on
      ties (the first element after Python's stable sort by count). */
  function LeastFailed(failures: map<int, nat>, n: nat): (best: nat)
    requires n >= 1
    ensures best < n
    ensures forall i :: 0 <= i < n ==> FailuresOf(failures, best) <= FailuresOf(failures, i)
    ensures forall i :: 0 <= i < best ==> FailuresOf(failures, i) > FailuresOf(failures, best)
  {
    if n == 1 then 0
    else
      var b := LeastFailed(failures, n - 1);
      if FailuresOf(failures, n - 1) < FailuresOf(failures, b) then n - 1 else b
  }

  class UserAgentManager {
    const userAgents: seq<string>
    var domainState: map<string, AgentState>

    /** Every recorded index points into the agent list. */
    ghost predicate Valid()
      reads this
    {
      userAgents != []
      && forall d :: d in domainState ==> 0 <= domainState[d].currentIndex < |userAgents|
    }

    /** An empty agent list falls back to the default list. */
    constructor(agents: seq<string>, defaults: seq<string>)
      requires defaults != []
      ensures Valid() && domainState == map[]
      ensures userAgents == if agents == [] then defaults else agents
    {
      userAgents := if agents == [] then defaults else agents;
      domainState := map[];
    }

    /** The defaultdict lookup: a missing domain gets a fresh state. */
    function StateOf(domain: string): (s: AgentState)
      reads this
      requires Valid()
      ensures 0 <= s.currentIndex < |userAgents|
    {
      if domain in domainState then domainState[domain] else FreshState
    }

    /** get_user_agent: with a domain, the agent at the domain's index (the
        lookup creates the domain's state); without one, a random pick, here
        the parameter `pick`. */
    method GetUserAgent(domain: string, pick: nat) returns (agent: string)
      requires Valid()
      modifies this
      ensures Valid()
      ensures domain == [] ==> agent == userAgents[pick % |userAgents|] && domainState == old(domainState)
      ensures domain != [] ==> domainState == old(domainState)[domain := old(StateOf(domain))]
      ensures domain != [] ==> agent == userAgents[StateOf(domain).currentIndex % |userAgents|]
    {
      if domain == [] {
        return userAgents[pick % |userAgents|];
      }
      var state := StateOf(domain);
      domainState := domainState[domain := state];
      agent := userAgents[state.currentIndex % |userAgents|];
    }

    /** rotate: the next index modulo the number of agents. */
    method Rotate(domain: string) returns (agent: string)
      requires Valid()
      modifies this
      ensures Valid()
      ensures domain in domainState
      ensures domainState[domain].currentIndex == (old(StateOf(domain)).currentIndex + 1) % |userAgents|
      ensures domainState[domain].failures == old(StateOf(domain)).failures
      ensures domainState[domain].lastSuccessIndex == old(StateOf(domain)).lastSuccessIndex
      ensures agent == userAgents[domainState[domain].currentIndex]
      ensures |userAgents| >= 2 ==> domainState[domain].currentIndex != old(StateOf(domain)).currentIndex
      ensures forall d :: d != domain && d in old(domainState) ==> d in domainState && domainState[d] == old(domainState[d])
      ensures domainState.Keys == old(domainState).Keys + {domain}
    {
      var state := StateOf(domain);
      var next := (state.currentIndex + 1) % |userAgents|;
      domainState := domainState[domain := state.(currentIndex := next)];
      agent := userAgents[next];
    }

    /** report_success: remembers the index and zeroes its failure count, but
        only when a count was recorded for it. */
    method ReportSuccess(domain: string)
      requires Valid()
      modifies this
      ensures Valid()
      ensures domain in domainState
      ensures var s := old(StateOf(domain));
              domainState[domain] == AgentState(
                s.currentIndex,
                if s.currentIndex in s.failures then s.failures[s.currentIndex := 0] else s.failures,
                Some(s.currentIndex))
      ensures forall d :: d != domain && d in old(domainState) ==> d in domainState && domainState[d] == old(domainState[d])
      ensures domainState.Keys == old(domainState).Keys + {domain}
    {
      var state := StateOf(domain);
      var failures := state.failures;
      if state.currentIndex in failures {
        failures := failures[state.currentIndex := 0];
      }
      domainState := domainState[domain := AgentState(state.currentIndex, failures, Some(state.currentIndex))];
    }

    /** report_failure: counts one more failure for the current index; at the
        threshold the domain moves to the least-failed agent and returns it. */
    method ReportFailure(domain: string) returns (agent: Option<string>)
      requires Valid()
      modifies this
      ensures Valid()
      ensures domain in domainState
      ensures var s := old(StateOf(domain));
              domainState[domain].failures == s.failures[s.currentIndex := FailuresOf(s.failures, s.currentIndex) + 1]
      ensures var s := old(StateOf(domain));
              domainState[domain].lastSuccessIndex == s.lastSuccessIndex
      ensures var s := old(StateOf(domain));
              agent.Some? <==> FailuresOf(s.failures, s.currentIndex) + 1 >= FailureThreshold
      ensures agent.None? ==> domainState[domain].currentIndex == old(StateOf(domain)).currentIndex
      ensures agent.Some? ==> (domainState[domain].currentIndex == LeastFailed(domainState[domain].failures, |userAgents|)
              && agent.value == userAgents[domainState[domain].currentIndex])
      ensures forall d :: d != domain && d in old(domainState) ==> d in domainState && domainState[d] == old(domainState[d])
      ensures domainState.Keys == old(domainState).Keys + {domain}
    {
      var state := StateOf(domain);
      var current := FailuresOf(state.failures, state.currentIndex) + 1;
      var failures := state.failures[state.currentIndex := current];
      if current >= FailureThreshold {
        var best := LeastFailed(failures, |userAgents|);
        domainState := domainState[domain := AgentState(best, failures, state.lastSuccessIndex)];
        agent := Some(userAgents[best]);
      } else {
        domainState := domainState[domain := AgentState(state.currentIndex, failures, state.lastSuccessIndex)];
        agent := None;
      }
    }

    /** reset: a (non-empty) domain forgets only its own state; without a
        domain every state is forgotten. */
    method Reset(domain: string)
      requires Valid()
      modifies this
      ensures Valid()
      ensures domain != [] ==> domainState == old(domainState) - {domain}
      ensures domain == [] ==> domainState == map[]
    {
      if domain != [] {
        if domain in domainState {
          domainState := domainState - {domain};
        }
      } else {
        domainState := map[];
      }
    }
  }
}
