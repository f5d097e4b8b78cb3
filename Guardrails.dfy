/** The agent's guardrails: the daily token budget, the sliding-window limit
    on LLM requests and the input-size check. The wall clock is a parameter
    of every operation that reads it. */
module Guardrails {
  import opened Common

  // ---------------------------------------------------------------
  // TokenUsage
  // ---------------------------------------------------------------

  datatype TokenUsage = TokenUsage(inputTokens: int, outputTokens: int)
  {
    /** total: both directions together. */
    function Total(): (r: int)
      ensures r - outputTokens == inputTokens
    {
      inputTokens + outputTokens
    }
  }

  // ---------------------------------------------------------------
  // DailyTokenTracker
  // ---------------------------------------------------------------

  /** The budget left: never negative. */
  function Remaining(limit: int, usage: int): (r: int)
    ensures r >= 0 && r >= limit - usage
    ensures usage <= limit ==> r == limit - usage
    ensures usage >= limit ==> r == 0
  {
    Max(0, limit - usage)
  }

  /** For a positive estimate, check_available holds exactly when spending
      it keeps the day's usage within the limit. */
  lemma AvailableMeansWithinLimit(limit: int, usage: int, estimate: int)
    requires estimate > 0
    ensures Remaining(limit, usage) >= estimate <==> usage + estimate <= limit
  {
    if usage + estimate <= limit {
      assert Remaining(limit, usage) == limit - usage;
    }
  }

  /** Recording tokens within the budget lowers what remains by exactly
      that many. */
  lemma RecordLowersRemaining(limit: int, usage: int, tokens: int)
    requires 0 <= tokens && usage + tokens <= limit
    ensures Remaining(limit, usage + tokens) == Remaining(limit, usage) - tokens
  {
    assert Remaining(limit, usage) == limit - usage;
  }

  /** The token-limit refusal. */
  datatype TokenLimitError = TokenLimitError(remaining: int, requested: int)

  class DailyTokenTracker {
    var dailyLimit: int
    var usageToday: int
    var resetTimestamp: real

    /** __post_init__: usage 0, reset at the start of the current UTC day. */
    constructor(dailyLimit: int, dayStart: real)
      ensures this.dailyLimit == dailyLimit && usageToday == 0 && resetTimestamp == dayStart
    {
      this.dailyLimit := dailyLimit;
      usageToday := 0;
      resetTimestamp := dayStart;
    }

    /** The usage that counts on the day starting at dayStart: a later day
        starts again from zero. */
    function UsageOn(dayStart: real): (u: int)
      reads this
      ensures dayStart > resetTimestamp ==> u == 0
      ensures dayStart <= resetTimestamp ==> u == usageToday
    {
      if dayStart > resetTimestamp then 0 else usageToday
    }

    /** _maybe_reset. */
    method MaybeReset(dayStart: real)
      modifies this
      ensures usageToday == old(UsageOn(dayStart))
      ensures resetTimestamp == (if dayStart > old(resetTimestamp) then dayStart else old(resetTimestamp))
      ensures dailyLimit == old(dailyLimit)
    {
      if dayStart > resetTimestamp {
        usageToday := 0;
        resetTimestamp := dayStart;
      }
    }

    /** remaining. */
    method GetRemaining(dayStart: real) returns (r: int)
      modifies this
      ensures usageToday == old(UsageOn(dayStart)) && dailyLimit == old(dailyLimit)
      ensures resetTimestamp == (if dayStart > old(resetTimestamp) then dayStart else old(resetTimestamp))
      ensures r == Remaining(dailyLimit, usageToday)
    {
      MaybeReset(dayStart);
      r := Max(0, dailyLimit - usageToday);
    }

    /** usage_percent; None stands for the ZeroDivisionError of a zero
        limit. */
    method UsagePercent(dayStart: real) returns (p: Option<real>)
      modifies this
      ensures usageToday == old(UsageOn(dayStart)) && dailyLimit == old(dailyLimit)
      ensures resetTimestamp == (if dayStart > old(resetTimestamp) then dayStart else old(resetTimestamp))
      ensures p.None? <==> dailyLimit == 0
      ensures p.Some? ==> p.value * (dailyLimit as real) == (usageToday as real) * 100.0
    {
      MaybeReset(dayStart);
      if dailyLimit == 0 {
        return None;
      }
      p := Some((usageToday as real) / (dailyLimit as real) * 100.0);
    }

    /** record_usage: adds exactly the given tokens to the day's usage. */
    method RecordUsage(tokens: int, dayStart: real)
      modifies this
      ensures usageToday == old(UsageOn(dayStart)) + tokens && dailyLimit == old(dailyLimit)
      ensures resetTimestamp == (if dayStart > old(resetTimestamp) then dayStart else old(resetTimestamp))
    {
      MaybeReset(dayStart);
      usageToday := usageToday + tokens;
    }

    /** check_available. */
    method CheckAvailable(estimate: int, dayStart: real) returns (ok: bool)
      modifies this
      ensures usageToday == old(UsageOn(dayStart)) && dailyLimit == old(dailyLimit)
      ensures resetTimestamp == (if dayStart > old(resetTimestamp) then dayStart else old(resetTimestamp))
      ensures ok <==> Remaining(dailyLimit, usageToday) >= estimate
    {
      var r := GetRemaining(dayStart);
      ok := r >= estimate;
    }

    /** enforce_limit: raises exactly when check_available is false. */
    method EnforceLimit(estimate: int, dayStart: real) returns (e: Option<TokenLimitError>)
      modifies this
      ensures usageToday == old(UsageOn(dayStart)) && dailyLimit == old(dailyLimit)
      ensures e.None? <==> Remaining(dailyLimit, usageToday) >= estimate
      ensures e.Some? ==> e.value == TokenLimitError(Remaining(dailyLimit, usageToday), estimate)
    {
      var ok := CheckAvailable(estimate, dayStart);
      if ok {
        return None;
      }
      var r := GetRemaining(dayStart);
      e := Some(TokenLimitError(r, estimate));
    }
  }

  // ---------------------------------------------------------------
  // LLMRateLimiter
  // ---------------------------------------------------------------

  /** The deque's maxlen. */
  const MaxTimestamps := 100
  /** The sliding window, in seconds. */
  const WindowSeconds: real := 60.0

  /** What _cleanup_old leaves: the timestamps from the first one that is
      not older than the cutoff. */
  function DropExpired(ts: seq<real>, cutoff: real): (r: seq<real>)
    ensures |r| <= |ts| && r == ts[|ts| - |r|..]
    ensures r == [] || r[0] >= cutoff
    ensures forall i :: 0 <= i < |ts| - |r| ==> ts[i] < cutoff
  {
    if ts != [] && ts[0] < cutoff then DropExpired(ts[1..], cutoff) else ts
  }

  predicate Sorted(ts: seq<real>)
  {
    forall i, j :: 0 <= i < j < |ts| ==> ts[i] <= ts[j]
  }

  /** With timestamps in time order, every kept timestamp is inside the
      window. */
  lemma {:induction false} SortedKeptAreRecent(ts: seq<real>, cutoff: real)
    requires Sorted(ts)
    ensures forall t :: t in DropExpired(ts, cutoff) ==> t >= cutoff
  {
    var r := DropExpired(ts, cutoff);
    if r != [] {
      forall t | t in r
        ensures t >= cutoff
      {
        var k :| 0 <= k < |r| && r[k] == t;
        assert r[k] == ts[|ts| - |r| + k] && r[0] == ts[|ts| - |r|];
      }
    }
  }

  /** deque(maxlen=100).append: the oldest entry falls out of a full deque. */
  function Pushed(ts: seq<real>, t: real): (r: seq<real>)
    requires |ts| <= MaxTimestamps
    ensures |r| <= MaxTimestamps && r != [] && r[|r| - 1] == t
    ensures |ts| < MaxTimestamps ==> r == ts + [t]
    ensures |ts| == MaxTimestamps ==> r == ts[1..] + [t]
  {
    if |ts| < MaxTimestamps then ts + [t] else ts[1..] + [t]
  }

  /** Appending the time of a later request keeps the deque in time order. */
  lemma PushedStaysSorted(ts: seq<real>, t: real)
    requires |ts| <= MaxTimestamps && Sorted(ts)
    requires forall i :: 0 <= i < |ts| ==> ts[i] <= t
    ensures Sorted(Pushed(ts, t))
  {
    var r := Pushed(ts, t);
    forall i, j | 0 <= i < j < |r|
      ensures r[i] <= r[j]
    {
      if |ts| == MaxTimestamps {
        assert r[i] == ts[i + 1];
        if j < |r| - 1 {
          assert r[j] == ts[j + 1];
        }
      }
    }
  }

  /** What enforce_limit reports. */
  datatype RateVerdict = Allowed | Limited(retryAfter: int) | NoTimestamps

  /** int(x): truncation toward zero. */
  function Trunc(x: real): (r: int)
    ensures x >= 0.0 ==> r == x.Floor
    ensures x < 0.0 ==> r == -((-x).Floor)
  {
    if x >= 0.0 then x.Floor else -((-x).Floor)
  }

  class LLMRateLimiter {
    const maxRequestsPerMinute: int
    var timestamps: seq<real>

    predicate Valid()
      reads this
    {
      |timestamps| <= MaxTimestamps
    }

    constructor(maxRequestsPerMinute: int)
      ensures Valid() && this.maxRequestsPerMinute == maxRequestsPerMinute && timestamps == []
    {
      this.maxRequestsPerMinute := maxRequestsPerMinute;
      timestamps := [];
    }

    /** _cleanup_old: pops expired timestamps from the left. */
    method CleanupOld(now: real)
      requires Valid()
      modifies this
      ensures Valid() && timestamps == DropExpired(old(timestamps), now - WindowSeconds)
    {
      var cutoff := now - WindowSeconds;
      while timestamps != [] && timestamps[0] < cutoff
        invariant |timestamps| <= MaxTimestamps
        invariant DropExpired(timestamps, cutoff) == DropExpired(old(timestamps), cutoff)
        decreases |timestamps|
      {
        timestamps := timestamps[1..];
      }
    }

    /** requests_in_window. */
    method RequestsInWindow(now: real) returns (n: int)
      requires Valid()
      modifies this
      ensures Valid() && timestamps == DropExpired(old(timestamps), now - WindowSeconds)
      ensures n == |timestamps|
    {
      CleanupOld(now);
      n := |timestamps|;
    }

    /** can_make_request: fewer requests in the window than the maximum. */
    method CanMakeRequest(now: real) returns (ok: bool)
      requires Valid()
      modifies this
      ensures Valid() && timestamps == DropExpired(old(timestamps), now - WindowSeconds)
      ensures ok <==> |timestamps| < maxRequestsPerMinute
    {
      var n := RequestsInWindow(now);
      ok := n < maxRequestsPerMinute;
    }

    /** record_request. */
    method RecordRequest(now: real)
      requires Valid()
      modifies this
      ensures Valid() && timestamps == Pushed(old(timestamps), now)
    {
      timestamps := Pushed(timestamps, now);
    }

    /** enforce_limit: refuses exactly when no request can be made, with a
        retry-after of int(60 - age of the oldest) + 1; with an empty deque
        (a limit of zero or less) reading the oldest entry fails. */
    method EnforceLimit(now: real) returns (v: RateVerdict)
      requires Valid()
      modifies this
      ensures Valid() && timestamps == DropExpired(old(timestamps), now - WindowSeconds)
      ensures v.Allowed? <==> |timestamps| < maxRequestsPerMinute
      ensures v.Limited? <==> |timestamps| >= maxRequestsPerMinute && timestamps != []
      ensures v.Limited? ==> v.retryAfter == Trunc(WindowSeconds - (now - timestamps[0])) + 1 && v.retryAfter >= 1
    {
      var ok := CanMakeRequest(now);
      if ok {
        return Allowed;
      }
      if timestamps == [] {
        return NoTimestamps;
      }
      var wait := WindowSeconds - (now - timestamps[0]);
      v := Limited(Trunc(wait) + 1);
    }
  }

  // ---------------------------------------------------------------
  // InputValidator
  // ---------------------------------------------------------------

  /** estimate_tokens: about four characters per token, plus one. */
  function EstimateTokens(text: string): (r: nat)
    ensures r >= 1 && 4 * (r - 1) <= |text| < 4 * r
  {
    |text| / 4 + 1
  }

  /** text[:k] with Python's reading of a negative bound (counted from the
      end). */
  function PrefixSlice(text: string, k: int): (r: string)
    ensures r <= text
    ensures 0 <= k ==> |r| == Min(k, |text|)
    ensures k < 0 ==> |r| == Max(0, |text| + k)
  {
    if k >= 0 then text[..Min(k, |text|)] else text[..Max(0, |text| + k)]
  }

  /** validate_input: text within the budget comes back unchanged; longer
      text is cut to max_input_tokens * 4 characters. */
  function ValidateInput(text: string, maxInputTokens: int): (r: string)
    ensures r <= text
    ensures EstimateTokens(text) <= maxInputTokens ==> r == text
    ensures EstimateTokens(text) > maxInputTokens && maxInputTokens >= 0 ==> |r| == 4 * maxInputTokens
  {
    if EstimateTokens(text) <= maxInputTokens then text else PrefixSlice(text, maxInputTokens * 4)
  }

  /** A cut text is at most one token over the budget (the estimate's +1),
      so validating it again changes nothing. */
  lemma ValidateInputSettles(text: string, maxInputTokens: int)
    requires maxInputTokens >= 0
    ensures EstimateTokens(ValidateInput(text, maxInputTokens)) <= maxInputTokens + 1
    ensures ValidateInput(ValidateInput(text, maxInputTokens), maxInputTokens) == ValidateInput(text, maxInputTokens)
  {
    var r := ValidateInput(text, maxInputTokens);
    if EstimateTokens(text) > maxInputTokens {
      assert |r| == 4 * maxInputTokens;
      assert r[..Min(4 * maxInputTokens, |r|)] == r;
    }
  }
}
