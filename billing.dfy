/** The quota and token arithmetic of chatbot/services/billing.py, with
    the default settings: 200 questions a day for a registered user, 20
    for an anonymous one, and token counts estimated at one token per
    four characters. */
module Billing {

  const RegisteredDailyQuota: int := 200
  const AnonLimitPerDay: int := 20

  /** The token counts of one exchange. */
  datatype Usage = Usage(promptTokens: int, completionTokens: int)
  {
    /** `Usage.total_tokens`. */
    function TotalTokens(): int
    {
      promptTokens + completionTokens
    }
  }

  /** The one fact about the user the quota depends on. */
  datatype User = User(isAuthenticated: bool)

  /** `math.ceil(n / 4)`: the least number of four-character blocks that
      covers `n` characters. */
  function CeilQuarter(n: nat): (r: nat)
    ensures 4 * r >= n
    ensures r > 0 ==> 4 * (r - 1) < n
  {
    (n + 3) / 4
  }

  /** `max(1, math.ceil(n / 4))`: the least positive `k` with `4 * k >= n`. */
  function EstimateTokens(n: nat): (r: nat)
    ensures r >= 1 && 4 * r >= n
    ensures forall k :: 1 <= k < r ==> 4 * k < n
  {
    if CeilQuarter(n) >= 1 then CeilQuarter(n) else 1
  }

  /** `estimate_usage_from_text(prompt, answer)`. */
  function EstimateUsageFromText(prompt: string, answer: string): (u: Usage)
    ensures u.promptTokens == EstimateTokens(|prompt|)
    ensures u.completionTokens == EstimateTokens(|answer|)
  {
    Usage(EstimateTokens(|prompt|), EstimateTokens(|answer|))
  }

  /** `BalanceService.get_daily_quota(user)`. */
  function DailyQuota(user: User): (r: int)
    ensures r > 0
    ensures user.isAuthenticated ==> r == RegisteredDailyQuota
    ensures !user.isAuthenticated ==> r == AnonLimitPerDay
  {
    if user.isAuthenticated then RegisteredDailyQuota else AnonLimitPerDay
  }

  /** `BalanceService.get_remaining_quota(user, used_today)`: never
      negative, never more than the quota once anything non-negative is
      used, exactly the difference while the quota lasts, and 0 once it is
      used up. */
  function RemainingQuota(user: User, usedToday: int): (r: int)
    ensures r >= 0
    ensures usedToday >= 0 ==> r <= DailyQuota(user)
    ensures usedToday <= DailyQuota(user) ==> r == DailyQuota(user) - usedToday
    ensures usedToday >= DailyQuota(user) ==> r == 0
  {
    var left := DailyQuota(user) - usedToday;
    if left > 0 then left else 0
  }

  /** Using more never leaves more. */
  lemma RemainingQuotaMonotone(user: User, u1: int, u2: int)
    requires u1 <= u2
    ensures RemainingQuota(user, u2) <= RemainingQuota(user, u1)
  {
  }

  /** Every estimate counts at least one token on each side, so at least two
      in total, and never fewer than a quarter of the characters. */
  lemma EstimateAtLeastTwo(prompt: string, answer: string)
    ensures var u := EstimateUsageFromText(prompt, answer);
      && u.TotalTokens() >= 2
      && 4 * u.TotalTokens() >= |prompt| + |answer|
  {
  }

  /** Four more characters cost exactly one more token once the text is
      non-empty. */
  lemma EstimateStep(n: nat)
    requires n >= 1
    ensures EstimateTokens(n + 4) == EstimateTokens(n) + 1
  {
  }
}
