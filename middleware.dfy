/**
 * `Middleware.CheckUsageLimit`: the monthly usage gate of the API.
 * Anonymous callers and pro users pass; every other user is limited to
 * `FreeTierLimit` analyses a month. The user store's monthly count is an
 * input.
 */
module Middleware {
  import opened Wrappers
  import opened Strings

  /** `FREE_TIER_LIMIT`. */
  const FreeTierLimit := 3

  /** The entries of the user dictionary the gate reads: `"id"`, and
      `"plan_tier"`, which may be missing. */
  datatype User = User(id: string, planTier: Option<string>)

  const UsageHead := "Free tier limit reached ("
  const UsageMiddle := " analyses per month). "
  const UpgradeOffer := "Upgrade to Pro for unlimited analyses."

  /** The blocked message for a monthly limit of `limit` analyses. */
  function LimitMessage(limit: int): string {
    UsageHead + IntToString(limit) + UsageMiddle + UpgradeOffer
  }

  /** `check_usage_limit(user)`, where `used` is what
      `count_monthly_analyses(user["id"])` returns (read only for non-pro
      users). A missing tier counts as "free". */
  function CheckUsageLimit(user: Option<User>, used: int): (r: (bool, string))
    ensures user.None? ==> r == (true, "")
    ensures user.Some? && user.value.planTier.GetOr("free") == "pro" ==> r == (true, "")
    ensures user.Some? && user.value.planTier.GetOr("free") != "pro" ==> (r.0 <==> used < FreeTierLimit)
    ensures r.0 ==> r.1 == ""
    ensures !r.0 ==> r.1 == LimitMessage(FreeTierLimit)
  {
    if user.None? then (true, "")
    else
      var planTier := user.value.planTier.GetOr("free");
      if planTier == "pro" then (true, "")
      else if used >= FreeTierLimit then (false, LimitMessage(FreeTierLimit))
      else (true, "")
  }

  /** Using more never unblocks a user, and a blocked user is never anonymous
      or pro. */
  lemma UsageMonotone(user: Option<User>, used: int, more: int)
    requires used <= more
    ensures !CheckUsageLimit(user, used).0 ==> !CheckUsageLimit(user, more).0
    ensures !CheckUsageLimit(user, used).0 ==> user.Some? && user.value.planTier != Some("pro")
  {
  }

  /** The blocked message names the limit and offers the upgrade. */
  lemma LimitMessageNamesUpgrade(limit: int)
    ensures Contains(LimitMessage(limit), IntToString(limit))
    ensures Contains(LimitMessage(limit), UpgradeOffer)
  {
    var n := IntToString(limit);
    ContainsMiddle(UsageHead, n, UsageMiddle + UpgradeOffer);
    assert UsageHead + n + (UsageMiddle + UpgradeOffer) == LimitMessage(limit);
    ContainsMiddle(UsageHead + n + UsageMiddle, UpgradeOffer, []);
    assert UsageHead + n + UsageMiddle + UpgradeOffer + [] == LimitMessage(limit);
  }
}
