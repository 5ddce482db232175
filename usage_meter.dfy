/** The display-state rule of the `UsageMeter` widget (src/components/ui/usage-meter.tsx).

    The widget is a pure function of its properties: how much of a metric has
    been used, the limit of the caller's subscription tier (or no limit at all),
    the tier itself and whether an upgrade prompt may be shown. From these it
    derives a consumption percentage, a near-limit and an at-limit flag, the
    colour of the progress bar, the alerts it shows and, when there is a higher
    tier to move to, an upgrade prompt. Markup and styling are not modelled:
    every visible decision is an abstract tag in `MeterView`. */
module UsageMeter {
  import opened Wrappers

  // ---------------------------------------------------------------------------
  // Inputs
  // ---------------------------------------------------------------------------

  /** The three subscription tiers, in increasing order. */
  datatype Tier = Free | Pro | Featured

  /** `limit: number | null`, where `null` means unlimited. */
  datatype Limit = Bounded(n: nat) | Unlimited

  /** The widget's properties. `className` is a styling token and is left out;
      `showUpgrade` is optional and defaults to `true`. */
  datatype Props = Props(
    metricName: string,
    current: nat,
    limit: Limit,
    tier: Tier,
    showUpgrade: Option<bool>)

  /** Position of a tier in the order free < pro < featured. */
  function Rank(t: Tier): (r: nat)
    ensures r <= 2
  {
    match t
    case Free => 0
    case Pro => 1
    case Featured => 2
  }

  // ---------------------------------------------------------------------------
  // Derived usage state
  // ---------------------------------------------------------------------------

  /** The value of `Math.min((current / limit) * 100, 100)`, computed exactly.
      The only non-finite quotients the source can meet are those of a zero
      limit: a positive count over zero is +Infinity, which the clamp turns
      into 100, and zero over zero is NaN, which `Math.min` passes through. */
  datatype Percentage = Percent(value: real) | NotANumber {

    /** `percentage >= threshold`; every comparison with NaN is false. */
    predicate AtLeast(threshold: real) {
      Percent? && value >= threshold
    }
  }

  /** The four derivations the component computes before rendering. */
  datatype Usage = Usage(
    isUnlimited: bool,
    percentage: Percentage,
    isNearLimit: bool,
    isAtLimit: bool)

  /** `Math.min(a, b)` on finite numbers. */
  function Min(a: real, b: real): (m: real)
    ensures m <= a && m <= b && (m == a || m == b)
  {
    if a <= b then a else b
  }

  /** The near-limit threshold, in percent. */
  const NearLimitPercent: real := 80.0

  /** The share of the limit that `current` uses, clamped to 100. */
  function PercentageOf(current: nat, limit: Limit): (p: Percentage)
    ensures limit.Unlimited? ==> p == Percent(0.0)
    ensures p.NotANumber? <==> limit == Bounded(0) && current == 0
    ensures p.Percent? ==> 0.0 <= p.value <= 100.0
    ensures limit == Bounded(0) && current > 0 ==> p == Percent(100.0)
  {
    match limit
    case Unlimited => Percent(0.0)
    case Bounded(n) =>
      if n == 0 then
        if current == 0 then NotANumber else Percent(100.0)
      else
        Percent(Min(current as real / n as real * 100.0, 100.0))
  }

  /** Lines 25-28 of the component: `isUnlimited`, `percentage`,
      `isNearLimit` and `isAtLimit`. */
  function Measure(current: nat, limit: Limit): (u: Usage)
    ensures u.isUnlimited <==> limit.Unlimited?
    ensures u.isUnlimited ==> !u.isNearLimit && !u.isAtLimit
  {
    var isUnlimited := limit.Unlimited?;
    var percentage := PercentageOf(current, limit);
    Usage(
      isUnlimited,
      percentage,
      !isUnlimited && percentage.AtLeast(NearLimitPercent),
      !isUnlimited && current >= limit.n)
  }

  // ---------------------------------------------------------------------------
  // Colour, tier succession and the upgrade decision
  // ---------------------------------------------------------------------------

  /** Abstract tags for "bg-red-500", "bg-yellow-500" and "bg-green-500". */
  datatype Color = Red | Yellow | Green

  /** `getProgressColor`: the at-limit check comes first, then near-limit. */
  function ProgressColor(u: Usage): (c: Color)
    ensures c == Red <==> u.isAtLimit
    ensures c == Green <==> !u.isAtLimit && !u.isNearLimit
  {
    if u.isAtLimit then Red
    else if u.isNearLimit then Yellow
    else Green
  }

  /** `getNextTier`: the tier an upgrade leads to, or none from the top tier. */
  function NextTier(t: Tier): (r: Option<Tier>)
    ensures r != Some(Free)
    ensures r.None? <==> t == Featured
    ensures r.Some? ==> Rank(r.value) == Rank(t) + 1
  {
    match t
    case Free => Some(Pro)
    case Pro => Some(Featured)
    case Featured => None
  }

  /** `shouldShowUpgrade` (line 43): a next tier, used there as a truthy
      value, is the last conjunct. */
  function ShouldShowUpgrade(showUpgrade: bool, u: Usage, next: Option<Tier>): (show: bool)
    ensures show ==> showUpgrade && next.Some?
    ensures show ==> !u.isUnlimited && (u.isNearLimit || u.isAtLimit)
  {
    showUpgrade && !u.isUnlimited && (u.isNearLimit || u.isAtLimit) && next.Some?
  }

  // ---------------------------------------------------------------------------
  // Rendered output
  // ---------------------------------------------------------------------------

  /** The right-hand text of the heading line: the word "Unlimited", or
      `${current}/${limit}`. */
  datatype UsageText = UnlimitedLabel | Count(current: nat, limit: nat)

  /** The progress bar: its value and its colour. */
  datatype ProgressBar = ProgressBar(value: Percentage, color: Color)

  /** The plan named in the prompt: "Pro", or "MyEdtr Verified". */
  datatype PlanName = ProPlan | VerifiedPlan

  /** What the prompt promises: "unlimited", or "increased limits". */
  datatype Benefit = UnlimitedUsage | IncreasedLimits

  /** The upgrade prompt; its button always leads to the pricing page. */
  datatype UpgradePrompt = UpgradePrompt(destination: Tier, plan: PlanName, benefit: Benefit)

  /** Everything the component decides to show. */
  datatype MeterView = MeterView(
    heading: string,
    usageText: UsageText,
    bar: Option<ProgressBar>,
    atLimitAlert: bool,
    nearLimitAlert: bool,
    prompt: Option<UpgradePrompt>)

  /** The prompt's copy for a destination tier (lines 95-97). */
  function PromptFor(destination: Tier): (p: UpgradePrompt)
    ensures p.destination == destination
    ensures p.benefit == UnlimitedUsage <==> destination == Featured
    ensures p.plan == ProPlan <==> destination == Pro
  {
    UpgradePrompt(
      destination,
      if destination == Pro then ProPlan else VerifiedPlan,
      if destination == Featured then UnlimitedUsage else IncreasedLimits)
  }

  /** The whole component: derivations, then the markup's decisions. */
  function Render(p: Props): (v: MeterView)
    ensures v.heading == p.metricName
    ensures v.usageText == UnlimitedLabel <==> p.limit.Unlimited?
    ensures p.limit.Bounded? ==> v.usageText == Count(p.current, p.limit.n)
    ensures v.bar.Some? <==> p.limit.Bounded?
    ensures v.bar.Some? ==> v.bar.value.value == PercentageOf(p.current, p.limit)
    ensures !(v.atLimitAlert && v.nearLimitAlert)
    ensures v.prompt.Some? ==> v.prompt.value.destination != Free
  {
    var u := Measure(p.current, p.limit);
    var next := NextTier(p.tier);
    var show := ShouldShowUpgrade(p.showUpgrade.GetOr(true), u, next);
    MeterView(
      p.metricName,
      if u.isUnlimited then UnlimitedLabel else Count(p.current, p.limit.n),
      if u.isUnlimited then None else Some(ProgressBar(u.percentage, ProgressColor(u))),
      !u.isUnlimited && u.isAtLimit,
      !u.isUnlimited && u.isNearLimit && !u.isAtLimit,
      if show then Some(PromptFor(next.value)) else None)
  }

  // ---------------------------------------------------------------------------
  // The derived usage state
  // ---------------------------------------------------------------------------

  /** With no limit, nothing is consumed and neither flag is raised,
      whatever the count. */
  lemma UnlimitedMeasuresNothing(current: nat)
    ensures Measure(current, Unlimited) == Usage(true, Percent(0.0), false, false)
  {
  }

  /** For a positive limit the percentage is finite, lies in [0, 100], is 100
      exactly when the count has reached the limit, and below that is the
      exact share `100 * current / n`. */
  lemma PercentageIsClampedShare(current: nat, n: nat)
    requires n > 0
    ensures PercentageOf(current, Bounded(n)).Percent?
    ensures var v := PercentageOf(current, Bounded(n)).value;
      && 0.0 <= v <= 100.0
      && (v == 100.0 <==> current >= n)
      && (current < n ==> v * n as real == 100.0 * current as real)
  {
  }

  /** For a positive limit the near-limit flag is the integer comparison
      `current * 100 >= 80 * n`. */
  lemma NearLimitByCrossMultiplication(current: nat, n: nat)
    requires n > 0
    ensures Measure(current, Bounded(n)).isNearLimit <==> current * 100 >= 80 * n
  {
    PercentageIsClampedShare(current, n);
    var v := PercentageOf(current, Bounded(n)).value;
    if current < n {
      // v * n == 100 * current, so v - 80 and 100 * current - 80 * n have
      // the same sign
      assert (v - 80.0) * n as real == 100.0 * current as real - 80.0 * n as real;
      PositiveFactorKeepsSign(v - 80.0, n as real);
      assert (current * 100 >= 80 * n) <==> (100.0 * current as real - 80.0 * n as real >= 0.0);
    }
  }

  /** The at-limit flag compares the raw counts, for every bounded limit,
      zero included. */
  lemma AtLimitByRawCounts(current: nat, n: nat)
    ensures Measure(current, Bounded(n)).isAtLimit <==> current >= n
  {
  }

  /** For a positive limit, reaching the limit implies being near it. */
  lemma AtLimitImpliesNearLimit(current: nat, n: nat)
    requires n > 0
    ensures Measure(current, Bounded(n)).isAtLimit ==> Measure(current, Bounded(n)).isNearLimit
  {
  }

  /** A zero limit is always reached; it counts as near only when the
      quotient is +Infinity, since NaN fails the comparison with 80. */
  lemma ZeroLimitIsReached(current: nat)
    ensures Measure(current, Bounded(0)).isAtLimit
    ensures Measure(current, Bounded(0)).isNearLimit <==> current > 0
  {
  }

  /** The colour follows the priority red, then yellow, then green. */
  lemma ColorPriority(u: Usage)
    ensures ProgressColor(u) == Red <==> u.isAtLimit
    ensures ProgressColor(u) == Yellow <==> !u.isAtLimit && u.isNearLimit
    ensures ProgressColor(u) == Green <==> !u.isAtLimit && !u.isNearLimit
  {
  }

  /** For every bounded limit the rendered bar's colour follows the raw
      counts: red once the limit is reached, yellow from 80 percent of it,
      green below that. A zero limit is always red. */
  lemma BarColorByCounts(p: Props)
    requires p.limit.Bounded?
    ensures Render(p).bar.Some?
    ensures Render(p).bar.value.color == Red <==> p.current >= p.limit.n
    ensures Render(p).bar.value.color == Yellow <==>
      p.current < p.limit.n && p.current * 100 >= 80 * p.limit.n
    ensures Render(p).bar.value.color == Green <==> p.current * 100 < 80 * p.limit.n
  {
    if p.limit.n > 0 {
      NearLimitByCrossMultiplication(p.current, p.limit.n);
    }
  }

  // ---------------------------------------------------------------------------
  // Tier succession
  // ---------------------------------------------------------------------------

  /** `k` successive upgrades from `o`; once there is no next tier there is
      nothing further. */
  function Advance(o: Option<Tier>, k: nat): Option<Tier>
    decreases k
  {
    if k == 0 then o
    else match o
      case None => None
      case Some(t) => Advance(NextTier(t), k - 1)
  }

  /** The number of upgrades still open from a tier: at most two. */
  function UpgradesLeft(t: Tier): (k: nat)
    ensures k <= 2
    ensures k == 0 <==> NextTier(t).None?
  {
    2 - Rank(t)
  }

  /** Each of the first `UpgradesLeft(t)` upgrades reaches a tier one rank
      higher, so none of them leads back to the free tier. */
  lemma {:induction false} AdvanceClimbs(t: Tier, k: nat)
    requires k <= UpgradesLeft(t)
    ensures Advance(Some(t), k).Some?
    ensures Rank(Advance(Some(t), k).value) == Rank(t) + k
    ensures k > 0 ==> Advance(Some(t), k) != Some(Free)
    decreases k
  {
    if k > 0 {
      var u := NextTier(t).value;
      AdvanceClimbs(u, k - 1);
    }
  }

  /** Any number of upgrades beyond `UpgradesLeft(t)` ends in no tier: the
      succession terminates, from every tier, after at most two upgrades. */
  lemma {:induction false} AdvanceTerminates(t: Tier, k: nat)
    requires k > UpgradesLeft(t)
    ensures Advance(Some(t), k) == None
    decreases k
  {
    match NextTier(t)
    case None =>
    case Some(u) =>
      AdvanceTerminates(u, k - 1);
  }

  // ---------------------------------------------------------------------------
  // Alerts and the upgrade prompt
  // ---------------------------------------------------------------------------

  /** The "reached" alert shows exactly when a bounded limit has been
      reached, the "approaching" alert exactly when it is near but not
      reached: never both, and neither without a limit. */
  lemma AlertsAreExclusive(p: Props)
    ensures Render(p).atLimitAlert <==> p.limit.Bounded? && p.current >= p.limit.n
    ensures Render(p).nearLimitAlert <==>
      p.limit.Bounded? && Measure(p.current, p.limit).isNearLimit && p.current < p.limit.n
    ensures !(Render(p).atLimitAlert && Render(p).nearLimitAlert)
    ensures p.limit.Unlimited? ==> !Render(p).atLimitAlert && !Render(p).nearLimitAlert
  {
  }

  /** The prompt shows exactly when prompts are enabled (the default), the
      limit is bounded, usage is near or at it, and the tier is not the top
      one; it then offers the next tier. */
  lemma PromptShownExactly(p: Props)
    ensures var u := Measure(p.current, p.limit);
      Render(p).prompt.Some? <==>
        p.showUpgrade != Some(false) && p.limit.Bounded? && (u.isNearLimit || u.isAtLimit) && p.tier != Featured
    ensures Render(p).prompt.Some? ==> Some(Render(p).prompt.value.destination) == NextTier(p.tier)
  {
  }

  /** Disabling prompts, having no limit or being on the top tier each hide
      the prompt, whatever the usage. */
  lemma PromptHidden(p: Props)
    requires p.showUpgrade == Some(false) || p.limit.Unlimited? || p.tier == Featured
    ensures Render(p).prompt.None?
  {
    PromptShownExactly(p);
  }

  /** Leaving `showUpgrade` out renders as if it were `true`. */
  lemma ShowUpgradeDefaultsToTrue(p: Props)
    ensures Render(p.(showUpgrade := None)) == Render(p.(showUpgrade := Some(true)))
  {
  }

  /** A shown prompt promises "unlimited" when it leads to the featured tier
      and "increased limits" when it leads to pro, and names the plan it
      leads to. */
  lemma PromptCopyFollowsDestination(p: Props)
    requires Render(p).prompt.Some?
    ensures var pr := Render(p).prompt.value;
      && (pr.destination == Featured ==> pr.benefit == UnlimitedUsage && pr.plan == VerifiedPlan)
      && (pr.destination == Pro ==> pr.benefit == IncreasedLimits && pr.plan == ProPlan)
  {
  }

  /** A shown prompt always comes with a bar that is not green and with
      exactly one of the two alerts. */
  lemma PromptComesWithWarning(p: Props)
    requires Render(p).prompt.Some?
    ensures Render(p).bar.Some? && Render(p).bar.value.color != Green
    ensures Render(p).atLimitAlert != Render(p).nearLimitAlert
  {
  }

  // ---------------------------------------------------------------------------
  // Worked scenarios
  // ---------------------------------------------------------------------------

  /** 80 of 100 on the free tier: near but not at the limit, yellow, with a
      prompt offering pro for increased limits. */
  lemma ScenarioFreeNearLimit()
    ensures var v := Render(Props("Projects", 80, Bounded(100), Free, None));
      && v.bar == Some(ProgressBar(Percent(80.0), Yellow))
      && v.nearLimitAlert && !v.atLimitAlert
      && v.prompt == Some(UpgradePrompt(Pro, ProPlan, IncreasedLimits))
  {
  }

  /** 100 of 100 on the pro tier: at the limit, red, with a prompt offering
      the featured tier for unlimited use. */
  lemma ScenarioProAtLimit()
    ensures var v := Render(Props("Projects", 100, Bounded(100), Pro, None));
      && v.bar == Some(ProgressBar(Percent(100.0), Red))
      && v.atLimitAlert && !v.nearLimitAlert
      && v.prompt == Some(UpgradePrompt(Featured, VerifiedPlan, UnlimitedUsage))
  {
  }

  /** Multiplying by a positive number keeps the sign. */
  lemma PositiveFactorKeepsSign(x: real, y: real)
    requires y > 0.0
    ensures x >= 0.0 <==> x * y >= 0.0
  {
  }
}
