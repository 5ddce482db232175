# Usage meter display rule

A Dafny model of the `UsageMeter` widget of the cutbase editor marketplace
(`src/components/ui/usage-meter.tsx`). The widget shows how much of a metered
allowance a user has consumed under their subscription tier (free, pro or
featured) and, when the user is close to or at the limit and a higher tier
exists, invites them to upgrade.

The widget is a pure function of its properties, and so is the model
(`usage_meter.dfy`, module `UsageMeter`; `wrappers.dfy` holds the `Option`
type):

- `Limit` is `Bounded(n)` or `Unlimited` (the source's `null`); `Tier` has the
  three tiers; `Props` carries the metric name, the count, the limit, the tier
  and the optional `showUpgrade` flag (absent means `true`).
- `Measure` computes the four derivations `isUnlimited`, `percentage`,
  `isNearLimit`, `isAtLimit`. The percentage is computed over exact `real`s.
  A zero limit keeps the two outcomes the source's floating-point quotient
  gives it: a positive count over zero is +Infinity, which `Math.min` clamps to
  100, and zero over zero is NaN, which fails every comparison. These are the
  `Percent` and `NotANumber` cases of `Percentage`. Everything stays total:
  only the claims about the percentage's value require a positive limit.
- `ProgressColor`, `NextTier` and `ShouldShowUpgrade` are the three decisions
  made before rendering.
- `Render` maps the properties to a `MeterView`: the heading, the usage text,
  the progress bar (value and colour tag) if there is one, the two alerts, and
  the upgrade prompt with its destination, plan name and promised benefit.

The component does not guard against a zero limit. The model keeps what the
code does: a zero limit is always at limit, and near limit only when the count
is positive (`ZeroLimitIsReached`).

## Model

| member | source | states |
|---|---|---|
| `UsageMeter.Min` | src/components/ui/usage-meter.tsx:26 | `Math.min` returns one of its two arguments and is no greater than either |
| `UsageMeter.PercentageOf` | src/components/ui/usage-meter.tsx:26 | the percentage is 0 without a limit, always lies in [0, 100] when finite, is 100 for a positive count over a zero limit, and is NaN only for a zero count over a zero limit |
| `UsageMeter.Measure` | src/components/ui/usage-meter.tsx:25-28 | `isUnlimited` holds exactly for the unlimited sentinel, and then neither flag is raised |
| `UsageMeter.ProgressColor` | src/components/ui/usage-meter.tsx:30-34 | red exactly when at limit; green exactly when neither at nor near the limit |
| `UsageMeter.NextTier` | src/components/ui/usage-meter.tsx:36-40 | the successor is never free, is absent exactly for featured, and is otherwise one rank higher |
| `UsageMeter.UpgradesLeft` | src/components/ui/usage-meter.tsx:36-40 | at most two upgrades are open from any tier, none exactly when there is no next tier |
| `UsageMeter.ShouldShowUpgrade` | src/components/ui/usage-meter.tsx:43 | the prompt is wanted only when prompts are enabled, a next tier exists, the limit is bounded and usage is near or at it |
| `UsageMeter.PromptFor` | src/components/ui/usage-meter.tsx:95-97 | the prompt promises "unlimited" exactly for the featured destination and names the Pro plan exactly for the pro destination |
| `UsageMeter.Render` | src/components/ui/usage-meter.tsx:45-108 | the heading is the metric name; the "Unlimited" label and the absence of a bar go with the unlimited sentinel; a bounded limit shows the count and the limit as `current/limit`; the bar carries the percentage; the two alerts never both show; a prompt never offers the free tier |
| `UsageMeter.UnlimitedMeasuresNothing` | src/components/ui/usage-meter.tsx:25-28 | without a limit the percentage is 0 and both flags are false, whatever the count |
| `UsageMeter.PercentageIsClampedShare` | src/components/ui/usage-meter.tsx:26 | for a positive limit the percentage is in [0, 100], is 100 exactly when the count has reached the limit, and below that equals 100·current/limit |
| `UsageMeter.NearLimitByCrossMultiplication` | src/components/ui/usage-meter.tsx:26-27 | for a positive limit, near-limit holds exactly when current·100 ≥ 80·limit |
| `UsageMeter.AtLimitByRawCounts` | src/components/ui/usage-meter.tsx:28 | for every bounded limit, zero included, at-limit holds exactly when current ≥ limit |
| `UsageMeter.AtLimitImpliesNearLimit` | src/components/ui/usage-meter.tsx:26-28 | for a positive limit, at-limit implies near-limit |
| `UsageMeter.ZeroLimitIsReached` | src/components/ui/usage-meter.tsx:26-28 | a zero limit is always reached, and is near exactly when the count is positive |
| `UsageMeter.ColorPriority` | src/components/ui/usage-meter.tsx:30-34 | red exactly when at limit; yellow exactly when near but not at; green exactly when neither |
| `UsageMeter.BarColorByCounts` | src/components/ui/usage-meter.tsx:26-34 | for every bounded limit (a zero limit is always red) the rendered bar is red exactly when current ≥ limit, yellow exactly when below it but current·100 ≥ 80·limit, green exactly when current·100 < 80·limit |
| `UsageMeter.AdvanceClimbs` | src/components/ui/usage-meter.tsx:36-40 | each of the open upgrades from a tier exists, raises the rank by one per step, and never returns to free |
| `UsageMeter.AdvanceTerminates` | src/components/ui/usage-meter.tsx:36-40 | any number of upgrades beyond those open ends in no tier, so the succession terminates from every tier |
| `UsageMeter.AlertsAreExclusive` | src/components/ui/usage-meter.tsx:60-84 | the "reached" alert shows exactly when a bounded limit is reached, the "approaching" alert exactly when near but not reached; never both, neither without a limit |
| `UsageMeter.PromptShownExactly` | src/components/ui/usage-meter.tsx:42-43 | the prompt shows exactly when prompts are enabled, the limit is bounded, usage is near or at it and the tier is not featured; it offers the next tier |
| `UsageMeter.PromptHidden` | src/components/ui/usage-meter.tsx:43 | disabled prompts, no limit, or the featured tier each hide the prompt whatever the usage |
| `UsageMeter.ShowUpgradeDefaultsToTrue` | src/components/ui/usage-meter.tsx:23 | omitting `showUpgrade` renders the same as passing `true` |
| `UsageMeter.PromptCopyFollowsDestination` | src/components/ui/usage-meter.tsx:95-97 | a prompt to featured promises "unlimited" under the MyEdtr Verified name; a prompt to pro promises "increased limits" under the Pro name |
| `UsageMeter.PromptComesWithWarning` | src/components/ui/usage-meter.tsx:30-88 | a shown prompt comes with a bar that is not green and with exactly one of the two alerts |
| `UsageMeter.ScenarioFreeNearLimit` | src/components/ui/usage-meter.tsx:25-97 | 80 of 100 on free: yellow bar at 80, approaching alert, prompt to pro for increased limits |
| `UsageMeter.ScenarioProAtLimit` | src/components/ui/usage-meter.tsx:25-97 | 100 of 100 on pro: red bar at 100, reached alert, prompt to featured for unlimited use |

## Left out

- Markup, CSS class strings, the `className` property, and the `Progress`, `Alert`, `Button`, `Link` and icon components: these are presentation. The colours are the tags `Red`, `Yellow` and `Green`. The alerts and the prompt are flags and records.
- The text of the alerts and the prompt heading, which use `metricName.toLowerCase()`, and the formatting of `${current}/${limit}`: string presentation. The metric name is carried through unchanged and the count is kept as its two numbers.
- The prompt's link to `/pricing`: a constant navigation target, so `UpgradePrompt` does not carry it.
- Floating-point rounding of `(current / limit) * 100`: the model computes it exactly. The two non-finite zero-limit quotients are kept as described above.
- Negative or fractional counts and limits: `current` and the bound are `nat`, since the source does not check them.
- `src/types/subscription` is not part of this model. The model assumes the three tiers it names.
- `src/app/editor/[id]/page.tsx` (the editor profile page) is not part of this model.
