/**
 * The estimate part of `SkillPlanner.plan_learning_path`: each ordered
 * skill gets the days its key has in the estimates (14 when unknown) and
 * the number of weeks `max(1, round(days / 7))`.
 */
module PlannerEstimates {
  import opened Strings
  import SeedSkills

  /** One step of a learning path: `{"skill", "estimated_weeks", "estimated_days"}`. */
  datatype Step = Step(skill: string, estimatedWeeks: int, estimatedDays: int)

  /** Days assumed for a skill the estimates do not know. */
  const DefaultDays := 14

  /** Python's `round(days / 7)` for an integer `days`. The quotient is
      never exactly halfway between two integers (that would need
      `2 * days == 7 * odd`), so rounding half to even never comes into
      play and the result is the integer nearest to `days / 7`. */
  function Round7(days: int): (q: int)
    ensures -3 <= days - 7 * q <= 3
  {
    (2 * days + 7) / 14
  }

  /** The nearest integer is unique: any `q` within 3 days of `7 * q`
      is `Round7(days)`. */
  lemma Round7Unique(days: int, q: int)
    requires -3 <= days - 7 * q <= 3
    ensures q == Round7(days)
  {
    var p := Round7(days);
    assert -6 <= 7 * (p - q) <= 6;
  }

  /** `max(1, round(days / 7))`: at least one week, and otherwise the
      whole number of weeks nearest to `days`. */
  function Weeks(days: int): (w: int)
    ensures w >= 1
    ensures w > 1 ==> -3 <= days - 7 * w <= 3
    ensures w == 1 <==> days <= 10
  {
    var q := Round7(days);
    if q < 1 then 1 else q
  }

  /** `estimates.get(skill.lower().strip(), 14)`. */
  function EstimatedDays(estimates: map<string, int>, skill: string): (d: int)
    ensures Key(skill) in estimates ==> d == estimates[Key(skill)]
    ensures Key(skill) !in estimates ==> d == DefaultDays
  {
    if Key(skill) in estimates then estimates[Key(skill)] else DefaultDays
  }

  /** The step built for one ordered skill. */
  function StepFor(estimates: map<string, int>, skill: string): Step {
    var days := EstimatedDays(estimates, skill);
    Step(skill, Weeks(days), days)
  }

  /** The steps for the ordered skills, one each, in order. */
  function Steps(estimates: map<string, int>, ordered: seq<string>): (path: seq<Step>)
    ensures |path| == |ordered|
    ensures forall i | 0 <= i < |path| :: path[i].skill == ordered[i]
  {
    seq(|ordered|, i requires 0 <= i < |ordered| => StepFor(estimates, ordered[i]))
  }

  /** The loop of `plan_learning_path` that appends one step per ordered skill. */
  method AttachEstimates(estimates: map<string, int>, ordered: seq<string>) returns (path: seq<Step>)
    ensures path == Steps(estimates, ordered)
  {
    path := [];
    for i := 0 to |ordered|
      invariant |path| == i
      invariant forall j | 0 <= j < i :: path[j] == StepFor(estimates, ordered[j])
    {
      var skill := ordered[i];
      var days := EstimatedDays(estimates, skill);
      var weeks := Weeks(days);
      path := path + [Step(skill, weeks, days)];
    }
  }

  /** Every step keeps its skill, carries the estimate of the skill's key
      or 14 days, and at least one week derived from those days. */
  lemma StepsEstimates(estimates: map<string, int>, ordered: seq<string>, a: int)
    requires 0 <= a < |ordered|
    ensures var s := Steps(estimates, ordered)[a];
      && s.skill == ordered[a]
      && (Key(s.skill) in estimates ==> s.estimatedDays == estimates[Key(s.skill)])
      && (Key(s.skill) !in estimates ==> s.estimatedDays == DefaultDays)
      && s.estimatedWeeks == Weeks(s.estimatedDays) && s.estimatedWeeks >= 1
  {
  }

  /** Two spellings of the same skill get the same estimate. */
  lemma CasingVariantsAgree(estimates: map<string, int>, a: string, b: string)
    requires Key(a) == Key(b)
    ensures StepFor(estimates, a).estimatedDays == StepFor(estimates, b).estimatedDays
    ensures StepFor(estimates, a).estimatedWeeks == StepFor(estimates, b).estimatedWeeks
  {
  }

  /** With the catalog's estimates, a catalog skill gets its catalog days,
      whatever its casing or surrounding whitespace. */
  lemma CatalogEstimate(skill: string, i: int)
    requires 0 <= i < |SeedSkills.Skills| && Key(skill) == Key(SeedSkills.Skills[i].name)
    ensures EstimatedDays(SeedSkills.GetSkillEstimates(), skill) == SeedSkills.Skills[i].estimatedDays > 0
  {
    SeedSkills.CatalogLowerNames();
    SeedSkills.SkillEstimatesOfCatalog();
    SeedSkills.CatalogDaysPositive();
    assert SeedSkills.CatalogKeys[i] in SeedSkills.CatalogKeys;
  }
}
