/**
 * `SkillVectorPipeline.run`: skill-gap analysis, then a learning path for
 * the missing skills, then evidence projects for that path, with a
 * learning priority derived from the match score.
 *
 * The analyser is a collaborator whose result is an input here.
 */
module Pipeline {
  import opened Wrappers
  import SeedSkills
  import opened PlannerEstimates
  import SkillPlanner
  import EvidenceEngine

  /** What the analyser returns: the match score, the missing skills, and
      a priority of its own that the pipeline does not read. */
  datatype GapResult = GapResult(matchScore: real, missingSkills: seq<string>, priority: string)

  datatype Priority = High | Medium | Low

  /** The five entries of the pipeline's result. */
  datatype PipelineResult = PipelineResult(
    matchScore: real,
    learningPriority: Priority,
    missingSkills: seq<string>,
    learningPath: seq<Step>,
    evidence: seq<EvidenceEngine.Evidence>)

  /** The three-tier priority: High below 50, Medium below 75, Low from 75. */
  function PriorityOf(score: real): (p: Priority)
    ensures p == High <==> score < 50.0
    ensures p == Medium <==> 50.0 <= score < 75.0
    ensures p == Low <==> score >= 75.0
  {
    if score < 50.0 then High
    else if score < 75.0 then Medium
    else Low
  }

  /** A lower score never gives a lower priority. */
  lemma PriorityMonotone(s: real, t: real)
    requires s <= t
    ensures PriorityOf(t) == High ==> PriorityOf(s) == High
    ensures PriorityOf(s) == Low ==> PriorityOf(t) == Low
  {
  }

  /** A planned step as the evidence engine reads it: its `get` of the
      skill and of the weeks finds the step's own values, not the defaults. */
  function AsPathStep(s: Step): (p: EvidenceEngine.PathStep)
    ensures p.skill.Some? && p.skill.GetOr("") == s.skill
    ensures p.estimatedWeeks.Some? && p.estimatedWeeks.GetOr(1) == s.estimatedWeeks
  {
    EvidenceEngine.PathStep(Some(s.skill), Some(s.estimatedWeeks))
  }

  /** The planned path as the evidence engine reads it, step by step. */
  function AsPathSteps(path: seq<Step>): (ps: seq<EvidenceEngine.PathStep>)
    ensures |ps| == |path|
    ensures forall i | 0 <= i < |path| :: ps[i].skill.GetOr("") == path[i].skill
    ensures forall i | 0 <= i < |path| :: ps[i].estimatedWeeks.GetOr(1) == path[i].estimatedWeeks
  {
    seq(|path|, i requires 0 <= i < |path| => AsPathStep(path[i]))
  }

  /** `run(resume, target_job)` given the analyser's result `gap` for that
      pair. The pipeline's planner has no graph database client, so the
      learning path is planned over the catalog's edges. */
  method Run(gap: GapResult) returns (result: PipelineResult)
    ensures result.matchScore == gap.matchScore
    ensures result.learningPriority == PriorityOf(gap.matchScore)
    ensures result.missingSkills == gap.missingSkills
    ensures result.learningPath
      == SkillPlanner.LearningPath(SeedSkills.GetSkillEstimates(), gap.missingSkills, SeedSkills.GetPrerequisiteEdges())
    ensures result.evidence == EvidenceEngine.EvidenceList(AsPathSteps(result.learningPath))
  {
    var planner := new SkillPlanner.Planner();
    var matchScore := gap.matchScore;
    var missingSkills := gap.missingSkills;
    var learningPriority;
    if matchScore < 50.0 {
      learningPriority := High;
    } else if matchScore < 75.0 {
      learningPriority := Medium;
    } else {
      learningPriority := Low;
    }
    var learningPath := planner.Plan(missingSkills, SkillPlanner.Failed);
    var evidence := EvidenceEngine.Generate(AsPathSteps(learningPath));
    result := PipelineResult(matchScore, learningPriority, missingSkills, learningPath, evidence);
  }

  /** One evidence entry per step of the learning path, naming its skill
      up to case. */
  lemma EvidencePerStep(path: seq<Step>, i: int)
    requires 0 <= i < |path|
    ensures |EvidenceEngine.EvidenceList(AsPathSteps(path))| == |path|
    ensures Strings.Lower(EvidenceEngine.EvidenceList(AsPathSteps(path))[i].skill) == Strings.Lower(path[i].skill)
    ensures EvidenceEngine.EvidenceList(AsPathSteps(path))[i].estimatedWeeks == path[i].estimatedWeeks
  {
    EvidenceEngine.EvidenceNamesSkill(AsPathStep(path[i]));
  }
}
