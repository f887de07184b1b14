/**
 * `EvidenceEngine`: turns each step of a learning path into a
 * resume-ready project. Docker and Kubernetes have fixed projects; any
 * other skill gets a generic one named after it.
 */
module EvidenceEngine {
  import opened Wrappers
  import opened Strings

  /** A learning-path step as the engine reads it: the `"skill"` and
      `"estimated_weeks"` entries, either of which may be missing. */
  datatype PathStep = PathStep(skill: Option<string>, estimatedWeeks: Option<int>)

  /** `{"skill", "project", "deliverables", "estimated_weeks"}`. */
  datatype Evidence = Evidence(skill: string, project: string, deliverables: seq<string>, estimatedWeeks: int)

  /** The fixed Docker project. */
  function DockerEvidence(weeks: int): Evidence {
    Evidence("Docker", "Dockerize a FastAPI Application", ["Dockerfile", "docker-compose.yml", "README.md"], weeks)
  }

  /** The fixed Kubernetes project. */
  function KubernetesEvidence(weeks: int): Evidence {
    Evidence("Kubernetes", "Deploy a Service to Kubernetes", ["deployment.yaml", "service.yaml", "README.md"], weeks)
  }

  /** The evidence for one step: the skill defaults to "" and the weeks to
      1; the skill's lower-case form (not stripped) picks the template. */
  function EvidenceFor(step: PathStep): (e: Evidence)
    ensures e.estimatedWeeks == step.estimatedWeeks.GetOr(1)
    ensures Lower(step.skill.GetOr("")) == "docker" ==> e == DockerEvidence(e.estimatedWeeks)
    ensures Lower(step.skill.GetOr("")) == "kubernetes" ==> e == KubernetesEvidence(e.estimatedWeeks)
    ensures Lower(step.skill.GetOr("")) != "docker" && Lower(step.skill.GetOr("")) != "kubernetes" ==>
      && e.skill == step.skill.GetOr("")
      && e.project == "Build a practical project for " + e.skill
      && e.deliverables == ["README.md"]
  {
    var skill := step.skill.GetOr("");
    var weeks := step.estimatedWeeks.GetOr(1);
    if Lower(skill) == "docker" then DockerEvidence(weeks)
    else if Lower(skill) == "kubernetes" then KubernetesEvidence(weeks)
    else Evidence(skill, "Build a practical project for " + skill, ["README.md"], weeks)
  }

  /** Whatever the template, the evidence names the step's skill up to
      case and always includes a README. */
  lemma EvidenceNamesSkill(step: PathStep)
    ensures Lower(EvidenceFor(step).skill) == Lower(step.skill.GetOr(""))
    ensures "README.md" in EvidenceFor(step).deliverables
  {
    var e := EvidenceFor(step);
    var name := Lower(step.skill.GetOr(""));
    if name == "docker" {
      assert Lower("Docker") == "docker";
      assert e.deliverables[2] == "README.md";
    } else if name == "kubernetes" {
      assert Lower("Kubernetes") == "kubernetes";
      assert e.deliverables[2] == "README.md";
    } else {
      assert e.deliverables[0] == "README.md";
    }
  }

  /** The evidence for every step, in order. */
  function EvidenceList(path: seq<PathStep>): (es: seq<Evidence>)
    ensures |es| == |path|
  {
    seq(|path|, i requires 0 <= i < |path| => EvidenceFor(path[i]))
  }

  /** `generate(learning_path)`: one evidence entry per step, in order. */
  method Generate(learningPath: seq<PathStep>) returns (evidence: seq<Evidence>)
    ensures evidence == EvidenceList(learningPath)
    ensures learningPath == [] ==> evidence == []
  {
    evidence := [];
    for i := 0 to |learningPath|
      invariant |evidence| == i
      invariant forall j | 0 <= j < i :: evidence[j] == EvidenceFor(learningPath[j])
    {
      var step := learningPath[i];
      var skill := step.skill.GetOr("");
      var skillName := Lower(skill);
      var weeks := step.estimatedWeeks.GetOr(1);
      if skillName == "docker" {
        evidence := evidence + [DockerEvidence(weeks)];
      } else if skillName == "kubernetes" {
        evidence := evidence + [KubernetesEvidence(weeks)];
      } else {
        evidence := evidence + [Evidence(skill, "Build a practical project for " + skill, ["README.md"], weeks)];
      }
    }
  }

  /** The evidence list of a concatenation is the concatenation of the
      evidence lists: each step's evidence depends on that step alone. */
  lemma EvidenceListAppend(a: seq<PathStep>, b: seq<PathStep>)
    ensures EvidenceList(a + b) == EvidenceList(a) + EvidenceList(b)
  {
    var l, r := EvidenceList(a + b), EvidenceList(a) + EvidenceList(b);
    forall i | 0 <= i < |a + b| ensures l[i] == r[i] {
      if i < |a| {
        assert (a + b)[i] == a[i];
      } else {
        assert (a + b)[i] == b[i - |a|];
      }
    }
  }
}
