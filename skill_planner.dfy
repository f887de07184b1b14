/**
 * `SkillPlanner`: orders the missing skills so that prerequisites come
 * first (`TopoSort.TopologicalSort`) and attaches a time estimate in days
 * and weeks to every step. The prerequisite edges come from a graph
 * database when one is configured and answers with at least one edge, and
 * from the built-in catalog otherwise.
 */
module SkillPlanner {
  import opened Strings
  import opened TopoSort
  import SeedSkills
  import opened PlannerEstimates

  /** What the graph database answers to the prerequisite query on one
      call: it raised an exception, or it returned these edges. */
  datatype Answer = Failed | Fetched(edges: seq<Edge>)

  /** `_get_prerequisite_edges()`: the database's edges when there is a
      client and it returned a non-empty list; the catalog's edges when
      there is no client, the query failed or it returned nothing. */
  function PrerequisiteEdges(hasClient: bool, answer: Answer): (edges: seq<Edge>)
    ensures hasClient && answer.Fetched? && answer.edges != [] ==> edges == answer.edges
    ensures !hasClient || answer.Failed? || answer.edges == [] ==> edges == SeedSkills.GetPrerequisiteEdges()
  {
    if hasClient && answer.Fetched? && answer.edges != [] then answer.edges
    else SeedSkills.GetPrerequisiteEdges()
  }

  /** The planner always has some prerequisite edges to sort with. */
  lemma EdgesNeverEmpty(hasClient: bool, answer: Answer)
    ensures |PrerequisiteEdges(hasClient, answer)| > 0
  {
    SeedSkills.PrerequisiteEndpoints();
  }

  /** The learning path for `skills` over `edges`: one step per skill of
      the topological order, in that order. */
  ghost function LearningPath(estimates: map<string, int>, skills: seq<string>, edges: seq<Edge>): seq<Step> {
    Steps(estimates, TopoSpec(skills, edges))
  }

  class Planner {
    /** Whether a graph database client was given. */
    const hasClient: bool
    /** `get_skill_estimates()`, read once when the planner is made. */
    const skillEstimates: map<string, int>

    /** `SkillPlanner(neo4j_client=None)`: no client unless one is given. */
    constructor(hasClient: bool := false)
      ensures this.hasClient == hasClient
      ensures skillEstimates == SeedSkills.GetSkillEstimates()
    {
      this.hasClient := hasClient;
      skillEstimates := SeedSkills.GetSkillEstimates();
    }

    /** `plan_learning_path(missing_skills)`, where `answer` stands for
        what the database answers to this call's query (consulted only
        when there is a client). */
    method PlanLearningPath(missingSkills: seq<string>, answer: Answer) returns (path: seq<Step>)
      ensures missingSkills == [] ==> path == []
      ensures path == LearningPath(skillEstimates, missingSkills, PrerequisiteEdges(hasClient, answer))
    {
      if missingSkills == [] {
        return [];
      }
      var edges := PrerequisiteEdges(hasClient, answer);
      var ordered := TopologicalSort(missingSkills, edges);
      path := AttachEstimates(skillEstimates, ordered);
    }

    /** `plan(missing_skills)`: the same path as `PlanLearningPath`. */
    method Plan(missingSkills: seq<string>, answer: Answer) returns (path: seq<Step>)
      ensures path == LearningPath(skillEstimates, missingSkills, PrerequisiteEdges(hasClient, answer))
    {
      path := PlanLearningPath(missingSkills, answer);
    }
  }

  /** An empty list of missing skills gives an empty path, then with any
      edges, because there is nothing to order. */
  lemma LearningPathEmpty(estimates: map<string, int>, edges: seq<Edge>)
    ensures LearningPath(estimates, [], edges) == []
  {
    TopoSpecKeys([], edges);
  }

  /** The path has one step per distinct key of the input, each under an
      input spelling, and no key twice. */
  lemma LearningPathSkills(estimates: map<string, int>, skills: seq<string>, edges: seq<Edge>)
    ensures var path := LearningPath(estimates, skills, edges);
      && |path| == |Keys(skills)|
      && (forall a | 0 <= a < |path| :: path[a].skill in skills)
      && (forall a, b | 0 <= a < b < |path| :: Key(path[a].skill) != Key(path[b].skill))
  {
    TopoSpecKeys(skills, edges);
    TopoSpecSpellings(skills, edges);
  }

  /** Every input skill is planned, possibly under another spelling of
      its key: nothing is dropped, even when the edges form a cycle. */
  lemma LearningPathCovers(estimates: map<string, int>, skills: seq<string>, edges: seq<Edge>, i: int) returns (j: int)
    requires 0 <= i < |skills|
    ensures 0 <= j < |LearningPath(estimates, skills, edges)|
    ensures Key(LearningPath(estimates, skills, edges)[j].skill) == Key(skills[i])
  {
    j := TopoSpecCovers(skills, edges, i);
  }

  /** When the edges between planned skills climb some rank (the graph
      restricted to the input is acyclic, whatever the other edges do), a
      planned skill comes after each of its planned prerequisites. The
      catalog's edges all climb `SeedSkills.KeyLevel`
      (`SeedSkills.PrerequisitesClimbLevels`). */
  lemma PathRespectsPrerequisites(estimates: map<string, int>, skills: seq<string>, edges: seq<Edge>,
                                  rank: string -> int, k: int, a: int, b: int)
    requires forall e | 0 <= e < |edges| && Key(edges[e].0) in CaseMap(skills) && Key(edges[e].1) in CaseMap(skills) ::
      rank(Key(edges[e].0)) < rank(Key(edges[e].1))
    requires 0 <= k < |edges|
    requires var path := LearningPath(estimates, skills, edges);
      && 0 <= a < |path| && Key(path[a].skill) == Key(edges[k].0)
      && 0 <= b < |path| && Key(path[b].skill) == Key(edges[k].1)
    ensures a < b
  {
    TopoSpecRespectsEdges(skills, edges, rank, k, a, b);
  }
}
