/**
 * `RubricEngine`: an assessment rubric per missing skill (weighted
 * criteria, each with three level descriptions, a scoring guide and 100
 * points) and a self-assessment checklist drawn from the criteria's
 * "Excellent" descriptions.
 */
module Rubric {
  import opened Wrappers
  import opened Strings
  import opened Tables

  /** The `levels` of a criterion: its three descriptions are fields, so
      every criterion has all three. */
  datatype Levels = Levels(excellent: string, good: string, needsWork: string)

  datatype Criterion = Criterion(name: string, weight: int, levels: Levels)

  /** One band of the scoring guide: its level, point range and description. */
  datatype Band = Band(level: string, range: string, description: string)

  /** `{"skill", "criteria", "scoring", "total_points"}`. */
  datatype Rubric = Rubric(skill: string, criteria: seq<Criterion>, scoring: seq<Band>, totalPoints: int)

  /** `{"item", "category"}`. */
  datatype CheckItem = CheckItem(item: string, category: string)

  // The catalog's rubrics. The first "Excellent" description of each is
  // written as its first word joined to the rest, so that its opening
  // letter is at hand for `OpensWithCapital`; the text is unchanged.

  const PythonCriteria: seq<Criterion> := [
    Criterion("Code Quality", 25, Levels(
      "Clean, " + "idiomatic Python following PEP 8. Uses type hints, meaningful variable names, and appropriate data structures.",
      "Readable code with minor style inconsistencies. Some type hints.",
      "Functional but hard to read. No type hints or documentation.")),
    Criterion("Testing", 25, Levels(
      "Comprehensive test suite with unit and integration tests. Edge cases covered. Uses pytest fixtures and parametrize.",
      "Tests for main functionality. Some edge cases covered.",
      "Few or no tests. No edge case coverage.")),
    Criterion("Architecture", 25, Levels(
      "Well-structured with clear separation of concerns. Uses appropriate design patterns. Easy to extend.",
      "Reasonable structure with some modularity.",
      "Monolithic code with mixed concerns.")),
    Criterion("Documentation", 25, Levels(
      "Clear README with setup instructions, usage examples, and architecture overview. Docstrings on public APIs.",
      "README with basic setup steps. Some docstrings.",
      "Minimal or no documentation."))
  ]

  const DockerCriteria: seq<Criterion> := [
    Criterion("Dockerfile Quality", 30, Levels(
      "Multi-stage " + "build, minimal image size, non-root user, proper layer caching, .dockerignore configured.",
      "Working Dockerfile with reasonable layer ordering.",
      "Large image, no caching optimization, runs as root.")),
    Criterion("Compose Setup", 25, Levels(
      "Services properly isolated, health checks, named volumes, networks configured, environment variables externalized.",
      "Working compose file with multiple services.",
      "Hardcoded values, no health checks.")),
    Criterion("Security", 25, Levels(
      "Non-root user, secrets management, minimal base image, no sensitive data in image layers.",
      "Some security considerations addressed.",
      "Runs as root, secrets in Dockerfile.")),
    Criterion("Documentation", 20, Levels(
      "README with build/run instructions, architecture diagram, environment variable documentation.",
      "Basic build and run instructions.",
      "No documentation."))
  ]

  const KubernetesCriteria: seq<Criterion> := [
    Criterion("Manifest Quality", 30, Levels(
      "Proper " + "resource limits, liveness/readiness probes, pod disruption budgets, security contexts.",
      "Working manifests with health checks.",
      "Minimal manifests without health checks or limits.")),
    Criterion("Scaling & Resilience", 25, Levels(
      "HPA configured, pod anti-affinity, rolling update strategy, resource requests/limits properly tuned.",
      "Basic HPA or replica count.",
      "Single replica, no scaling consideration.")),
    Criterion("Configuration Management", 25, Levels(
      "ConfigMaps and Secrets properly used, Helm chart or Kustomize for environment management.",
      "ConfigMaps used for basic configuration.",
      "Hardcoded configuration values.")),
    Criterion("Networking", 20, Levels(
      "Ingress configured, NetworkPolicies defined, service mesh considerations.",
      "Services and Ingress configured.",
      "Only ClusterIP services."))
  ]

  const CiCdCriteria: seq<Criterion> := [
    Criterion("Pipeline Design", 30, Levels(
      "Multi-stage " + "pipeline with lint, test, build, deploy stages. Proper parallelization and caching.",
      "Pipeline with test and build stages.",
      "Single-stage or manual deployment.")),
    Criterion("Testing Integration", 25, Levels(
      "Unit, integration, and e2e tests. Coverage reports. Fail-fast on test failures.",
      "Automated tests run in pipeline.",
      "No tests in pipeline.")),
    Criterion("Security", 25, Levels(
      "Secrets in vault/encrypted, dependency scanning, container image scanning, SAST.",
      "Secrets stored in CI variables.",
      "Secrets hardcoded or in plain text.")),
    Criterion("Deployment Strategy", 20, Levels(
      "Blue-green or canary deployment, rollback capability, environment promotion pipeline.",
      "Automated deployment to one environment.",
      "Manual deployment steps."))
  ]

  const RestApisCriteria: seq<Criterion> := [
    Criterion("API Design", 30, Levels(
      "RESTful " + "conventions followed, proper status codes, versioning, HATEOAS links, pagination.",
      "Proper HTTP methods and status codes.",
      "Inconsistent patterns, wrong HTTP methods.")),
    Criterion("Validation & Error Handling", 25, Levels(
      "Request validation, consistent error format, proper error codes, input sanitization.",
      "Basic validation and error responses.",
      "No validation, generic error messages.")),
    Criterion("Authentication & Authorization", 25, Levels(
      "JWT or OAuth2, role-based access control, rate limiting, CORS properly configured.",
      "Basic authentication implemented.",
      "No authentication.")),
    Criterion("Documentation", 20, Levels(
      "OpenAPI/Swagger docs, example requests/responses, Postman collection.",
      "README with endpoint documentation.",
      "No API documentation."))
  ]

  const MicroservicesCriteria: seq<Criterion> := [
    Criterion("Service Design", 30, Levels(
      "Clear " + "bounded contexts, well-defined APIs between services, single responsibility per service.",
      "Logical service separation with defined interfaces.",
      "Distributed monolith with tight coupling.")),
    Criterion("Communication Patterns", 25, Levels(
      "Async messaging for events, sync for queries. Circuit breakers, retries, timeouts.",
      "Mix of sync and async communication.",
      "Only synchronous HTTP calls.")),
    Criterion("Data Management", 25, Levels(
      "Database per service, saga pattern for transactions, eventual consistency handled.",
      "Separate databases with some coordination.",
      "Shared database across services.")),
    Criterion("Observability", 20, Levels(
      "Distributed tracing, centralized logging, health checks, metrics dashboards.",
      "Basic logging and health endpoints.",
      "No observability tooling."))
  ]

  const SystemDesignCriteria: seq<Criterion> := [
    Criterion("Requirements Analysis", 20, Levels(
      "Clear " + "functional and non-functional requirements, capacity estimation, constraints identified.",
      "Functional requirements addressed.",
      "Vague or missing requirements.")),
    Criterion("Architecture", 30, Levels(
      "Well-reasoned component design, clear data flow, trade-offs documented, alternatives considered.",
      "Reasonable architecture with main components.",
      "Unclear or incomplete architecture.")),
    Criterion("Scalability", 25, Levels(
      "Horizontal scaling strategy, caching layers, database sharding, CDN usage, load balancing.",
      "Some scaling considerations addressed.",
      "No scaling strategy.")),
    Criterion("Trade-off Analysis", 25, Levels(
      "CAP theorem applied, consistency vs availability discussed, cost-performance trade-offs analyzed.",
      "Some trade-offs mentioned.",
      "No trade-off discussion."))
  ]

  /** `RUBRIC_CATALOG`, each entry given by its criteria. */
  const RubricCatalog: seq<(string, seq<Criterion>)> := [
    ("python", PythonCriteria),
    ("docker", DockerCriteria),
    ("kubernetes", KubernetesCriteria),
    ("ci/cd", CiCdCriteria),
    ("rest apis", RestApisCriteria),
    ("microservices", MicroservicesCriteria),
    ("system design", SystemDesignCriteria)
  ]

  /** The sum of the criteria's weights. */
  function TotalWeight(criteria: seq<Criterion>): int {
    if criteria == [] then 0 else criteria[0].weight + TotalWeight(criteria[1..])
  }

  /** Every rubric of the table weighs 100 points in all. */
  predicate WeighHundred(table: seq<(string, seq<Criterion>)>) {
    forall i | 0 <= i < |table| :: TotalWeight(table[i].1) == 100
  }

  /** The weight of four criteria is the sum of their four weights. */
  lemma TotalWeightOfFour(criteria: seq<Criterion>)
    requires |criteria| == 4
    ensures TotalWeight(criteria) == criteria[0].weight + criteria[1].weight + criteria[2].weight + criteria[3].weight
  {
    var rest := criteria[1..];
    assert rest[1..][1..][1..] == [];
  }

  lemma PythonWeights()
    ensures TotalWeight(PythonCriteria) == 100
  {
    TotalWeightOfFour(PythonCriteria);
  }

  lemma DockerWeights()
    ensures TotalWeight(DockerCriteria) == 100
  {
    TotalWeightOfFour(DockerCriteria);
  }

  lemma KubernetesWeights()
    ensures TotalWeight(KubernetesCriteria) == 100
  {
    TotalWeightOfFour(KubernetesCriteria);
  }

  lemma CiCdWeights()
    ensures TotalWeight(CiCdCriteria) == 100
  {
    TotalWeightOfFour(CiCdCriteria);
  }

  lemma RestApisWeights()
    ensures TotalWeight(RestApisCriteria) == 100
  {
    TotalWeightOfFour(RestApisCriteria);
  }

  lemma MicroservicesWeights()
    ensures TotalWeight(MicroservicesCriteria) == 100
  {
    TotalWeightOfFour(MicroservicesCriteria);
  }

  lemma SystemDesignWeights()
    ensures TotalWeight(SystemDesignCriteria) == 100
  {
    TotalWeightOfFour(SystemDesignCriteria);
  }

  /** Every catalog rubric's weights add up to 100. */
  lemma CatalogWeights()
    ensures WeighHundred(RubricCatalog)
  {
    PythonWeights();
    DockerWeights();
    KubernetesWeights();
    CiCdWeights();
    RestApisWeights();
    MicroservicesWeights();
    SystemDesignWeights();
  }

  /** `_scoring_guide()`. */
  const ScoringGuide: seq<Band> := [
    Band("Excellent", "90-100", "Exceeds expectations"),
    Band("Good", "70-89", "Meets expectations"),
    Band("Needs Work", "0-69", "Below expectations")
  ]

  /** The level texts of the first generic criterion, as the text before
      and after the skill. */
  const TechnicalTemplates: seq<(string, string)> := [
    ("Demonstrates deep understanding of ", ". Uses best practices and advanced features."),
    ("Working implementation using ", " correctly."),
    ("Basic or incorrect use of ", ".")
  ]

  /** The three generic criteria that do not depend on the skill. */
  const GenericOtherCriteria: seq<Criterion> := [
    Criterion("Code Quality", 25, Levels(
      "Clean, well-structured code with tests and documentation.",
      "Readable code with some tests.",
      "Messy code without tests.")),
    Criterion("Problem Solving", 25, Levels(
      "Elegant solution addressing edge cases and error scenarios.",
      "Functional solution for the main use case.",
      "Incomplete or fragile solution.")),
    Criterion("Documentation", 20, Levels(
      "Clear README, setup instructions, design decisions explained.",
      "Basic README with setup instructions.",
      "No documentation."))
  ]

  /** `_generic_criteria(skill)`: four criteria, the first about the
      skill itself. */
  function GenericCriteria(skill: string): (cs: seq<Criterion>)
    ensures |cs| == 4
  {
    var t := TechnicalTemplates;
    [Criterion("Technical Implementation", 30, Levels(
       t[0].0 + skill + t[0].1, t[1].0 + skill + t[1].1, t[2].0 + skill + t[2].1))]
    + GenericOtherCriteria
  }

  /** The generic criteria weigh 100 in all. */
  lemma GenericWeights(skill: string)
    ensures TotalWeight(GenericCriteria(skill)) == 100
  {
    var cs := GenericCriteria(skill);
    assert cs[3..][1..] == [];
    assert cs[2..][1..] == cs[3..];
    assert cs[1..][1..] == cs[2..];
    assert TotalWeight(cs[3..]) == 20;
    assert TotalWeight(cs[2..]) == 45;
    assert TotalWeight(cs[1..]) == 70;
  }

  /** The first generic criterion names the skill in each of its levels. */
  lemma GenericCriteriaNameSkill(skill: string)
    ensures var levels := GenericCriteria(skill)[0].levels;
      Contains(levels.excellent, skill) && Contains(levels.good, skill) && Contains(levels.needsWork, skill)
  {
    var t := TechnicalTemplates;
    ContainsMiddle(t[0].0, skill, t[0].1);
    ContainsMiddle(t[1].0, skill, t[1].1);
    ContainsMiddle(t[2].0, skill, t[2].1);
  }

  /** The rubric for one skill, over the catalog `catalog`: the catalog's
      criteria of the skill's key when it has them, the generic ones
      otherwise; the skill as given, the scoring guide and 100 points. */
  function RubricFor(catalog: seq<(string, seq<Criterion>)>, skill: string): (r: Rubric)
    ensures r.skill == skill && r.scoring == ScoringGuide && r.totalPoints == 100
    ensures Get(catalog, Key(skill)).Some? ==> r.criteria == Get(catalog, Key(skill)).value
    ensures Key(skill) !in KeysOf(catalog) ==> r.criteria == GenericCriteria(skill)
  {
    match Get(catalog, Key(skill))
    case Some(criteria) => Rubric(skill, criteria, ScoringGuide, 100)
    case None => Rubric(skill, GenericCriteria(skill), ScoringGuide, 100)
  }

  /** Over a catalog whose rubrics weigh 100, every rubric's weights add
      up to its total points. */
  lemma RubricWeighs(catalog: seq<(string, seq<Criterion>)>, skill: string)
    requires WeighHundred(catalog)
    ensures TotalWeight(RubricFor(catalog, skill).criteria) == RubricFor(catalog, skill).totalPoints
  {
    if Get(catalog, Key(skill)).None? {
      GenericWeights(skill);
    }
  }

  /** The rubrics of `skills`: one per skill, in order, under the skill's
      own spelling and out of 100 points; over a catalog whose rubrics weigh
      100, every rubric's weights add up to its points. */
  function Rubrics(catalog: seq<(string, seq<Criterion>)>, skills: seq<string>): (rs: seq<Rubric>)
    ensures |rs| == |skills|
    ensures forall i | 0 <= i < |skills| :: rs[i].skill == skills[i] && rs[i].totalPoints == 100 && rs[i].scoring == ScoringGuide
    ensures WeighHundred(catalog) ==> forall i | 0 <= i < |skills| :: TotalWeight(rs[i].criteria) == rs[i].totalPoints
  {
    assert WeighHundred(catalog) ==> forall i | 0 <= i < |skills| ::
      TotalWeight(RubricFor(catalog, skills[i]).criteria) == RubricFor(catalog, skills[i]).totalPoints by {
      if WeighHundred(catalog) {
        forall i | 0 <= i < |skills|
          ensures TotalWeight(RubricFor(catalog, skills[i]).criteria) == RubricFor(catalog, skills[i]).totalPoints
        {
          RubricWeighs(catalog, skills[i]);
        }
      }
    }
    seq(|skills|, i requires 0 <= i < |skills| => RubricFor(catalog, skills[i]))
  }

  /** `s.strip().rstrip(".")` for one piece of a description. */
  function CleanPiece(s: string): string {
    StripTrailing(Strip(s), '.')
  }

  /** The pieces of an "Excellent" description between its commas,
      cleaned: one per piece, each empty or a `CleanItem` (a space before
      a final period survives: `"a ."` is cleaned to `"a "`). */
  function Cleaned(excellent: string): (items: seq<string>)
    ensures |items| == |Split(excellent, ',')|
    ensures forall k | 0 <= k < |items| :: items[k] == [] || CleanItem(items[k])
  {
    var parts := Split(excellent, ',');
    assert forall k | 0 <= k < |parts| :: CleanPiece(parts[k]) == [] || CleanItem(CleanPiece(parts[k])) by {
      forall k | 0 <= k < |parts| ensures CleanPiece(parts[k]) == [] || CleanItem(CleanPiece(parts[k])) {
        assert parts[k] in parts;
        CleanPieceShape(parts[k]);
      }
    }
    seq(|parts|, k requires 0 <= k < |parts| => CleanPiece(parts[k]))
  }

  /** The non-empty items, in order, tagged with `category`: every item
      made is a non-empty input item; `ItemsOfComplete` gives the other
      direction and `ItemsOfAppend` the order. */
  function ItemsOf(items: seq<string>, category: string): (cs: seq<CheckItem>)
    ensures |cs| <= |items|
    ensures forall k | 0 <= k < |cs| :: cs[k].item in items && cs[k].item != [] && cs[k].category == category
  {
    if items == [] then []
    else
      var init := ItemsOf(items[..|items| - 1], category);
      var last := items[|items| - 1];
      assert forall k | 0 <= k < |init| :: init[k].item in items[..|items| - 1];
      init + if last != [] then [CheckItem(last, category)] else []
  }

  /** Every non-empty input item is made, with `category`. */
  lemma {:induction false} ItemsOfComplete(items: seq<string>, category: string, j: int)
    requires 0 <= j < |items| && items[j] != []
    ensures CheckItem(items[j], category) in ItemsOf(items, category)
  {
    var n := |items|;
    if j < n - 1 {
      assert items[j] == items[..n - 1][j];
      ItemsOfComplete(items[..n - 1], category, j);
    }
  }

  /** Items are made in input order: the items of two lists joined are the
      items of the first followed by those of the second. */
  lemma {:induction false} ItemsOfAppend(a: seq<string>, b: seq<string>, category: string)
    ensures ItemsOf(a + b, category) == ItemsOf(a, category) + ItemsOf(b, category)
    decreases |b|
  {
    if b == [] {
      assert a + b == a;
    } else {
      var b' := b[..|b| - 1];
      assert (a + b)[..|a + b| - 1] == a + b';
      ItemsOfAppend(a, b', category);
    }
  }

  /** The checklist items of one criterion. */
  function CriterionItems(c: Criterion): seq<CheckItem> {
    ItemsOf(Cleaned(c.levels.excellent), c.name)
  }

  /** The checklist of a list of criteria: their items, criterion by criterion. */
  function Checklist(criteria: seq<Criterion>): seq<CheckItem> {
    if criteria == [] then []
    else Checklist(criteria[..|criteria| - 1]) + CriterionItems(criteria[|criteria| - 1])
  }

  /** `_generic_checklist(skill)`: six items, the first naming the skill. */
  function GenericChecklist(skill: string): (cs: seq<CheckItem>)
    ensures |cs| == 6
  {
    [
      CheckItem("Project demonstrates practical use of " + skill + "", "Technical"),
      CheckItem("Code follows best practices and conventions", "Quality"),
      CheckItem("Tests cover main functionality", "Testing"),
      CheckItem("README explains how to run the project", "Documentation"),
      CheckItem("Error handling is implemented", "Reliability"),
      CheckItem("Code is version controlled with meaningful commits", "Process")
    ]
  }

  /** The first generic checklist item names the skill. */
  lemma GenericChecklistNamesSkill(skill: string)
    ensures Contains(GenericChecklist(skill)[0].item, skill)
  {
    ContainsMiddle("Project demonstrates practical use of ", skill, "");
  }

  /** The checklist for one skill over the catalog `catalog`. */
  function ChecklistFor(catalog: seq<(string, seq<Criterion>)>, skill: string): seq<CheckItem> {
    match Get(catalog, Key(skill))
    case Some(criteria) => Checklist(criteria)
    case None => GenericChecklist(skill)
  }

  /** A checklist item: non-empty, without commas, not starting with
      whitespace and not ending with a full stop. */
  predicate CleanItem(s: string) {
    s != [] && ',' !in s && !IsSpace(s[0]) && s[|s| - 1] != '.'
  }

  /** A cleaned piece of comma-free text is a comma-free slice of it
      that starts after its leading whitespace and does not end with a
      full stop. */
  lemma CleanPieceShape(p: string)
    requires ',' !in p
    ensures CleanPiece(p) == [] || CleanItem(CleanPiece(p))
  {
    var s := Strip(p);
    var c := CleanPiece(p);
    StripSlice(p);
    StripEdges(p);
    var i := LeadingSpaces(p);
    assert c == s[..|c|];
    forall k | 0 <= k < |c| ensures c[k] == p[i + k] {
      assert c[k] == s[k];
    }
    if c != [] {
      assert c[0] == s[0];
    }
  }

  /** Every item of a criteria list's checklist is a clean piece of the
      "Excellent" description of one criterion, tagged with its name;
      returns the criterion and the piece. */
  lemma {:induction false} ChecklistItemSound(criteria: seq<Criterion>, k: int) returns (c: int, p: int)
    requires 0 <= k < |Checklist(criteria)|
    ensures 0 <= c < |criteria|
    ensures var parts := Split(criteria[c].levels.excellent, ',');
      0 <= p < |parts| && Checklist(criteria)[k].item == CleanPiece(parts[p])
    ensures Checklist(criteria)[k].category == criteria[c].name
    ensures CleanItem(Checklist(criteria)[k].item)
  {
    var n := |criteria|;
    var init := criteria[..n - 1];
    if k < |Checklist(init)| {
      c, p := ChecklistItemSound(init, k);
      assert criteria[c] == init[c];
    } else {
      c := n - 1;
      var items := Cleaned(criteria[c].levels.excellent);
      var it := CriterionItems(criteria[c])[k - |Checklist(init)|];
      assert it.item in items;
      p :| 0 <= p < |items| && items[p] == it.item;
      var parts := Split(criteria[c].levels.excellent, ',');
      assert parts[p] in parts;
      CleanPieceShape(parts[p]);
    }
  }

  /** A non-empty cleaned piece of a criterion's "Excellent" description
      is one of its checklist items, under the criterion's name. */
  lemma CriterionItemsComplete(c: Criterion, p: int)
    requires 0 <= p < |Cleaned(c.levels.excellent)| && Cleaned(c.levels.excellent)[p] != []
    ensures CheckItem(Cleaned(c.levels.excellent)[p], c.name) in CriterionItems(c)
  {
    ItemsOfComplete(Cleaned(c.levels.excellent), c.name, p);
  }

  /** The checklist of one more criterion: the items of that criterion
      follow the checklist so far. */
  lemma ChecklistStep(criteria: seq<Criterion>, i: int)
    requires 0 <= i < |criteria|
    ensures Checklist(criteria[..i + 1]) == Checklist(criteria[..i]) + ItemsOf(Cleaned(criteria[i].levels.excellent), criteria[i].name)
  {
    assert criteria[..i + 1][..i] == criteria[..i];
  }

  /** The checklist of the first `m` criteria begins the whole checklist. */
  lemma {:induction false} ChecklistPrefix(criteria: seq<Criterion>, m: int)
    requires 0 <= m <= |criteria|
    ensures Checklist(criteria[..m]) <= Checklist(criteria)
    decreases |criteria| - m
  {
    if m == |criteria| {
      assert criteria[..m] == criteria;
    } else {
      ChecklistStep(criteria, m);
      ChecklistPrefix(criteria, m + 1);
    }
  }

  /** The other direction of `ChecklistItemSound`: every non-empty cleaned
      piece of a criterion's "Excellent" description is on the checklist
      under the criterion's name. */
  lemma ChecklistComplete(criteria: seq<Criterion>, c: int, p: int)
    requires 0 <= c < |criteria|
    requires 0 <= p < |Cleaned(criteria[c].levels.excellent)| && Cleaned(criteria[c].levels.excellent)[p] != []
    ensures CheckItem(Cleaned(criteria[c].levels.excellent)[p], criteria[c].name) in Checklist(criteria)
  {
    var x := CheckItem(Cleaned(criteria[c].levels.excellent)[p], criteria[c].name);
    CriterionItemsComplete(criteria[c], p);
    ChecklistStep(criteria, c);
    ChecklistPrefix(criteria, c + 1);
    var upTo := Checklist(criteria[..c + 1]);
    assert x in upTo;
    assert upTo == Checklist(criteria)[..|upTo|];
  }

  /** The criteria are not empty, and the first one's "Excellent"
      description starts with a capital letter. */
  predicate OpensWithCapital(criteria: seq<Criterion>) {
    criteria != [] && criteria[0].levels.excellent != [] && 'A' <= criteria[0].levels.excellent[0] <= 'Z'
  }

  /** Every rubric of the table opens with a capital letter. */
  predicate OpenWithCapitals(table: seq<(string, seq<Criterion>)>) {
    forall i | 0 <= i < |table| :: OpensWithCapital(table[i].1)
  }

  /** A description that starts with a capital letter has a non-empty
      first cleaned piece. */
  lemma FirstPieceKept(s: string)
    requires s != [] && 'A' <= s[0] <= 'Z'
    ensures Cleaned(s)[0] != []
  {
    var piece := Split(s, ',')[0];
    assert piece != [] && piece[0] == s[0];
    StripSpec(piece);
    var t := Strip(piece);
    assert t != [] && t[0] == s[0];
  }

  /** Over a table whose rubrics open with a capital letter, every skill's
      checklist has items: a listed skill's from its first criterion, any
      other skill's the six generic ones. */
  lemma ChecklistNonEmptyOver(catalog: seq<(string, seq<Criterion>)>, skill: string)
    requires OpenWithCapitals(catalog)
    ensures ChecklistFor(catalog, skill) != []
  {
    if Get(catalog, Key(skill)).Some? {
      var i := GetFound(catalog, Key(skill));
      var criteria := catalog[i].1;
      assert OpensWithCapital(criteria);
      FirstPieceKept(criteria[0].levels.excellent);
      ChecklistComplete(criteria, 0, 0);
    }
  }

  lemma PythonOpens()
    ensures OpensWithCapital(PythonCriteria)
  {
  }

  lemma DockerOpens()
    ensures OpensWithCapital(DockerCriteria)
  {
  }

  lemma KubernetesOpens()
    ensures OpensWithCapital(KubernetesCriteria)
  {
  }

  lemma CiCdOpens()
    ensures OpensWithCapital(CiCdCriteria)
  {
  }

  lemma RestApisOpens()
    ensures OpensWithCapital(RestApisCriteria)
  {
  }

  lemma MicroservicesOpens()
    ensures OpensWithCapital(MicroservicesCriteria)
  {
  }

  lemma SystemDesignOpens()
    ensures OpensWithCapital(SystemDesignCriteria)
  {
  }

  /** Every catalog rubric opens with a capital letter. */
  lemma CatalogOpens()
    ensures OpenWithCapitals(RubricCatalog)
  {
    PythonOpens();
    DockerOpens();
    KubernetesOpens();
    CiCdOpens();
    RestApisOpens();
    MicroservicesOpens();
    SystemDesignOpens();
  }

  /** Every skill's checklist over the catalog has items. */
  lemma ChecklistNonEmpty(skill: string)
    ensures ChecklistFor(RubricCatalog, skill) != []
  {
    CatalogOpens();
    ChecklistNonEmptyOver(RubricCatalog, skill);
  }

  /** The inner loop of `evaluate_checklist`: appends the non-empty
      items, in order, with their category. */
  method AppendItems(checklist: seq<CheckItem>, items: seq<string>, category: string) returns (result: seq<CheckItem>)
    ensures result == checklist + ItemsOf(items, category)
  {
    result := checklist;
    for j := 0 to |items|
      invariant result == checklist + ItemsOf(items[..j], category)
    {
      var item := items[j];
      if item != [] {
        result := result + [CheckItem(item, category)];
      }
      assert items[..j + 1][..j] == items[..j];
    }
    assert items[..|items|] == items;
  }

  class Engine {
    /** The rubric catalog the engine reads. */
    const catalog: seq<(string, seq<Criterion>)>

    constructor()
      ensures catalog == RubricCatalog && WeighHundred(catalog)
    {
      catalog := RubricCatalog;
      CatalogWeights();
    }

    /** `generate(missing_skills)`: one rubric per skill, in order. */
    method Generate(missingSkills: seq<string>) returns (rubrics: seq<Rubric>)
      ensures missingSkills == [] ==> rubrics == []
      ensures rubrics == Rubrics(catalog, missingSkills)
    {
      if missingSkills == [] {
        return [];
      }
      rubrics := [];
      for i := 0 to |missingSkills|
        invariant rubrics == Rubrics(catalog, missingSkills[..i])
      {
        var skill := missingSkills[i];
        var known := Get(catalog, Key(skill));
        var rubric;
        if known.Some? {
          rubric := Rubric(skill, known.value, ScoringGuide, 100);
        } else {
          rubric := Rubric(skill, GenericCriteria(skill), ScoringGuide, 100);
        }
        rubrics := rubrics + [rubric];
        assert missingSkills[..i + 1] == missingSkills[..i] + [skill];
      }
      assert missingSkills[..|missingSkills|] == missingSkills;
    }

    /** `evaluate_checklist(skill)`. */
    method EvaluateChecklist(skill: string) returns (checklist: seq<CheckItem>)
      ensures checklist == ChecklistFor(catalog, skill)
    {
      var known := Get(catalog, Key(skill));
      if known.None? {
        return GenericChecklist(skill);
      }
      var criteria := known.value;
      checklist := [];
      for i := 0 to |criteria|
        invariant checklist == Checklist(criteria[..i])
      {
        var criterion := criteria[i];
        var items := Cleaned(criterion.levels.excellent);
        checklist := AppendItems(checklist, items, criterion.name);
        ChecklistStep(criteria, i);
      }
      assert criteria[..|criteria|] == criteria;
    }
  }
}
