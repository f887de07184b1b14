/**
 * `ProjectGenerator`: portfolio project ideas for missing skills, drawn
 * from a catalog of templates per skill (capped per skill, noting the
 * candidate's related existing skills) or a generic project, and a
 * roadmap that orders them by difficulty and groups them into phases.
 */
module ProjectGenerator {
  import opened Wrappers
  import opened Strings
  import opened Tables

  /** A catalog entry: `{"project", "description", "deliverables",
      "difficulty", "skills_demonstrated"}`. */
  datatype Template = Template(
    project: string,
    description: string,
    deliverables: seq<string>,
    difficulty: string,
    skillsDemonstrated: seq<string>)

  /** A generated project. `leverageExisting` is the set of the
      candidate's existing skill keys the project builds on, present
      exactly when that set is not empty. */
  datatype Project = Project(
    skill: string,
    project: string,
    description: string,
    deliverables: seq<string>,
    difficulty: string,
    skillsDemonstrated: seq<string>,
    estimatedWeeks: int,
    leverageExisting: Option<set<string>>)

  /** A roadmap phase: `{"difficulty", "projects"}`. */
  datatype Phase = Phase(difficulty: string, projects: seq<Project>)

  /** `{"phases", "total_weeks"}`. */
  datatype Roadmap = Roadmap(phases: seq<Phase>, totalWeeks: int)

  const PythonProjects: seq<Template> := [
    Template(
      "CLI Task Manager with SQLite",
      "Build a command-line task management tool with persistence, categories, priorities, and due dates using SQLite.",
      ["cli.py", "models.py", "tests/", "README.md"],
      "Beginner",
      ["Python", "SQLite", "CLI design", "Testing"]),
    Template(
      "Async Web Scraper with Rate Limiting",
      "Build an async web scraper using aiohttp that respects robots.txt and implements polite rate limiting.",
      ["scraper.py", "rate_limiter.py", "tests/", "README.md"],
      "Intermediate",
      ["Python", "Async/await", "HTTP", "Rate limiting"])
  ]

  const DockerProjects: seq<Template> := [
    Template(
      "Multi-Service Docker Compose Stack",
      "Containerize a web app with a database, cache, and reverse proxy using Docker Compose.",
      ["Dockerfile", "docker-compose.yml", "nginx.conf", "README.md"],
      "Beginner",
      ["Docker", "Networking", "Nginx", "Compose"]),
    Template(
      "Custom Docker Image Registry",
      "Set up a private Docker registry with authentication, TLS, and garbage collection.",
      ["Dockerfile", "docker-compose.yml", "auth/", "README.md"],
      "Intermediate",
      ["Docker", "Security", "TLS", "Registry"])
  ]

  const KubernetesProjects: seq<Template> := [
    Template(
      "Kubernetes Microservice Deployment",
      "Deploy a multi-tier application to Kubernetes with rolling updates, health checks, and autoscaling.",
      ["k8s/deployment.yaml", "k8s/service.yaml", "k8s/hpa.yaml", "README.md"],
      "Intermediate",
      ["Kubernetes", "Deployments", "HPA", "Health checks"]),
    Template(
      "Helm Chart for a Stateful Application",
      "Create a Helm chart for deploying a stateful app with persistent volumes and config management.",
      ["charts/", "values.yaml", "templates/", "README.md"],
      "Advanced",
      ["Kubernetes", "Helm", "StatefulSets", "PVCs"])
  ]

  const CiCdProjects: seq<Template> := [
    Template(
      "Full CI/CD Pipeline with GitHub Actions",
      "Build a pipeline that lints, tests, builds a Docker image, and deploys to a staging environment automatically.",
      [".github/workflows/ci.yml", ".github/workflows/deploy.yml", "README.md"],
      "Intermediate",
      ["CI/CD", "GitHub Actions", "Docker", "Automation"])
  ]

  const RestApisProjects: seq<Template> := [
    Template(
      "RESTful Bookstore API with FastAPI",
      "Build a complete REST API with authentication, pagination, filtering, and OpenAPI documentation.",
      ["app/", "tests/", "alembic/", "README.md"],
      "Intermediate",
      ["REST APIs", "FastAPI", "SQLAlchemy", "Auth"])
  ]

  const SqlProjects: seq<Template> := [
    Template(
      "Analytics Dashboard Database",
      "Design a normalized database schema for an analytics platform with optimized queries, views, and stored procedures.",
      ["schema.sql", "queries.sql", "seed_data.sql", "README.md"],
      "Intermediate",
      ["SQL", "Schema design", "Query optimization", "Indexing"])
  ]

  const AwsProjects: seq<Template> := [
    Template(
      "Serverless REST API on AWS",
      "Build a serverless API using Lambda, API Gateway, and DynamoDB with infrastructure defined in CloudFormation/SAM.",
      ["template.yaml", "src/handlers/", "tests/", "README.md"],
      "Intermediate",
      ["AWS", "Lambda", "API Gateway", "DynamoDB", "IaC"]),
    Template(
      "Static Website with CloudFront CDN",
      "Deploy a static site to S3 with CloudFront distribution, custom domain, and CI/CD pipeline.",
      ["template.yaml", "buildspec.yml", "src/", "README.md"],
      "Beginner",
      ["AWS", "S3", "CloudFront", "Route53"])
  ]

  const MicroservicesProjects: seq<Template> := [
    Template(
      "E-Commerce Microservices System",
      "Build a small e-commerce system with separate services for users, products, orders, and notifications communicating via events.",
      ["services/", "docker-compose.yml", "gateway/", "README.md"],
      "Advanced",
      ["Microservices", "Event-driven", "API Gateway", "Docker"])
  ]

  const SystemDesignProjects: seq<Template> := [
    Template(
      "Distributed URL Shortener",
      "Design and implement a URL shortener that handles high throughput with caching, analytics, and horizontal scaling.",
      ["app/", "docs/architecture.md", "load_tests/", "README.md"],
      "Advanced",
      ["System Design", "Caching", "Scaling", "Analytics"])
  ]

  const TerraformProjects: seq<Template> := [
    Template(
      "Multi-Environment AWS Infrastructure",
      "Define dev/staging/prod environments on AWS using Terraform modules with remote state and workspaces.",
      ["modules/", "environments/", "backend.tf", "README.md"],
      "Intermediate",
      ["Terraform", "AWS", "IaC", "State management"])
  ]

  const ReactProjects: seq<Template> := [
    Template(
      "Real-Time Dashboard with React",
      "Build a responsive dashboard with live data updates, charts, filters, and dark mode using React and TypeScript.",
      ["src/components/", "src/hooks/", "tests/", "README.md"],
      "Intermediate",
      ["React", "TypeScript", "WebSockets", "Responsive design"])
  ]

  const TypescriptProjects: seq<Template> := [
    Template(
      "Type-Safe Express API",
      "Build an Express.js API with full TypeScript coverage, Zod validation, and auto-generated API docs.",
      ["src/", "tsconfig.json", "tests/", "README.md"],
      "Intermediate",
      ["TypeScript", "Express", "Validation", "API design"])
  ]

  const GraphqlProjects: seq<Template> := [
    Template(
      "GraphQL API with Apollo Server",
      "Build a GraphQL API with queries, mutations, subscriptions, and DataLoader for efficient data fetching.",
      ["src/schema/", "src/resolvers/", "tests/", "README.md"],
      "Intermediate",
      ["GraphQL", "Apollo", "DataLoader", "Subscriptions"])
  ]

  const RedisProjects: seq<Template> := [
    Template(
      "Caching Layer with Redis",
      "Implement a caching layer for an API with cache invalidation strategies, session storage, and rate limiting.",
      ["cache.py", "rate_limiter.py", "tests/", "README.md"],
      "Intermediate",
      ["Redis", "Caching", "Rate limiting", "Session management"])
  ]

  const KafkaProjects: seq<Template> := [
    Template(
      "Event-Driven Order Processing",
      "Build an event-driven order pipeline with Kafka producers, consumers, and dead letter queues.",
      ["producer/", "consumer/", "docker-compose.yml", "README.md"],
      "Advanced",
      ["Kafka", "Event-driven", "Error handling", "Docker"])
  ]

  const MongodbProjects: seq<Template> := [
    Template(
      "Blog Platform with MongoDB",
      "Build a blog platform with MongoDB for content storage, text search, aggregation pipelines, and indexing.",
      ["app/", "models/", "tests/", "README.md"],
      "Intermediate",
      ["MongoDB", "Aggregation", "Indexing", "Text search"])
  ]

  const PostgresqlProjects: seq<Template> := [
    Template(
      "Multi-Tenant SaaS Database",
      "Design a PostgreSQL schema for a multi-tenant SaaS app with row-level security, partitioning, and migrations.",
      ["migrations/", "schema.sql", "rls_policies.sql", "README.md"],
      "Advanced",
      ["PostgreSQL", "RLS", "Partitioning", "Migrations"])
  ]

  const GcpProjects: seq<Template> := [
    Template(
      "Cloud Run Microservice",
      "Deploy a containerized service to Cloud Run with Cloud SQL, Pub/Sub integration, and monitoring.",
      ["Dockerfile", "cloudbuild.yaml", "src/", "README.md"],
      "Intermediate",
      ["GCP", "Cloud Run", "Pub/Sub", "Cloud SQL"])
  ]

  const GitProjects: seq<Template> := [
    Template(
      "Git Workflow Automation",
      "Create Git hooks and scripts for automated versioning, changelog generation, and branch management.",
      [".githooks/", "scripts/", "CHANGELOG.md", "README.md"],
      "Beginner",
      ["Git", "Automation", "Scripting", "Versioning"])
  ]

  /** `PROJECT_CATALOG`. */
  const ProjectCatalog: seq<(string, seq<Template>)> := [
    ("python", PythonProjects),
    ("docker", DockerProjects),
    ("kubernetes", KubernetesProjects),
    ("ci/cd", CiCdProjects),
    ("rest apis", RestApisProjects),
    ("sql", SqlProjects),
    ("aws", AwsProjects),
    ("microservices", MicroservicesProjects),
    ("system design", SystemDesignProjects),
    ("terraform", TerraformProjects),
    ("react", ReactProjects),
    ("typescript", TypescriptProjects),
    ("graphql", GraphqlProjects),
    ("redis", RedisProjects),
    ("kafka", KafkaProjects),
    ("mongodb", MongodbProjects),
    ("postgresql", PostgresqlProjects),
    ("gcp", GcpProjects),
    ("git", GitProjects)
  ]

  /** The three difficulties the catalog uses. */
  const Difficulties: set<string> := {"Beginner", "Intermediate", "Advanced"}

  /** Every skill of the catalog has at least one template, and every
      template one of the three difficulties. */
  predicate ValidCatalog(catalog: seq<(string, seq<Template>)>) {
    forall i | 0 <= i < |catalog| ::
      catalog[i].1 != [] && forall k | 0 <= k < |catalog[i].1| :: catalog[i].1[k].difficulty in Difficulties
  }

  lemma CatalogValid()
    ensures ValidCatalog(ProjectCatalog)
  {
  }

  /** `_estimate_weeks(difficulty)`: 1, 2 or 3 weeks by difficulty, and 2
      for any other text (the dictionary's default). */
  function EstimateWeeks(difficulty: string): (w: int)
    ensures difficulty == "Beginner" ==> w == 1
    ensures difficulty == "Intermediate" ==> w == 2
    ensures difficulty == "Advanced" ==> w == 3
    ensures difficulty !in Difficulties ==> w == 2
  {
    if difficulty == "Beginner" then 1
    else if difficulty == "Advanced" then 3
    else 2
  }

  /** The generic project's title and description, as the text before and
      after the skill. */
  const GenericTitle: (string, string) := ("Build a practical ", " portfolio project")
  const GenericDescription: (string, string) := (
    "Create a hands-on project that demonstrates your ",
    " proficiency. Include documentation, tests, and a README explaining your design decisions.")

  /** `_generic_project(skill)`. */
  function GenericProject(skill: string): (p: Project)
    ensures p.skill == skill && p.difficulty == "Intermediate" && p.estimatedWeeks == 2
    ensures p.skillsDemonstrated == [skill] && p.leverageExisting == None
  {
    Project(skill,
            GenericTitle.0 + skill + GenericTitle.1,
            GenericDescription.0 + skill + GenericDescription.1,
            ["src/", "tests/", "README.md"],
            "Intermediate",
            [skill],
            2,
            None)
  }

  /** The generic project's title names the skill. */
  lemma GenericProjectTitle(skill: string)
    ensures Contains(GenericProject(skill).project, skill)
  {
    ContainsMiddle(GenericTitle.0, skill, GenericTitle.1);
  }

  /** `set(s.lower().strip() for s in existing_skills)`. */
  function ExistingKeys(existingSkills: seq<string>): set<string> {
    set s | s in existingSkills :: Key(s)
  }

  /** `set(s.lower() for s in names)`. */
  function LowerSet(names: seq<string>): set<string> {
    set s | s in names :: Lower(s)
  }

  /** The project made from a catalog template. */
  function EntryFor(existing: set<string>, skill: string, t: Template): Project {
    var overlap := existing * LowerSet(t.skillsDemonstrated);
    Project(skill, t.project, t.description, t.deliverables, t.difficulty, t.skillsDemonstrated,
            EstimateWeeks(t.difficulty), if overlap != {} then Some(overlap) else None)
  }

  /** A catalog project copies its template, is estimated from its
      difficulty, and notes the existing skills exactly when one of them
      is, up to case, a skill the template demonstrates. */
  lemma EntryForTemplate(existing: set<string>, skill: string, t: Template)
    ensures var p := EntryFor(existing, skill, t);
      && p.skill == skill && p.project == t.project && p.description == t.description
      && p.deliverables == t.deliverables && p.difficulty == t.difficulty
      && p.skillsDemonstrated == t.skillsDemonstrated && p.estimatedWeeks == EstimateWeeks(t.difficulty)
    ensures EntryFor(existing, skill, t).leverageExisting.Some? <==>
      exists k | 0 <= k < |t.skillsDemonstrated| :: Lower(t.skillsDemonstrated[k]) in existing
    ensures EntryFor(existing, skill, t).leverageExisting.Some? ==>
      forall s | s in EntryFor(existing, skill, t).leverageExisting.value :: s in existing && s in LowerSet(t.skillsDemonstrated)
  {
    var overlap := existing * LowerSet(t.skillsDemonstrated);
    if overlap != {} {
      var s :| s in overlap;
      var n :| n in t.skillsDemonstrated && s == Lower(n);
      var k :| 0 <= k < |t.skillsDemonstrated| && t.skillsDemonstrated[k] == n;
    } else {
      forall k | 0 <= k < |t.skillsDemonstrated| ensures Lower(t.skillsDemonstrated[k]) !in existing {
        var n := t.skillsDemonstrated[k];
        assert n in t.skillsDemonstrated;
        assert Lower(n) in LowerSet(t.skillsDemonstrated);
        assert Lower(n) in existing ==> Lower(n) in overlap;
      }
    }
  }

  /** The other direction of the note: every existing skill that is, up
      to case, a skill the template demonstrates is in it. */
  lemma EntryForOverlap(existing: set<string>, skill: string, t: Template, k: int)
    requires 0 <= k < |t.skillsDemonstrated| && Lower(t.skillsDemonstrated[k]) in existing
    ensures EntryFor(existing, skill, t).leverageExisting.Some?
    ensures Lower(t.skillsDemonstrated[k]) in EntryFor(existing, skill, t).leverageExisting.value
  {
    assert t.skillsDemonstrated[k] in t.skillsDemonstrated;
    assert Lower(t.skillsDemonstrated[k]) in existing * LowerSet(t.skillsDemonstrated);
  }

  /** The projects for one skill: the first `max` catalog projects of its
      key when the catalog has some (`max` slices as in Python), one
      generic project otherwise. */
  function SkillProjects(catalog: seq<(string, seq<Template>)>, existing: set<string>, skill: string, max: int): seq<Project> {
    var known := Get(catalog, Key(skill)).GetOr([]);
    if known != [] then
      var selected := Prefix(known, max);
      seq(|selected|, k requires 0 <= k < |selected| => EntryFor(existing, skill, selected[k]))
    else [GenericProject(skill)]
  }

  /** A known skill gets `min(max, n)` projects from its `n` templates,
      in catalog order. */
  lemma KnownSkillProjects(catalog: seq<(string, seq<Template>)>, existing: set<string>, skill: string, max: int)
    requires Get(catalog, Key(skill)).Some? && Get(catalog, Key(skill)).value != []
    requires max >= 0
    ensures var ts := Get(catalog, Key(skill)).value;
      var ps := SkillProjects(catalog, existing, skill, max);
      && |ps| == (if max < |ts| then max else |ts|)
      && forall k | 0 <= k < |ps| :: ps[k] == EntryFor(existing, skill, ts[k])
  {
  }

  /** A skill the catalog does not know gets exactly the generic project. */
  lemma UnknownSkillProject(catalog: seq<(string, seq<Template>)>, existing: set<string>, skill: string, max: int)
    requires Key(skill) !in KeysOf(catalog)
    ensures SkillProjects(catalog, existing, skill, max) == [GenericProject(skill)]
  {
  }

  /** The projects for all skills, skill by skill. */
  function AllProjects(catalog: seq<(string, seq<Template>)>, existing: set<string>, skills: seq<string>, max: int): seq<Project> {
    if skills == [] then []
    else AllProjects(catalog, existing, skills[..|skills| - 1], max) + SkillProjects(catalog, existing, skills[|skills| - 1], max)
  }

  /** At `max = 1` over a valid catalog a skill gets exactly one project,
      of at least one week: its first template, or the generic project. */
  lemma OneSkillProject(catalog: seq<(string, seq<Template>)>, existing: set<string>, skill: string)
    requires ValidCatalog(catalog)
    ensures |SkillProjects(catalog, existing, skill, 1)| == 1
    ensures SkillProjects(catalog, existing, skill, 1)[0].estimatedWeeks >= 1
  {
    if Get(catalog, Key(skill)).Some? {
      var i := GetFound(catalog, Key(skill));
      assert catalog[i].1 != [];
    }
  }

  /** The roadmap's projects (`max = 1`) over a valid catalog: one per
      skill, so that their weeks add up to at least the number of skills,
      which is positive for any skill at all. */
  lemma {:induction false} OneProjectPerSkill(catalog: seq<(string, seq<Template>)>, existing: set<string>, skills: seq<string>)
    requires ValidCatalog(catalog)
    ensures |AllProjects(catalog, existing, skills, 1)| == |skills|
    ensures TotalWeeks(AllProjects(catalog, existing, skills, 1)) >= |skills|
  {
    if skills != [] {
      var init := skills[..|skills| - 1];
      var last := SkillProjects(catalog, existing, skills[|skills| - 1], 1);
      OneProjectPerSkill(catalog, existing, init);
      OneSkillProject(catalog, existing, skills[|skills| - 1]);
      TotalWeeksAppend(AllProjects(catalog, existing, init, 1), last);
      assert TotalWeeks(last) == last[0].estimatedWeeks + TotalWeeks(last[1..]);
    }
  }

  /** Over a valid catalog every project has one of the three difficulties. */
  lemma {:induction false} AllProjectsDifficulties(catalog: seq<(string, seq<Template>)>, existing: set<string>, skills: seq<string>, max: int)
    requires ValidCatalog(catalog)
    ensures forall k | 0 <= k < |AllProjects(catalog, existing, skills, max)| ::
      AllProjects(catalog, existing, skills, max)[k].difficulty in Difficulties
  {
    if skills != [] {
      AllProjectsDifficulties(catalog, existing, skills[..|skills| - 1], max);
      SkillProjectsDifficulties(catalog, existing, skills[|skills| - 1], max);
    }
  }

  lemma SkillProjectsDifficulties(catalog: seq<(string, seq<Template>)>, existing: set<string>, skill: string, max: int)
    requires ValidCatalog(catalog)
    ensures forall k | 0 <= k < |SkillProjects(catalog, existing, skill, max)| ::
      SkillProjects(catalog, existing, skill, max)[k].difficulty in Difficulties
  {
    var ps := SkillProjects(catalog, existing, skill, max);
    var known := Get(catalog, Key(skill)).GetOr([]);
    if known != [] {
      var i := GetFound(catalog, Key(skill));
      var selected := Prefix(known, max);
      forall k | 0 <= k < |ps| ensures ps[k].difficulty in Difficulties {
        assert ps[k] == EntryFor(existing, skill, selected[k]);
        assert selected[k] == catalog[i].1[k];
      }
    } else {
      assert ps == [GenericProject(skill)];
    }
  }

  /** `difficulty_order.get(difficulty, 1)` over `{"Beginner": 0,
      "Intermediate": 1, "Advanced": 2}`, by which the roadmap orders
      projects. */
  function Rank(difficulty: string): (r: int)
    ensures 0 <= r <= 2
  {
    if difficulty == "Beginner" then 0
    else if difficulty == "Advanced" then 2
    else 1
  }

  /** Beginner projects rank first, Advanced last, everything else (the
      dictionary's default included) in between. */
  lemma RankOrder(difficulty: string)
    ensures Rank(difficulty) == 0 <==> difficulty == "Beginner"
    ensures Rank(difficulty) == 2 <==> difficulty == "Advanced"
    ensures Rank(difficulty) == 1 <==> difficulty != "Beginner" && difficulty != "Advanced"
  {
  }

  /** The projects of rank `r`, in their order. */
  function WithRank(ps: seq<Project>, r: int): seq<Project> {
    if ps == [] then []
    else (if Rank(ps[0].difficulty) == r then [ps[0]] else []) + WithRank(ps[1..], r)
  }

  /** The projects kept are of rank `r`, and are projects of `ps`. */
  lemma {:induction false} WithRankMembers(ps: seq<Project>, r: int)
    ensures forall k | 0 <= k < |WithRank(ps, r)| :: Rank(WithRank(ps, r)[k].difficulty) == r && WithRank(ps, r)[k] in ps
  {
    if ps != [] {
      WithRankMembers(ps[1..], r);
    }
  }

  /** `projects.sort(key=rank)`: Python's sort is stable, so the sorted
      list is the rank-0 projects, then the rank-1, then the rank-2, each
      group in its original order. */
  function SortByDifficulty(ps: seq<Project>): seq<Project> {
    WithRank(ps, 0) + WithRank(ps, 1) + WithRank(ps, 2)
  }

  lemma {:induction false} WithRankAppend(a: seq<Project>, b: seq<Project>, r: int)
    ensures WithRank(a + b, r) == WithRank(a, r) + WithRank(b, r)
  {
    if a != [] {
      var h := if Rank(a[0].difficulty) == r then [a[0]] else [];
      assert (a + b)[0] == a[0];
      assert (a + b)[1..] == a[1..] + b;
      assert WithRank(a + b, r) == h + WithRank(a[1..] + b, r);
      WithRankAppend(a[1..], b, r);
      assert WithRank(a, r) == h + WithRank(a[1..], r);
    } else {
      assert a + b == b;
    }
  }

  lemma {:induction false} WithRankFilter(ps: seq<Project>, r: int, s: int)
    ensures WithRank(WithRank(ps, r), s) == if r == s then WithRank(ps, r) else []
  {
    if ps != [] {
      WithRankFilter(ps[1..], r, s);
      var head := if Rank(ps[0].difficulty) == r then [ps[0]] else [];
      WithRankAppend(head, WithRank(ps[1..], r), s);
    }
  }

  /** The sort is stable: the projects of each rank keep their order. */
  lemma SortStable(ps: seq<Project>, r: int)
    ensures WithRank(SortByDifficulty(ps), r) == WithRank(ps, r)
  {
    WithRankAppend(WithRank(ps, 0) + WithRank(ps, 1), WithRank(ps, 2), r);
    WithRankAppend(WithRank(ps, 0), WithRank(ps, 1), r);
    WithRankFilter(ps, 0, r);
    WithRankFilter(ps, 1, r);
    WithRankFilter(ps, 2, r);
    if r != 0 && r != 1 && r != 2 {
      WithRankNone(ps, r);
    }
  }

  lemma {:induction false} WithRankNone(ps: seq<Project>, r: int)
    requires r != 0 && r != 1 && r != 2
    ensures WithRank(ps, r) == []
  {
    if ps != [] {
      WithRankNone(ps[1..], r);
    }
  }

  /** The sort orders the projects by rank. */
  lemma SortOrdered(ps: seq<Project>)
    ensures var s := SortByDifficulty(ps);
      forall i, j | 0 <= i < j < |s| :: Rank(s[i].difficulty) <= Rank(s[j].difficulty)
  {
    WithRankMembers(ps, 0);
    WithRankMembers(ps, 1);
    WithRankMembers(ps, 2);
  }

  /** The sort loses and adds nothing. */
  lemma SortPermutes(ps: seq<Project>)
    ensures multiset(SortByDifficulty(ps)) == multiset(ps)
  {
    MultisetByRank(ps);
  }

  lemma {:induction false} MultisetByRank(ps: seq<Project>)
    ensures multiset(ps) == multiset(WithRank(ps, 0)) + multiset(WithRank(ps, 1)) + multiset(WithRank(ps, 2))
  {
    if ps != [] {
      var t := ps[1..];
      var h := [ps[0]];
      assert ps == h + t;
      var r := Rank(ps[0].difficulty);
      var h0, h1, h2 := if r == 0 then h else [], if r == 1 then h else [], if r == 2 then h else [];
      assert WithRank(ps, 0) == h0 + WithRank(t, 0);
      assert WithRank(ps, 1) == h1 + WithRank(t, 1);
      assert WithRank(ps, 2) == h2 + WithRank(t, 2);
      assert multiset(ps) == multiset(h0) + multiset(h1) + multiset(h2) + multiset(t);
      MultisetByRank(t);
      MultisetRegroup(multiset(h0), multiset(h1), multiset(h2),
                      multiset(WithRank(t, 0)), multiset(WithRank(t, 1)), multiset(WithRank(t, 2)));
    }
  }

  lemma MultisetRegroup(a0: multiset<Project>, a1: multiset<Project>, a2: multiset<Project>,
                        b0: multiset<Project>, b1: multiset<Project>, b2: multiset<Project>)
    ensures (a0 + a1 + a2) + (b0 + b1 + b2) == (a0 + b0) + (a1 + b1) + (a2 + b2)
  {
  }

  /** `sum(p["estimated_weeks"] for p in projects)`. */
  function TotalWeeks(ps: seq<Project>): int {
    if ps == [] then 0 else ps[0].estimatedWeeks + TotalWeeks(ps[1..])
  }

  lemma {:induction false} TotalWeeksAppend(a: seq<Project>, b: seq<Project>)
    ensures TotalWeeks(a + b) == TotalWeeks(a) + TotalWeeks(b)
  {
    if a != [] {
      assert (a + b)[0] == a[0];
      assert (a + b)[1..] == a[1..] + b;
      TotalWeeksAppend(a[1..], b);
    } else {
      assert a + b == b;
    }
  }

  /** Sorting does not change the total. */
  lemma {:induction false} TotalWeeksSorted(ps: seq<Project>)
    ensures TotalWeeks(SortByDifficulty(ps)) == TotalWeeks(ps)
  {
    TotalWeeksAppend(WithRank(ps, 0) + WithRank(ps, 1), WithRank(ps, 2));
    TotalWeeksAppend(WithRank(ps, 0), WithRank(ps, 1));
    TotalWeeksByRank(ps);
  }

  lemma {:induction false} TotalWeeksByRank(ps: seq<Project>)
    ensures TotalWeeks(ps) == TotalWeeks(WithRank(ps, 0)) + TotalWeeks(WithRank(ps, 1)) + TotalWeeks(WithRank(ps, 2))
  {
    if ps != [] {
      var t := ps[1..];
      TotalWeeksByRank(t);
      var h := [ps[0]];
      assert TotalWeeks(h) == ps[0].estimatedWeeks;
      var r := Rank(ps[0].difficulty);
      if r == 0 {
        assert WithRank(ps, 0) == h + WithRank(t, 0);
        assert WithRank(ps, 1) == WithRank(t, 1);
        assert WithRank(ps, 2) == WithRank(t, 2);
        TotalWeeksAppend(h, WithRank(t, 0));
      } else if r == 1 {
        assert WithRank(ps, 0) == WithRank(t, 0);
        assert WithRank(ps, 1) == h + WithRank(t, 1);
        assert WithRank(ps, 2) == WithRank(t, 2);
        TotalWeeksAppend(h, WithRank(t, 1));
      } else {
        assert WithRank(ps, 0) == WithRank(t, 0);
        assert WithRank(ps, 1) == WithRank(t, 1);
        assert WithRank(ps, 2) == h + WithRank(t, 2);
        TotalWeeksAppend(h, WithRank(t, 2));
      }
    }
  }

  /** The projects of the phases, phase by phase. */
  function Flatten(phases: seq<Phase>): seq<Project> {
    if phases == [] then [] else Flatten(phases[..|phases| - 1]) + phases[|phases| - 1].projects
  }

  lemma FlattenSnoc(phases: seq<Phase>, ph: Phase)
    ensures Flatten(phases + [ph]) == Flatten(phases) + ph.projects
  {
    assert (phases + [ph])[..|phases|] == phases;
  }

  /** Every phase holds projects of its own difficulty only. */
  predicate Uniform(phases: seq<Phase>) {
    forall k, q | 0 <= k < |phases| && q in phases[k].projects :: q.difficulty == phases[k].difficulty
  }

  /** Consecutive phases have different difficulties. */
  predicate Separated(phases: seq<Phase>) {
    forall k | 0 <= k < |phases| - 1 :: phases[k].difficulty != phases[k + 1].difficulty
  }

  /** Closing a phase of one difficulty keeps the phases uniform. */
  lemma CloseUniform(phases: seq<Phase>, ph: Phase)
    requires Uniform(phases)
    requires forall q | q in ph.projects :: q.difficulty == ph.difficulty
    ensures Uniform(phases + [ph])
  {
  }

  /** Closing a phase unlike the last one keeps the phases separated. */
  lemma CloseSeparated(phases: seq<Phase>, ph: Phase)
    requires Separated(phases)
    requires phases != [] ==> phases[|phases| - 1].difficulty != ph.difficulty
    ensures Separated(phases + [ph])
  {
  }

  predicate NoBlankDifficulty(ps: seq<Project>) {
    forall k | 0 <= k < |ps| :: ps[k].difficulty != ""
  }

  /** The state of `get_roadmap`'s phase loop: the phases closed so far,
      the open phase, and `current_difficulty` (`None` before the first
      project). */
  datatype Grouping = Grouping(phases: seq<Phase>, current: seq<Project>, difficulty: Option<string>)

  /** Whether project `p` closes the open phase of `g`. */
  predicate Closes(g: Grouping, p: Project) {
    g.difficulty.Some? && g.difficulty.value != "" && p.difficulty != g.difficulty.value
  }

  /** One turn of the loop. Python tests `current_difficulty` for truth,
      so the open phase is closed only when its difficulty is a non-empty
      text unlike the project's. */
  function AddProject(g: Grouping, p: Project): Grouping {
    if Closes(g, p)
    then Grouping(g.phases + [Phase(g.difficulty.value, g.current)], [p], Some(p.difficulty))
    else Grouping(g.phases, g.current + [p], Some(p.difficulty))
  }

  /** The loop's state after the projects `ps`. */
  function Fold(ps: seq<Project>): Grouping {
    if ps == [] then Grouping([], [], None)
    else AddProject(Fold(ps[..|ps| - 1]), ps[|ps| - 1])
  }

  /** The phases after the loop: the open phase is closed if it has projects. */
  function PhasesOf(ps: seq<Project>): seq<Phase> {
    var g := Fold(ps);
    if g.current != [] then g.phases + [Phase(g.difficulty.GetOr(""), g.current)] else g.phases
  }

  /** The loop's state after a non-empty list is one more turn after its
      state before the last project. */
  lemma FoldLast(ps: seq<Project>)
    requires ps != []
    ensures Fold(ps) == AddProject(Fold(ps[..|ps| - 1]), ps[|ps| - 1])
  {
  }

  /** The closed phases and then the open one hold the projects in order. */
  lemma {:induction false} FoldFlatten(ps: seq<Project>)
    ensures Flatten(Fold(ps).phases) + Fold(ps).current == ps
  {
    if ps != [] {
      var init, p := ps[..|ps| - 1], ps[|ps| - 1];
      assert ps == init + [p];
      FoldLast(ps);
      var g := Fold(init);
      var closed := Phase(g.difficulty.GetOr(""), g.current);
      if Closes(g, p) {
        assert Fold(ps).phases == g.phases + [closed] && Fold(ps).current == [p];
        FlattenSnoc(g.phases, closed);
      } else {
        assert Fold(ps).phases == g.phases && Fold(ps).current == g.current + [p];
        assert Flatten(g.phases) + (g.current + [p]) == (Flatten(g.phases) + g.current) + [p];
      }
      FoldFlatten(init);
    }
  }

  /** No closed phase is empty, the open phase is empty only before the
      first project, and the grouping's difficulty is the last project's. */
  lemma {:induction false} FoldShape(ps: seq<Project>)
    ensures forall k | 0 <= k < |Fold(ps).phases| :: Fold(ps).phases[k].projects != []
    ensures ps == [] <==> Fold(ps).current == []
    ensures ps != [] ==> Fold(ps).difficulty == Some(ps[|ps| - 1].difficulty)
  {
    if ps != [] {
      var init, p := ps[..|ps| - 1], ps[|ps| - 1];
      FoldShape(init);
      var g := Fold(init);
      assert Fold(ps) == AddProject(g, p);
    }
  }

  /** With no empty difficulty, every phase is of one difficulty, the open
      phase is of the last project's, and phases alternate. */
  lemma {:induction false} FoldGroups(ps: seq<Project>)
    requires NoBlankDifficulty(ps)
    ensures Uniform(Fold(ps).phases) && Separated(Fold(ps).phases)
    ensures ps != [] ==> forall q | q in Fold(ps).current :: q.difficulty == ps[|ps| - 1].difficulty
    ensures ps != [] && Fold(ps).phases != [] ==>
      Fold(ps).phases[|Fold(ps).phases| - 1].difficulty != ps[|ps| - 1].difficulty
  {
    if ps != [] {
      var init, p := ps[..|ps| - 1], ps[|ps| - 1];
      assert NoBlankDifficulty(init) by {
        forall k | 0 <= k < |init| ensures init[k].difficulty != "" {
          assert init[k] == ps[k];
        }
      }
      FoldGroups(init);
      FoldShape(init);
      var g := Fold(init);
      if g.difficulty.Some? && g.difficulty.value != "" && p.difficulty != g.difficulty.value {
        var closed := Phase(g.difficulty.value, g.current);
        CloseUniform(g.phases, closed);
        CloseSeparated(g.phases, closed);
      } else if init != [] {
        assert p.difficulty == g.difficulty.value;
      }
    }
  }

  /** The phases hold the projects in order, each phase at least one. */
  lemma PhasesKeep(ps: seq<Project>)
    ensures Flatten(PhasesOf(ps)) == ps
    ensures forall k | 0 <= k < |PhasesOf(ps)| :: PhasesOf(ps)[k].projects != []
  {
    FoldFlatten(ps);
    FoldShape(ps);
    var g := Fold(ps);
    if g.current != [] {
      FlattenSnoc(g.phases, Phase(g.difficulty.GetOr(""), g.current));
    }
  }

  /** With no empty difficulty, the phases are the maximal runs of one
      difficulty: each uniform, and consecutive ones different. */
  lemma PhasesGroup(ps: seq<Project>)
    requires NoBlankDifficulty(ps)
    ensures Uniform(PhasesOf(ps)) && Separated(PhasesOf(ps))
  {
    FoldShape(ps);
    FoldGroups(ps);
    var g := Fold(ps);
    if g.current != [] {
      var closed := Phase(g.difficulty.GetOr(""), g.current);
      CloseUniform(g.phases, closed);
      CloseSeparated(g.phases, closed);
    }
  }

  /** The phase loop of `get_roadmap`. */
  method GroupPhases(ps: seq<Project>) returns (phases: seq<Phase>)
    ensures phases == PhasesOf(ps)
  {
    phases := [];
    var currentPhase: seq<Project> := [];
    var currentDifficulty: Option<string> := None;
    for i := 0 to |ps|
      invariant Grouping(phases, currentPhase, currentDifficulty) == Fold(ps[..i])
    {
      var proj := ps[i];
      assert ps[..i + 1][..i] == ps[..i];
      if currentDifficulty.Some? && currentDifficulty.value != "" && proj.difficulty != currentDifficulty.value {
        phases := phases + [Phase(currentDifficulty.value, currentPhase)];
        currentPhase := [];
      }
      currentDifficulty := Some(proj.difficulty);
      currentPhase := currentPhase + [proj];
    }
    assert ps[..|ps|] == ps;
    if currentPhase != [] {
      phases := phases + [Phase(currentDifficulty.GetOr(""), currentPhase)];
    }
  }

  class Generator {
    /** The project catalog the generator reads. */
    const catalog: seq<(string, seq<Template>)>

    constructor()
      ensures catalog == ProjectCatalog && ValidCatalog(catalog)
    {
      catalog := ProjectCatalog;
      CatalogValid();
    }

    /** `generate(missing_skills, existing_skills, max_projects_per_skill)`,
        with the same defaults: no existing skills (`None` is read as the
        empty list) and two projects per skill. */
    method Generate(missingSkills: seq<string>, existingSkills: seq<string> := [], maxPerSkill: int := 2)
      returns (projects: seq<Project>)
      ensures missingSkills == [] ==> projects == []
      ensures projects == AllProjects(catalog, ExistingKeys(existingSkills), missingSkills, maxPerSkill)
    {
      if missingSkills == [] {
        return [];
      }
      var existing := ExistingKeys(existingSkills);
      projects := [];
      for i := 0 to |missingSkills|
        invariant projects == AllProjects(catalog, existing, missingSkills[..i], maxPerSkill)
      {
        var skillProjects := ProjectsForSkill(existing, missingSkills[i], maxPerSkill);
        projects := projects + skillProjects;
        assert missingSkills[..i + 1][..i] == missingSkills[..i];
      }
      assert missingSkills[..|missingSkills|] == missingSkills;
    }

    /** The body of `generate`'s loop for one skill. */
    method ProjectsForSkill(existing: set<string>, skill: string, maxPerSkill: int) returns (projects: seq<Project>)
      ensures projects == SkillProjects(catalog, existing, skill, maxPerSkill)
    {
      var catalogProjects := Get(catalog, Key(skill)).GetOr([]);
      if catalogProjects == [] {
        return [GenericProject(skill)];
      }
      var selected := Prefix(catalogProjects, maxPerSkill);
      projects := [];
      for j := 0 to |selected|
        invariant |projects| == j
        invariant forall k | 0 <= k < j :: projects[k] == EntryFor(existing, skill, selected[k])
      {
        var proj := selected[j];
        var overlap := existing * LowerSet(proj.skillsDemonstrated);
        var leverage := if overlap != {} then Some(overlap) else None;
        projects := projects + [Project(skill, proj.project, proj.description, proj.deliverables, proj.difficulty,
                                        proj.skillsDemonstrated, EstimateWeeks(proj.difficulty), leverage)];
      }
    }

    /** `get_roadmap(missing_skills, existing_skills)`: one project per
        skill, sorted by difficulty and grouped into phases of one
        difficulty each, with the sum of their weeks. */
    method GetRoadmap(missingSkills: seq<string>, existingSkills: seq<string> := []) returns (roadmap: Roadmap)
      requires ValidCatalog(catalog)
      ensures var projects := AllProjects(catalog, ExistingKeys(existingSkills), missingSkills, 1);
        && (projects == [] ==> roadmap == Roadmap([], 0))
        && Flatten(roadmap.phases) == SortByDifficulty(projects)
        && roadmap.totalWeeks == TotalWeeks(projects)
        && (projects != [] ==> roadmap.phases == PhasesOf(SortByDifficulty(projects)))
      ensures forall k | 0 <= k < |roadmap.phases| :: roadmap.phases[k].projects != []
      ensures Uniform(roadmap.phases) && Separated(roadmap.phases)
      ensures |Flatten(roadmap.phases)| == |missingSkills|
      ensures roadmap.totalWeeks >= |missingSkills|
      ensures missingSkills != [] ==> roadmap.totalWeeks > 0
    {
      OneProjectPerSkill(catalog, ExistingKeys(existingSkills), missingSkills);
      var projects := Generate(missingSkills, existingSkills, 1);
      if projects == [] {
        return Roadmap([], 0);
      }
      var sorted := SortByDifficulty(projects);
      AllProjectsDifficulties(catalog, ExistingKeys(existingSkills), missingSkills, 1);
      SortDifficulties(projects);
      var phases := GroupPhases(sorted);
      PhasesKeep(sorted);
      PhasesGroup(sorted);
      TotalWeeksSorted(projects);
      SortPermutes(projects);
      assert |sorted| == |multiset(sorted)| == |multiset(projects)| == |projects|;
      roadmap := Roadmap(phases, TotalWeeks(sorted));
    }
  }

  /** Sorting keeps every project, so it keeps them all non-blank. */
  lemma SortDifficulties(ps: seq<Project>)
    requires forall k | 0 <= k < |ps| :: ps[k].difficulty in Difficulties
    ensures NoBlankDifficulty(SortByDifficulty(ps))
  {
    WithRankMembers(ps, 0);
    WithRankMembers(ps, 1);
    WithRankMembers(ps, 2);
    var s := SortByDifficulty(ps);
    forall k | 0 <= k < |s| ensures s[k].difficulty != "" {
      assert s[k] in ps;
    }
  }
}
