/**
 * The built-in skill catalog: 32 skills with a category and an estimate in
 * days, and 30 prerequisite edges `(prerequisite, dependent)`. It is the
 * prerequisite graph the planner falls back on when no graph database is
 * configured, and the source of the planner's per-skill estimates.
 *
 * Facts about the literal data are proved in small batches and then
 * lifted by general lemmas, so no proof has to evaluate the whole catalog.
 */
module SeedSkills {
  import opened Strings

  datatype Skill = Skill(name: string, category: string, estimatedDays: int)

  /** An edge `(prerequisite, dependent)`: the first is learned before the second. */
  type Edge = (string, string)

  const Skills: seq<Skill> := [
    Skill("Python", "language", 7),
    Skill("JavaScript", "language", 7),
    Skill("Java", "language", 10),
    Skill("Go", "language", 10),
    Skill("SQL", "data", 5),
    Skill("PostgreSQL", "data", 5),
    Skill("MongoDB", "data", 5),
    Skill("Redis", "data", 4),
    Skill("Git", "tool", 3),
    Skill("Linux", "operations", 5),
    Skill("Nginx", "operations", 3),
    Skill("HTML/CSS", "frontend", 5),
    Skill("TypeScript", "language", 7),
    Skill("React", "frontend", 10),
    Skill("Node.js", "runtime", 7),
    Skill("Django", "framework", 7),
    Skill("FastAPI", "framework", 5),
    Skill("Spring Boot", "framework", 10),
    Skill("REST APIs", "architecture", 4),
    Skill("GraphQL", "architecture", 5),
    Skill("Microservices", "architecture", 10),
    Skill("System Design", "architecture", 14),
    Skill("Docker", "devops", 5),
    Skill("Kubernetes", "devops", 7),
    Skill("CI/CD", "devops", 5),
    Skill("Terraform", "devops", 7),
    Skill("AWS", "cloud", 10),
    Skill("GCP", "cloud", 10),
    Skill("Azure", "cloud", 10),
    Skill("Kafka", "data", 7),
    Skill("Spark", "data", 10),
    Skill("Airflow", "data", 7)
  ]

  const Prerequisites: seq<Edge> := [
    ("JavaScript", "TypeScript"),
    ("JavaScript", "React"),
    ("JavaScript", "Node.js"),
    ("HTML/CSS", "React"),
    ("Python", "Django"),
    ("Python", "FastAPI"),
    ("Java", "Spring Boot"),
    ("SQL", "PostgreSQL"),
    ("SQL", "MongoDB"),
    ("SQL", "Redis"),
    ("REST APIs", "FastAPI"),
    ("REST APIs", "GraphQL"),
    ("REST APIs", "Microservices"),
    ("Linux", "Docker"),
    ("Linux", "AWS"),
    ("Linux", "GCP"),
    ("Linux", "Azure"),
    ("Linux", "Nginx"),
    ("Docker", "Kubernetes"),
    ("Docker", "CI/CD"),
    ("Docker", "Microservices"),
    ("Git", "CI/CD"),
    ("AWS", "Terraform"),
    ("Python", "Spark"),
    ("SQL", "Spark"),
    ("Python", "Airflow"),
    ("SQL", "Airflow"),
    ("Python", "Kafka"),
    ("Microservices", "System Design"),
    ("SQL", "System Design")
  ]

  /** The catalog's names, in catalog order. */
  const CatalogNames: seq<string> := [
    "Python", "JavaScript", "Java", "Go",
    "SQL", "PostgreSQL", "MongoDB", "Redis",
    "Git", "Linux", "Nginx", "HTML/CSS",
    "TypeScript", "React", "Node.js", "Django",
    "FastAPI", "Spring Boot", "REST APIs", "GraphQL",
    "Microservices", "System Design", "Docker", "Kubernetes",
    "CI/CD", "Terraform", "AWS", "GCP",
    "Azure", "Kafka", "Spark", "Airflow"
  ]

  /** The lower-case form of every catalog name, in catalog order. */
  const CatalogKeys: seq<string> := [
    "python", "javascript", "java", "go",
    "sql", "postgresql", "mongodb", "redis",
    "git", "linux", "nginx", "html/css",
    "typescript", "react", "node.js", "django",
    "fastapi", "spring boot", "rest apis", "graphql",
    "microservices", "system design", "docker", "kubernetes",
    "ci/cd", "terraform", "aws", "gcp",
    "azure", "kafka", "spark", "airflow"
  ]

  /** For each edge, the catalog positions of its two endpoints. */
  const PrerequisiteIndices: seq<(nat, nat)> := [
    (1, 12), (1, 13), (1, 14), (11, 13), (0, 15), (0, 16),
    (2, 17), (4, 5), (4, 6), (4, 7), (18, 16), (18, 19),
    (18, 20), (9, 22), (9, 26), (9, 27), (9, 28), (9, 10),
    (22, 23), (22, 24), (22, 20), (8, 24), (26, 25), (0, 30),
    (4, 30), (0, 31), (4, 31), (0, 29), (20, 21), (4, 21)
  ]

  /** For each catalog skill, the length of the longest prerequisite chain
      that ends at it. */
  const Levels: seq<nat> := [
    0, 0, 0, 0, 0, 1, 1, 1, 0, 0, 1, 0, 1, 1, 1, 1,
    1, 1, 0, 1, 2, 3, 1, 2, 2, 2, 1, 1, 1, 1, 1, 1
  ]

  /** The dictionary `{s.name.lower(): s.estimatedDays for s in ss}`: each
      skill in turn sets the entry under its lower-cased name, so a later
      skill with the same lower-cased name overwrites an earlier one. */
  function EstimatesOf(ss: seq<Skill>): map<string, int> {
    if ss == [] then map[]
    else EstimatesOf(ss[..|ss| - 1])[Lower(ss[|ss| - 1].name) := ss[|ss| - 1].estimatedDays]
  }

  /** `get_skill_estimates()`; `SkillEstimatesOfCatalog` states its contents. */
  function GetSkillEstimates(): map<string, int> {
    EstimatesOf(Skills)
  }

  /** `get_prerequisite_edges()`; `PrerequisiteEndpoints` and
      `PrerequisitesClimbLevels` state what its edges join. */
  function GetPrerequisiteEdges(): seq<Edge> {
    Prerequisites
  }

  /** `get_skill_names()`: the catalog's names in catalog order. */
  function GetSkillNames(): (r: seq<string>)
    ensures |r| == |Skills| == 32
    ensures forall i | 0 <= i < |r| :: r[i] == Skills[i].name
  {
    seq(|Skills|, i requires 0 <= i < |Skills| => Skills[i].name)
  }

  predicate DistinctKeys(keys: seq<string>) {
    forall i, j | 0 <= i < j < |keys| :: keys[i] != keys[j]
  }

  /** The first position of `k` in `keys`, or -1. */
  function IndexOf(keys: seq<string>, k: string): (i: int)
    ensures -1 <= i < |keys|
    ensures i >= 0 ==> keys[i] == k && forall j | 0 <= j < i :: keys[j] != k
    ensures i < 0 ==> k !in keys
  {
    if keys == [] then -1
    else if keys[0] == k then 0
    else var j := IndexOf(keys[1..], k); if j < 0 then -1 else j + 1
  }

  /** The level of a catalog key; a key outside the catalog is on level 0. */
  function KeyLevel(k: string): nat {
    var i := IndexOf(CatalogKeys, k);
    if 0 <= i < |Levels| then Levels[i] else 0
  }

  /** A lower-case form with no surrounding whitespace is also the key. */
  lemma KeyOfLower(s: string, t: string)
    requires Lower(s) == t && t != [] && !IsSpace(t[0]) && !IsSpace(t[|t| - 1])
    ensures Key(s) == t
  {
    assert LeadingSpaces(t) == 0 && TrailingSpaces(t) == 0;
  }

  /** In a list without repeats, every element is found at its own position. */
  lemma {:induction false} IndexOfDistinct(keys: seq<string>, a: int)
    requires DistinctKeys(keys) && 0 <= a < |keys|
    ensures IndexOf(keys, keys[a]) == a
  {
    assert keys[a] in keys;
  }

  /** The map built from skills whose lower-cased names are `keys`, all
      different, has exactly those keys, each with its skill's estimate. */
  lemma {:induction false} EstimatesOfDistinct(ss: seq<Skill>, keys: seq<string>)
    requires |keys| == |ss| && DistinctKeys(keys)
    requires forall i | 0 <= i < |ss| :: Lower(ss[i].name) == keys[i]
    ensures forall k :: k in EstimatesOf(ss) <==> k in keys
    ensures forall i | 0 <= i < |ss| :: EstimatesOf(ss)[keys[i]] == ss[i].estimatedDays
  {
    if ss != [] {
      var n := |ss| - 1;
      EstimatesOfDistinct(ss[..n], keys[..n]);
      forall k ensures k in EstimatesOf(ss) <==> k in keys {
        assert k in keys <==> k in keys[..n] || k == keys[n] by {
          assert keys == keys[..n] + [keys[n]];
        }
      }
      forall i | 0 <= i < |ss| ensures EstimatesOf(ss)[keys[i]] == ss[i].estimatedDays {
        if i < n {
          assert keys[i] != keys[n];
          assert keys[..n][i] == keys[i];
        }
      }
    }
  }

  lemma LowerNames0()
    ensures forall i | 0 <= i < 4 :: Lower(Skills[i].name) == CatalogKeys[i]
  {
    assert Lower("Python") == "python";
    assert Lower("JavaScript") == "javascript";
    assert Lower("Java") == "java";
    assert Lower("Go") == "go";
  }

  lemma LowerNames1()
    ensures forall i | 4 <= i < 8 :: Lower(Skills[i].name) == CatalogKeys[i]
  {
    assert Lower("SQL") == "sql";
    assert Lower("PostgreSQL") == "postgresql";
    assert Lower("MongoDB") == "mongodb";
    assert Lower("Redis") == "redis";
  }

  lemma LowerNames2()
    ensures forall i | 8 <= i < 12 :: Lower(Skills[i].name) == CatalogKeys[i]
  {
    assert Lower("Git") == "git";
    assert Lower("Linux") == "linux";
    assert Lower("Nginx") == "nginx";
    assert Lower("HTML/CSS") == "html/css";
  }

  lemma LowerNames3()
    ensures forall i | 12 <= i < 16 :: Lower(Skills[i].name) == CatalogKeys[i]
  {
    assert Lower("TypeScript") == "typescript";
    assert Lower("React") == "react";
    assert Lower("Node.js") == "node.js";
    assert Lower("Django") == "django";
  }

  lemma LowerNames4()
    ensures forall i | 16 <= i < 20 :: Lower(Skills[i].name) == CatalogKeys[i]
  {
    assert Lower("FastAPI") == "fastapi";
    assert Lower("Spring Boot") == "spring boot";
    assert Lower("REST APIs") == "rest apis";
    assert Lower("GraphQL") == "graphql";
  }

  lemma LowerNames5()
    ensures forall i | 20 <= i < 24 :: Lower(Skills[i].name) == CatalogKeys[i]
  {
    assert Lower("Microservices") == "microservices";
    assert Lower("System Design") == "system design";
    assert Lower("Docker") == "docker";
    assert Lower("Kubernetes") == "kubernetes";
  }

  lemma LowerNames6()
    ensures forall i | 24 <= i < 28 :: Lower(Skills[i].name) == CatalogKeys[i]
  {
    assert Lower("CI/CD") == "ci/cd";
    assert Lower("Terraform") == "terraform";
    assert Lower("AWS") == "aws";
    assert Lower("GCP") == "gcp";
  }

  lemma LowerNames7()
    ensures forall i | 28 <= i < 32 :: Lower(Skills[i].name) == CatalogKeys[i]
  {
    assert Lower("Azure") == "azure";
    assert Lower("Kafka") == "kafka";
    assert Lower("Spark") == "spark";
    assert Lower("Airflow") == "airflow";
  }

  lemma CatalogKeysUnpadded()
    ensures forall i | 0 <= i < |CatalogKeys| ::
      CatalogKeys[i] != [] && !IsSpace(CatalogKeys[i][0]) && !IsSpace(CatalogKeys[i][|CatalogKeys[i]| - 1])
  {
  }

  lemma CatalogKeysDistinct0()
    ensures forall i, j | 0 <= i < 2 && i < j < |CatalogKeys| :: CatalogKeys[i] != CatalogKeys[j]
  {
  }

  lemma CatalogKeysDistinct1()
    ensures forall i, j | 2 <= i < 4 && i < j < |CatalogKeys| :: CatalogKeys[i] != CatalogKeys[j]
  {
  }

  lemma CatalogKeysDistinct2()
    ensures forall i, j | 4 <= i < 6 && i < j < |CatalogKeys| :: CatalogKeys[i] != CatalogKeys[j]
  {
  }

  lemma CatalogKeysDistinct3()
    ensures forall i, j | 6 <= i < 8 && i < j < |CatalogKeys| :: CatalogKeys[i] != CatalogKeys[j]
  {
  }

  lemma CatalogKeysDistinct4()
    ensures forall i, j | 8 <= i < 12 && i < j < |CatalogKeys| :: CatalogKeys[i] != CatalogKeys[j]
  {
  }

  lemma CatalogKeysDistinct5()
    ensures forall i, j | 12 <= i < 16 && i < j < |CatalogKeys| :: CatalogKeys[i] != CatalogKeys[j]
  {
  }

  lemma CatalogKeysDistinct6()
    ensures forall i, j | 16 <= i < 24 && i < j < |CatalogKeys| :: CatalogKeys[i] != CatalogKeys[j]
  {
  }

  lemma CatalogKeysDistinct7()
    ensures forall i, j | 24 <= i < 32 && i < j < |CatalogKeys| :: CatalogKeys[i] != CatalogKeys[j]
  {
  }

  /** The catalog's lower-cased names are all different. */
  lemma {:induction false} CatalogKeysDistinct()
    ensures |CatalogKeys| == |Skills| && DistinctKeys(CatalogKeys)
  {
    CatalogKeysDistinct0(); CatalogKeysDistinct1(); CatalogKeysDistinct2(); CatalogKeysDistinct3();
    CatalogKeysDistinct4(); CatalogKeysDistinct5(); CatalogKeysDistinct6(); CatalogKeysDistinct7();
  }

  /** Lower-casing the catalog's names gives `CatalogKeys`, which is also
      the lookup key `name.lower().strip()` of each name. */
  lemma {:induction false} CatalogLowerNames()
    ensures |CatalogKeys| == |Skills|
    ensures forall i | 0 <= i < |Skills| :: Lower(Skills[i].name) == CatalogKeys[i]
    ensures forall i | 0 <= i < |Skills| :: Key(Skills[i].name) == CatalogKeys[i]
  {
    LowerNames0(); LowerNames1(); LowerNames2(); LowerNames3();
    LowerNames4(); LowerNames5(); LowerNames6(); LowerNames7();
    CatalogKeysUnpadded();
    forall i | 0 <= i < |Skills| ensures Key(Skills[i].name) == CatalogKeys[i] {
      KeyOfLower(Skills[i].name, CatalogKeys[i]);
    }
  }

  /** Skill names are unique, even ignoring case. */
  lemma {:induction false} CatalogNamesDistinct()
    ensures forall i, j | 0 <= i < j < |Skills| :: Lower(Skills[i].name) != Lower(Skills[j].name)
    ensures forall i, j | 0 <= i < j < |Skills| :: Skills[i].name != Skills[j].name
  {
    CatalogLowerNames();
    CatalogKeysDistinct();
  }

  /** Every estimate in the catalog is a positive number of days. */
  lemma CatalogDaysPositive()
    ensures forall i | 0 <= i < |Skills| :: Skills[i].estimatedDays > 0
  {
  }

  /** `get_skill_estimates()` has an entry for exactly the catalog's
      lower-cased names, each holding that skill's estimate. */
  lemma {:induction false} SkillEstimatesOfCatalog()
    ensures forall k :: k in GetSkillEstimates() <==> k in CatalogKeys
    ensures forall i | 0 <= i < |Skills| :: GetSkillEstimates()[CatalogKeys[i]] == Skills[i].estimatedDays
  {
    CatalogLowerNames();
    CatalogKeysDistinct();
    EstimatesOfDistinct(Skills, CatalogKeys);
  }

  lemma CatalogNamesOfSkills0()
    ensures |CatalogNames| == |Skills|
    ensures forall i | 0 <= i < 8 :: CatalogNames[i] == Skills[i].name
  {
  }

  lemma CatalogNamesOfSkills1()
    ensures |CatalogNames| == |Skills|
    ensures forall i | 8 <= i < 16 :: CatalogNames[i] == Skills[i].name
  {
  }

  lemma CatalogNamesOfSkills2()
    ensures |CatalogNames| == |Skills|
    ensures forall i | 16 <= i < 24 :: CatalogNames[i] == Skills[i].name
  {
  }

  lemma CatalogNamesOfSkills3()
    ensures |CatalogNames| == |Skills|
    ensures forall i | 24 <= i < 32 :: CatalogNames[i] == Skills[i].name
  {
  }

  lemma PrerequisitesByName0()
    ensures forall k | 0 <= k < 3 ::
      PrerequisiteIndices[k].0 < |CatalogNames| && PrerequisiteIndices[k].1 < |CatalogNames|
      && Prerequisites[k] == (CatalogNames[PrerequisiteIndices[k].0], CatalogNames[PrerequisiteIndices[k].1])
  {
  }

  lemma PrerequisitesByName1()
    ensures forall k | 3 <= k < 6 ::
      PrerequisiteIndices[k].0 < |CatalogNames| && PrerequisiteIndices[k].1 < |CatalogNames|
      && Prerequisites[k] == (CatalogNames[PrerequisiteIndices[k].0], CatalogNames[PrerequisiteIndices[k].1])
  {
  }

  lemma PrerequisitesByName2()
    ensures forall k | 6 <= k < 9 ::
      PrerequisiteIndices[k].0 < |CatalogNames| && PrerequisiteIndices[k].1 < |CatalogNames|
      && Prerequisites[k] == (CatalogNames[PrerequisiteIndices[k].0], CatalogNames[PrerequisiteIndices[k].1])
  {
  }

  lemma PrerequisitesByName3()
    ensures forall k | 9 <= k < 12 ::
      PrerequisiteIndices[k].0 < |CatalogNames| && PrerequisiteIndices[k].1 < |CatalogNames|
      && Prerequisites[k] == (CatalogNames[PrerequisiteIndices[k].0], CatalogNames[PrerequisiteIndices[k].1])
  {
  }

  lemma PrerequisitesByName4()
    ensures forall k | 12 <= k < 15 ::
      PrerequisiteIndices[k].0 < |CatalogNames| && PrerequisiteIndices[k].1 < |CatalogNames|
      && Prerequisites[k] == (CatalogNames[PrerequisiteIndices[k].0], CatalogNames[PrerequisiteIndices[k].1])
  {
  }

  lemma PrerequisitesByName5()
    ensures forall k | 15 <= k < 18 ::
      PrerequisiteIndices[k].0 < |CatalogNames| && PrerequisiteIndices[k].1 < |CatalogNames|
      && Prerequisites[k] == (CatalogNames[PrerequisiteIndices[k].0], CatalogNames[PrerequisiteIndices[k].1])
  {
  }

  lemma PrerequisitesByName6()
    ensures forall k | 18 <= k < 21 ::
      PrerequisiteIndices[k].0 < |CatalogNames| && PrerequisiteIndices[k].1 < |CatalogNames|
      && Prerequisites[k] == (CatalogNames[PrerequisiteIndices[k].0], CatalogNames[PrerequisiteIndices[k].1])
  {
  }

  lemma PrerequisitesByName7()
    ensures forall k | 21 <= k < 24 ::
      PrerequisiteIndices[k].0 < |CatalogNames| && PrerequisiteIndices[k].1 < |CatalogNames|
      && Prerequisites[k] == (CatalogNames[PrerequisiteIndices[k].0], CatalogNames[PrerequisiteIndices[k].1])
  {
  }

  lemma PrerequisitesByName8()
    ensures forall k | 24 <= k < 27 ::
      PrerequisiteIndices[k].0 < |CatalogNames| && PrerequisiteIndices[k].1 < |CatalogNames|
      && Prerequisites[k] == (CatalogNames[PrerequisiteIndices[k].0], CatalogNames[PrerequisiteIndices[k].1])
  {
  }

  lemma PrerequisitesByName9()
    ensures forall k | 27 <= k < 30 ::
      PrerequisiteIndices[k].0 < |CatalogNames| && PrerequisiteIndices[k].1 < |CatalogNames|
      && Prerequisites[k] == (CatalogNames[PrerequisiteIndices[k].0], CatalogNames[PrerequisiteIndices[k].1])
  {
  }

  lemma {:induction false} PrerequisitesByIndex()
    ensures |PrerequisiteIndices| == |Prerequisites| == 30
    ensures forall k | 0 <= k < |Prerequisites| ::
      PrerequisiteIndices[k].0 < |Skills| && PrerequisiteIndices[k].1 < |Skills|
      && Prerequisites[k] == (Skills[PrerequisiteIndices[k].0].name, Skills[PrerequisiteIndices[k].1].name)
  {
    CatalogNamesOfSkills0(); CatalogNamesOfSkills1(); CatalogNamesOfSkills2(); CatalogNamesOfSkills3();
    PrerequisitesByName0(); PrerequisitesByName1(); PrerequisitesByName2(); PrerequisitesByName3();
    PrerequisitesByName4(); PrerequisitesByName5(); PrerequisitesByName6(); PrerequisitesByName7();
    PrerequisitesByName8(); PrerequisitesByName9();
  }

  /** `get_prerequisite_edges()` has 30 edges, both endpoints of each a
      catalog name, whose keys are catalog keys. */
  lemma {:induction false} PrerequisiteEndpoints()
    ensures |GetPrerequisiteEdges()| == |PrerequisiteIndices| == 30
    ensures forall k | 0 <= k < |PrerequisiteIndices| ::
      PrerequisiteIndices[k].0 < |CatalogKeys| && PrerequisiteIndices[k].1 < |CatalogKeys|
    ensures forall k | 0 <= k < |GetPrerequisiteEdges()| ::
      GetPrerequisiteEdges()[k].0 in GetSkillNames() && GetPrerequisiteEdges()[k].1 in GetSkillNames()
    ensures forall k | 0 <= k < |GetPrerequisiteEdges()| ::
      Key(GetPrerequisiteEdges()[k].0) == CatalogKeys[PrerequisiteIndices[k].0]
      && Key(GetPrerequisiteEdges()[k].1) == CatalogKeys[PrerequisiteIndices[k].1]
  {
    PrerequisitesByIndex();
    CatalogLowerNames();
    var names := GetSkillNames();
    forall k | 0 <= k < |Prerequisites|
      ensures Prerequisites[k].0 in names && Prerequisites[k].1 in names
    {
      assert names[PrerequisiteIndices[k].0] == Prerequisites[k].0;
      assert names[PrerequisiteIndices[k].1] == Prerequisites[k].1;
    }
  }

  lemma LevelsClimb()
    ensures |Levels| == |Skills|
    ensures forall k | 0 <= k < |PrerequisiteIndices| ::
      PrerequisiteIndices[k].0 < |Levels| && PrerequisiteIndices[k].1 < |Levels|
      && Levels[PrerequisiteIndices[k].0] < Levels[PrerequisiteIndices[k].1]
  {
    LevelsClimb0(); LevelsClimb1(); LevelsClimb2();
  }

  lemma LevelsClimb0()
    ensures forall k | 0 <= k < 10 ::
      PrerequisiteIndices[k].0 < |Levels| && PrerequisiteIndices[k].1 < |Levels|
      && Levels[PrerequisiteIndices[k].0] < Levels[PrerequisiteIndices[k].1]
  {
  }

  lemma LevelsClimb1()
    ensures forall k | 10 <= k < 20 ::
      PrerequisiteIndices[k].0 < |Levels| && PrerequisiteIndices[k].1 < |Levels|
      && Levels[PrerequisiteIndices[k].0] < Levels[PrerequisiteIndices[k].1]
  {
  }

  lemma LevelsClimb2()
    ensures forall k | 20 <= k < 30 ::
      PrerequisiteIndices[k].0 < |Levels| && PrerequisiteIndices[k].1 < |Levels|
      && Levels[PrerequisiteIndices[k].0] < Levels[PrerequisiteIndices[k].1]
  {
  }

  /** Every catalog edge climbs at least one level between the keys of its
      endpoints, so the catalog's prerequisite graph has no cycle. */
  lemma {:induction false} PrerequisitesClimbLevels()
    ensures forall k | 0 <= k < |GetPrerequisiteEdges()| ::
      KeyLevel(Key(GetPrerequisiteEdges()[k].0)) < KeyLevel(Key(GetPrerequisiteEdges()[k].1))
  {
    PrerequisiteEndpoints();
    PrerequisitesByIndex();
    CatalogKeysDistinct();
    LevelsClimb();
    forall k | 0 <= k < |Prerequisites|
      ensures KeyLevel(Key(Prerequisites[k].0)) < KeyLevel(Key(Prerequisites[k].1))
    {
      IndexOfDistinct(CatalogKeys, PrerequisiteIndices[k].0);
      IndexOfDistinct(CatalogKeys, PrerequisiteIndices[k].1);
    }
  }
}
