/**
 * `InterviewGenerator`: interview preparation for each missing skill, a
 * list of questions (curated, generic or from a language model), a
 * difficulty and three preparation tips.
 */
module InterviewGenerator {
  import opened Wrappers
  import opened Strings
  import opened Tables

  /** `FALLBACK_QUESTIONS`: five curated questions per known skill key. */
  const FallbackQuestions: seq<(string, seq<string>)> := [
    ("python", [
      "Explain the difference between a list and a tuple in Python.",
      "What are Python decorators and when would you use them?",
      "How does Python's garbage collector work?",
      "What is the GIL and how does it affect multithreading?",
      "Explain the difference between `deepcopy` and `copy`."
    ]),
    ("docker", [
      "What is the difference between a Docker image and a container?",
      "How would you reduce the size of a Docker image?",
      "Explain multi-stage builds and when you'd use them.",
      "What is the difference between CMD and ENTRYPOINT?",
      "How do you handle persistent data in Docker?"
    ]),
    ("kubernetes", [
      "Explain the difference between a Deployment and a StatefulSet.",
      "How does Kubernetes service discovery work?",
      "What is the role of an Ingress controller?",
      "How would you debug a pod that keeps crashing?",
      "Explain the difference between a ConfigMap and a Secret."
    ]),
    ("ci/cd", [
      "What are the key stages of a CI/CD pipeline?",
      "How would you handle secrets in a CI/CD pipeline?",
      "Explain the difference between continuous delivery and continuous deployment.",
      "How do you implement rollback strategies?",
      "What testing strategies do you include in a pipeline?"
    ]),
    ("rest apis", [
      "Explain the differences between PUT and PATCH.",
      "How do you version a REST API?",
      "What is HATEOAS and when is it useful?",
      "How do you handle pagination in a REST API?",
      "Explain idempotency and why it matters."
    ]),
    ("sql", [
      "What is the difference between INNER JOIN and LEFT JOIN?",
      "Explain database normalization and when to denormalize.",
      "How do indexes work and when should you use them?",
      "What is a database transaction and what are ACID properties?",
      "How would you optimize a slow query?"
    ]),
    ("aws", [
      "Explain the difference between EC2, ECS, and Lambda.",
      "When would you use S3 vs EBS vs EFS?",
      "How does IAM role-based access control work?",
      "What is a VPC and how do you design one?",
      "Explain the shared responsibility model."
    ]),
    ("microservices", [
      "What are the pros and cons of microservices vs monoliths?",
      "How do you handle inter-service communication?",
      "Explain the saga pattern for distributed transactions.",
      "How do you implement service discovery?",
      "What is the circuit breaker pattern?"
    ]),
    ("system design", [
      "How would you design a URL shortening service?",
      "Explain CAP theorem and its implications.",
      "How would you design a rate limiter?",
      "What strategies would you use for database scaling?",
      "How do you handle eventual consistency?"
    ]),
    ("terraform", [
      "What is the difference between Terraform state and plan?",
      "How do you manage Terraform state in a team?",
      "Explain Terraform modules and when to use them.",
      "What is the difference between count and for_each?",
      "How do you handle secrets in Terraform?"
    ]),
    ("react", [
      "Explain the React component lifecycle.",
      "What is the difference between useState and useReducer?",
      "How does React's reconciliation algorithm work?",
      "When would you use Context API vs Redux?",
      "Explain the purpose of useEffect cleanup functions."
    ]),
    ("typescript", [
      "What are union types and intersection types?",
      "Explain the difference between interface and type.",
      "What are generics and when would you use them?",
      "How does TypeScript's type inference work?",
      "What are utility types like Partial, Required, and Pick?"
    ]),
    ("graphql", [
      "What are the differences between GraphQL and REST?",
      "How do you handle the N+1 query problem in GraphQL?",
      "Explain GraphQL subscriptions.",
      "What are resolvers and how do they work?",
      "How do you handle authentication in GraphQL?"
    ]),
    ("redis", [
      "What data structures does Redis support?",
      "Explain Redis persistence options (RDB vs AOF).",
      "How would you implement a distributed lock with Redis?",
      "What are Redis pub/sub use cases?",
      "How do you handle cache invalidation?"
    ]),
    ("kafka", [
      "Explain Kafka's architecture (brokers, topics, partitions).",
      "What is the difference between at-most-once and exactly-once delivery?",
      "How do consumer groups work?",
      "What is the role of ZooKeeper in Kafka?",
      "How would you handle message ordering?"
    ]),
    ("mongodb", [
      "When would you choose MongoDB over a relational database?",
      "Explain MongoDB's aggregation pipeline.",
      "What are the trade-offs of embedding vs referencing documents?",
      "How does sharding work in MongoDB?",
      "What are MongoDB indexes and how do they differ from SQL indexes?"
    ]),
    ("postgresql", [
      "What are PostgreSQL's advantages over MySQL?",
      "Explain JSONB support and when to use it.",
      "How do you optimize PostgreSQL query performance?",
      "What are CTEs and window functions?",
      "Explain PostgreSQL's MVCC concurrency model."
    ]),
    ("gcp", [
      "What is the difference between Cloud Run and App Engine?",
      "How does BigQuery differ from Cloud SQL?",
      "Explain GCP's IAM hierarchy.",
      "When would you use Pub/Sub vs Cloud Tasks?",
      "How does Cloud Storage compare to AWS S3?"
    ]),
    ("azure", [
      "Explain the difference between Azure Functions and App Service.",
      "What is Azure DevOps and how does it compare to GitHub Actions?",
      "How does Azure Active Directory work?",
      "What is Cosmos DB and when would you use it?",
      "Explain Azure's resource group hierarchy."
    ]),
    ("git", [
      "Explain the difference between merge and rebase.",
      "What is a Git stash and when would you use it?",
      "How do you resolve merge conflicts?",
      "Explain Git's branching strategies (GitFlow, trunk-based).",
      "What is the difference between reset and revert?"
    ])
  ]

  /** The tips of `_get_tips` for the four skills it knows. */
  const TipsMap: seq<(string, seq<string>)> := [
    ("system design", [
      "Practice drawing architecture diagrams",
      "Learn to estimate scale (users, QPS, storage)",
      "Study real-world systems (e.g., how Twitter/Netflix work)"
    ]),
    ("microservices", [
      "Understand trade-offs vs monolithic architecture",
      "Study common patterns: saga, CQRS, event sourcing",
      "Be prepared to discuss service boundaries"
    ]),
    ("kubernetes", [
      "Set up a local cluster with minikube or kind",
      "Practice writing YAML manifests from scratch",
      "Understand networking: Services, Ingress, NetworkPolicies"
    ]),
    ("docker", [
      "Practice writing Dockerfiles without a reference",
      "Understand layers and caching",
      "Learn docker-compose for multi-container setups"
    ])
  ]

  /** The two named tiers of `_estimate_difficulty`, by skill key. */
  const AdvancedSkills: set<string> := {"system design", "microservices", "kubernetes", "kafka", "terraform"}
  const IntermediateSkills: set<string> := {"docker", "aws", "gcp", "azure", "ci/cd", "graphql", "redis"}

  /** The five generic questions, as the text before and after the skill. */
  const GenericQuestionTemplates: seq<(string, string)> := [
    ("Explain the core concepts of ", "."),
    ("Describe a project where you used ", " effectively."),
    ("What are common challenges when working with ", "?"),
    ("How does ", " compare to alternative technologies?"),
    ("What best practices do you follow when using ", "?")
  ]

  /** Every curated skill has five questions. */
  lemma CuratedFive()
    ensures ValuesOfLength(FallbackQuestions, 5)
  {
  }

  /** Every tipped skill has three tips. */
  lemma TipsThree()
    ensures ValuesOfLength(TipsMap, 3)
  {
  }

  /** The generic questions for a skill without curated ones. */
  function GenericQuestions(skill: string): (qs: seq<string>)
    ensures |qs| == 5
    ensures forall k | 0 <= k < 5 :: qs[k] == GenericQuestionTemplates[k].0 + skill + GenericQuestionTemplates[k].1
  {
    seq(|GenericQuestionTemplates|, k requires 0 <= k < |GenericQuestionTemplates| =>
      GenericQuestionTemplates[k].0 + skill + GenericQuestionTemplates[k].1)
  }

  /** `_generate_fallback(skill, count)` over the curated questions
      `curated`: the first `count` curated questions of the skill's key
      when it has some, and otherwise the first `count` generic questions
      (`count` slices as in Python). */
  function GenerateFallback(curated: seq<(string, seq<string>)>, skill: string, count: int): (qs: seq<string>)
    ensures Get(curated, Key(skill)).Some? && Get(curated, Key(skill)).value != [] ==>
      qs == Prefix(Get(curated, Key(skill)).value, count)
    ensures Get(curated, Key(skill)).Some? && Get(curated, Key(skill)).value == [] ==>
      qs == Prefix(GenericQuestions(skill), count)
    ensures Key(skill) !in KeysOf(curated) ==> qs == Prefix(GenericQuestions(skill), count)
    ensures ValuesOfLength(curated, 5) && count >= 0 ==> |qs| == if count < 5 then count else 5
  {
    GetLength(curated, 5, Key(skill));
    var known := Get(curated, Key(skill));
    if known.Some? && known.value != [] then Prefix(known.value, count)
    else Prefix(GenericQuestions(skill), count)
  }

  /** A skill whose key is not curated gets generic questions, each
      naming the skill as given. */
  lemma FallbackGeneric(curated: seq<(string, seq<string>)>, skill: string, count: int, k: int)
    requires Key(skill) !in KeysOf(curated)
    requires 0 <= k < |GenerateFallback(curated, skill, count)|
    ensures Contains(GenerateFallback(curated, skill, count)[k], skill)
  {
    var t := GenericQuestionTemplates[k];
    ContainsMiddle(t.0, skill, t.1);
  }

  /** `_estimate_difficulty(skill)`, by the skill's key. */
  function EstimateDifficulty(skill: string): (d: string)
    ensures d == "Advanced" <==> Key(skill) in AdvancedSkills
    ensures d == "Intermediate" <==> Key(skill) in IntermediateSkills
    ensures d == "Foundational" <==> Key(skill) !in AdvancedSkills + IntermediateSkills
  {
    TiersDisjoint();
    if Key(skill) in AdvancedSkills then "Advanced"
    else if Key(skill) in IntermediateSkills then "Intermediate"
    else "Foundational"
  }

  /** No key is in both tiers, so the order of the two tests does not
      matter. */
  lemma TiersDisjoint()
    ensures AdvancedSkills !! IntermediateSkills
  {
  }

  /** The tips for a skill `_get_tips` does not know. */
  function GenericTips(skill: string): (tips: seq<string>)
    ensures |tips| == 3 && Contains(tips[0], skill) && Contains(tips[1], skill)
  {
    ContainsMiddle("Build a small project using ", skill, "");
    ContainsMiddle("Read the official ", skill, " documentation");
    ["Build a small project using " + skill + "",
     "Read the official " + skill + " documentation",
     "Practice explaining concepts out loud"]
  }

  /** `_get_tips(skill)` over the curated tips `curated`: the tips of the
      skill's key when it has some, and the generic tips otherwise. */
  function GetTips(curated: seq<(string, seq<string>)>, skill: string): (tips: seq<string>)
    ensures Get(curated, Key(skill)).Some? ==> tips == Get(curated, Key(skill)).value
    ensures Key(skill) !in KeysOf(curated) ==> tips == GenericTips(skill)
    ensures ValuesOfLength(curated, 3) ==> |tips| == 3
  {
    GetLength(curated, 3, Key(skill));
    match Get(curated, Key(skill))
    case Some(known) => known
    case None => GenericTips(skill)
  }

  /** What the language model's answer on one call amounted to: no model
      could be loaded, the call or the JSON decoding raised, the decoded
      value was not a list, or it was this list. */
  datatype LlmReply = NoModel | Raised | NotAList | Listed(items: seq<string>)

  /** `_generate_llm(skill, count)`: a non-empty list answer cut to
      `count`; in every other case the fallback questions. */
  function GenerateLlm(curated: seq<(string, seq<string>)>, skill: string, count: int, reply: LlmReply): (qs: seq<string>)
    ensures reply.Listed? && reply.items != [] ==> qs == Prefix(reply.items, count)
    ensures !(reply.Listed? && reply.items != []) ==> qs == GenerateFallback(curated, skill, count)
  {
    if reply.Listed? && reply.items != [] then Prefix(reply.items, count)
    else GenerateFallback(curated, skill, count)
  }

  /** Whatever the model answers, a non-negative `count` bounds the
      questions, and a positive one gets at least one question. */
  lemma LlmQuestionsBounded(curated: seq<(string, seq<string>)>, skill: string, count: int, reply: LlmReply)
    requires ValuesOfLength(curated, 5) && count >= 0
    ensures |GenerateLlm(curated, skill, count, reply)| <= count
    ensures count >= 1 ==> |GenerateLlm(curated, skill, count, reply)| >= 1
  {
  }

  /** One entry of the result: `{"skill", "questions", "difficulty", "tips"}`. */
  datatype Prep = Prep(skill: string, questions: seq<string>, difficulty: string, tips: seq<string>)

  /** The entry for one skill, `reply` being the model's answer when the
      model is used. */
  function PrepFor(questions: seq<(string, seq<string>)>, tips: seq<(string, seq<string>)>,
                   useLlm: bool, skill: string, count: int, reply: LlmReply): Prep
  {
    Prep(skill,
         if useLlm then GenerateLlm(questions, skill, count, reply) else GenerateFallback(questions, skill, count),
         EstimateDifficulty(skill),
         GetTips(tips, skill))
  }

  /** The entries for all skills, in order; `replies(i)` is the model's
      answer for the `i`-th skill. */
  function Preps(questions: seq<(string, seq<string>)>, tips: seq<(string, seq<string>)>,
                 useLlm: bool, skills: seq<string>, count: int, replies: nat -> LlmReply): (ps: seq<Prep>)
    ensures |ps| == |skills|
  {
    seq(|skills|, i requires 0 <= i < |skills| => PrepFor(questions, tips, useLlm, skills[i], count, replies(i)))
  }

  /** Each entry keeps its skill as given, has three tips and one of the
      three difficulties, and, without the model, `min(count, 5)`
      questions. */
  lemma PrepsEntries(questions: seq<(string, seq<string>)>, tips: seq<(string, seq<string>)>,
                     useLlm: bool, skills: seq<string>, count: int, replies: nat -> LlmReply, i: int)
    requires ValuesOfLength(questions, 5) && ValuesOfLength(tips, 3)
    requires 0 <= i < |skills|
    ensures var p := Preps(questions, tips, useLlm, skills, count, replies)[i];
      && p.skill == skills[i]
      && |p.tips| == 3
      && p.difficulty in {"Advanced", "Intermediate", "Foundational"}
      && (!useLlm && count >= 0 ==> |p.questions| == if count < 5 then count else 5)
  {
    var skill := skills[i];
    var p := PrepFor(questions, tips, useLlm, skill, count, replies(i));
    assert Preps(questions, tips, useLlm, skills, count, replies)[i] == p;
    var d := EstimateDifficulty(skill);
    assert d == "Advanced" || d == "Intermediate" || d == "Foundational";
    assert |GetTips(tips, skill)| == 3;
    if !useLlm && count >= 0 {
      assert |GenerateFallback(questions, skill, count)| == if count < 5 then count else 5;
    }
  }

  class Generator {
    const useLlm: bool
    /** The curated questions and tips the generator reads. */
    const fallbackQuestions: seq<(string, seq<string>)>
    const tipsMap: seq<(string, seq<string>)>

    /** `InterviewGenerator(use_llm=False)`. */
    constructor(useLlm: bool := false)
      ensures this.useLlm == useLlm
      ensures fallbackQuestions == FallbackQuestions && tipsMap == TipsMap
      ensures ValuesOfLength(fallbackQuestions, 5) && ValuesOfLength(tipsMap, 3)
    {
      this.useLlm := useLlm;
      fallbackQuestions := FallbackQuestions;
      tipsMap := TipsMap;
      CuratedFive();
      TipsThree();
    }

    /** `generate(missing_skills, questions_per_skill)`, five questions
        per skill by default: one entry per skill, in order; `replies(i)` is the model's answer for the
        `i`-th skill, consulted only when the model is used. */
    method Generate(missingSkills: seq<string>, questionsPerSkill: int := 5, replies: nat -> LlmReply)
      returns (results: seq<Prep>)
      ensures missingSkills == [] ==> results == []
      ensures results == Preps(fallbackQuestions, tipsMap, useLlm, missingSkills, questionsPerSkill, replies)
    {
      if missingSkills == [] {
        return [];
      }
      results := [];
      for i := 0 to |missingSkills|
        invariant |results| == i
        invariant forall j | 0 <= j < i ::
          results[j] == PrepFor(fallbackQuestions, tipsMap, useLlm, missingSkills[j], questionsPerSkill, replies(j))
      {
        var skill := missingSkills[i];
        var qs;
        if useLlm {
          qs := GenerateLlm(fallbackQuestions, skill, questionsPerSkill, replies(i));
        } else {
          qs := GenerateFallback(fallbackQuestions, skill, questionsPerSkill);
        }
        results := results + [Prep(skill, qs, EstimateDifficulty(skill), GetTips(tipsMap, skill))];
      }
    }
  }
}
