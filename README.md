# SkillVector Engine core, modelled in Dafny

SkillVector Engine compares a résumé with a job description. Given the skills the
candidate is missing, it builds a learning plan around them. This project models
the deterministic core of that plan and proves properties about it:

- **Learning-path planner** (`SkillPlanner`, `TopoSort`, `PlannerEstimates`,
  `SeedSkills`). The missing skills are matched case-insensitively, on
  `name.lower().strip()`. They are ordered with Kahn's breadth-first
  topological sort over the prerequisite edges. Ready skills are taken in
  alphabetical (code-point) order, and skills left on a cycle are appended
  in alphabetical order. Each skill then gets a time estimate from the
  32-skill catalog: its days, or 14 when the skill is unknown, and
  `max(1, round(days / 7))` weeks. The sort is an imperative method over the
  same maps and queue the program uses. It is proved equal to a recursive
  reference definition (`TopoSort.Kahn`), and the ordering properties are
  proved about that definition.
- **Full pipeline** (`Pipeline`). The match score gives the learning priority
  (High below 50, Medium below 75, Low otherwise). The path is planned from
  the catalog edges, and one piece of evidence is produced per step
  (`EvidenceEngine`).
- **Interview preparation** (`InterviewGenerator`). Questions come from a
  language model, whose reply is an input, or else from the curated
  five-question table or five generic templates. Each skill also gets a
  difficulty tier and three tips.
- **Rubrics and checklists** (`Rubric`). These are the catalog or generic
  criteria, whose weights sum to 100. The checklist is cut from the
  "Excellent" descriptions by splitting on commas, stripping, and
  right-stripping periods.
- **Portfolio projects** (`ProjectGenerator`). At most `max` catalog templates
  are offered per skill, or one generic project. Each notes the overlap with
  the candidate's existing skills. The roadmap is the projects in a stable
  sort by difficulty, grouped into phases, plus the total number of weeks.
- **Input guards** (`Validators`, `RateLimiter`, `Middleware`):
  - length validation of the résumé and the job description;
  - text sanitising;
  - the per-session sliding-window rate limiter, modelled as a class over a
    `map` of timestamp lists;
  - the monthly free-tier usage gate.

Shared helpers:

- **`Strings`:** Python's `lower` for ASCII, `strip` with Python's whitespace
  set, `split`, slicing including negative bounds, and `rstrip`.
- **`StringOrder`:** the code-point order Python's `sorted` uses, and an
  insertion sort.
- **`Tables`:** `dict.get` on a table written as its entries.
- **`Wrappers`:** `Option`.

Behaviour of the code that the model keeps as written:

- **Prerequisite edges.** The graph store is queried on every `plan` call,
  not once per planner. The model therefore takes the graph store's answer
  as a parameter of each call (`SkillPlanner.Planner.PlanLearningPath`).
- **Pipeline planner.** The pipeline constructs its planner without a
  graph-store client, so the full pipeline always plans over the catalog
  edges.
- **Cycle behaviour.** Skills left on a cycle are not dropped. The keys that
  were never visited are appended in sorted order, so every input key is
  emitted exactly once (`TopoSort.TopoSpecKeys`, `TopoSort.TopoSpecCovers`).
- **Spelling of the output.** Skills that differ only in case or surrounding
  whitespace are one skill. The output uses the last spelling of that key in
  the input (src/graph/skill_planner.py:114-116; `TopoSort.CaseMapLast`,
  `TopoSort.TopoSpecLastSpelling`).

## Model

| member | source | states |
|---|---|---|
| TopoSort.CaseMap | src/graph/skill_planner.py:114-116 | every input skill's key is in the case map, and each key maps to an input spelling that has that key |
| TopoSort.CaseMapLast | src/graph/skill_planner.py:114-116 | when several spellings share a key, the last one in the input wins |
| TopoSort.Keys | src/graph/skill_planner.py:118 | the skill set holds each key of the case map exactly once |
| TopoSort.SortedKeysStrict | src/graph/skill_planner.py:137 | the sorted skill set is strictly increasing and holds exactly the keys |
| TopoSort.Within | src/graph/skill_planner.py:121-126 | every kept edge has both ends in the skill set, and no edge is invented |
| TopoSort.RelevantFrom | src/graph/skill_planner.py:121-126 | every relevant edge is the lower-cased, stripped form of some input edge |
| TopoSort.RelevantHas | src/graph/skill_planner.py:121-126 | every input edge whose normalised ends are both in the skill set is kept |
| TopoSort.ReadyAmong | src/graph/skill_planner.py:137 | a key is ready exactly when no unvisited prerequisite points to it |
| TopoSort.Remove | src/graph/skill_planner.py:141-142 | visiting a key takes exactly one occurrence of it out of the unvisited keys and leaves the rest |
| TopoSort.RemoveMembers | src/graph/skill_planner.py:141-142 | after a visit, the unvisited keys are the previous ones minus the visited key, still without repeats |
| TopoSort.InDegreeRemove | src/graph/skill_planner.py:145-146 | visiting a key lowers each neighbour's in-degree by the number of its edges to that neighbour |
| TopoSort.Kahn | src/graph/skill_planner.py:137-156 | the reference order visits one key per unvisited key |
| TopoSort.KahnPermutation | src/graph/skill_planner.py:137-156 | the order is a permutation of the skill set: no key lost, none repeated |
| TopoSort.KahnNoEdges | src/graph/skill_planner.py:99-101 | with no edges the order is alphabetical |
| TopoSort.KahnHead | src/graph/skill_planner.py:137-150 | the first key visited is the alphabetically least ready key; with none ready, all keys come out in sorted order |
| TopoSort.LeftoverShape | src/graph/skill_planner.py:152-156 | the keys appended for a cycle are sorted and were unvisited |
| TopoSort.LeftoverSuffix | src/graph/skill_planner.py:152-156 | the cycle keys form the tail of the order, after all the visited keys |
| TopoSort.LeftoverWaiting | src/graph/skill_planner.py:152-156 | every key left over still has an unvisited prerequisite among the left-over keys, so it is on or behind a cycle |
| TopoSort.KahnPrecedes | src/graph/skill_planner.py:140-150 | a visited dependent comes after its prerequisite |
| TopoSort.RankedNoLeftover | src/graph/skill_planner.py:152-156 | when the edges climb some rank (the graph is acyclic), no key is left over |
| TopoSort.Restore | src/graph/skill_planner.py:158-159 | every output name is a spelling the case map holds; when the case map sends each key to a spelling of that key, the output names carry the order's keys, position by position |
| TopoSort.TopoOrderPermutation | src/graph/skill_planner.py:110-159 | the sorted keys are a permutation of the input's distinct keys |
| TopoSort.TopoSpecKeys | src/graph/skill_planner.py:110-159 | the output has one name per distinct key, and no two output names share a key |
| TopoSort.TopoSpecSpellings | src/graph/skill_planner.py:158-159 | every output name is one of the input spellings |
| TopoSort.TopoSpecCovers | src/graph/skill_planner.py:110-159 | every input skill appears in the output under some spelling with its key |
| TopoSort.TopoSpecLastSpelling | src/graph/skill_planner.py:114-116 | the last spelling of each key is the one that appears in the output |
| TopoSort.TopoSpecRespectsEdges | src/graph/skill_planner.py:92-159 | for an acyclic edge list, every prerequisite comes before its dependent |
| TopoSort.TopoSpecIgnoresOutsideEdge | src/graph/skill_planner.py:121-126 | an edge with an end outside the input set does not change the output |
| TopoSort.RelevantIgnoresOutsideEdge | src/graph/skill_planner.py:121-126 | an edge with an end outside the skill set is filtered away |
| TopoSort.TopoSpecWithoutEdges | src/graph/skill_planner.py:99-101 | skills joined by no edge come out in strictly alphabetical key order |
| TopoSort.BuildCaseMap | src/graph/skill_planner.py:114-116 | the lowercase-to-original loop builds the case map |
| TopoSort.BuildGraph | src/graph/skill_planner.py:128-134 | the adjacency lists hold each key's successors in edge order, and the in-degree map holds each key's count of incoming relevant edges |
| TopoSort.SortedElems | src/graph/skill_planner.py:137 | sorting a set gives the strictly increasing list of its elements |
| TopoSort.InitialQueue | src/graph/skill_planner.py:137 | the first queue is exactly the sorted ready keys of the reference order |
| TopoSort.Release | src/graph/skill_planner.py:145-148 | each neighbour's in-degree drops by its multiplicity, and the queue gains exactly the neighbours that reach zero, without repeats |
| TopoSort.StepQueue | src/graph/skill_planner.py:149-150 | the re-sorted queue after a visit is the ready list of the remaining keys |
| TopoSort.StepPost | src/graph/skill_planner.py:140-150 | one iteration of the BFS loop keeps its relation to the reference order |
| TopoSort.Drain | src/graph/skill_planner.py:140-150 | the BFS loop ends with an empty queue and the state the reference order predicts |
| TopoSort.Finish | src/graph/skill_planner.py:152-156 | appending the sorted unvisited keys completes the reference order |
| TopoSort.KahnOrder | src/graph/skill_planner.py:128-156 | the imperative Kahn's algorithm returns the reference order |
| TopoSort.TopologicalSort | src/graph/skill_planner.py:92-159 | `_topological_sort` returns the reference order, restored to the input's casing |
| StringOrder.Sort | src/graph/skill_planner.py:150 | `sorted` returns a sorted permutation of its input |
| StringOrder.SortedUnique | src/graph/skill_planner.py:150 | two strictly sorted lists of the same strings are equal, so the re-sort is deterministic |
| SkillPlanner.PrerequisiteEdges | src/graph/skill_planner.py:69-80 | a non-empty graph-store answer is used; without a client, on failure or on an empty answer, the catalog edges are used |
| SkillPlanner.EdgesNeverEmpty | src/graph/skill_planner.py:69-80 | the planner always has at least one prerequisite edge |
| SkillPlanner.Planner.constructor | src/graph/skill_planner.py:20-22 | the planner keeps the optional client and loads the catalog estimates |
| SkillPlanner.Planner.PlanLearningPath | src/graph/skill_planner.py:30-65 | no missing skills give an empty path; otherwise the path is the sorted skills with their estimates |
| SkillPlanner.Planner.Plan | src/graph/skill_planner.py:26-28 | `plan` is `plan_learning_path` |
| SkillPlanner.LearningPathEmpty | src/graph/skill_planner.py:35-37 | no missing skills give an empty path |
| SkillPlanner.LearningPathSkills | src/graph/skill_planner.py:30-65 | the path has one step per distinct key, each step names an input skill, and no two steps share a key |
| SkillPlanner.LearningPathCovers | src/graph/skill_planner.py:30-65 | every missing skill has a step |
| SkillPlanner.PathRespectsPrerequisites | src/graph/skill_planner.py:30-65 | when the edges between planned skills climb some rank (whatever the other edges do), a prerequisite's step comes before its dependent's |
| PlannerEstimates.Round7 | src/graph/skill_planner.py:52 | the rounded quotient of days by 7 is the nearest whole number of weeks |
| PlannerEstimates.Round7Unique | src/graph/skill_planner.py:52 | the nearest whole number of weeks is the one Python's `round` gives |
| PlannerEstimates.Weeks | src/graph/skill_planner.py:52 | at least one week; above one week it is the nearest whole number of weeks; exactly one week for 10 days or fewer |
| PlannerEstimates.EstimatedDays | src/graph/skill_planner.py:50-51 | a known key gives its catalogue days, an unknown one gives 14 |
| PlannerEstimates.Steps | src/graph/skill_planner.py:48-58 | one step per ordered skill, in order, each for the skill at its position |
| PlannerEstimates.AttachEstimates | src/graph/skill_planner.py:48-58 | the estimate loop builds those steps |
| PlannerEstimates.StepsEstimates | src/graph/skill_planner.py:48-58 | each step keeps its skill's spelling and position and carries the catalogue days or the default |
| PlannerEstimates.CasingVariantsAgree | src/graph/skill_planner.py:50-52 | two spellings with the same key get the same days and weeks |
| PlannerEstimates.CatalogEstimate | src/graph/seed_skills.py:107-109 | a catalog skill, in any casing, gets its positive catalogue days |
| SeedSkills.GetSkillNames | src/graph/seed_skills.py:117-119 | the 32 display names, in catalog order |
| SeedSkills.CatalogKeysDistinct | src/graph/seed_skills.py:14-57 | no two catalog skills share a lowercase key |
| SeedSkills.CatalogLowerNames | src/graph/seed_skills.py:14-57 | each catalog name's lower-cased form is also its stripped key |
| SeedSkills.CatalogNamesDistinct | src/graph/seed_skills.py:14-57 | catalog names are distinct, even ignoring case |
| SeedSkills.CatalogDaysPositive | src/graph/seed_skills.py:14-57 | every catalog estimate is positive |
| SeedSkills.SkillEstimatesOfCatalog | src/graph/seed_skills.py:107-109 | the estimate map's keys are exactly the lowercase names, each mapped to its skill's days |
| SeedSkills.PrerequisitesByIndex | src/graph/seed_skills.py:64-102 | the 30 edges join catalog display names |
| SeedSkills.PrerequisiteEndpoints | src/graph/seed_skills.py:112-114 | every edge endpoint is a catalog skill, and its key is that skill's key |
| SeedSkills.LevelsClimb | src/graph/seed_skills.py:64-102 | a level assignment exists under which every edge climbs |
| SeedSkills.PrerequisitesClimbLevels | src/graph/seed_skills.py:64-102 | the catalog prerequisite graph is acyclic: its edges climb a rank on keys |
| Pipeline.PriorityOf | src/pipeline/full_pipeline.py:20-25 | High exactly below 50, Medium exactly from 50 to below 75, Low exactly from 75 |
| Pipeline.PriorityMonotone | src/pipeline/full_pipeline.py:20-25 | a higher score never gives a more urgent priority |
| Pipeline.AsPathStep | src/pipeline/full_pipeline.py:28-31 | each path step is handed to the evidence engine with its skill and weeks present |
| Pipeline.AsPathSteps | src/pipeline/full_pipeline.py:28-31 | the whole path is handed over step by step |
| Pipeline.Run | src/pipeline/full_pipeline.py:12-40 | the result carries the score, its priority, the missing skills, the catalog-edge learning path and that path's evidence |
| Pipeline.EvidencePerStep | src/pipeline/full_pipeline.py:28-31 | one evidence item per path step, naming the step's skill (up to case) and carrying its weeks |
| EvidenceEngine.EvidenceFor | src/evidence/evidence_engine.py:21-55 | Docker and Kubernetes (any case) get their fixed projects; any other skill gets a practical project named after it with a README; the weeks default to 1 |
| EvidenceEngine.EvidenceNamesSkill | src/evidence/evidence_engine.py:21-55 | the evidence names the step's skill up to case and always delivers a README |
| EvidenceEngine.EvidenceList | src/evidence/evidence_engine.py:6-57 | one evidence item per step |
| EvidenceEngine.Generate | src/evidence/evidence_engine.py:6-57 | the loop builds the evidence list; an empty path gives none |
| EvidenceEngine.EvidenceListAppend | src/evidence/evidence_engine.py:6-57 | the evidence of a joined path is the two paths' evidence joined |
| InterviewGenerator.CuratedFive | src/evidence/interview_generator.py:17-158 | every curated skill has five questions |
| InterviewGenerator.TipsThree | src/evidence/interview_generator.py:287-308 | every curated skill has three tips |
| InterviewGenerator.GenericQuestions | src/evidence/interview_generator.py:262-268 | five generic questions, each the template with the skill inserted |
| InterviewGenerator.GenerateFallback | src/evidence/interview_generator.py:253-268 | a curated skill gets its questions cut to `count`; an unknown skill, or one whose curated list is empty, gets the generic ones cut to `count`; with curated lists of five, `min(count, 5)` questions |
| InterviewGenerator.FallbackGeneric | src/evidence/interview_generator.py:262-268 | every generic question names the skill |
| InterviewGenerator.EstimateDifficulty | src/evidence/interview_generator.py:270-280 | Advanced exactly for the five advanced keys, Intermediate exactly for the seven intermediate keys, Foundational exactly otherwise |
| InterviewGenerator.TiersDisjoint | src/evidence/interview_generator.py:273-274 | no skill is in both tiers |
| InterviewGenerator.GenericTips | src/evidence/interview_generator.py:310-314 | three generic tips, the first two naming the skill |
| InterviewGenerator.GetTips | src/evidence/interview_generator.py:282-314 | a curated skill gets its tips, an unknown one the generic tips; always three |
| InterviewGenerator.GenerateLlm | src/evidence/interview_generator.py:219-251 | a non-empty list reply is cut to `count`; no model, a raised error, a non-list or an empty list falls back |
| InterviewGenerator.LlmQuestionsBounded | src/evidence/interview_generator.py:219-268 | never more than `count` questions, and at least one when `count` is positive |
| InterviewGenerator.Preps | src/evidence/interview_generator.py:204-215 | one preparation entry per skill |
| InterviewGenerator.PrepsEntries | src/evidence/interview_generator.py:204-215 | each entry names its skill, has three tips and a valid tier; without the model, `min(count, 5)` questions |
| InterviewGenerator.Generator.constructor | src/evidence/interview_generator.py:167-169 | the generator keeps `use_llm` and the curated tables |
| InterviewGenerator.Generator.Generate | src/evidence/interview_generator.py:182-217 | no skills give no entries; otherwise the loop builds each skill's entry |
| Rubric.CatalogWeights | src/evidence/rubric.py:13-322 | the criteria weights of every catalog rubric sum to 100 |
| Rubric.GenericCriteria | src/evidence/rubric.py:409-450 | four generic criteria |
| Rubric.GenericWeights | src/evidence/rubric.py:409-450 | the generic weights sum to 100 |
| Rubric.GenericCriteriaNameSkill | src/evidence/rubric.py:414-421 | every level of the technical criterion names the skill |
| Rubric.RubricFor | src/evidence/rubric.py:353-372 | the rubric keeps the skill's spelling, the scoring guide and 100 points; a catalog skill gets its criteria, an unknown one the generic criteria |
| Rubric.RubricWeighs | src/evidence/rubric.py:353-372 | the criteria weights always sum to the total points |
| Rubric.Rubrics | src/evidence/rubric.py:332-374 | one rubric per skill, in order, under that skill's spelling, out of 100 points with the fixed scoring guide; over a catalog whose rubrics weigh 100, every rubric's weights sum to its points |
| Rubric.Cleaned | src/evidence/rubric.py:389-390 | one piece per comma-separated part, each either empty or a comma-free piece that does not start with whitespace and does not end with a period |
| Rubric.ItemsOf | src/evidence/rubric.py:391-396 | every item made is a non-empty cleaned piece, under the criterion's name |
| Rubric.ItemsOfComplete | src/evidence/rubric.py:391-396 | the other direction: every non-empty piece is made into an item, under the criterion's name |
| Rubric.ItemsOfAppend | src/evidence/rubric.py:391-396 | items are made in input order: the items of joined lists are the items of each list, one after the other |
| Rubric.GenericChecklist | src/evidence/rubric.py:452-462 | six generic items |
| Rubric.GenericChecklistNamesSkill | src/evidence/rubric.py:456 | the first generic item names the skill |
| Rubric.CleanPieceShape | src/evidence/rubric.py:390 | a cleaned piece is empty, or is non-empty, comma-free, does not start with whitespace and does not end with a period (a space before a final period survives) |
| Rubric.ChecklistItemSound | src/evidence/rubric.py:387-398 | every checklist item is the cleaned piece of some criterion's Excellent text, under that criterion's name |
| Rubric.CriterionItemsComplete | src/evidence/rubric.py:388-396 | every non-empty cleaned piece of a criterion's Excellent text is one of its items |
| Rubric.ChecklistStep | src/evidence/rubric.py:387-396 | the checklist of one more criterion is the checklist so far followed by that criterion's items |
| Rubric.ChecklistPrefix | src/evidence/rubric.py:387-396 | the checklist of the first criteria begins the whole checklist: later criteria only append |
| Rubric.ChecklistComplete | src/evidence/rubric.py:387-398 | the converse of `ChecklistItemSound`: every non-empty cleaned piece of every criterion is on the checklist under that criterion's name |
| Rubric.FirstPieceKept | src/evidence/rubric.py:389-393 | an Excellent text that opens with a capital letter has a non-empty first cleaned piece |
| Rubric.ChecklistNonEmptyOver | src/evidence/rubric.py:382-398 | over a table whose rubrics open with a capital letter, every skill's checklist has items |
| Rubric.CatalogOpens | src/evidence/rubric.py:13-322 | every catalog rubric's first Excellent text opens with a capital letter |
| Rubric.ChecklistNonEmpty | src/evidence/rubric.py:376-398 | every skill's checklist over the catalog has at least one item, a catalog skill's and any other skill's alike |
| Rubric.AppendItems | src/evidence/rubric.py:391-396 | the inner loop appends exactly the kept items |
| Rubric.Engine.constructor | src/evidence/rubric.py:13-322 | the engine holds the catalog, whose rubrics all weigh 100 |
| Rubric.Engine.Generate | src/evidence/rubric.py:332-374 | no skills give no rubrics; otherwise one rubric per skill |
| Rubric.Engine.EvaluateChecklist | src/evidence/rubric.py:376-398 | an unknown skill gets the generic checklist; a catalog skill gets the items cut from its criteria |
| ProjectGenerator.CatalogValid | src/evidence/project_generator.py:14-237 | every catalog skill has templates, each with a known difficulty |
| ProjectGenerator.EstimateWeeks | src/evidence/project_generator.py:308-311 | Beginner 1, Intermediate 2, Advanced 3, anything else 2 |
| ProjectGenerator.GenericProject | src/evidence/project_generator.py:313-328 | an Intermediate two-week project demonstrating only the skill, with no overlap note |
| ProjectGenerator.GenericProjectTitle | src/evidence/project_generator.py:318 | the generic title names the skill |
| ProjectGenerator.EntryForTemplate | src/evidence/project_generator.py:280-298 | the entry copies the template and estimates weeks from its difficulty; an overlap note is present exactly when a demonstrated skill is already known, and it holds only known demonstrated skills (`EntryForOverlap` gives the converse) |
| ProjectGenerator.EntryForOverlap | src/evidence/project_generator.py:291-297 | every known skill that a template demonstrates, up to case, is in the overlap note: the note is the whole overlap `existing & set(s.lower() for s in skills_demonstrated)` |
| ProjectGenerator.KnownSkillProjects | src/evidence/project_generator.py:274-300 | a catalog skill gets its first `min(max, n)` templates, in order |
| ProjectGenerator.UnknownSkillProject | src/evidence/project_generator.py:301-303 | an unknown skill gets exactly the generic project |
| ProjectGenerator.SkillProjectsDifficulties | src/evidence/project_generator.py:273-303 | every project of a skill has a known difficulty |
| ProjectGenerator.AllProjectsDifficulties | src/evidence/project_generator.py:247-306 | every generated project has a known difficulty |
| ProjectGenerator.OneSkillProject | src/evidence/project_generator.py:270-286 | at `max = 1` over a valid catalog, a skill gets exactly one project, of at least one week |
| ProjectGenerator.OneProjectPerSkill | src/evidence/project_generator.py:339 | the roadmap's projects over a valid catalog are one per skill, and their weeks add up to at least the number of skills |
| ProjectGenerator.Rank | src/evidence/project_generator.py:345-346 | the sort key is 0, 1 or 2 |
| ProjectGenerator.RankOrder | src/evidence/project_generator.py:345-346 | Beginner ranks 0, Advanced ranks 2, and everything else ranks 1 |
| ProjectGenerator.WithRankMembers | src/evidence/project_generator.py:346 | a rank's projects are taken from the list and all have that rank |
| ProjectGenerator.SortStable | src/evidence/project_generator.py:346 | the sort is stable: the projects of each rank keep their order |
| ProjectGenerator.SortOrdered | src/evidence/project_generator.py:346 | the sorted projects are in non-decreasing difficulty rank |
| ProjectGenerator.SortPermutes | src/evidence/project_generator.py:346 | the sort is a permutation |
| ProjectGenerator.TotalWeeksAppend | src/evidence/project_generator.py:369 | the week total of a joined list is the sum of the parts' totals |
| ProjectGenerator.TotalWeeksSorted | src/evidence/project_generator.py:344-369 | sorting does not change the week total |
| ProjectGenerator.FoldFlatten | src/evidence/project_generator.py:348-367 | the closed phases followed by the open phase are the projects in order |
| ProjectGenerator.FoldShape | src/evidence/project_generator.py:348-361 | closed phases are non-empty; the open phase is empty only for no projects; the current difficulty is the last project's |
| ProjectGenerator.FoldGroups | src/evidence/project_generator.py:348-361 | with no blank difficulty, each phase has one difficulty, neighbouring phases differ, and the open phase follows suit |
| ProjectGenerator.PhasesKeep | src/evidence/project_generator.py:348-367 | the phases hold every project once, in order, and none is empty |
| ProjectGenerator.PhasesGroup | src/evidence/project_generator.py:348-367 | with no blank difficulty, each phase holds one difficulty and consecutive phases differ |
| ProjectGenerator.GroupPhases | src/evidence/project_generator.py:348-367 | the phase loop builds exactly those phases |
| ProjectGenerator.SortDifficulties | src/evidence/project_generator.py:344-346 | sorted projects of known difficulties have no blank difficulty |
| ProjectGenerator.Generator.constructor | src/evidence/project_generator.py:14-237 | the generator holds the valid catalog |
| ProjectGenerator.Generator.Generate | src/evidence/project_generator.py:247-306 | no missing skills give no projects; otherwise each skill's projects, in order, with overlap against the lower-cased existing skills |
| ProjectGenerator.Generator.ProjectsForSkill | src/evidence/project_generator.py:274-303 | the inner loop builds one skill's projects |
| ProjectGenerator.Generator.GetRoadmap | src/evidence/project_generator.py:330-371 | no projects give no phases and 0 weeks; otherwise the phases are the sorted one-per-skill projects, grouped by difficulty into non-empty, uniform, separated phases; the phases hold one project per skill, and the total is the sum of their weeks, at least the number of skills and so positive for any non-empty skill list |
| Validators.ValidateOrder | src/utils/validators.py:16-23 | blank text is "required", then short stripped text is "too short", then over-long raw text is "too long"; valid exactly otherwise, with an empty message |
| Validators.ValidateResume | src/utils/validators.py:10-23 | a résumé is valid exactly when its stripped length is at least 50 and its raw length at most 50,000; otherwise one of the three résumé messages |
| Validators.ValidateJobDescription | src/utils/validators.py:26-39 | a job description is valid exactly when its stripped length is at least 50 and its raw length at most 20,000; otherwise one of the three job messages |
| Validators.Without | src/utils/validators.py:49 | the filtered text keeps only characters of the input outside the class |
| Validators.WithoutKeeps | src/utils/validators.py:49 | a character survives exactly when it occurred and is outside the class |
| Validators.WithoutNone | src/utils/validators.py:53 | a text with nothing to remove is unchanged |
| Validators.NewlineRunSpec | src/utils/validators.py:51 | the measured run is all newlines and is followed by something else |
| Validators.CollapseNoFour | src/utils/validators.py:51 | after the collapse no four newlines follow each other |
| Validators.CollapseKeeps | src/utils/validators.py:51 | a text without four newlines in a row is unchanged by the collapse |
| Validators.CollapseKeepsChars | src/utils/validators.py:51 | the collapse removes nothing but newlines |
| Validators.SanitizeClean | src/utils/validators.py:42-54 | the result has no NUL and no other control character, and starts and ends with no whitespace |
| Validators.SanitizeCleanText | src/utils/validators.py:42-54 | a text with no control characters and no four newlines in a row is only stripped |
| Validators.SanitizeLeavesFourNewlines | src/utils/validators.py:51-53 | as written, a control character between two newline pairs leaves four newlines in a row |
| Validators.SanitizeCorrectedNoFour | src/utils/validators.py:51-53 | with control characters removed before the collapse, no four newlines follow each other |
| Validators.SanitizeCorrectedClean | src/utils/validators.py:42-54 | the reordered sanitiser still removes NUL and control characters and strips the edges |
| RateLimiter.Recent | src/utils/rate_limiter.py:32-34 | the pruned list is never longer than the original |
| RateLimiter.RecentSpec | src/utils/rate_limiter.py:32-34 | a timestamp stays exactly when it is inside the window |
| RateLimiter.RecentTwice | src/utils/rate_limiter.py:32-34 | pruning again at the same time changes nothing |
| RateLimiter.Truncate | src/utils/rate_limiter.py:37 | `int()` truncates toward zero |
| RateLimiter.WaitMinutes | src/utils/rate_limiter.py:37-38 | at least one minute; from a minute on, the whole minutes until the oldest request leaves the window |
| RateLimiter.WaitWithinWindow | src/utils/rate_limiter.py:37-38 | the wait never exceeds the window in minutes |
| RateLimiter.Decide | src/utils/rate_limiter.py:36-45 | allowed exactly below the limit; denied with the wait message otherwise; a limit of zero or less with no recent request raises |
| RateLimiter.Limiter.constructor | src/utils/rate_limiter.py:14-17 | defaults of 10 requests per 3600 seconds and no sessions |
| RateLimiter.Limiter.Check | src/utils/rate_limiter.py:19-45 | the session's list is pruned, `now` is appended exactly when allowed, no other session changes, and no list exceeds the limit |
| RateLimiter.Limiter.Remaining | src/utils/rate_limiter.py:47-52 | between 0 and the limit; zero exactly when the window is full; otherwise the free places in the window |
| RateLimiter.Limiter.RemainingPredictsCheck | src/utils/rate_limiter.py:36-52 | requests remain exactly when a check at the same time would be allowed |
| Middleware.CheckUsageLimit | api/middleware.py:18-40 | anonymous and pro users pass; other users (a missing tier counts as free) pass exactly below 3 analyses, and are otherwise blocked with the limit message |
| Middleware.UsageMonotone | api/middleware.py:33-39 | using more never unblocks a user, and only non-pro users are ever blocked |
| Middleware.LimitMessageNamesUpgrade | api/middleware.py:36-39 | the blocked message names the limit and offers the upgrade |
| Strings.Lower | src/graph/skill_planner.py:50 | the length is unchanged, no capital letter is left, each capital becomes its small letter, and every other character is kept |
| Strings.StripSpec | src/graph/skill_planner.py:116 | the stripped text is the middle slice, all whitespace is cut from both ends, and no edge whitespace remains |
| Strings.JoinSplit | src/evidence/rubric.py:390 | joining the comma-split parts gives the text back |
| Strings.StripTrailing | src/evidence/rubric.py:390 | the result is a prefix, only periods were removed, and it does not end in a period |
| Tables.Get | src/evidence/rubric.py:355 | a found value is the table's entry for the key; nothing is found exactly when the key is absent |
| Tables.GetEntry | src/evidence/rubric.py:355 | in a table without repeated keys, each key finds its own entry |

## Left out

- The language model, its prompt and `_get_llm`'s lazy construction: the model's reply is an input (`LlmReply`, one per skill), and `job_context` only enters the prompt.
- The graph-store query (`_fetch_edges_from_neo4j`): its answer is an input, `Fetched(edges)` or `Failed`, given to each planning call.
- The clock: `time.time()` becomes the `now` parameter, with timestamps as reals.
- The skill-gap analyser that produces the score and missing skills: it is an input (`Pipeline.GapResult`). So is the user store's `count_monthly_analyses`, which `Middleware.CheckUsageLimit` receives as `used`, and the dictionary entries of the user as a record.
- Logging everywhere, and the `target_role` and `project_context` parameters, which the code accepts but never reads.
- ProjectGenerator.EntryForTemplate: leverage is modelled as an optional set, exactly the overlap (`EntryForTemplate` and `EntryForOverlap`), not the joined sentence. The sentence joins a Python set, whose iteration order is unspecified.
- Python's Unicode `lower()`: only ASCII letters are lowered (`Strings.LowerChar`); other characters are kept.
- ProjectGenerator.PhasesGroup: uniform, separated phases are proved only when no project has a blank difficulty. The loop tests `current_difficulty` for truthiness, so a blank difficulty never closes a phase. Every catalog and generic project has a known difficulty (`ProjectGenerator.SortDifficulties`).
- The catalogs are class constants set by each constructor. Mutation of the returned dictionaries by callers is outside the model.
- The rate limiter's `defaultdict` creates an empty entry on a read. `Check` always writes the session's entry, which matches. `Remaining` uses `.get` and creates nothing.
- RateLimiter.Limiter.Check: concurrent calls on one limiter are not modelled. The limiter has no lock and is assumed to be used by one thread.
- Other versions of the planner, gap engine and evidence engine found elsewhere in the repository are not part of this model.

## Findings

| source | as written | input that shows it | evidently intended | confidence | as-written member | corrected member |
|---|---|---|---|---|---|---|
| src/utils/validators.py:51-53 | runs of four or more newlines are collapsed before control characters are removed, and removing a control character can join two shorter runs | `"a\n\n\x01\n\nb"` sanitises to `"a\n\n\n\nb"`, which has four newlines in a row | the sanitised text never holds four newlines in a row | not executed | Validators.SanitizeLeavesFourNewlines | Validators.SanitizeCorrectedNoFour |
