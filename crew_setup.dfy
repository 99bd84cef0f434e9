/** The fixed ten-stage planning crew (Backend/crew_setup.py). Agents are identities:
    what they say is produced by the model service and is not part of this model. */
module CrewSetup {
  import opened Json
  import opened FreeText

  /** Every agent the backend imports, by its variable name. */
  datatype Agent =
    | ProjectIntakeAnalyst | BusinessObjectivesMapper | RiskIdentifier
    | ArchitectureRecommender | TimelineEstimator | TrendResearchAgent
    | TicketGeneratorAgent | EffortEstimatorAgent | DependencyMapperAgent
    | SprintPlannerAgent | CriticAgent
    | DevelopmentTaskExtractor | FrontendTaskAgent | BackendTaskAgent
    | DatabaseTaskAgent | CloudTaskAgent | DevopsTaskAgent | DesignTaskAgent

  datatype Task = Task(agent: Agent, description: string, expectedOutput: string)

  datatype Crew = Crew(agents: seq<Agent>, tasks: seq<Task>, process: string)

  /** What build_crew can be handed: a pydantic model (it has a `dict` method) or any other
      value, in practice the dict normalize_input returns. */
  datatype CrewInput = ModelInput(model: ProjectInput) | PlainInput(value: Json)

  /** `input.dict()` of the pydantic model. */
  function ModelDict(pi: ProjectInput): Json {
    JObj(map[
      KeyName(ProjectName) := FieldValue(pi, ProjectName),
      KeyName(ProjectDescription) := FieldValue(pi, ProjectDescription),
      KeyName(Stakeholder) := FieldValue(pi, Stakeholder),
      KeyName(Category) := FieldValue(pi, Category),
      KeyName(StartDate) := FieldValue(pi, StartDate),
      KeyName(ExpectedDuration) := FieldValue(pi, ExpectedDuration),
      KeyName(DurationUnit) := FieldValue(pi, DurationUnit),
      KeyName(TeamSize) := FieldValue(pi, TeamSize),
      KeyName(Budget) := FieldValue(pi, Budget),
      KeyName(Experience) := FieldValue(pi, Experience),
      KeyName(LocationType) := FieldValue(pi, LocationType),
      KeyName(Frontend) := FieldValue(pi, Frontend),
      KeyName(Backend) := FieldValue(pi, Backend),
      KeyName(Database) := FieldValue(pi, Database),
      KeyName(Cloud) := FieldValue(pi, Cloud),
      KeyName(Devops) := FieldValue(pi, Devops),
      KeyName(Design) := FieldValue(pi, Design),
      KeyName(OtherTech) := FieldValue(pi, OtherTech)])
  }

  /** The summary every stage but the last embeds (lines 21-25): `str(input.dict())` for a
      model, `str(input)` otherwise. `show` is Python's str() of a value. */
  function Summary(input: CrewInput, show: Json -> string): (s: string)
    ensures input.PlainInput? ==> s == show(input.value)
    ensures input.ModelInput? ==> s == show(ModelDict(input.model))
  {
    match input
    case ModelInput(pi) => show(ModelDict(pi))
    case PlainInput(v) => show(v)
  }

  /** The workflow order the comment on lines 27-28 announces. */
  const WorkflowOrder: seq<Agent> := [
    ProjectIntakeAnalyst, BusinessObjectivesMapper, RiskIdentifier, ArchitectureRecommender,
    EffortEstimatorAgent, DependencyMapperAgent, SprintPlannerAgent, TrendResearchAgent,
    CriticAgent, TicketGeneratorAgent]

  /** The opening of each of the first nine task descriptions; the summary follows it. */
  const Opening0: string := "Refine and validate this project input: "
  const Opening1: string := "Extract goals and KPIs from: "
  const Opening2: string := "Analyze risks for: "
  const Opening3: string := "Recommend a system architecture for: "
  const Opening4: string := "Estimate effort (developer-days or story points) for major deliverables in: "
  const Opening5: string := "Identify task dependencies and opportunities for parallel execution for: "
  const Opening6: string := "Distribute deliverables into realistic 2-week sprints for a 6-month roadmap for: "
  const Opening7: string := "Suggest modern best practices and tooling updates for: "
  const Opening8: string := "Review the draft project plan for realism, gaps, and execution readiness based on: "

  function Opening(i: nat): string
    requires i < 9
  {
    match i
    case 0 => Opening0
    case 1 => Opening1
    case 2 => Opening2
    case 3 => Opening3
    case 4 => Opening4
    case 5 => Opening5
    case 6 => Opening6
    case 7 => Opening7
    case _ => Opening8
  }

  /** The last stage's description, which does not embed the summary. */
  const TicketDescription: string :=
    "Extract actionable tasks from the project plan and suggest them as JIRA ticket summaries and descriptions"

  /** The expected output the crew is told to produce at each stage. */
  const Expected0: string := "A well-structured summary of validated and completed input fields"
  const Expected1: string := "A list of business goals and measurable KPIs for this project"
  const Expected2: string := "A list of risks with brief mitigation strategies relevant to the project\U{2019}s tech, team, and scope"
  const Expected3: string := "A detailed architecture plan based on the provided tech stack, budget, and team size"
  const Expected4: string := "Effort estimation for each major deliverable/task, with totals per phase"
  const Expected5: string := "List of dependencies, parallel work streams, and identification of critical path"
  const Expected6: string := "12 sprints with allocated features, parallel execution where possible, and milestones"
  const Expected7: string := "A brief overview of current industry trends, modern tooling choices, and best practices for similar systems"
  const Expected8: string := "Critique and recommendations for improving the plan so it\U{2019}s execution-ready"
  const Expected9: string := "A JSON list of {\"summary\": ..., \"description\": ...} for each suggested ticket, derived from key project plan sections"

  function Expected(i: nat): string
    requires i < 10
  {
    match i
    case 0 => Expected0
    case 1 => Expected1
    case 2 => Expected2
    case 3 => Expected3
    case 4 => Expected4
    case 5 => Expected5
    case 6 => Expected6
    case 7 => Expected7
    case 8 => Expected8
    case _ => Expected9
  }

  function TaskAgents(tasks: seq<Task>): (r: seq<Agent>)
    ensures |r| == |tasks| && forall i :: 0 <= i < |tasks| ==> r[i] == tasks[i].agent
  {
    seq(|tasks|, i requires 0 <= i < |tasks| => tasks[i].agent)
  }

  /** All elements differ. */
  predicate Distinct<T(==)>(xs: seq<T>) {
    forall i, j :: 0 <= i < j < |xs| ==> xs[i] != xs[j]
  }

  /** Each agent of the workflow appears once, and the timeline estimator is not one of them. */
  lemma WorkflowOrderDistinct()
    ensures Distinct(WorkflowOrder) && TimelineEstimator !in WorkflowOrder
  {
  }

  /** Stage `i` of the crew (one Task(...) of lines 29-80). */
  function Stage(i: nat, summary: string): Task
    requires i < 10
  {
    Task(WorkflowOrder[i], if i < 9 then Opening(i) + summary else TicketDescription, Expected(i))
  }

  /** build_crew (lines 20-100): ten tasks in the workflow order, the crew's agent list the
      same agents in the same order, each agent once and the timeline estimator nowhere;
      each of the first nine descriptions is its fixed opening followed by the summary,
      the last one is fixed, and the process is sequential. */
  function BuildCrew(input: CrewInput, show: Json -> string): (crew: Crew)
    ensures |crew.tasks| == 10
    ensures TaskAgents(crew.tasks) == WorkflowOrder && crew.agents == WorkflowOrder
    ensures Distinct(crew.agents) && TimelineEstimator !in crew.agents
    ensures forall i :: 0 <= i < 9 ==> crew.tasks[i].description == Opening(i) + Summary(input, show)
    ensures crew.tasks[9].description == TicketDescription
    ensures forall i :: 0 <= i < 10 ==> crew.tasks[i].expectedOutput == Expected(i)
    ensures crew.process == "sequential"
  {
    var summary := Summary(input, show);
    var tasks := seq(10, i requires 0 <= i < 10 => Stage(i, summary));
    assert TaskAgents(tasks) == WorkflowOrder;
    WorkflowOrderDistinct();
    Crew(WorkflowOrder, tasks, "sequential")
  }

  /** The ticket stage ignores the input: its task is the same for every input. */
  lemma TicketTaskFixed(x: CrewInput, y: CrewInput, show: Json -> string)
    ensures BuildCrew(x, show).tasks[9] == BuildCrew(y, show).tasks[9]
    ensures BuildCrew(x, show).tasks[9].agent == TicketGeneratorAgent
  {
    assert BuildCrew(x, show).tasks[9].agent == TaskAgents(BuildCrew(x, show).tasks)[9];
    assert BuildCrew(y, show).tasks[9].agent == TaskAgents(BuildCrew(y, show).tasks)[9];
  }

  /** Each of the first nine descriptions ends with the summary. */
  lemma SummaryEmbedded(input: CrewInput, show: Json -> string, i: nat)
    requires i < 9
    ensures var d := BuildCrew(input, show).tasks[i].description;
      |Summary(input, show)| <= |d| && d[|d| - |Summary(input, show)|..] == Summary(input, show)
  {
    var d := BuildCrew(input, show).tasks[i].description;
    assert d == Opening(i) + Summary(input, show);
  }
}
