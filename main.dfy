/** The HTTP routes of Backend/main.py, with every model-service, Jira and file call
    replaced by a parameter: the text a crew or a completion answered, the replies Jira
    gave, the file the ticket log was found in. A route's outcome is a Response; an
    exception raised inside a route's `try` comes back as status 500. */
module Api {
  import opened Outcomes
  import opened Json
  import opened Strings
  import opened FreeText
  import opened CrewSetup

  datatype Response = Ok(body: Json) | HttpError(status: int)

  /** The route's `except Exception` handler: any raise becomes 500, whatever it was,
      an HTTPException(400) included. */
  function Handle(t: Try<Json>): (r: Response)
    ensures t.Returned? <==> r.Ok?
    ensures t.Returned? ==> r.body == t.value
    ensures r.HttpError? ==> r.status == 500
  {
    match t
    case Returned(v) => Ok(v)
    case Raised(_) => HttpError(500)
  }

  /** Python's `str(v)` (and `f"{v}"`) for a parsed JSON value: a string is itself;
      `show` renders every other value. */
  function Format(v: Json, show: Json -> string): (s: string)
    ensures v.JStr? ==> s == v.s
  {
    if v.JStr? then v.s else show(v)
  }

  // ------------------------------------------------------------------ bracket slicing

  /** `raw[raw.find("[") : raw.rfind("]") + 1]` (lines 198-200, 278-279, 384-385). */
  function BracketSlice(raw: string): string {
    PySlice(raw, Find(raw, '['), RFind(raw, ']') + 1)
  }

  /** When a `[` comes before the last `]`, the slice runs from the first `[` to the last
      `]` inclusive: it starts with `[` and ends with `]`, and there is no `[` in front
      of it and no `]` after it. */
  lemma BracketSliceFramed(raw: string)
    requires 0 <= Find(raw, '[') < RFind(raw, ']')
    ensures var f, l := Find(raw, '['), RFind(raw, ']');
      && BracketSlice(raw) == raw[f..l + 1]
      && BracketSlice(raw)[0] == '[' && BracketSlice(raw)[|BracketSlice(raw)| - 1] == ']'
      && (forall i :: 0 <= i < f ==> raw[i] != '[')
      && (forall i :: l < i < |raw| ==> raw[i] != ']')
  {
  }

  /** With no `[` the start index is -1, which Python reads as the last position: the
      slice is empty, or `]` when the text ends with one; never a JSON array. */
  lemma BracketSliceNoOpen(raw: string)
    requires Find(raw, '[') < 0
    ensures BracketSlice(raw) == [] || BracketSlice(raw) == "]"
  {
    var l := RFind(raw, ']');
    if raw != [] && l + 1 == |raw| {
      assert raw[|raw| - 1..|raw|] == [raw[|raw| - 1]];
    }
  }

  /** `json.loads` of the slice, the route's answer under `key`, or 500. */
  function SliceRoute(raw: string, key: string, parse: string -> Option<Json>): (r: Response)
    ensures r.HttpError? <==> parse(BracketSlice(raw)).None?
    ensures r.Ok? ==> r.body == Single(key, parse(BracketSlice(raw)).value)
    ensures r.HttpError? ==> r.status == 500
  {
    match parse(BracketSlice(raw))
    case None => Handle(Raised(JSONDecodeError))
    case Some(v) => Handle(Returned(Single(key, v)))
  }

  /** A reply without `[` fails every slicing route, since neither "" nor "]" is JSON. */
  lemma NoOpenBracketFails(raw: string, key: string, parse: string -> Option<Json>)
    requires Find(raw, '[') < 0
    requires parse("") == None && parse("]") == None
    ensures SliceRoute(raw, key, parse) == HttpError(500)
  {
    BracketSliceNoOpen(raw);
  }

  // ------------------------------------------------------------------ one-agent crews

  /** The one-task crews the ticket and task routes kick off: the agent list is the
      task's agent, the process sequential. */
  function SingleCrew(agent: Agent, description: string, expected: string): (c: Crew)
    ensures |c.tasks| == 1 && c.tasks[0] == Task(agent, description, expected)
    ensures c.agents == TaskAgents(c.tasks) == [agent] && c.process == "sequential"
  {
    var c := Crew([agent], [Task(agent, description, expected)], "sequential");
    assert TaskAgents(c.tasks) == [agent];
    c
  }

  /** generate_jira_tickets (lines 179-206): the ticket agent reads the plan, and the
      bracketed part of its answer is parsed. `kickoff` is what a crew answers. */
  function JiraTickets(plan: string, kickoff: Crew -> string, parse: string -> Option<Json>): (r: Response)
    ensures var raw := kickoff(JiraCrew(plan));
      && (r.Ok? <==> parse(BracketSlice(raw)).Some?)
      && (r.Ok? ==> r.body == Single("tickets", parse(BracketSlice(raw)).value))
      && (r.HttpError? ==> r.status == 500)
  {
    SliceRoute(kickoff(JiraCrew(plan)), "tickets", parse)
  }

  const JiraIntro: string := "Generate JIRA ticket suggestions from this plan:\n"
  const JiraExpected: string := "A plain JSON list of objects \U{2014} do not wrap in code fences, return ONLY JSON"

  function JiraCrew(plan: string): Crew {
    SingleCrew(TicketGeneratorAgent, JiraIntro + plan, JiraExpected)
  }

  /** `data.get(key)` followed by `if not value: raise HTTPException(400)`, both inside
      the route's `try`. */
  function Required(data: Json, key: string): (r: Try<Json>)
    ensures r.Returned? <==> data.JObj? && key in data.fields && Truthy(data.fields[key])
    ensures r.Returned? ==> r.value == data.fields[key]
    ensures r.Raised? && data.JObj? ==> r.error == HTTPException(400)
  {
    match Get(data, key)
    case Raised(e) => Raised(e)
    case Returned(v) => if Truthy(v) then Returned(v) else Raised(HTTPException(400))
  }

  /** get_suggested_dev_tasks (lines 251-285). */
  function DevTasks(data: Json, kickoff: Crew -> string, parse: string -> Option<Json>, show: Json -> string): (r: Response)
    ensures r.HttpError? ==> r.status == 500
    ensures Required(data, "final_plan").Raised? ==> r == HttpError(500)
    ensures Required(data, "final_plan").Returned? ==>
      r == SliceRoute(kickoff(DevTasksCrew(Format(data.fields["final_plan"], show))), "suggested_tasks", parse)
  {
    match Required(data, "final_plan")
    case Raised(e) => Handle(Raised(e))
    case Returned(plan) => SliceRoute(kickoff(DevTasksCrew(Format(plan, show))), "suggested_tasks", parse)
  }

  const DevTasksIntro: string :=
    "\nReview the following project plan and extract only development tasks (APIs, DB setup, CI/CD, frontend components, etc).\nAvoid planning or meetings.\n\nPROJECT PLAN:\n"
  const DevTasksOutro: string := "\n\nRespond ONLY with JSON list:\n[{\"summary\": \"...\", \"description\": \"...\"}]\n"
  const DevTasksExpected: string := "A JSON list of implementation tasks"

  function DevTasksCrew(plan: string): Crew {
    SingleCrew(DevelopmentTaskExtractor, DevTasksIntro + plan + DevTasksOutro, DevTasksExpected)
  }

  // ------------------------------------------------------------------ category lookup

  /** The six-entry agent dict of lines 361-368 and its `.get(category)`. */
  function CategoryAgent(category: string): (a: Option<Agent>)
    ensures a.Some? <==> category in {"Frontend", "Backend", "Database", "Cloud", "DevOps", "Design"}
  {
    if category == "Frontend" then Some(FrontendTaskAgent)
    else if category == "Backend" then Some(BackendTaskAgent)
    else if category == "Database" then Some(DatabaseTaskAgent)
    else if category == "Cloud" then Some(CloudTaskAgent)
    else if category == "DevOps" then Some(DevopsTaskAgent)
    else if category == "Design" then Some(DesignTaskAgent)
    else None
  }

  /** Different category names select different agents. */
  lemma CategoryAgentInjective(x: string, y: string)
    requires CategoryAgent(x).Some? && CategoryAgent(x) == CategoryAgent(y)
    ensures x == y
  {
  }

  /** The lookup is case-sensitive: the lower-case spelling of a category finds nothing. */
  lemma CategoryLookupCaseSensitive()
    ensures CategoryAgent("frontend").None? && CategoryAgent("devops").None? && CategoryAgent("Devops").None?
  {
  }

  /** The lookup applied to the request's value: only a string can equal a key (a list or
      an object is unhashable and raises; either way the route answers 500). */
  function LookUp(category: Json): (a: Option<Agent>)
    ensures a.Some? <==> category.JStr? && CategoryAgent(category.s).Some?
  {
    if category.JStr? then CategoryAgent(category.s) else None
  }

  /** get_tasks_by_category (lines 352-389). */
  function TasksByCategory(data: Json, kickoff: Crew -> string, parse: string -> Option<Json>, show: Json -> string): (r: Response)
    ensures r.HttpError? ==> r.status == 500
    ensures Required(data, "category").Raised? || Required(data, "final_plan").Raised? ==> r == HttpError(500)
    ensures Required(data, "category").Returned? && Required(data, "final_plan").Returned? ==>
      var category := data.fields["category"];
      && (LookUp(category).None? ==> r == HttpError(500))
      && (LookUp(category).Some? ==>
            r == SliceRoute(kickoff(CategoryCrew(LookUp(category).value, category.s, Format(data.fields["final_plan"], show))), "tasks", parse))
    ensures r.Ok? ==>
      && data.JObj? && "category" in data.fields && "final_plan" in data.fields
      && Truthy(data.fields["category"]) && Truthy(data.fields["final_plan"])
      && data.fields["category"].JStr?
      && CategoryAgent(data.fields["category"].s).Some?
  {
    match Required(data, "category")
    case Raised(e) => Handle(Raised(e))
    case Returned(category) =>
      match Required(data, "final_plan")
      case Raised(e) => Handle(Raised(e))
      case Returned(plan) =>
        match LookUp(category)
        case None => Handle(Raised(HTTPException(400)))
        case Some(agent) => SliceRoute(kickoff(CategoryCrew(agent, category.s, Format(plan, show))), "tasks", parse)
  }

  const CategoryIntro: string := "\nGiven this project plan, list 5-10 dev tasks for "
  const CategoryMiddle: string := ".\nRespond ONLY JSON: [{\"summary\": \"...\", \"description\": \"...\"}]\nPROJECT PLAN:\n"
  const CategoryExpected: string := "JSON list of dev tasks"

  function CategoryCrew(agent: Agent, category: string, plan: string): Crew {
    SingleCrew(agent, CategoryIntro + category + CategoryMiddle + plan + "\n", CategoryExpected)
  }

  /** An unknown category, or one spelled in another case, is answered with 500. */
  lemma UnknownCategoryFails(data: Json, kickoff: Crew -> string, parse: string -> Option<Json>, show: Json -> string)
    requires data.JObj? && "category" in data.fields && data.fields["category"].JStr?
    requires data.fields["category"].s !in {"Frontend", "Backend", "Database", "Cloud", "DevOps", "Design"}
    ensures TasksByCategory(data, kickoff, parse, show) == HttpError(500)
  {
  }

  // ------------------------------------------------------------------ completion routes

  /** The two-attempt parse of a completion, stripped first, as get_dev_categories
      (lines 341-346) and generate_code_snippet (lines 311-316) do it. */
  function Completion(reply: string, parse: string -> Option<Json>): (r: Try<Json>)
    ensures r.Returned? <==> TryExtract(Strip(reply), parse).Some?
    ensures r.Returned? ==> r.value == TryExtract(Strip(reply), parse).value
  {
    match TryExtract(Strip(reply), parse)
    case None => Raised(JSONDecodeError)
    case Some(v) => Returned(v)
  }

  /** generate_code_snippet (lines 288-319): the parsed completion itself, or 500. */
  function CodeSnippet(reply: string, parse: string -> Option<Json>): (r: Response)
    ensures r.Ok? <==> TryExtract(Strip(reply), parse).Some?
    ensures r.Ok? ==> r.body == TryExtract(Strip(reply), parse).value
    ensures r.HttpError? ==> r.status == 500
  {
    Handle(Completion(reply, parse))
  }

  /** get_dev_categories (lines 322-349): a missing plan is 500 before the completion
      is read; otherwise the parsed completion under "categories", or 500. */
  function DevCategories(data: Json, reply: string, parse: string -> Option<Json>): (r: Response)
    ensures Required(data, "final_plan").Raised? ==> r == HttpError(500)
    ensures Required(data, "final_plan").Returned? ==>
      (r.Ok? <==> TryExtract(Strip(reply), parse).Some?)
    ensures r.Ok? ==> r.body == Single("categories", TryExtract(Strip(reply), parse).value)
    ensures r.HttpError? ==> r.status == 500
  {
    match Required(data, "final_plan")
    case Raised(e) => Handle(Raised(e))
    case Returned(_) =>
      match Completion(reply, parse)
      case Raised(e) => Handle(Raised(e))
      case Returned(v) => Handle(Returned(Single("categories", v)))
  }

  /** A fenced completion that does not parse as it stands is parsed once the fence
      characters are stripped. */
  lemma FencedSnippetParses(reply: string, parse: string -> Option<Json>)
    requires parse(Strip(reply)).None? && parse(CleanFences(Strip(reply))).Some?
    ensures CodeSnippet(reply, parse) == Ok(parse(CleanFences(Strip(reply))).value)
  {
  }

  // ------------------------------------------------------------------ project plan

  /** Python's `key in data` on the parsed body: dict membership, list membership,
      substring for a string; a number, boolean or None raises TypeError. */
  function In(key: string, data: Json): (r: Try<bool>)
    ensures r.Raised? <==> data.JNull? || data.JBool? || data.JNum?
    ensures data.JObj? ==> r == Returned(key in data.fields)
  {
    match data
    case JObj(m) => Returned(key in m)
    case JArr(xs) => Returned(JStr(key) in xs)
    case JStr(s) => Returned(Occurs(key, s))
    case _ => Raised(TypeError)
  }

  /** Python's `key in s` on strings: `key` occurs somewhere in `s`. */
  predicate Occurs(key: string, s: string)
    decreases |s|
  {
    StartsWith(s, key) || (s != [] && Occurs(key, s[1..]))
  }

  /** Lines 111-125, with the normalisation of the structured path passed in: the key
      "projectName" is tested first, then "text"; neither raises HTTPException(400).
      `**data` and `data["text"]` on a non-dict raise TypeError. */
  function Dispatch(data: Json, structured: ProjectInput -> Try<AgentInput>,
                    response: string, parse: string -> Option<Json>, show: Json -> string): (r: Try<AgentInput>)
    ensures data.JObj? && "projectName" in data.fields ==>
      r == (match Validate(data.fields) case None => Raised(ValidationError) case Some(pi) => structured(pi))
    ensures data.JObj? && "projectName" !in data.fields && "text" in data.fields ==>
      r == Normalize(Value(data.fields["text"]), response, parse, show)
    ensures data.JObj? && "projectName" !in data.fields && "text" !in data.fields ==>
      r == Raised(HTTPException(400))
    ensures !data.JObj? ==> r.Raised?
  {
    match In("projectName", data)
    case Raised(e) => Raised(e)
    case Returned(hasName) =>
      if hasName then
        if !data.JObj? then Raised(TypeError)
        else match Validate(data.fields)
          case None => Raised(ValidationError)
          case Some(pi) => structured(pi)
      else
        match In("text", data)
        case Raised(e) => Raised(e)
        case Returned(hasText) =>
          if !hasText then Raised(HTTPException(400))
          else if !data.JObj? then Raised(TypeError)
          else Normalize(Value(data.fields["text"]), response, parse, show)
  }

  /** Lines 127-141: the crew built from the normalised input's dict, whatever the crew
      and the final completion answer (`planner`), stripped, under "project_plan". */
  function Plan(t: Try<AgentInput>, show: Json -> string, planner: Crew -> string): (r: Response)
    ensures r.Ok? <==> t.Returned?
    ensures r.Ok? ==> r.body == Single("project_plan", JStr(Strip(planner(BuildCrew(PlainInput(ToJson(t.value)), show)))))
    ensures r.HttpError? ==> r.status == 500
  {
    match t
    case Raised(e) => Handle(Raised(e))
    case Returned(a) => Handle(Returned(Single("project_plan", JStr(Strip(planner(BuildCrew(PlainInput(ToJson(a)), show)))))))
  }

  /** generate_project_plan as written: main.py's own ProjectInput is not the class
      normalize_input tests with isinstance, so a structured body takes the fallback
      branch and becomes `{"projectDescription": str(input_data)}`; `showModel` is
      str() of the pydantic object. */
  function GeneratePlanAsWritten(data: Json, response: string, parse: string -> Option<Json>,
                                 show: Json -> string, showModel: ProjectInput -> string,
                                 planner: Crew -> string): Response
  {
    Plan(Dispatch(data, pi => Normalize(Foreign(showModel(pi)), response, parse, show), response, parse, show),
         show, planner)
  }

  /** generate_project_plan as intended: the structured body is normalised as a
      ProjectInput. */
  function GeneratePlan(data: Json, response: string, parse: string -> Option<Json>,
                        show: Json -> string, planner: Crew -> string): Response
  {
    Plan(Dispatch(data, pi => Normalize(Structured(pi), response, parse, show), response, parse, show),
         show, planner)
  }

  /** No body that is not a JSON object gets a plan, and no request is ever answered
      400: a body with neither key is answered 500. */
  lemma GeneratePlanErrors(data: Json, response: string, parse: string -> Option<Json>,
                           show: Json -> string, planner: Crew -> string)
    ensures !data.JObj? ==> GeneratePlan(data, response, parse, show, planner) == HttpError(500)
    ensures data.JObj? && "projectName" !in data.fields && "text" !in data.fields ==>
      GeneratePlan(data, response, parse, show, planner) == HttpError(500)
    ensures GeneratePlan(data, response, parse, show, planner).HttpError? ==>
      GeneratePlan(data, response, parse, show, planner).status == 500
  {
  }

  /** With "projectName" present, the "text" field is never looked at. */
  lemma ProjectNameWins(m: map<string, Json>, v: Json, response: string, parse: string -> Option<Json>,
                        show: Json -> string, planner: Crew -> string)
    requires "projectName" in m
    ensures GeneratePlan(JObj(m["text" := v]), response, parse, show, planner) == GeneratePlan(JObj(m), response, parse, show, planner)
  {
    DispatchIgnoresText(m, v, pi => Normalize(Structured(pi), response, parse, show), response, parse, show);
  }

  /** The dispatch on a body with "projectName" never reads "text". */
  lemma DispatchIgnoresText(m: map<string, Json>, v: Json, structured: ProjectInput -> Try<AgentInput>,
                            response: string, parse: string -> Option<Json>, show: Json -> string)
    requires "projectName" in m
    ensures Dispatch(JObj(m["text" := v]), structured, response, parse, show)
         == Dispatch(JObj(m), structured, response, parse, show)
  {
    TextUndeclared();
    ValidateIgnoresUndeclared(m, "text", v);
  }

  /** The discrepancy: as written, a valid structured body is planned from a
      description-only record holding str() of the model. */
  lemma StructuredBodyLosesFields(m: map<string, Json>, pi: ProjectInput, response: string,
                                  parse: string -> Option<Json>, show: Json -> string,
                                  showModel: ProjectInput -> string, planner: Crew -> string)
    requires HoldsModel(m, pi)
    ensures GeneratePlanAsWritten(JObj(m), response, parse, show, showModel, planner)
      == Plan(Returned(DescriptionOnly(JStr(showModel(pi)))), show, planner)
  {
    ValidateHeldModel(m, pi);
    HeldModelHasName(m, pi);
    DispatchStructured(m, pi, p => Normalize(Foreign(showModel(p)), response, parse, show), response, parse, show);
  }

  /** As intended, a valid structured body is planned from its full canonical record. */
  lemma StructuredBodyPlanned(m: map<string, Json>, pi: ProjectInput, response: string,
                              parse: string -> Option<Json>, show: Json -> string, planner: Crew -> string)
    requires HoldsModel(m, pi)
    ensures GeneratePlan(JObj(m), response, parse, show, planner)
      == Plan(Returned(StructuredRecord(pi)), show, planner)
  {
    ValidateHeldModel(m, pi);
    HeldModelHasName(m, pi);
    DispatchStructured(m, pi, p => Normalize(Structured(p), response, parse, show), response, parse, show);
  }

  /** A dict holding a model holds its projectName. */
  lemma HeldModelHasName(m: map<string, Json>, pi: ProjectInput)
    requires HoldsModel(m, pi)
    ensures "projectName" in m
  {
    assert GetOr(m, KeyName(ProjectName), JNull) == FieldValue(pi, ProjectName);
  }

  /** A body holding a valid model with "projectName" is handed to the structured path. */
  lemma DispatchStructured(m: map<string, Json>, pi: ProjectInput, structured: ProjectInput -> Try<AgentInput>,
                           response: string, parse: string -> Option<Json>, show: Json -> string)
    requires "projectName" in m && Validate(m) == Some(pi)
    ensures Dispatch(JObj(m), structured, response, parse, show) == structured(pi)
  {
  }

  // ------------------------------------------------------------------ ticket push

  datatype FinalizedTicket = FinalizedTicket(summary: string, description: string)

  /** What Jira did with one POST: it answered with a status and a body text, or the
      request itself failed (requests raised). */
  datatype Reply = Answer(status: int, text: string) | NoAnswer

  /** One entry of the results list (lines 235-242). */
  datatype PushResult =
    | Created(summary: string, description: string, key: Json, url: string)
    | Failed(summary: string, error: string)

  /** The issue payload of lines 219-231: one paragraph holding one text node with
      `description or ""`, and the issue type Task. `projectKey` is the environment's
      JIRA_PROJECT_KEY (JNull when unset). */
  function IssuePayload(t: FinalizedTicket, projectKey: Json): (p: Json)
    ensures p.JObj? && p.fields.Keys == {"fields"}
  {
    var text := if t.description == "" then "" else t.description;
    var paragraph := JObj(map["type" := JStr("paragraph"), "content" := JArr([JObj(map["type" := JStr("text"), "text" := JStr(text)])])]);
    var adf := JObj(map["type" := JStr("doc"), "version" := JNum(1), "content" := JArr([paragraph])]);
    Single("fields", JObj(map[
      "project" := Single("key", projectKey),
      "summary" := JStr(t.summary),
      "description" := adf,
      "issuetype" := Single("name", JStr("Task"))]))
  }

  /** The one text node of the payload carries the description, and the type is Task. */
  lemma IssuePayloadShape(t: FinalizedTicket, projectKey: Json)
    ensures var f := IssuePayload(t, projectKey).fields["fields"];
      && f.JObj? && f.fields.Keys == {"project", "summary", "description", "issuetype"}
      && f.fields["summary"] == JStr(t.summary)
      && f.fields["issuetype"] == Single("name", JStr("Task"))
      && f.fields["description"].fields["content"].items[0].fields["content"].items[0].fields["text"]
         == JStr(t.description)
  {
  }

  /** Handling one reply (lines 232-242): 201 reads the issue key from the JSON body;
      any other status records the body text as the error. `parse` is response.json(),
      `baseUrl` the environment's JIRA_BASE_URL as the f-string renders it. */
  function Entry(t: FinalizedTicket, reply: Reply, baseUrl: string,
                 parse: string -> Option<Json>, show: Json -> string): (r: Try<PushResult>)
    ensures r.Returned? ==> r.value.summary == t.summary
    ensures r.Returned? ==> (r.value.Created? <==> reply.Answer? && reply.status == 201)
    ensures r.Returned? && r.value.Failed? ==> reply.Answer? && r.value.error == reply.text
    ensures r.Returned? && r.value.Created? ==>
      && parse(reply.text).Some? && parse(reply.text).value.JObj?
      && "key" in parse(reply.text).value.fields
      && r.value.key == parse(reply.text).value.fields["key"]
    ensures r.Returned? && r.value.Created? ==>
      r.value.description == t.description && r.value.url == baseUrl + "/browse/" + Format(r.value.key, show)
    ensures r.Raised? <==>
      || reply.NoAnswer?
      || (reply.status == 201 && !(parse(reply.text).Some? && parse(reply.text).value.JObj? && "key" in parse(reply.text).value.fields))
  {
    match reply
    case NoAnswer => Raised(RequestError)
    case Answer(status, text) =>
      if status != 201 then Returned(Failed(t.summary, text))
      else match parse(text)
        case None => Raised(JSONDecodeError)
        case Some(issue) =>
          if !issue.JObj? then Raised(TypeError)
          else if "key" !in issue.fields then Raised(KeyError)
          else
            var key := issue.fields["key"];
            Returned(Created(t.summary, t.description, key, baseUrl + "/browse/" + Format(key, show)))
  }

  /** The results list a push produces, or the first exception its loop raises. */
  function PushAll(ts: seq<FinalizedTicket>, rs: seq<Reply>, baseUrl: string,
                   parse: string -> Option<Json>, show: Json -> string): Try<seq<PushResult>>
    requires |rs| == |ts|
    decreases |ts|
  {
    if ts == [] then Returned([])
    else
      match PushAll(ts[..|ts| - 1], rs[..|rs| - 1], baseUrl, parse, show)
      case Raised(e) => Raised(e)
      case Returned(xs) =>
        match Entry(ts[|ts| - 1], rs[|rs| - 1], baseUrl, parse, show)
        case Raised(e) => Raised(e)
        case Returned(x) => Returned(xs + [x])
  }

  /** The push succeeds iff every reply is handled, and then it has exactly one result
      per ticket, in ticket order, each the entry of that ticket's reply. */
  lemma {:induction false} PushAllEntries(ts: seq<FinalizedTicket>, rs: seq<Reply>, baseUrl: string,
                                          parse: string -> Option<Json>, show: Json -> string)
    requires |rs| == |ts|
    ensures PushAll(ts, rs, baseUrl, parse, show).Returned? <==>
      forall i :: 0 <= i < |ts| ==> Entry(ts[i], rs[i], baseUrl, parse, show).Returned?
    ensures PushAll(ts, rs, baseUrl, parse, show).Returned? ==>
      var results := PushAll(ts, rs, baseUrl, parse, show).value;
      |results| == |ts| && forall i :: 0 <= i < |ts| ==> Returned(results[i]) == Entry(ts[i], rs[i], baseUrl, parse, show)
    decreases |ts|
  {
    if ts != [] {
      var n := |ts| - 1;
      PushAllEntries(ts[..n], rs[..n], baseUrl, parse, show);
      assert forall i :: 0 <= i < n ==> ts[..n][i] == ts[i] && rs[..n][i] == rs[i];
    }
  }

  /** A result carries an issue key exactly when Jira answered 201, and every result
      keeps its ticket's summary. */
  lemma PushResultsFollowStatus(ts: seq<FinalizedTicket>, rs: seq<Reply>, baseUrl: string,
                                parse: string -> Option<Json>, show: Json -> string, i: nat)
    requires |rs| == |ts| && i < |ts| && PushAll(ts, rs, baseUrl, parse, show).Returned?
    ensures var results := PushAll(ts, rs, baseUrl, parse, show).value;
      i < |results| && results[i].summary == ts[i].summary
      && (results[i].Created? <==> rs[i].Answer? && rs[i].status == 201)
  {
    PushAllEntries(ts, rs, baseUrl, parse, show);
  }

  /** The dict returned and logged for ticket `i`: on 201 it holds the summary, the
      description, the key Jira's body carries and the browse URL built from that key;
      on any other status, the summary and Jira's body text as the error. */
  lemma PushedDict(ts: seq<FinalizedTicket>, rs: seq<Reply>, baseUrl: string,
                   parse: string -> Option<Json>, show: Json -> string, i: nat)
    requires |rs| == |ts| && i < |ts| && PushAll(ts, rs, baseUrl, parse, show).Returned?
    ensures var results := PushAll(ts, rs, baseUrl, parse, show).value;
      i < |results| &&
      var j := ResultJson(results[i]);
      && j.fields["summary"] == JStr(ts[i].summary)
      && (rs[i].Answer? && rs[i].status == 201 ==>
            var body := parse(rs[i].text);
            && body.Some? && body.value.JObj? && "key" in body.value.fields
            && j.fields.Keys == {"summary", "description", "key", "url"}
            && j.fields["description"] == JStr(ts[i].description)
            && j.fields["key"] == body.value.fields["key"]
            && j.fields["url"] == JStr(baseUrl + "/browse/" + Format(body.value.fields["key"], show)))
      && (!(rs[i].Answer? && rs[i].status == 201) ==>
            && rs[i].Answer?
            && j.fields.Keys == {"summary", "error"} && j.fields["error"] == JStr(rs[i].text))
  {
    PushAllEntries(ts, rs, baseUrl, parse, show);
  }

  /** One result as the dict the route returns and logs. */
  function ResultJson(r: PushResult): (j: Json)
    ensures j.JObj? && "summary" in j.fields && j.fields["summary"] == JStr(r.summary)
    ensures "key" in j.fields <==> r.Created?
    ensures r.Created? ==>
      && j.fields.Keys == {"summary", "description", "key", "url"}
      && j.fields["description"] == JStr(r.description)
      && j.fields["key"] == r.key && j.fields["url"] == JStr(r.url)
    ensures r.Failed? ==> j.fields.Keys == {"summary", "error"} && j.fields["error"] == JStr(r.error)
  {
    match r
    case Created(s, d, k, u) =>
      JObj(map["summary" := JStr(s), "description" := JStr(d), "key" := k, "url" := JStr(u)])
    case Failed(s, e) => JObj(map["summary" := JStr(s), "error" := JStr(e)])
  }

  function ResultsJson(rs: seq<PushResult>): (js: seq<Json>)
    ensures |js| == |rs| && forall i :: 0 <= i < |rs| ==> js[i] == ResultJson(rs[i])
  {
    seq(|rs|, i requires 0 <= i < |rs| => ResultJson(rs[i]))
  }

  // ------------------------------------------------------------------ local ticket log

  /** What saved_tickets.json holds: nothing, a JSON value, or something that cannot be
      read back as JSON. */
  datatype StoreFile = Absent | Holds(content: Json) | Unreadable

  /** save_tickets_locally (lines 84-98): an absent file starts an empty list; a list is
      extended by the entries and written back; anything else makes the load or the
      extend raise, the handler swallows it, and the file stays as it was. */
  function Saved(f: StoreFile, entries: seq<Json>): StoreFile {
    if f.Absent? then Holds(JArr(entries))
    else if f.Holds? && f.content.JArr? then Holds(JArr(f.content.items + entries))
    else f
  }

  /** The log is append-only: two saves are one save of both lists, in order. */
  lemma SavedTwice(f: StoreFile, a: seq<Json>, b: seq<Json>)
    ensures Saved(Saved(f, a), b) == Saved(f, a + b)
  {
    if f.Holds? && f.content.JArr? {
      assert f.content.items + a + b == f.content.items + (a + b);
    }
  }

  /** Saving keeps every earlier entry, in place, and the new entries follow them. */
  lemma SavedKeepsLog(f: StoreFile, entries: seq<Json>)
    requires f.Absent? || (f.Holds? && f.content.JArr?)
    ensures var g := Saved(f, entries);
      && g.Holds? && g.content.JArr? && |entries| <= |g.content.items|
      && g.content.items[|g.content.items| - |entries|..] == entries
      && (f.Holds? ==> f.content.items <= g.content.items)
  {
  }

  class TicketStore {
    var file: StoreFile

    constructor(f: StoreFile)
      ensures file == f
    {
      file := f;
    }

    method SaveLocally(entries: seq<Json>)
      modifies this
      ensures file == Saved(old(file), entries)
    {
      var existing: seq<Json>;
      if file.Absent? {
        existing := [];
      } else if file.Holds? && file.content.JArr? {
        existing := file.content.items;
      } else {
        return;  // the load or the extend raises, and the handler swallows it
      }
      existing := existing + entries;
      assert [] + entries == entries;
      file := Holds(JArr(existing));
    }
  }

  /** push_finalized_tickets (lines 209-248): one POST per ticket in order; a raise ends
      the loop before anything is logged and answers 500; otherwise every result, failed
      entries included, is logged and returned under "created_issues". */
  method PushFinalizedTickets(store: TicketStore, ts: seq<FinalizedTicket>, rs: seq<Reply>, baseUrl: string,
                              parse: string -> Option<Json>, show: Json -> string) returns (resp: Response)
    requires |rs| == |ts|
    modifies store
    ensures PushAll(ts, rs, baseUrl, parse, show).Raised? ==>
      resp == HttpError(500) && store.file == old(store.file)
    ensures PushAll(ts, rs, baseUrl, parse, show).Returned? ==>
      var results := ResultsJson(PushAll(ts, rs, baseUrl, parse, show).value);
      resp == Ok(Single("created_issues", JArr(results))) && store.file == Saved(old(store.file), results)
  {
    var results: seq<PushResult> := [];
    var i := 0;
    while i < |ts|
      invariant 0 <= i <= |ts|
      invariant PushAll(ts[..i], rs[..i], baseUrl, parse, show) == Returned(results)
    {
      var e := Entry(ts[i], rs[i], baseUrl, parse, show);
      assert ts[..i + 1][..i] == ts[..i] && rs[..i + 1][..i] == rs[..i];
      if e.Raised? {
        RaisedPrefix(ts, rs, baseUrl, parse, show, i + 1);
        resp := HttpError(500);
        return;
      }
      results := results + [e.value];
      i := i + 1;
    }
    assert ts[..i] == ts && rs[..i] == rs;
    var logged := ResultsJson(results);
    store.SaveLocally(logged);
    resp := Ok(Single("created_issues", JArr(logged)));
  }

  /** Once a prefix of the loop raises, the whole loop raises. */
  lemma {:induction false} RaisedPrefix(ts: seq<FinalizedTicket>, rs: seq<Reply>, baseUrl: string,
                                        parse: string -> Option<Json>, show: Json -> string, j: nat)
    requires |rs| == |ts| && j <= |ts|
    requires PushAll(ts[..j], rs[..j], baseUrl, parse, show).Raised?
    ensures PushAll(ts, rs, baseUrl, parse, show).Raised?
    decreases |ts| - j
  {
    if j < |ts| {
      assert ts[..j + 1][..j] == ts[..j] && rs[..j + 1][..j] == rs[..j];
      RaisedPrefix(ts, rs, baseUrl, parse, show, j + 1);
    } else {
      assert ts[..j] == ts && rs[..j] == rs;
    }
  }
}
