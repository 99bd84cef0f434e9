# Plan2Code: the deterministic core

Plan2Code turns a project brief into a project plan, JIRA tickets and development tasks.
The brief is either a structured form or free text. A FastAPI backend runs a crew of
language-model agents over a canonical version of the brief. A React frontend collects
the brief, shows the plan, edits the suggested tickets and pushes them to Jira.

This project models the deterministic parts of that system in Dafny and proves what they do.
Every language-model, Jira, file and browser call is replaced by a parameter:

- the text a crew or a completion answered;
- the status and body Jira replied with;
- the ticket log file as it was found;
- the page texts a PDF reader delivered.

`json.loads` is an uninterpreted `parse: string -> Option<Json>`, where None stands for
JSONDecodeError. Python's `str()` and JavaScript's `String()` of non-string values are
parameters (`show`, `str`).

Modules, one per source file, plus three shared ones:

- `Outcomes` (outcomes.dfy): Option, the Python exceptions raised, and `Try` (returned or raised).
- `Json` (json.dfy): JSON values, Python truthiness, `dict.get`.
- `Strings` (strings.dfy): Python `strip`/`find`/`rfind`/slicing, and JavaScript `trim`, `toLowerCase` and `split`.
- `FreeText` (utils_free_text.dfy): `normalize_input` and `try_extract_hidden_plan_json`. Pure functions and lemmas.
- `CrewSetup` (crew_setup.dfy): `build_crew`. A pure function.
- `Api` (main.dfy): the routes of the backend.
  - Pure functions compute each route's response, including the 500 that every exception raised inside a route's `try` becomes.
  - `PushFinalizedTickets` is a method with a loop.
  - The ticket log is the `TicketStore` class.
- `PlanningForm` (project_planning_ui.dfy): the four-step form.
  - The component state is the `StepperForm` class.
  - `validateStep` fills its error map field by field in a method.
- `ResultsPage` (results_page.dfy): the results page.
  - Pure functions and lemmas cover slugify, the push message and the refinement guard.
  - The PDF content mapping is a method with a loop.
  - The page state and the suggested tickets are classes; the ticket objects are shared between list copies as in the source.
- `FileUpload` (file_upload_ui.dfy): the upload page.
  - Pure functions give the extension and the classification.
  - The `Uploader` class holds the page state.
  - A method with a loop assembles the PDF text.

## Model

| member | source | states |
|---|---|---|
| FreeText.Validate | Backend/utils_free_text.py:10-28 | `ProjectInput(**d)` succeeds exactly when every declared field has its declared type; the model built holds the dict's value under each declared key |
| FreeText.ValidateIgnoresUndeclared | Backend/utils_free_text.py:10-28 | a key that is no declared field, set to any value, leaves the validation unchanged |
| FreeText.ValidateHeldModel | Backend/utils_free_text.py:10-28 | conversely, a dict that holds a model's values validates to exactly that model |
| FreeText.ModelIsWellTyped | Backend/utils_free_text.py:10-28 | every model's own values have the declared field types |
| FreeText.StructuredRecord | Backend/utils_free_text.py:100-122 | the structured branch yields the canonical record: every field except category and durationUnit is copied unchanged into its slot (stakeholder into stakeholders, expectedDuration into meta.duration, the six lists into techStack) |
| FreeText.StructuredIgnoresDropped | Backend/utils_free_text.py:100-122 | category and durationUnit have no influence on the structured record |
| FreeText.FullKeys | Backend/utils_free_text.py:101-122 | the canonical dict has exactly five top-level keys, six techStack keys and seven meta keys |
| FreeText.FreeTextSlots | Backend/utils_free_text.py:128-150 | the free-text record fills every slot: a present key is copied verbatim, an absent list key becomes [] and any other absent key ""; category and durationUnit are not read |
| FreeText.FreeTextOfHeldModel | Backend/utils_free_text.py:128-150 | on a dict holding a model (otherTech present) the free-text record equals the structured record of that model |
| FreeText.EmptySectionsKeys | Backend/utils_free_text.py:152-158 | the degraded record has the five keys with techStack and meta both {} |
| FreeText.TryExtract | Backend/utils_free_text.py:74-86 | the direct parse whenever it succeeds; only otherwise the parse of the cleaned text, None when that fails too |
| FreeText.BacktickStripIsNoop | Backend/utils_free_text.py:82 | the character-set strip of "```json" leaves no backtick at either end, so the second strip removes nothing |
| FreeText.CleanFencesShape | Backend/utils_free_text.py:82 | the cleaned text is a contiguous piece of the raw text, cut out of a run of fence characters and then a run of whitespace on each side |
| FreeText.CleanFencesRuns | Backend/utils_free_text.py:82 | conversely, fence runs outside whitespace runs around a text with neither at its ends are exactly what cleaning removes |
| FreeText.CleanFencedArray | Backend/utils_free_text.py:82 | a fenced array reply is cleaned to the bare array |
| FreeText.CleanFencesIsCharacterSet | Backend/utils_free_text.py:82 | the strip is by character set, not prefix: "no [1]" is cleaned to "[1]" |
| FreeText.FromText | Backend/utils_free_text.py:124-158 | a truthy dict extraction gives the canonical free-text record; a truthy non-dict raises AttributeError; a failed or falsy extraction gives projectName "", the text as description, stakeholders "" and empty sections |
| FreeText.Normalize | Backend/utils_free_text.py:91-169 | the result is the canonical record exactly for usable input (a model, a validating dict, a free text whose extraction is a non-empty dict); a truthy non-dict extraction raises AttributeError (completion failures are not modelled, see "## Left out") |
| FreeText.NormalizeValidDict | Backend/utils_free_text.py:160-164 | a dict holding a model's values normalises exactly as that model |
| FreeText.NormalizeUnusableValue | Backend/utils_free_text.py:160-169 | a dict pydantic refuses, and any value that is neither str nor dict, become `{"projectDescription": str(x)}` |
| FreeText.NormalizeFallback | Backend/utils_free_text.py:151-158 | free text whose extraction fails or is falsy gives the degraded record with the text as description |
| CrewSetup.BuildCrew | Backend/crew_setup.py:20-100 | ten tasks in the order intake, objectives, risks, architecture, effort, dependencies, sprints, trends, critic, tickets; the agent list equals the tasks' agents in order, each once, without the timeline estimator; the first nine descriptions are their opening plus the summary, the last is fixed; each expected output is fixed; the process is sequential |
| CrewSetup.WorkflowOrderDistinct | Backend/crew_setup.py:83-94 | the ten crew agents are distinct and the imported timeline_estimator is not among them |
| CrewSetup.TicketTaskFixed | Backend/crew_setup.py:75-79 | the ticket stage is the same task for every input and belongs to the ticket generator |
| CrewSetup.SummaryEmbedded | Backend/crew_setup.py:29-74 | each of the first nine descriptions ends with the summary |
| Api.BracketSliceFramed | Backend/main.py:198-200 | with a `[` before the last `]` the slice runs from the first `[` to the last `]` inclusive, with no `[` before it and no `]` after it |
| Api.BracketSliceNoOpen | Backend/main.py:198-200 | with no `[` the start index -1 makes the slice "" or "]" |
| Api.SliceRoute | Backend/main.py:198-206 | the parsed slice under the route's key, or 500 exactly when the slice does not parse |
| Api.NoOpenBracketFails | Backend/main.py:198-206 | a reply without `[` makes every slicing route answer 500 |
| Api.SingleCrew | Backend/main.py:183-194 | a one-task crew whose agent list is its task's agent, run sequentially |
| Api.JiraTickets | Backend/main.py:179-206 | the ticket route answers the parsed bracket slice of the ticket agent's reply under "tickets", or 500 when it does not parse |
| Api.Required | Backend/main.py:254-257 | the value is returned exactly when the body is an object with a truthy value under the key; a missing or falsy value raises HTTPException(400) |
| Api.DevTasks | Backend/main.py:251-285 | a missing or falsy final_plan gives 500; otherwise the slicing route under "suggested_tasks" on the extractor's reply; no 400 ever |
| Api.CategoryAgent | Backend/main.py:361-368 | an agent is found exactly for the six names Frontend, Backend, Database, Cloud, DevOps and Design |
| Api.CategoryAgentInjective | Backend/main.py:361-368 | different category names select different agents |
| Api.CategoryLookupCaseSensitive | Backend/main.py:361-368 | the lookup is case-sensitive: "frontend", "devops" and "Devops" find nothing |
| Api.LookUp | Backend/main.py:368-371 | only a string value can find an agent |
| Api.TasksByCategory | Backend/main.py:352-389 | a missing or falsy category or final_plan gives 500; with both present, an unknown or non-string category gives 500 and a known one is answered by the slicing route under "tasks" on that category agent's reply; a success implies both fields are truthy |
| Api.UnknownCategoryFails | Backend/main.py:352-389 | an unknown or differently cased category is answered with 500, not 400 |
| Api.Completion | Backend/main.py:341-346 | the stripped completion is parsed as it stands and, only when that fails, once more after the fence strip; the second failure raises |
| Api.CodeSnippet | Backend/main.py:288-319 | the parsed completion is the body, or 500 |
| Api.DevCategories | Backend/main.py:322-349 | a missing plan gives 500 whatever the completion; otherwise the parsed completion under "categories", or 500 |
| Api.FencedSnippetParses | Backend/main.py:311-316 | a completion that parses only once its fence characters are stripped is answered with that parse |
| Api.In | Backend/main.py:115-120 | Python's `in` on the body: dict membership for an object; a number, boolean or null raises TypeError |
| Api.Dispatch | Backend/main.py:111-125 | "projectName" is tested first and sends the body through pydantic; otherwise "text" sends its value through normalize_input; with neither, HTTPException(400); a non-object body raises |
| Api.Plan | Backend/main.py:127-145 | a normalised input is planned from the crew built on its dict, with the stripped answer under "project_plan"; a normalisation that raised gives 500 (crew and completion failures are not modelled, see "## Left out") |
| Api.GeneratePlanErrors | Backend/main.py:111-145 | a non-object body and a body with neither key are answered 500; the route never answers anything but 500 on error |
| Api.ProjectNameWins | Backend/main.py:115-122 | when "projectName" is present, setting "text" to any value does not change the answer |
| Api.DispatchIgnoresText | Backend/main.py:111-122 | on a body with "projectName", the dispatch gives the same outcome whatever "text" holds, for any structured handler |
| Api.DispatchStructured | Backend/main.py:115-117 | a validating body with "projectName" goes to the structured path |
| Api.StructuredBodyLosesFields | Backend/main.py:115-117 | as written, a valid structured body is planned from a description-only record holding str() of the model |
| Api.StructuredBodyPlanned | Backend/main.py:115-117 | as intended, a valid structured body is planned from its full canonical record |
| Api.IssuePayload | Backend/main.py:219-231 | the payload is an object with the single key "fields" |
| Api.IssuePayloadShape | Backend/main.py:219-231 | the fields are project, summary, description and issuetype; the one text node carries the description; the issue type is Task |
| Api.Entry | Backend/main.py:232-242 | 201 gives a created entry whose key is the "key" of Jira's parsed body, with the ticket's summary and description and `base + "/browse/" + key`; any other status gives a failure carrying the body text; it raises exactly when the request fails or a 201 body is not an object holding "key" |
| Api.PushAllEntries | Backend/main.py:216-242 | the loop succeeds iff every reply is handled, and then yields exactly one result per ticket, in ticket order |
| Api.PushResultsFollowStatus | Backend/main.py:233-242 | each result keeps its ticket's summary and is a created issue exactly when Jira answered 201 |
| Api.RaisedPrefix | Backend/main.py:218-242 | an exception in an earlier ticket ends the whole loop with that exception |
| Api.ResultJson | Backend/main.py:235-242 | a created result is the dict of exactly summary, description, key and url with its values; a failed one the dict of exactly summary and error, the error being Jira's body text |
| Api.PushedDict | Backend/main.py:232-242 | the dict for ticket i holds, on 201, exactly summary, description, the key of Jira's body and the browse URL built from that key, and otherwise exactly summary and Jira's body text as the error |
| Api.SavedTwice | Backend/main.py:84-98 | the log is append-only: two saves equal one save of both lists in order |
| Api.SavedKeepsLog | Backend/main.py:84-98 | on an absent file or a list, the old entries stay in place and the new ones follow them |
| Api.TicketStore.constructor | Backend/main.py:82 | the store starts with the file as found |
| Api.TicketStore.SaveLocally | Backend/main.py:84-98 | an absent file starts a new list; a list is extended by the entries; anything else is left as it was, the exception swallowed |
| Api.PushFinalizedTickets | Backend/main.py:209-248 | when the loop raises, 500 and the log is untouched; otherwise every result, failed ones included, is logged and returned under "created_issues" |
| PlanningForm.InitialForm | Frontend/Plan2Code/src/pages/project-planning-ui.tsx:91-110 | every field has a value: "" for each string field but durationUnit, which is "months", and [] for each tech list |
| PlanningForm.Without | Frontend/Plan2Code/src/pages/project-planning-ui.tsx:130 | the filtered list never holds the option and is no longer than before |
| PlanningForm.WithoutKeepsOthers | Frontend/Plan2Code/src/pages/project-planning-ui.tsx:130 | filtering keeps every other item as many times as it occurred |
| PlanningForm.WithoutAbsent | Frontend/Plan2Code/src/pages/project-planning-ui.tsx:130 | filtering out an absent option changes nothing |
| PlanningForm.ToggleRemoves | Frontend/Plan2Code/src/pages/project-planning-ui.tsx:129-131 | toggling a present option removes every occurrence and keeps all other items with their counts |
| PlanningForm.ToggleAppends | Frontend/Plan2Code/src/pages/project-planning-ui.tsx:129-131 | toggling an absent option appends it at the end |
| PlanningForm.ToggleTwiceAbsent | Frontend/Plan2Code/src/pages/project-planning-ui.tsx:129-131 | toggling an absent option twice gives the list back |
| PlanningForm.FlagsExact | Frontend/Plan2Code/src/pages/project-planning-ui.tsx:141-158 | exactly the empty fields of the checked list are flagged, each with "Required" |
| PlanningForm.ValidationErrorsExact | Frontend/Plan2Code/src/pages/project-planning-ui.tsx:141-158 | step 0 flags exactly the empty ones of projectName, stakeholder, category and projectDescription; step 1 those of startDate, expectedDuration, teamSize, budget, experience and locationType; steps 2 and 3 nothing; durationUnit and otherTech never |
| PlanningForm.ValidationPasses | Frontend/Plan2Code/src/pages/project-planning-ui.tsx:141-161 | a step validates iff every field it requires is filled in |
| PlanningForm.FillingUnflags | Frontend/Plan2Code/src/pages/project-planning-ui.tsx:141-158 | filling in a field removes its flag and no other |
| PlanningForm.CollectErrors | Frontend/Plan2Code/src/pages/project-planning-ui.tsx:142-158 | the field-by-field checks build exactly the step's error map |
| PlanningForm.CheckOverview | Frontend/Plan2Code/src/pages/project-planning-ui.tsx:144-150 | the four checks of the overview step flag exactly its empty fields (name, stakeholder, category, description) |
| PlanningForm.CheckTimeline | Frontend/Plan2Code/src/pages/project-planning-ui.tsx:151-158 | the six checks of the timeline step flag exactly its empty fields, in the source's order |
| PlanningForm.CheckResources | Frontend/Plan2Code/src/pages/project-planning-ui.tsx:155-157 | the budget, experience and location checks extend the first three timeline flags to all six |
| PlanningForm.FlagsUpToPrefix | Frontend/Plan2Code/src/pages/project-planning-ui.tsx:141-158 | checking the first k fields one at a time gives the error map of that prefix of the list |
| PlanningForm.Require | Frontend/Plan2Code/src/pages/project-planning-ui.tsx:145 | one check extends the map of the fields checked so far by the next field's flag |
| PlanningForm.StepperForm.constructor | Frontend/Plan2Code/src/pages/project-planning-ui.tsx:90-112 | step 0, the initial form, no errors, not submitted |
| PlanningForm.StepperForm.HandleChange | Frontend/Plan2Code/src/pages/project-planning-ui.tsx:115-118 | only the named field changes and only its error is reset to "" |
| PlanningForm.StepperForm.HandleCheckboxChange | Frontend/Plan2Code/src/pages/project-planning-ui.tsx:120-134 | only the named list changes, by the toggle; errors and step unchanged |
| PlanningForm.StepperForm.ValidateStep | Frontend/Plan2Code/src/pages/project-planning-ui.tsx:141-162 | the step's flags replace the whole error map, and the result is true iff there are none |
| PlanningForm.StepperForm.Next | Frontend/Plan2Code/src/pages/project-planning-ui.tsx:438-451 | available before the last step; advances by one exactly when validation passes; the step stays within 0..3 |
| PlanningForm.StepperForm.Back | Frontend/Plan2Code/src/pages/project-planning-ui.tsx:452-456 | available after the first step; goes back one step and changes nothing else |
| PlanningForm.StepperForm.HandleSubmit | Frontend/Plan2Code/src/pages/project-planning-ui.tsx:136-139 | marks the form submitted and hands over the unchanged form data |
| ResultsPage.Keep | Frontend/Plan2Code/src/pages/results-page.tsx:389 | what survives the deleting step is word characters and dashes only, never longer than the text |
| ResultsPage.KeepOne | Frontend/Plan2Code/src/pages/results-page.tsx:389 | a single character is kept exactly when it is a word character or a dash |
| ResultsPage.KeepAppend | Frontend/Plan2Code/src/pages/results-page.tsx:389 | the kept part of two texts is the kept part of each, in order, so every word character and dash survives |
| ResultsPage.DashedRun | Frontend/Plan2Code/src/pages/results-page.tsx:388 | a maximal run of whitespace becomes a single dash |
| ResultsPage.DashedNoSpace | Frontend/Plan2Code/src/pages/results-page.tsx:388 | text without whitespace is unchanged by the dashing step |
| ResultsPage.KeepAll | Frontend/Plan2Code/src/pages/results-page.tsx:389 | text of kept characters only is unchanged by the deleting step |
| ResultsPage.SlugAlphabet | Frontend/Plan2Code/src/pages/results-page.tsx:386-389 | a slug holds only lowercase letters, digits, `_` and `-`, so no whitespace |
| ResultsPage.SlugifyIdempotent | Frontend/Plan2Code/src/pages/results-page.tsx:380-389 | slugifying a slug gives the same slug |
| ResultsPage.SlugifyParts | Frontend/Plan2Code/src/pages/results-page.tsx:381-382 | array children are joined with "" before slugifying |
| ResultsPage.SlugifyExample | Frontend/Plan2Code/src/pages/results-page.tsx:386-389 | "a ! b" becomes "a--b": whitespace turns into dashes before "!" is deleted |
| ResultsPage.EntryStyles | Frontend/Plan2Code/src/pages/results-page.tsx:163-184 | H1, H2, H3, P, PRE and UL each give exactly one entry (PRE in Courier, UL the list of its li texts); every other node gives none |
| ResultsPage.ContentLength | Frontend/Plan2Code/src/pages/results-page.tsx:162-185 | the content is never longer than the node list |
| ResultsPage.ContentAppend | Frontend/Plan2Code/src/pages/results-page.tsx:162-185 | nodes are handled in order: the content of a concatenation is the concatenation of the contents |
| ResultsPage.PdfContent | Frontend/Plan2Code/src/pages/results-page.tsx:160-185 | the loop builds the content of the whole node list |
| ResultsPage.Lines | Frontend/Plan2Code/src/pages/results-page.tsx:142-143 | the lines exist exactly when no entry is null, and then line i is the line of entry i |
| ResultsPage.AsWrittenShowsNothing | Frontend/Plan2Code/src/pages/results-page.tsx:141-144 | reading `data.created`, the message for the body the backend sends is always empty |
| ResultsPage.LineOfResult | Frontend/Plan2Code/src/pages/results-page.tsx:142 | a created result reads as "✅ KEY — [View](URL)" and a failed one as its error |
| ResultsPage.LinesOfResults | Frontend/Plan2Code/src/pages/results-page.tsx:141-143 | the backend's result list gives one line per result, in order |
| ResultsPage.CorrectedShowsResults | Frontend/Plan2Code/src/pages/results-page.tsx:141-144 | reading `created_issues`, the message is the result lines joined with "\n" |
| ResultsPage.ShouldRefineExact | Frontend/Plan2Code/src/pages/results-page.tsx:84 | refinement goes ahead exactly when there is a plan and the feedback has a non-whitespace character |
| ResultsPage.Ticket.constructor | Frontend/Plan2Code/src/pages/results-page.tsx:121 | a ticket holds the summary and description it was delivered with |
| ResultsPage.ProjectPlanPage.constructor | Frontend/Plan2Code/src/pages/results-page.tsx:28-41 | the page once the initial fetch delivered `plan` (line 71): that plan, empty feedback, no tickets, no Jira message and the modal closed |
| ResultsPage.ProjectPlanPage.HandleRefine | Frontend/Plan2Code/src/pages/results-page.tsx:83-106 | nothing changes without a plan, for blank feedback, or when the request fails; otherwise the refined plan replaces the plan and the feedback is cleared |
| ResultsPage.ProjectPlanPage.EditSummary | Frontend/Plan2Code/src/pages/results-page.tsx:338-341 | ticket `index` gets the summary; tickets that are other objects keep theirs; no description and no list entry changes |
| ResultsPage.ProjectPlanPage.EditDescription | Frontend/Plan2Code/src/pages/results-page.tsx:351-354 | ticket `index` gets the description; tickets that are other objects keep theirs; no summary and no list entry changes |
| ResultsPage.ProjectPlanPage.HandleSubmitAllTickets | Frontend/Plan2Code/src/pages/results-page.tsx:129-152 | as written: the message read under `data.created` replaces the Jira response and closes the modal, and a body without "created", such as the backend's, leaves the Jira response empty (see Findings); when the message cannot be built the error message is shown and the modal stays |
| ResultsPage.ProjectPlanPage.HandleSubmitAllTicketsCorrected | Frontend/Plan2Code/src/pages/results-page.tsx:129-152 | as intended: the same handler reading `created_issues`, so with CorrectedShowsResults the page shows one line per pushed ticket |
| ResultsPage.ProjectPlanPage.ShowPushMessage | Frontend/Plan2Code/src/pages/results-page.tsx:144-148 | a built message replaces the Jira response and closes the modal; a failure shows the error message and keeps the modal |
| FileUpload.ExtensionAfterLastDot | Frontend/Plan2Code/src/pages/file-upload-ui.tsx:48 | the extension is the text after the last dot, lowercased |
| FileUpload.ExtensionCases | Frontend/Plan2Code/src/pages/file-upload-ui.tsx:48 | no dot gives the whole name lowercased, a trailing dot gives "", and the extension never holds a dot |
| FileUpload.ClassifyByName | Frontend/Plan2Code/src/pages/file-upload-ui.tsx:48-71 | the PDF branch exactly when the text after the last dot, lowercased, is "pdf"; otherwise the text branch exactly for a "text…" type or json, csv or md after the last dot |
| FileUpload.PreviewIsPdf | Frontend/Plan2Code/src/pages/file-upload-ui.tsx:48-51 | every file whose name ends in ".pdf" is read by the PDF branch |
| FileUpload.DotlessPdf | Frontend/Plan2Code/src/pages/file-upload-ui.tsx:48-51 | a name without a dot is its own extension, so a file called `PDF` is read as a PDF |
| FileUpload.UpperCasePdf | Frontend/Plan2Code/src/pages/file-upload-ui.tsx:147 | a `.PDF` file is read as a PDF but gets no preview |
| FileUpload.PagesTextAppend | Frontend/Plan2Code/src/pages/file-upload-ui.tsx:57-62 | page texts are laid end to end in page order |
| FileUpload.PagesTextLength | Frontend/Plan2Code/src/pages/file-upload-ui.tsx:57-62 | every page adds at least its blank line |
| FileUpload.EmptyPage | Frontend/Plan2Code/src/pages/file-upload-ui.tsx:60-61 | a page without items adds only "\n\n" |
| FileUpload.Uploader.constructor | Frontend/Plan2Code/src/pages/file-upload-ui.tsx:24-25 | no file and no text |
| FileUpload.Uploader.HandleFileChange | Frontend/Plan2Code/src/pages/file-upload-ui.tsx:39-78 | the selection replaces the file and the text is reset; no file stops there; otherwise the classification chooses the reader |
| FileUpload.Uploader.OnPdfLoaded | Frontend/Plan2Code/src/pages/file-upload-ui.tsx:53-64 | the loop sets the text to each page's items joined with " " plus "\n\n", pages in order |
| FileUpload.Uploader.OnTextLoaded | Frontend/Plan2Code/src/pages/file-upload-ui.tsx:73-75 | the file's text replaces the text content |
| FileUpload.Uploader.HandleSubmit | Frontend/Plan2Code/src/pages/file-upload-ui.tsx:29-33 | navigates with the text exactly when it is not blank after trimming |
| FileUpload.SubmitNeedsVisibleText | Frontend/Plan2Code/src/pages/file-upload-ui.tsx:187 | the button shows for any text, but only text with a non-whitespace character navigates |
| Strings.StripBy | Backend/utils_free_text.py:82 | a character-set strip returns a contiguous piece of the text that neither starts nor ends with a class character, and only class characters are cut off |
| Strings.StripByRuns | Backend/utils_free_text.py:82 | conversely, stripping class runs around such a piece gives exactly that piece |
| Strings.StripByEmpty | Frontend/Plan2Code/src/pages/file-upload-ui.tsx:30 | stripping leaves nothing exactly when every character is in the class |
| Strings.TrimNonBlank | Frontend/Plan2Code/src/pages/file-upload-ui.tsx:30 | `trim()` is non-empty exactly when some character is not whitespace |
| Strings.Find | Backend/main.py:198 | `find` gives the first index of the character, or -1 when it is absent |
| Strings.RFind | Backend/main.py:199 | `rfind` gives the last index of the character, or -1 when it is absent |
| Strings.LowerIdempotent | Frontend/Plan2Code/src/pages/results-page.tsx:387 | lowercasing leaves no ASCII capital, so lowercasing again changes nothing |
| Strings.SplitJoin | Frontend/Plan2Code/src/pages/file-upload-ui.tsx:48 | the pieces of a split hold no separator and join back to the text |
| Strings.SplitLast | Frontend/Plan2Code/src/pages/file-upload-ui.tsx:48 | the last piece of a split is the text after the last separator |

## Left out

- Language-model calls are parameters: `crew.kickoff`, the completions, `call_llm_to_extract_json_from_free_text` and `run_agents_wrapper`. So are the prompt texts of the completion routes and of utils.py. They are foreign, non-deterministic services.
- `refine_project_plan` (Backend/main.py:148-176) holds no logic beyond one completion call. The frontend consumes its answer as the `refined` parameter of HandleRefine.
- `json.loads` and `response.json()` are the uninterpreted `parse`. Python `str()` and JavaScript `String()` of non-string values are the `show` and `str` parameters. JSON numbers are integers only, and dict key order is not kept.
- Jira REST calls, environment variables and basic auth are replaced by one reply per ticket: a status and a body, or a failed request. JIRA_BASE_URL is the `baseUrl` string and JIRA_PROJECT_KEY the `projectKey` value.
- File I/O in `save_tickets_locally` is reduced to the list extension on the file's content. The printed warning is left out. Opening the file for writing truncates it before `json.dump` runs (Backend/main.py:93-94). A dump that failed there would leave an empty file. The model has no such failure: its entries are always serialisable JSON and disk errors are not modelled. Its unchanged-file cases are those where the load or the extend raises, which happens before the file is opened for writing.
- Api.Plan: the crew kickoff and the final completion always answer with a string. In the source they can raise, and `message.content` can be None so that `.strip()` raises (Backend/main.py:128-141). The route turns all of these into 500; the model does not show it.
- FreeText.Normalize: the extraction completion always answers with a string. A raising call, or None content whose `.strip()` raises AttributeError (Backend/utils_free_text.py:63-71), is not modelled; the model's only exception is on a truthy non-dict extraction.
- Api.JiraTickets, Api.DevTasks, Api.TasksByCategory, Api.CodeSnippet, Api.DevCategories: the crew or completion reply is a string that always arrives. A raising `kickoff`, a raising completion or None content (Backend/main.py:196-197, 275-276, 304-311, 337-341, 381-383) would give 500 and is not modelled.
- FreeText.Validate: reads pydantic strictly. A str field accepts only a JSON string and a List[str] field only an array of strings; pydantic's coercions between types depend on its version, which is not part of the source, and are left out.
- FastAPI request validation (422 for a malformed typed body), CORS and logging are framework plumbing and are left out.
- Api.IssuePayload: `description or ""` is a no-op on a `str` field. The model writes it out but states only the shape.
- Strings.Lower: lowercases ASCII letters only, while JavaScript's `toLowerCase` is full Unicode. The slugify alphabet property is stated for ASCII capitals.
- PlanningForm.TextField: otherTech is a plain string. It starts as "" and is only ever set to a string.
- ResultsPage.Children: array children are taken as already rendered strings. React elements inside an array are not modelled.
- FileUpload.Uploader.OnPdfLoaded: every PDF text item is taken to have a string `str`. An undefined `str` would print as "" in `join` and is not modelled.
- ResultsPage.ProjectPlanPage.HandleRefine: the refined plan is taken to be a string, or None when the request fails. A response without `refined_plan` would set the plan to undefined; that is not modelled.
- Async interleavings and the loading/refining/submitting flags are left out: each handler runs to completion on the value its request delivered.
- The Next, Back and edit buttons exist only in certain states. These conditions are preconditions of the corresponding methods.
- handleGenerateTicketsFromPlan (`data.tickets || []`), the initial plan fetch, the tab state and navigation are left out. They are fetch and UI glue.
- The `docDefinition` styles of the PDF and `marked`/pdfMake themselves are left out. They are presentation, and involve floats; the model stops at the content list.
- Backend/agents.py is not part of this model. It defines the agents the code imports; here agents are identities only.

## Findings

| source | as written | input that shows it | evidently intended | confidence | as-written member | corrected member |
|---|---|---|---|---|---|---|
| Backend/main.py:115-117 | main.py builds its own `ProjectInput`, but `normalize_input` tests `isinstance` against the `ProjectInput` of utils_free_text.py, so the structured body falls through to the last branch and becomes `{"projectDescription": str(input_data)}` | any valid structured body, e.g. all eighteen form fields filled | the structured body is normalised into the full canonical record | not executed | Api.StructuredBodyLosesFields | Api.StructuredBodyPlanned |
| Frontend/Plan2Code/src/pages/results-page.tsx:141 | the push message reads `data.created`, but the backend answers `{"created_issues": [...]}` (Backend/main.py:245), so the list is always empty and the message is "" | any successful push, e.g. one ticket created as ABC-1 | one line per result, read from `created_issues` | not executed | ResultsPage.AsWrittenShowsNothing | ResultsPage.CorrectedShowsResults |
