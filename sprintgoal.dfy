/**
  The "Sprint Goal" job: only a team whose first active sprint states a goal of at least ten
  visible characters is analysed; the sprint's fields, its burndown and the "Sprint Goal" prompt
  form the LLM input, and the answer becomes the "Sprint Goal Analysis" card and at most two
  recommendations.
*/
module SprintGoal {
  import opened Wrappers
  import opened Text
  import opened Json
  import opened Seqs
  import opened Backend
  import opened Formatting
  import opened Fetching
  import opened Jobs

  const SprintGoalJob: InlineJob := InlineJob("Sprint Goal", "Sprint Goal Analysis Completed",
                                              CardSpec("Sprint Goal Analysis", "Sprint Goal", "High", "Sprint Goal"))
  /** The prompt the job asks the backend for, and the agent it belongs to. */
  const PromptOwner: string := "DailyAgent"
  const PromptName: string := "Sprint Goal"
  const NoGoal: string := "No sprint Goal found"
  const MinGoalLength: nat := 10

  // ---------------------------------------------------------------------------
  // the active sprint and its goal

  /** The join of the sprint names raises on a name that is not a str. */
  const NameJoinFailed: string := "TypeError: a sprint name is not a str"

  /** `sprint.get("name", "Unknown")`. */
  function SprintName(sprint: Record): Value {
    GetOrDefault(sprint, "name", Str("Unknown"))
  }

  /** The names the sprint loop collects: one for each dict sprint, in order. */
  function SprintNames(sprints: seq<Value>): seq<Value> {
    if sprints == [] then []
    else
      var init := SprintNames(sprints[..|sprints| - 1]);
      var last := sprints[|sprints| - 1];
      if last.Obj? then init + [SprintName(last.fields)] else init
  }

  /** `', '.join(sprint_names)` does not raise. */
  predicate NamesJoin(names: seq<Value>) {
    forall k :: 0 <= k < |names| ==> names[k].Str?
  }

  /** The `sprints` entry of a dict "data": `data.get("sprints") or []`. */
  function SprintList(data: Record): Value {
    Or(GetOrNull(data, "sprints"), Arr([]))
  }

  /** The first listed active sprint: `(sprints.get("data") or {}).get("sprints") or []`, for a 200
      dict answer; a truthy "data" that is not a dict raises, and so does the join of the dict
      sprints' names when one of them is not a str. */
  function ActiveSprint(resp: Response): (r: Result<Value>)
    ensures !OkDict(resp) ==> r == Ok(Null)
    ensures OkDict(resp) ==>
      var data := Or(GetOrNull(resp.body.fields, "data"), Obj([]));
      && (r == Raised(NotADict) <==> !data.Obj?)
      && (data.Obj? ==>
            var list := SprintList(data.fields);
            && (r == Raised(NameJoinFailed) <==> list.Arr? && !NamesJoin(SprintNames(list.items)))
            && (r.Ok? && list.Arr? && list.items != [] ==> r.value == list.items[0])
            && (r.Ok? && !(list.Arr? && list.items != []) ==> r.value == Null))
  {
    if !OkDict(resp) then Ok(Null)
    else
      var data := Or(GetOrNull(resp.body.fields, "data"), Obj([]));
      if !data.Obj? then Raised(NotADict)
      else
        var list := SprintList(data.fields);
        if !list.Arr? then Ok(Null)
        else if !NamesJoin(SprintNames(list.items)) then Raised(NameJoinFailed)
        else if list.items != [] then Ok(list.items[0]) else Ok(Null)
  }

  /** The collected names are exactly the names of the dict sprints, in order. */
  lemma {:induction false} SprintNamesMembers(sprints: seq<Value>)
    ensures forall n :: n in SprintNames(sprints) <==>
      exists i :: 0 <= i < |sprints| && sprints[i].Obj? && n == SprintName(sprints[i].fields)
    ensures |SprintNames(sprints)| <= |sprints|
    decreases |sprints|
  {
    if sprints != [] {
      var init := sprints[..|sprints| - 1];
      SprintNamesMembers(init);
      assert sprints == init + [sprints[|sprints| - 1]];
      forall n | n in SprintNames(sprints)
        ensures exists i :: 0 <= i < |sprints| && sprints[i].Obj? && n == SprintName(sprints[i].fields)
      {
        if n in SprintNames(init) {
          var i :| 0 <= i < |init| && init[i].Obj? && n == SprintName(init[i].fields);
          assert sprints[i] == init[i];
        }
      }
      forall i | 0 <= i < |sprints| && sprints[i].Obj?
        ensures SprintName(sprints[i].fields) in SprintNames(sprints)
      {
        if i < |init| {
          assert init[i] == sprints[i];
        }
      }
    }
  }

  /** The name join raises exactly when some dict sprint has a "name" that is not a str; a
      dict sprint without "name" shows "Unknown". */
  lemma NamesJoinIff(sprints: seq<Value>)
    ensures NamesJoin(SprintNames(sprints)) <==>
      forall i :: 0 <= i < |sprints| && sprints[i].Obj? ==> SprintName(sprints[i].fields).Str?
  {
    SprintNamesMembers(sprints);
    var names := SprintNames(sprints);
    if !NamesJoin(names) {
      var k :| 0 <= k < |names| && !names[k].Str?;
      assert names[k] in names;
    }
    if NamesJoin(names) {
      forall i | 0 <= i < |sprints| && sprints[i].Obj? ensures SprintName(sprints[i].fields).Str? {
        var n := SprintName(sprints[i].fields);
        assert n in names;
        var k :| 0 <= k < |names| && names[k] == n;
      }
    }
  }

  /** The sprint loop: the name of every dict sprint, appended in order. */
  method CollectSprintNames(sprints: seq<Value>) returns (names: seq<Value>)
    ensures names == SprintNames(sprints)
  {
    names := [];
    for i := 0 to |sprints|
      invariant names == SprintNames(sprints[..i])
    {
      assert sprints[..i + 1][..i] == sprints[..i];
      if sprints[i].Obj? {
        names := names + [GetOrDefault(sprints[i].fields, "name", Str("Unknown"))];
      }
    }
    assert sprints[..|sprints|] == sprints;
  }

  /** Reads the sprints answer as the source does: the sprint loop, then the name join. */
  method ReadActiveSprint(resp: Response) returns (r: Result<Value>)
    ensures r == ActiveSprint(resp)
  {
    var active := Null;
    var names := [];
    if OkDict(resp) {
      var data := Or(GetOrNull(resp.body.fields, "data"), Obj([]));
      if !data.Obj? {
        return Raised(NotADict);
      }
      var list := Or(GetOrNull(data.fields, "sprints"), Arr([]));
      if list.Arr? {
        names := CollectSprintNames(list.items);
        if list.items != [] {
          active := list.items[0];
        }
      }
    }
    if exists k :: 0 <= k < |names| && !names[k].Str? {
      return Raised(NameJoinFailed);
    }
    r := Ok(active);
  }

  /** The goal of a dict sprint, None for anything else. */
  function SprintGoalOf(active: Value): Value {
    if active.Obj? then GetOrNull(active.fields, "sprint_goal") else Null
  }

  /** A goal worth analysing: truthy, and at least ten characters once its text is stripped. */
  predicate GoalUsable(goal: Value) {
    Truthy(goal) && |Strip(Show(goal))| >= MinGoalLength
  }

  /** The burndown: `bd.get("data") or bd` of a 200 dict answer, a dict wrapped in a list. */
  function SprintBurndown(resp: Response): (b: Value)
    ensures !b.Obj?
  {
    var b := DataOrNull(resp);
    if b.Obj? then Arr([b]) else b
  }

  // ---------------------------------------------------------------------------
  // the input

  /** `f"{k}: {v}"`. */
  function ItemLine(p: (string, Value)): string {
    p.0 + ": " + Show(p.1)
  }

  function StatusBlock(active: Value): seq<string> {
    if active.Obj? then ["ACTIVE SPRINT STATUS:", Repeat('-', 30)] + Map(ItemLine, active.fields) + [""] else []
  }

  /** The formatted burndown, or a notice when it does not format. */
  function BurndownLine(burndown: Value): string {
    var formatted := BurndownText(burndown);
    if formatted.Ok? then formatted.value else "No burndown data"
  }

  function BurndownBlock(burndownLine: string, now: string): seq<string> {
    ["Current Date: " + now, "", "SPRINT BURNDOWN:", Repeat('-', 20), burndownLine, ""]
  }

  function PromptBlock(prompt: Option<string>): seq<string> {
    if prompt.Some? && prompt.value != "" then ["ANALYSIS PROMPT:", Repeat('-', 20), prompt.value, ""] else []
  }

  /** `now` is the current UTC time in ISO form. */
  function SprintGoalParts(active: Value, burndownLine: string, prompt: Option<string>, now: string): seq<string> {
    ["SPRINT GOAL ANALYSIS DATA", Repeat('=', 50), ""] + StatusBlock(active) + BurndownBlock(burndownLine, now)
      + PromptBlock(prompt)
  }

  function SprintGoalInput(active: Value, burndown: Value, prompt: Option<string>, now: string): string {
    Join(SprintGoalParts(active, BurndownLine(burndown), prompt, now), "\n")
  }

  method StatusLines(fields: Record) returns (lines: seq<string>)
    ensures lines == Map(ItemLine, fields)
  {
    lines := [];
    for i := 0 to |fields|
      invariant lines == Map(ItemLine, fields[..i])
    {
      MapNext(ItemLine, fields, i);
      lines := lines + [fields[i].0 + ": " + Show(fields[i].1)];
    }
    assert fields[..|fields|] == fields;
  }

  method FormatSprintGoalInput(active: Value, burndown: Value, prompt: Option<string>, now: string)
    returns (formatted: string)
    ensures formatted == SprintGoalInput(active, burndown, prompt, now)
  {
    var status := [];
    if active.Obj? {
      var lines := StatusLines(active.fields);
      status := ["ACTIVE SPRINT STATUS:", Repeat('-', 30)] + lines + [""];
    }
    assert status == StatusBlock(active);
    var bd := FormatBurndown(burndown);
    var line := if bd.Ok? then bd.value else "No burndown data";
    var parts := ["SPRINT GOAL ANALYSIS DATA", Repeat('=', 50), ""] + status + BurndownBlock(line, now)
      + PromptBlock(prompt);
    formatted := Join(parts, "\n");
  }

  /** The input opens with its heading; a dict sprint follows under its own heading, and
      anything else goes straight to the date. */
  lemma SprintGoalHeadShape(active: Value, burndownLine: string, prompt: Option<string>, now: string)
    ensures var parts := SprintGoalParts(active, burndownLine, prompt, now);
      && parts[..3] == ["SPRINT GOAL ANALYSIS DATA", Repeat('=', 50), ""]
      && (active.Obj? ==> parts[3] == "ACTIVE SPRINT STATUS:")
      && (!active.Obj? ==> parts[3] == "Current Date: " + now)
  {
    var parts := SprintGoalParts(active, burndownLine, prompt, now);
    assert parts == ["SPRINT GOAL ANALYSIS DATA", Repeat('=', 50), ""]
                    + (StatusBlock(active) + BurndownBlock(burndownLine, now) + PromptBlock(prompt));
  }

  /** A dict sprint contributes one status line for every field, in order. */
  lemma SprintGoalStatusLines(active: Value, burndownLine: string, prompt: Option<string>, now: string)
    requires active.Obj?
    ensures var parts := SprintGoalParts(active, burndownLine, prompt, now);
      && |parts| >= 5 + |active.fields|
      && forall k :: 0 <= k < |active.fields| ==> parts[5 + k] == active.fields[k].0 + ": " + Show(active.fields[k].1)
  {
    var parts := SprintGoalParts(active, burndownLine, prompt, now);
    var lines := Map(ItemLine, active.fields);
    var pre := ["SPRINT GOAL ANALYSIS DATA", Repeat('=', 50), "", "ACTIVE SPRINT STATUS:", Repeat('-', 30)];
    var post := [""] + BurndownBlock(burndownLine, now) + PromptBlock(prompt);
    assert parts == pre + lines + post;
    MapElements(ItemLine, active.fields);
    forall k | 0 <= k < |active.fields|
      ensures parts[5 + k] == ItemLine(active.fields[k])
    {
      assert parts[5 + k] == lines[k];
    }
  }

  /** The input ends with the prompt under its heading exactly when a non-empty prompt was found,
      and with the burndown block otherwise. */
  lemma SprintGoalPromptShape(active: Value, burndownLine: string, prompt: Option<string>, now: string)
    ensures var parts := SprintGoalParts(active, burndownLine, prompt, now);
      && (prompt.Some? && prompt.value != "" ==>
            parts[|parts| - 4..] == ["ANALYSIS PROMPT:", Repeat('-', 20), prompt.value, ""])
      && (!(prompt.Some? && prompt.value != "") ==>
            parts[|parts| - 6..] == BurndownBlock(burndownLine, now))
  {
    var head := ["SPRINT GOAL ANALYSIS DATA", Repeat('=', 50), ""] + StatusBlock(active);
    var parts := SprintGoalParts(active, burndownLine, prompt, now);
    assert parts == (head + BurndownBlock(burndownLine, now)) + PromptBlock(prompt);
  }

  // ---------------------------------------------------------------------------
  // process

  function GoalDetails(team: Value, jobId: Value, timestamp: string): seq<string> {
    ["Team: " + Show(team), "Job ID: " + Show(jobId), "Timestamp: " + timestamp]
  }

  /** Once the prompt lookup has answered: a failed lookup ends the job, otherwise the input goes
      to the LLM. */
  function AfterPrompt(respond: Request -> Response, parse: string -> Option<Value>, team: Value, jobId: Value,
                       id: Option<int>, active: Value, burndown: Value, prompt: PromptResult, now: string,
                       today: string, timestamp: string): Step<Result<JobResult>> {
    if prompt.error.Some? then Step([], Ok(JobResult(false, prompt.error.value)))
    else
      InlineAfterInput(respond, parse, SprintGoalJob, team, jobId, id, SprintGoalInput(active, burndown, prompt.prompt, now),
                       GoalDetails(team, jobId, timestamp), today)
  }

  /** From the prompt lookup on, once the burndown is fetched and the job id is known. */
  function AfterBurndown(respond: Request -> Response, parse: string -> Option<Value>, team: Value, jobId: Value,
                         id: Option<int>, active: Value, burndown: Value, now: string, today: string,
                         timestamp: string): Step<Result<JobResult>> {
    var prompt := PromptLookup(respond, PromptOwner, PromptName);
    var rest := AfterPrompt(respond, parse, team, jobId, id, active, burndown, prompt.out, now, today, timestamp);
    Step(prompt.reqs + rest.reqs, rest.out)
  }

  /** From the burndown on, once the goal has passed the gate. */
  function AfterGoal(respond: Request -> Response, parse: string -> Option<Value>, team: Value, jobId: Value,
                     active: Value, now: string, today: string, timestamp: string): Step<Result<JobResult>> {
    var bReq := GetTeamSprintBurndown(team);
    var id := IntJobId(jobId);
    if id.Raised? then Step([bReq], Raised(id.reason))
    else
      var rest := AfterBurndown(respond, parse, team, jobId, id.value, active, SprintBurndown(respond(bReq)), now,
                                today, timestamp);
      Step([bReq] + rest.reqs, rest.out)
  }

  function Process(respond: Request -> Response, parse: string -> Option<Value>, job: Record, now: string,
                   today: string, timestamp: string): Step<Result<JobResult>> {
    var team := GetOrNull(job, "team_name");
    if !Truthy(team) then Step([], Ok(JobResult(false, MissingTeam)))
    else
      var sReq := GetSprints(team, "active");
      var active := ActiveSprint(respond(sReq));
      if active.Raised? then Step([sReq], Raised(active.reason))
      else if !GoalUsable(SprintGoalOf(active.value)) then Step([sReq], Ok(JobResult(true, NoGoal)))
      else
        var rest := AfterGoal(respond, parse, team, JobIdOf(job), active.value, now, today, timestamp);
        Step([sReq] + rest.reqs, rest.out)
  }

  method AskWithPrompt(c: ApiClient, parse: string -> Option<Value>, team: Value, jobId: Value, id: Option<int>,
                       active: Value, burndown: Value, prompt: PromptResult, now: string, today: string,
                       timestamp: string) returns (r: Result<JobResult>)
    modifies c
    ensures c.sent == old(c.sent) + AfterPrompt(c.respond, parse, team, jobId, id, active, burndown, prompt, now,
                                                today, timestamp).reqs
    ensures r == AfterPrompt(c.respond, parse, team, jobId, id, active, burndown, prompt, now, today, timestamp).out
  {
    if prompt.error.Some? {
      return Ok(JobResult(false, prompt.error.value));
    }
    var input := FormatSprintGoalInput(active, burndown, prompt.prompt, now);
    r := AskInline(c, parse, SprintGoalJob, team, jobId, id, input, GoalDetails(team, jobId, timestamp), today);
  }

  method AskSprintGoal(c: ApiClient, parse: string -> Option<Value>, team: Value, jobId: Value, id: Option<int>,
                       active: Value, burndown: Value, now: string, today: string, timestamp: string)
    returns (r: Result<JobResult>)
    modifies c
    ensures c.sent == old(c.sent) + AfterBurndown(c.respond, parse, team, jobId, id, active, burndown, now, today,
                                                  timestamp).reqs
    ensures r == AfterBurndown(c.respond, parse, team, jobId, id, active, burndown, now, today, timestamp).out
  {
    ghost var s0 := c.sent;
    var prompt := GetPromptWithErrorCheck(c, PromptOwner, PromptName);
    ghost var lookup := PromptLookup(c.respond, PromptOwner, PromptName);
    ghost var mid := c.sent;
    r := AskWithPrompt(c, parse, team, jobId, id, active, burndown, prompt, now, today, timestamp);
    ghost var rest := AfterPrompt(c.respond, parse, team, jobId, id, active, burndown, prompt, now, today, timestamp);
    assert c.sent == mid + rest.reqs;
    ConcatAssoc(s0, lookup.reqs, rest.reqs);
  }

  method AnalyzeGoal(c: ApiClient, parse: string -> Option<Value>, team: Value, jobId: Value, active: Value,
                     now: string, today: string, timestamp: string) returns (r: Result<JobResult>)
    modifies c
    ensures c.sent == old(c.sent) + AfterGoal(c.respond, parse, team, jobId, active, now, today, timestamp).reqs
    ensures r == AfterGoal(c.respond, parse, team, jobId, active, now, today, timestamp).out
  {
    ghost var s0 := c.sent;
    var bResp := c.Call(GetTeamSprintBurndown(team));
    var burndown := SprintBurndown(bResp);
    var id := IntJobId(jobId);
    if id.Raised? {
      return Raised(id.reason);
    }
    ghost var mid := c.sent;
    r := AskSprintGoal(c, parse, team, jobId, id.value, active, burndown, now, today, timestamp);
    ghost var rest := AfterBurndown(c.respond, parse, team, jobId, id.value, active, burndown, now, today, timestamp);
    assert c.sent == mid + rest.reqs;
    ConcatAssoc(s0, [GetTeamSprintBurndown(team)], rest.reqs);
  }

  /** `now`, `today` and `timestamp` are the current UTC time, date and printed time. */
  method ProcessSprintGoalJob(c: ApiClient, parse: string -> Option<Value>, job: Record, now: string, today: string,
                              timestamp: string) returns (r: Result<JobResult>)
    modifies c
    ensures c.sent == old(c.sent) + Process(c.respond, parse, job, now, today, timestamp).reqs
    ensures r == Process(c.respond, parse, job, now, today, timestamp).out
  {
    var team := GetOrNull(job, "team_name");
    if !Truthy(team) {
      return Ok(JobResult(false, MissingTeam));
    }
    ghost var s0 := c.sent;
    var sprints := c.Call(GetSprints(team, "active"));
    var active := ReadActiveSprint(sprints);
    if active.Raised? {
      return Raised(active.reason);
    }
    var goal := SprintGoalOf(active.value);
    if !Truthy(goal) || |Strip(Show(goal))| < MinGoalLength {
      return Ok(JobResult(true, NoGoal));
    }
    ghost var mid := c.sent;
    r := AnalyzeGoal(c, parse, team, JobIdOf(job), active.value, now, today, timestamp);
    ghost var rest := AfterGoal(c.respond, parse, team, JobIdOf(job), active.value, now, today, timestamp);
    assert c.sent == mid + rest.reqs;
    ConcatAssoc(s0, [GetSprints(team, "active")], rest.reqs);
  }

  // ---------------------------------------------------------------------------
  // properties

  /** A sprint without a usable goal ends the job successfully after the one sprint request,
      with nothing sent to the LLM and nothing saved. */
  lemma GoalGate(respond: Request -> Response, parse: string -> Option<Value>, job: Record, now: string,
                 today: string, timestamp: string)
    requires Truthy(GetOrNull(job, "team_name"))
    ensures var team := GetOrNull(job, "team_name");
      var active := ActiveSprint(respond(GetSprints(team, "active")));
      var s := Process(respond, parse, job, now, today, timestamp);
      && s.reqs[0] == GetSprints(team, "active")
      && (active.Raised? ==> s == Step([GetSprints(team, "active")], Raised(active.reason)))
      && (active.Ok? && !GoalUsable(SprintGoalOf(active.value)) ==>
            s == Step([GetSprints(team, "active")], Ok(JobResult(true, NoGoal))))
      && (active.Ok? && GoalUsable(SprintGoalOf(active.value)) ==>
            (|s.reqs| >= 2 && s.reqs[1] == GetTeamSprintBurndown(team)))
  {
  }

  /** A goal is usable only when it is the goal of a dict sprint that is the first of a
      non-empty list, with ten visible characters or more. */
  lemma UsableGoalComesFromFirstSprint(resp: Response)
    requires ActiveSprint(resp).Ok? && GoalUsable(SprintGoalOf(ActiveSprint(resp).value))
    ensures OkDict(resp)
    ensures var data := Or(GetOrNull(resp.body.fields, "data"), Obj([]));
      var list := Or(GetOrNull(data.fields, "sprints"), Arr([]));
      && data.Obj? && list.Arr? && list.items != [] && list.items[0].Obj?
      && ActiveSprint(resp) == Ok(list.items[0])
      && |Strip(Show(GetOrNull(list.items[0].fields, "sprint_goal")))| >= 10
  {
  }

  /** A sprint whose name is None makes the answer raise at the name join, whatever its goal;
      by GoalGate the job then ends after the one sprint request. */
  lemma NullSprintNameRaises()
    ensures ActiveSprint(Response(200, Obj([("data", Obj([("sprints", Arr([Obj([("name", Null),
              ("sprint_goal", Str("Deliver the login flow"))])]))]))])))
         == Raised(NameJoinFailed)
  {
    var sprint := Obj([("name", Null), ("sprint_goal", Str("Deliver the login flow"))]);
    var data := Obj([("sprints", Arr([sprint]))]);
    var resp := Response(200, Obj([("data", data)]));
    assert GetOrNull(resp.body.fields, "data") == data;
    assert SprintList(data.fields) == Arr([sprint]);
    assert SprintName(sprint.fields) == Null;
    assert SprintNames([sprint]) == [Null];
    assert Truthy(data) && Or(GetOrNull(resp.body.fields, "data"), Obj([])) == data;
    var names: seq<Value> := [Null];
    assert !names[0].Str?;
    assert !NamesJoin(SprintNames(SprintList(data.fields).items));
  }

  /** A prompt lookup that fails ends the job as failed with that message; the LLM is not asked
      and the job is not patched. */
  lemma PromptErrorStops(respond: Request -> Response, parse: string -> Option<Value>, team: Value, jobId: Value,
                         id: Option<int>, active: Value, burndown: Value, now: string, today: string,
                         timestamp: string)
    requires PromptLookup(respond, PromptOwner, PromptName).out.error.Some?
    ensures AfterBurndown(respond, parse, team, jobId, id, active, burndown, now, today, timestamp)
         == Step(PromptLookup(respond, PromptOwner, PromptName).reqs,
                 Ok(JobResult(false, PromptLookup(respond, PromptOwner, PromptName).out.error.value)))
  {
  }

  /** The job saves at most two recommendations. */
  lemma SprintGoalSavesAtMostTwo(respond: Request -> Response, parse: string -> Option<Value>, job: Record,
                                 now: string, today: string, timestamp: string)
    ensures Accepted(respond, Process(respond, parse, job, now, today, timestamp).reqs) <= 2
  {
    var team := GetOrNull(job, "team_name");
    var s := Process(respond, parse, job, now, today, timestamp);
    if !Truthy(team) {
      AcceptedNone(respond, s.reqs);
      return;
    }
    var active := ActiveSprint(respond(GetSprints(team, "active")));
    if active.Raised? || !GoalUsable(SprintGoalOf(active.value)) {
      AcceptedNone(respond, s.reqs);
      return;
    }
    var g := AfterGoal(respond, parse, team, JobIdOf(job), active.value, now, today, timestamp);
    AfterGoalAtMostTwo(respond, parse, team, JobIdOf(job), active.value, now, today, timestamp);
    AcceptedAfterOne(respond, GetSprints(team, "active"), g.reqs);
  }

  lemma AfterGoalAtMostTwo(respond: Request -> Response, parse: string -> Option<Value>, team: Value, jobId: Value,
                           active: Value, now: string, today: string, timestamp: string)
    ensures Accepted(respond, AfterGoal(respond, parse, team, jobId, active, now, today, timestamp).reqs) <= 2
  {
    var id := IntJobId(jobId);
    if id.Ok? {
      var burndown := SprintBurndown(respond(GetTeamSprintBurndown(team)));
      var rest := AfterBurndown(respond, parse, team, jobId, id.value, active, burndown, now, today, timestamp);
      AfterBurndownAtMostTwo(respond, parse, team, jobId, id.value, active, burndown, now, today, timestamp);
      AcceptedAfterOne(respond, GetTeamSprintBurndown(team), rest.reqs);
    }
  }

  lemma AfterBurndownAtMostTwo(respond: Request -> Response, parse: string -> Option<Value>, team: Value,
                               jobId: Value, id: Option<int>, active: Value, burndown: Value, now: string,
                               today: string, timestamp: string)
    ensures Accepted(respond, AfterBurndown(respond, parse, team, jobId, id, active, burndown, now, today,
                                            timestamp).reqs) <= 2
  {
    var prompt := PromptLookup(respond, PromptOwner, PromptName);
    AfterPromptAtMostTwo(respond, parse, team, jobId, id, active, burndown, prompt.out, now, today, timestamp);
    PromptLookupSavesNothing(respond, PromptOwner, PromptName,
                             AfterPrompt(respond, parse, team, jobId, id, active, burndown, prompt.out, now, today,
                                         timestamp).reqs);
  }

  lemma AfterPromptAtMostTwo(respond: Request -> Response, parse: string -> Option<Value>, team: Value, jobId: Value,
                             id: Option<int>, active: Value, burndown: Value, prompt: PromptResult, now: string,
                             today: string, timestamp: string)
    ensures Accepted(respond, AfterPrompt(respond, parse, team, jobId, id, active, burndown, prompt, now, today,
                                          timestamp).reqs) <= 2
  {
    if prompt.error.None? {
      InlineAtMostTwo(respond, parse, SprintGoalJob, team, jobId, id, SprintGoalInput(active, burndown, prompt.prompt, now),
                      GoalDetails(team, jobId, timestamp), today);
    }
  }
}
