/**
  The "Daily Agent" job: the team's latest daily transcript, its sprint burndown and the
  "Daily Insights" prompt form the LLM input; the answer becomes the team's "Daily Progress Review"
  card and at most two recommendations.
*/
module Daily {
  import opened Wrappers
  import opened Text
  import opened Json
  import opened Seqs
  import opened Backend
  import opened Llm
  import opened Formatting
  import opened Fetching
  import opened Saving
  import opened Jobs

  const DailyJob: InlineJob := InlineJob("Daily Agent", "Daily Agent Analysis Completed",
                                         CardSpec("Daily Progress Review", "Daily Progress", "Critical", "Daily Agent"))

  // ---------------------------------------------------------------------------
  // the data

  /** The prompt is asked for with the space encoded; the plain name only after a 404. */
  function DailyPromptRequests(respond: Request -> Response): (reqs: seq<Request>)
    ensures 1 <= |reqs| <= 2 && reqs[0] == GetPrompt("DailyAgent", "Daily%20Insights")
  {
    var first := GetPrompt("DailyAgent", "Daily%20Insights");
    if respond(first).status == 404 then [first, GetPrompt("DailyAgent", "Daily Insights")] else [first]
  }

  /** `(pdata.get("data") or {}).get("prompt_description") or pdata.get("prompt_description")` for
      a 200 dict answer, None otherwise; a truthy "data" that is not a dict raises. */
  function DailyPrompt(resp: Response): (r: Result<Value>)
    ensures !OkDict(resp) ==> r == Ok(Null)
    ensures r.Raised? <==>
      OkDict(resp) && Truthy(GetOrNull(resp.body.fields, "data")) && !GetOrNull(resp.body.fields, "data").Obj?
    ensures r.Raised? ==> r.reason == NotADict
  {
    if !OkDict(resp) then Ok(Null)
    else
      var inner := Or(GetOrNull(resp.body.fields, "data"), Obj([]));
      if !inner.Obj? then Raised(NotADict)
      else Ok(Or(GetOrNull(inner.fields, "prompt_description"), GetOrNull(resp.body.fields, "prompt_description")))
  }

  /** For a 200 dict answer the nested `data.prompt_description` wins when it is truthy; the
      top-level one is taken when "data" is a dict without a truthy one, or is falsy. */
  lemma DailyPromptOrder(resp: Response)
    requires OkDict(resp)
    ensures var data := GetOrNull(resp.body.fields, "data");
      var root := GetOrNull(resp.body.fields, "prompt_description");
      && (data.Obj? && Truthy(GetOrNull(data.fields, "prompt_description")) ==>
            DailyPrompt(resp) == Ok(GetOrNull(data.fields, "prompt_description")))
      && (data.Obj? && !Truthy(GetOrNull(data.fields, "prompt_description")) ==> DailyPrompt(resp) == Ok(root))
      && (!Truthy(data) ==> DailyPrompt(resp) == Ok(root))
  {
    var data := GetOrNull(resp.body.fields, "data");
    if data.Obj? && !Truthy(data) {
      assert data.fields == [];
      assert GetOrNull(data.fields, "prompt_description") == Null;
    }
  }

  datatype DailyData = DailyData(transcript: Value, burndown: Value, prompt: Value)

  function Gather(respond: Request -> Response, team: Value): Step<Result<DailyData>> {
    var tReq := GetLatestDailyTranscript(team);
    var transcript := LatestTranscript(respond(tReq));
    if transcript.Raised? then Step([tReq], Raised(transcript.reason))
    else
      var bReq := GetTeamSprintBurndown(team);
      var pReqs := DailyPromptRequests(respond);
      var prompt := DailyPrompt(respond(pReqs[|pReqs| - 1]));
      Step([tReq, bReq] + pReqs,
           if prompt.Raised? then Raised(prompt.reason)
           else Ok(DailyData(transcript.value, DataOrNull(respond(bReq)), prompt.value)))
  }

  method GatherDailyData(c: ApiClient, team: Value) returns (r: Result<DailyData>)
    modifies c
    ensures c.sent == old(c.sent) + Gather(c.respond, team).reqs
    ensures r == Gather(c.respond, team).out
  {
    var tResp := c.Call(GetLatestDailyTranscript(team));
    var transcript := LatestTranscript(tResp);
    if transcript.Raised? {
      return Raised(transcript.reason);
    }
    var bResp := c.Call(GetTeamSprintBurndown(team));
    var burndown: Value := Null;
    if bResp.status == 200 && bResp.body.Obj? {
      burndown := DataOrBody(bResp);
    }
    var pResp := c.Call(GetPrompt("DailyAgent", "Daily%20Insights"));
    if pResp.status == 404 {
      pResp := c.Call(GetPrompt("DailyAgent", "Daily Insights"));
    }
    var prompt := DailyPrompt(pResp);
    if prompt.Raised? {
      return Raised(prompt.reason);
    }
    r := Ok(DailyData(transcript.value, burndown, prompt.value));
  }

  // ---------------------------------------------------------------------------
  // _format_daily_input

  /** The parts before the prompt; a burndown that does not format is replaced by a notice. */
  function DailyParts(data: DailyData, team: Value): seq<string> {
    var burndown := BurndownText(data.burndown);
    ["=== DAILY CONTEXT ===", "Team: " + Show(team), "", "=== TRANSCRIPT DATA ===",
     TranscriptText(data.transcript, "Raw Transcript:"), "", SprintBurndownHeader,
     if burndown.Ok? then burndown.value else NoBurndownData, ""]
  }

  /** The input joined line by line; a truthy prompt follows under its heading, and one that is
      not a string makes the join raise. */
  function DailyInput(data: DailyData, team: Value): Result<string> {
    if !Truthy(data.prompt) then Ok(Join(DailyParts(data, team), "\n"))
    else if data.prompt.Str? then Ok(Join(DailyParts(data, team) + ["=== PROMPT ===", data.prompt.s], "\n"))
    else Raised(JoinFailed)
  }

  method FormatDailyInput(data: DailyData, team: Value) returns (r: Result<string>)
    ensures r == DailyInput(data, team)
  {
    var transcript := FormatTranscript(data.transcript, "Raw Transcript:");
    var parts := ["=== DAILY CONTEXT ===", "Team: " + Show(team), "", "=== TRANSCRIPT DATA ===", transcript, "",
                  SprintBurndownHeader];
    var burndown := FormatBurndown(data.burndown);
    if burndown.Ok? {
      parts := parts + [burndown.value];
    } else {
      parts := parts + [NoBurndownData];
    }
    parts := parts + [""];
    assert parts == DailyParts(data, team);
    if Truthy(data.prompt) {
      if !data.prompt.Str? {
        return Raised(JoinFailed);
      }
      parts := parts + ["=== PROMPT ===", data.prompt.s];
    }
    r := Ok(Join(parts, "\n"));
  }

  /** The parts, whatever follows them, open with the context heading and the team. */
  lemma DailyPartsStart(data: DailyData, team: Value, extra: seq<string>)
    ensures StartsWith(Join(DailyParts(data, team) + extra, "\n"), "=== DAILY CONTEXT ===" + "\n" + ("Team: " + Show(team)))
  {
    var parts := DailyParts(data, team);
    assert parts + extra == ["=== DAILY CONTEXT ===", "Team: " + Show(team)] + (parts[2..] + extra);
    JoinStartsTwo("=== DAILY CONTEXT ===", "Team: " + Show(team), parts[2..] + extra, "\n");
  }

  /** The input opens with the context heading and the team; a truthy string prompt closes it
      under its own heading, and any other truthy prompt raises. */
  lemma DailyInputShape(data: DailyData, team: Value)
    ensures DailyInput(data, team).Raised? <==> Truthy(data.prompt) && !data.prompt.Str?
    ensures DailyInput(data, team).Ok? ==>
      StartsWith(DailyInput(data, team).value, "=== DAILY CONTEXT ===" + "\n" + ("Team: " + Show(team)))
    ensures Truthy(data.prompt) && data.prompt.Str? ==>
      EndsWith(DailyInput(data, team).value, "=== PROMPT ===" + "\n" + data.prompt.s)
  {
    var parts := DailyParts(data, team);
    if Truthy(data.prompt) && data.prompt.Str? {
      DailyPartsStart(data, team, ["=== PROMPT ===", data.prompt.s]);
      JoinLastTwo(parts, "=== PROMPT ===", data.prompt.s, "\n");
    } else {
      DailyPartsStart(data, team, []);
      assert parts + [] == parts;
    }
  }

  // ---------------------------------------------------------------------------
  // process

  function FoundText(v: Value): string {
    if Truthy(v) then "Found" else "Not found"
  }

  function DailyDetails(team: Value, jobId: Value, timestamp: string, data: DailyData): seq<string> {
    ["Team: " + Show(team), "Job ID: " + Show(jobId), "Timestamp: " + timestamp, "", "Data Collected:",
     "- Transcript: " + FoundText(data.transcript), "- Burndown: " + FoundText(data.burndown),
     "- Prompt: " + FoundText(data.prompt)]
  }

  /** Everything after the data is gathered: the input, the LLM, the card and the recommendations. */
  function Analyze(respond: Request -> Response, parse: string -> Option<Value>, team: Value, jobId: Value,
                   data: DailyData, today: string, timestamp: string): Step<Result<JobResult>> {
    var input := DailyInput(data, team);
    if input.Raised? then Step([], Raised(input.reason))
    else
      var id := IntJobId(jobId);
      if id.Raised? then Step([], Raised(id.reason))
      else InlineAfterInput(respond, parse, DailyJob, team, jobId, id.value, input.value,
                            DailyDetails(team, jobId, timestamp, data), today)
  }

  /** `today` is the current UTC date and `timestamp` the current UTC time as the job prints it. */
  function Process(respond: Request -> Response, parse: string -> Option<Value>, job: Record, today: string,
                   timestamp: string): Step<Result<JobResult>> {
    var team := GetOrNull(job, "team_name");
    if !Truthy(team) then Step([], Ok(JobResult(false, MissingTeam)))
    else
      var gathered := Gather(respond, team);
      if gathered.out.Raised? then Step(gathered.reqs, Raised(gathered.out.reason))
      else
        var rest := Analyze(respond, parse, team, JobIdOf(job), gathered.out.value, today, timestamp);
        Step(gathered.reqs + rest.reqs, rest.out)
  }

  method AnalyzeDaily(c: ApiClient, parse: string -> Option<Value>, team: Value, jobId: Value, data: DailyData,
                      today: string, timestamp: string) returns (r: Result<JobResult>)
    modifies c
    ensures c.sent == old(c.sent) + Analyze(c.respond, parse, team, jobId, data, today, timestamp).reqs
    ensures r == Analyze(c.respond, parse, team, jobId, data, today, timestamp).out
  {
    var input := FormatDailyInput(data, team);
    if input.Raised? {
      return Raised(input.reason);
    }
    var id := IntJobId(jobId);
    if id.Raised? {
      return Raised(id.reason);
    }
    r := AskInline(c, parse, DailyJob, team, jobId, id.value, input.value, DailyDetails(team, jobId, timestamp, data),
                   today);
  }

  method ProcessDailyJob(c: ApiClient, parse: string -> Option<Value>, job: Record, today: string, timestamp: string)
    returns (r: Result<JobResult>)
    modifies c
    ensures c.sent == old(c.sent) + Process(c.respond, parse, job, today, timestamp).reqs
    ensures r == Process(c.respond, parse, job, today, timestamp).out
  {
    var team := GetOrNull(job, "team_name");
    if !Truthy(team) {
      return Ok(JobResult(false, MissingTeam));
    }
    ghost var s0 := c.sent;
    var gathered := GatherDailyData(c, team);
    ghost var g := Gather(c.respond, team);
    ghost var mid := c.sent;
    if gathered.Raised? {
      return Raised(gathered.reason);
    }
    r := AnalyzeDaily(c, parse, team, JobIdOf(job), gathered.value, today, timestamp);
    ghost var rest := Analyze(c.respond, parse, team, JobIdOf(job), g.out.value, today, timestamp);
    assert c.sent == mid + rest.reqs;
    ConcatAssoc(s0, g.reqs, rest.reqs);
  }

  // ---------------------------------------------------------------------------
  // properties

  /** A job without a truthy team fails at once and sends nothing. */
  lemma DailyNeedsTeam(respond: Request -> Response, parse: string -> Option<Value>, job: Record, today: string,
                       timestamp: string)
    ensures !Truthy(GetOrNull(job, "team_name")) <==>
      Process(respond, parse, job, today, timestamp) == Step([], Ok(JobResult(false, MissingTeam)))
  {
    var team := GetOrNull(job, "team_name");
    if Truthy(team) {
      assert Process(respond, parse, job, today, timestamp).reqs != [];
    }
  }

  /** With a team the job first asks for the latest daily transcript, then the burndown, then
      the prompt with the encoded name. */
  lemma DailyRequestOrder(respond: Request -> Response, parse: string -> Option<Value>, job: Record, today: string,
                          timestamp: string)
    requires Truthy(GetOrNull(job, "team_name"))
    ensures var team := GetOrNull(job, "team_name");
      var reqs := Process(respond, parse, job, today, timestamp).reqs;
      && reqs[0] == GetLatestDailyTranscript(team)
      && (LatestTranscript(respond(GetLatestDailyTranscript(team))).Ok? ==>
            |reqs| >= 3 && reqs[1] == GetTeamSprintBurndown(team)
            && reqs[2] == GetPrompt("DailyAgent", "Daily%20Insights"))
  {
  }

  /** The job saves at most two recommendations, whatever the backend and the LLM answer. */
  lemma DailySavesAtMostTwo(respond: Request -> Response, parse: string -> Option<Value>, job: Record, today: string,
                            timestamp: string)
    ensures Accepted(respond, Process(respond, parse, job, today, timestamp).reqs) <= 2
  {
    var team := GetOrNull(job, "team_name");
    if Truthy(team) {
      var gathered := Gather(respond, team);
      assert NoRecommendations(gathered.reqs);
      AcceptedNone(respond, gathered.reqs);
      if gathered.out.Ok? {
        var data := gathered.out.value;
        var jobId := JobIdOf(job);
        var rest := Analyze(respond, parse, team, jobId, data, today, timestamp);
        var input := DailyInput(data, team);
        if input.Ok? && IntJobId(jobId).Ok? {
          InlineAtMostTwo(respond, parse, DailyJob, team, jobId, IntJobId(jobId).value, input.value,
                          DailyDetails(team, jobId, timestamp, data), today);
        }
        AcceptedAppend(respond, gathered.reqs, rest.reqs);
      }
    }
  }
}
