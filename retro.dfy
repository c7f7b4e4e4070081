/**
  The "Team Retro Topics" job: for a team, the latest five daily transcripts, the active sprint's
  burndown, the last three months of sprint predictability and the "Team Retro Topics" prompt form
  the LLM input; the answer becomes a "Team Retro Topics" card in the team collection, and at most
  two recommendations, each linked to that card, follow it.
*/
module Retro {
  import opened Wrappers
  import opened Text
  import opened Json
  import opened Seqs
  import opened Backend
  import opened Extraction
  import opened Fetching
  import opened Saving
  import opened Jobs

  const RetroJobType: string := "Team Retro Topics"
  const RetroTitle: string := "Team Retro Topics Analysis Completed"
  const RetroHeading: string := "=== TEAM RETRO TOPICS ==="
  /** The prompt the job asks the backend for, and the agent it belongs to. */
  const PromptOwner: string := "TeamRetroTopicsAgent"
  const PromptName: string := "Team Retro Topics"
  /** How many transcripts and how many months of predictability the job asks for. */
  const TranscriptLimit: int := 5
  const PredictabilityMonths: int := 3

  /** The card configuration handed to the card helper. */
  const RetroConfig: Record := [("card_name", Str("Team Retro Topics")), ("card_type", Str("Team Retro Topics")),
                                ("priority", Str("High")), ("source", Str("Team Retro Topics"))]

  // ---------------------------------------------------------------------------
  // the data

  /** The three formatted sections the job collects. */
  datatype RetroData = RetroData(transcripts: string, burndown: string, predictability: string)

  function TranscriptsRequest(team: Value): Request {
    GetTranscripts(Str("Daily"), team, Null, TranscriptLimit)
  }

  /** The three reads, in order; a predictability table that does not format makes the job raise. */
  function Gather(respond: Request -> Response, team: Value): Step<Result<RetroData>> {
    var tReq := TranscriptsRequest(team);
    var bReq := GetTeamSprintBurndown(team);
    var pReq := GetSprintPredictability(team, PredictabilityMonths);
    var predictability := PredictabilitySection(respond(pReq));
    Step([tReq, bReq, pReq],
         if predictability.Raised? then Raised(predictability.reason)
         else Ok(RetroData(TranscriptsText(respond(tReq)), SprintBurndownSection(respond(bReq)), predictability.value)))
  }

  method GatherRetroData(c: ApiClient, team: Value) returns (r: Result<RetroData>)
    modifies c
    ensures c.sent == old(c.sent) + Gather(c.respond, team).reqs
    ensures r == Gather(c.respond, team).out
  {
    var transcripts := GetTranscriptsForAnalysis(c, Str("Daily"), team, Null, TranscriptLimit);
    var burndown := GetTeamSprintBurndownForAnalysis(c, team);
    var predictability := GetSprintPredictabilityForAnalysis(c, team, PredictabilityMonths);
    if predictability.Raised? {
      return Raised(predictability.reason);
    }
    r := Ok(RetroData(transcripts, burndown, predictability.value));
  }

  /** The job asks for the team's five latest daily transcripts, then its sprint burndown, then
      three months of predictability, and fails exactly when the predictability section does. */
  lemma RetroRequestOrder(respond: Request -> Response, team: Value)
    ensures var g := Gather(respond, team);
      && g.reqs == [GetTranscripts(Str("Daily"), team, Null, 5), GetTeamSprintBurndown(team),
                    GetSprintPredictability(team, 3)]
      && (g.out.Raised? <==> PredictabilitySection(respond(GetSprintPredictability(team, 3))).Raised?)
  {
  }

  /** Gathering the data only reads. */
  lemma GatherSavesNothing(respond: Request -> Response, team: Value, rest: seq<Request>)
    ensures Accepted(respond, Gather(respond, team).reqs + rest) == Accepted(respond, rest)
  {
    AcceptedAfterNone(respond, Gather(respond, team).reqs, rest);
  }

  // ---------------------------------------------------------------------------
  // the input

  function PromptPart(prompt: Option<string>): seq<string> {
    if prompt.Some? && prompt.value != "" then [prompt.value] else []
  }

  function RetroParts(team: Value, data: RetroData, prompt: Option<string>): seq<string> {
    [RetroHeading, "Team: " + Show(team), "", data.transcripts, "", data.burndown, "", data.predictability]
      + PromptPart(prompt)
  }

  function RetroInput(team: Value, data: RetroData, prompt: Option<string>): string {
    Join(RetroParts(team, data, prompt), "\n")
  }

  method FormatRetroInput(team: Value, data: RetroData, prompt: Option<string>) returns (formatted: string)
    ensures formatted == RetroInput(team, data, prompt)
  {
    var parts := [RetroHeading];
    parts := parts + ["Team: " + Show(team)];
    parts := parts + [""];
    parts := parts + [data.transcripts, ""];
    parts := parts + [data.burndown, ""];
    parts := parts + [data.predictability];
    if prompt.Some? && prompt.value != "" {
      parts := parts + [prompt.value];
    }
    assert parts == RetroParts(team, data, prompt);
    formatted := Join(parts, "\n");
  }

  /** The input opens with the heading and the team line. */
  lemma RetroInputStart(team: Value, data: RetroData, prompt: Option<string>)
    ensures StartsWith(RetroInput(team, data, prompt), RetroHeading + "\n" + ("Team: " + Show(team)))
  {
    var rest := ["", data.transcripts, "", data.burndown, "", data.predictability] + PromptPart(prompt);
    assert RetroParts(team, data, prompt) == [RetroHeading, "Team: " + Show(team)] + rest;
    JoinStartsTwo(RetroHeading, "Team: " + Show(team), rest, "\n");
  }

  /** A non-empty prompt closes the input, right after the predictability section. */
  lemma RetroInputEndsWithPrompt(team: Value, data: RetroData, prompt: Option<string>)
    requires prompt.Some? && prompt.value != ""
    ensures EndsWith(RetroInput(team, data, prompt), data.predictability + "\n" + prompt.value)
  {
    var head := [RetroHeading, "Team: " + Show(team), "", data.transcripts, "", data.burndown, ""];
    assert RetroParts(team, data, prompt) == head + [data.predictability, prompt.value];
    JoinLastTwo(head, data.predictability, prompt.value, "\n");
  }

  /** Without a prompt, or with an empty one, the predictability section closes the input. */
  lemma RetroInputEndsWithPredictability(team: Value, data: RetroData, prompt: Option<string>)
    requires !(prompt.Some? && prompt.value != "")
    ensures EndsWith(RetroInput(team, data, prompt), "\n" + data.predictability)
  {
    var head := [RetroHeading, "Team: " + Show(team), "", data.transcripts, "", data.burndown];
    var parts := head + ["", data.predictability];
    assert PromptPart(prompt) == [];
    assert parts + [] == parts;
    assert RetroParts(team, data, prompt) == parts;
    JoinLastTwo(head, "", data.predictability, "\n");
  }

  // ---------------------------------------------------------------------------
  // the card and the recommendations

  /** The JSON recommendations are filed under the team, and linked to the job and to the card. */
  function RetroMode(team: Value, today: string, outcome: CardOutcome, id: Option<int>): RecMode {
    SharedJson(team, today, outcome.fullInfo, IdValue(id), outcome.cardId)
  }

  /** The recommendations the answer's JSON carries, when it carries a truthy value. */
  function RecommendationsOf(parse: string -> Option<Value>, answer: string): Option<Value> {
    var recs := SplitTextAndJson(answer, parse).recommendations;
    if recs.Some? && Truthy(recs.value) then recs else None
  }

  /** Once the card helper has returned: a raise ends the job, otherwise the JSON
      recommendations follow when there are any, and the count or the raise is what the saver
      gives. */
  function AfterCard(respond: Request -> Response, team: Value, id: Option<int>, recs: Option<Value>, today: string,
                     card: Step<Result<CardOutcome>>): Step<Result<nat>> {
    if card.out.Raised? then Step(card.reqs, Raised(card.out.reason))
    else if recs.None? then Step(card.reqs, Ok(0))
    else
      var loop := SaveLoop(respond, RetroMode(team, today, card.out.value, id), JsonRecItems(recs), 2, 0);
      Step(card.reqs + loop.reqs, loop.out)
  }

  /** The card, then the recommendations. */
  function RetroWrites(respond: Request -> Response, parse: string -> Option<Value>, team: Value, id: Option<int>,
                       answer: string, today: string): Step<Result<nat>> {
    AfterCard(respond, team, id, RecommendationsOf(parse, answer), today,
              SaveCardCall(respond, parse, answer, team, IdValue(id), RetroConfig, "Team", today))
  }

  method SaveRetroCardAndRecommendations(c: ApiClient, parse: string -> Option<Value>, team: Value, id: Option<int>,
                                         answer: string, today: string) returns (r: Result<nat>)
    modifies c
    ensures c.sent == old(c.sent) + RetroWrites(c.respond, parse, team, id, answer, today).reqs
    ensures r == RetroWrites(c.respond, parse, team, id, answer, today).out
  {
    ghost var s0 := c.sent;
    var outcome := ProcessLlmResponseAndSaveAiCard(c, parse, answer, team, IdValue(id), RetroConfig, "Team", today);
    ghost var card := SaveCardCall(c.respond, parse, answer, team, IdValue(id), RetroConfig, "Team", today);
    ghost var mid := c.sent;
    if outcome.Raised? {
      return Raised(outcome.reason);
    }
    var split := ExtractTextAndJson(answer, parse);
    if !(split.recommendations.Some? && Truthy(split.recommendations.value)) {
      return Ok(0);
    }
    var saved := SaveRecommendationsFromJson(c, split.recommendations, team, today, outcome.value.fullInfo, 2,
                                             IdValue(id), outcome.value.cardId);
    ghost var loop := SaveLoop(c.respond, RetroMode(team, today, card.out.value, id),
                               JsonRecItems(split.recommendations), 2, 0);
    assert c.sent == mid + loop.reqs;
    ConcatAssoc(s0, card.reqs, loop.reqs);
    r := saved;
  }

  /** The card helper saves no recommendation, and with the "Team" type it writes to the team
      collection. */
  lemma RetroCardSaves(respond: Request -> Response, parse: string -> Option<Value>, team: Value, id: Option<int>,
                       answer: string, today: string)
    ensures var card := SaveCardCall(respond, parse, answer, team, IdValue(id), RetroConfig, "Team", today);
      NoRecommendations(card.reqs) && card.reqs != [] && card.reqs[0] == ListCards(TeamCards)
  {
    var p := CardParts(parse, answer, team, IdValue(id), RetroConfig, today);
    SaveCardTargets(respond, "Team", p.0, p.1, p.2, p.3, today);
  }

  /** The card goes to the team collection, before anything else is written. */
  lemma RetroCardTarget(respond: Request -> Response, parse: string -> Option<Value>, team: Value, id: Option<int>,
                        answer: string, today: string)
    ensures var s := RetroWrites(respond, parse, team, id, answer, today);
      s.reqs != [] && s.reqs[0] == ListCards(TeamCards)
  {
    RetroCardSaves(respond, parse, team, id, answer, today);
  }

  /** After a card helper that saves no recommendation: at most two saved, those the backend
      accepted, and the count reported is that number. */
  lemma AfterCardCount(respond: Request -> Response, team: Value, id: Option<int>, recs: Option<Value>,
                       today: string, card: Step<Result<CardOutcome>>)
    requires NoRecommendations(card.reqs)
    ensures var s := AfterCard(respond, team, id, recs, today, card);
      && Accepted(respond, s.reqs) <= 2
      && (s.out.Ok? ==> s.out.value == Accepted(respond, s.reqs))
  {
    if card.out.Ok? && recs.Some? {
      var outcome := card.out.value;
      var loop := SaveLoop(respond, RetroMode(team, today, outcome, id), JsonRecItems(recs), 2, 0);
      SaveFromJsonBound(respond, recs, team, today, outcome.fullInfo, 2, IdValue(id), outcome.cardId);
      AcceptedAfterNone(respond, card.reqs, loop.reqs);
    } else {
      AcceptedNone(respond, card.reqs);
    }
  }

  lemma RetroWritesCount(respond: Request -> Response, parse: string -> Option<Value>, team: Value, id: Option<int>,
                         answer: string, today: string)
    ensures var s := RetroWrites(respond, parse, team, id, answer, today);
      && Accepted(respond, s.reqs) <= 2
      && (s.out.Ok? ==> s.out.value == Accepted(respond, s.reqs))
  {
    RetroCardSaves(respond, parse, team, id, answer, today);
    AfterCardCount(respond, team, id, RecommendationsOf(parse, answer), today,
                   SaveCardCall(respond, parse, answer, team, IdValue(id), RetroConfig, "Team", today));
  }

  /** Every recommendation saved after a card helper that saves none is filed under the team and
      linked to the job and to the card just saved. */
  lemma AfterCardLinks(respond: Request -> Response, team: Value, id: Option<int>, recs: Option<Value>,
                       today: string, card: Step<Result<CardOutcome>>)
    requires NoRecommendations(card.reqs)
    ensures var s := AfterCard(respond, team, id, recs, today, card);
      forall r :: r in s.reqs && r.CreateRecommendation? ==>
        card.out.Ok?
        && GetOrNull(r.body, "team_name") == team
        && GetOrNull(r.body, "source_job_id") == IdValue(id)
        && GetOrNull(r.body, "source_ai_summary_id") == card.out.value.cardId
  {
    var s := AfterCard(respond, team, id, recs, today, card);
    if card.out.Ok? && recs.Some? {
      var outcome := card.out.value;
      var mode := RetroMode(team, today, outcome, id);
      var loop := SaveLoop(respond, mode, JsonRecItems(recs), 2, 0);
      SaveLoopSendsPayloads(respond, mode, JsonRecItems(recs), 2, 0);
      forall r | r in s.reqs && r.CreateRecommendation?
        ensures GetOrNull(r.body, "team_name") == team
             && GetOrNull(r.body, "source_job_id") == IdValue(id)
             && GetOrNull(r.body, "source_ai_summary_id") == outcome.cardId
      {
        assert r in loop.reqs;
        var v :| v in JsonRecItems(recs) && PayloadOf(mode, v) == Some(r.body);
        SharedPayloadFields(team, today, outcome.fullInfo, IdValue(id), outcome.cardId, v);
      }
    }
  }

  /** Every recommendation the job saves is filed under the team and linked to the job and to the
      card just saved; none is saved when the card helper raised. */
  lemma RetroRecommendationsLinkCard(respond: Request -> Response, parse: string -> Option<Value>, team: Value,
                                     id: Option<int>, answer: string, today: string)
    ensures var s := RetroWrites(respond, parse, team, id, answer, today);
      var card := SaveCardCall(respond, parse, answer, team, IdValue(id), RetroConfig, "Team", today);
      forall r :: r in s.reqs && r.CreateRecommendation? ==>
        card.out.Ok?
        && GetOrNull(r.body, "team_name") == team
        && GetOrNull(r.body, "source_job_id") == IdValue(id)
        && GetOrNull(r.body, "source_ai_summary_id") == card.out.value.cardId
  {
    RetroCardSaves(respond, parse, team, id, answer, today);
    AfterCardLinks(respond, team, id, RecommendationsOf(parse, answer), today,
                   SaveCardCall(respond, parse, answer, team, IdValue(id), RetroConfig, "Team", today));
  }

  // ---------------------------------------------------------------------------
  // process

  function RetroDetails(team: Value, jobId: Value, timestamp: string): seq<string> {
    ["Team: " + Show(team), "Job ID: " + Show(jobId), "Timestamp: " + timestamp]
  }

  /** Patch the job, ask the LLM, and save what a good answer yields. */
  function RetroAfterInput(respond: Request -> Response, parse: string -> Option<Value>, team: Value, jobId: Value,
                           id: Option<int>, input: string, today: string, timestamp: string): Step<Result<JobResult>> {
    var ask := PatchAndAsk(respond, id, input, RetroJobType, [("team_name", team)]);
    if !ask.out.ok then Step(ask.reqs, Ok(JobResult(false, AiFailed)))
    else
      var writes := RetroWrites(respond, parse, team, id, ask.out.text, today);
      Step(ask.reqs + writes.reqs,
           if writes.out.Raised? then Raised(writes.out.reason)
           else Ok(JobResult(true, Report(RetroTitle, RetroDetails(team, jobId, timestamp), input, ask.out.text))))
  }

  /** Once the prompt lookup has answered: a failed lookup ends the job, otherwise the input is
      built and sent. */
  function RetroAfterPrompt(respond: Request -> Response, parse: string -> Option<Value>, team: Value, jobId: Value,
                            id: Option<int>, data: RetroData, prompt: PromptResult, today: string,
                            timestamp: string): Step<Result<JobResult>> {
    if prompt.error.Some? then Step([], Ok(JobResult(false, prompt.error.value)))
    else RetroAfterInput(respond, parse, team, jobId, id, RetroInput(team, data, prompt.prompt), today, timestamp)
  }

  /** The prompt lookup, then the rest of the job. */
  function RetroAfterId(respond: Request -> Response, parse: string -> Option<Value>, team: Value, jobId: Value,
                        id: Option<int>, data: RetroData, today: string, timestamp: string): Step<Result<JobResult>> {
    var prompt := PromptLookup(respond, PromptOwner, PromptName);
    var rest := RetroAfterPrompt(respond, parse, team, jobId, id, data, prompt.out, today, timestamp);
    Step(prompt.reqs + rest.reqs, rest.out)
  }

  /** `int(job_id)` is evaluated as the prompt lookup's argument, before it is sent. */
  function RetroAfterData(respond: Request -> Response, parse: string -> Option<Value>, team: Value, jobId: Value,
                          data: RetroData, today: string, timestamp: string): Step<Result<JobResult>> {
    var id := IntJobId(jobId);
    if id.Raised? then Step([], Raised(id.reason))
    else RetroAfterId(respond, parse, team, jobId, id.value, data, today, timestamp)
  }

  /** `today` is the current UTC date and `timestamp` the current UTC time as the job prints it. */
  function Process(respond: Request -> Response, parse: string -> Option<Value>, job: Record, today: string,
                   timestamp: string): Step<Result<JobResult>> {
    var team := GetOrNull(job, "team_name");
    if !Truthy(team) then Step([], Ok(JobResult(false, MissingTeam)))
    else
      var gathered := Gather(respond, team);
      if gathered.out.Raised? then Step(gathered.reqs, Raised(gathered.out.reason))
      else
        var rest := RetroAfterData(respond, parse, team, JobIdOf(job), gathered.out.value, today, timestamp);
        Step(gathered.reqs + rest.reqs, rest.out)
  }

  method AskRetro(c: ApiClient, parse: string -> Option<Value>, team: Value, jobId: Value, id: Option<int>,
                  input: string, today: string, timestamp: string) returns (r: Result<JobResult>)
    modifies c
    ensures c.sent == old(c.sent) + RetroAfterInput(c.respond, parse, team, jobId, id, input, today, timestamp).reqs
    ensures r == RetroAfterInput(c.respond, parse, team, jobId, id, input, today, timestamp).out
  {
    ghost var s0 := c.sent;
    var reply := PatchAndAskLlm(c, id, input, RetroJobType, [("team_name", team)]);
    ghost var ask := PatchAndAsk(c.respond, id, input, RetroJobType, [("team_name", team)]);
    ghost var mid := c.sent;
    if !reply.ok {
      return Ok(JobResult(false, AiFailed));
    }
    var saved := SaveRetroCardAndRecommendations(c, parse, team, id, reply.text, today);
    ghost var writes := RetroWrites(c.respond, parse, team, id, reply.text, today);
    assert c.sent == mid + writes.reqs;
    ConcatAssoc(s0, ask.reqs, writes.reqs);
    if saved.Raised? {
      return Raised(saved.reason);
    }
    r := Ok(JobResult(true, Report(RetroTitle, RetroDetails(team, jobId, timestamp), input, reply.text)));
  }

  method AskWithPrompt(c: ApiClient, parse: string -> Option<Value>, team: Value, jobId: Value, id: Option<int>,
                       data: RetroData, prompt: PromptResult, today: string, timestamp: string)
    returns (r: Result<JobResult>)
    modifies c
    ensures c.sent == old(c.sent) + RetroAfterPrompt(c.respond, parse, team, jobId, id, data, prompt, today,
                                                     timestamp).reqs
    ensures r == RetroAfterPrompt(c.respond, parse, team, jobId, id, data, prompt, today, timestamp).out
  {
    if prompt.error.Some? {
      return Ok(JobResult(false, prompt.error.value));
    }
    var input := FormatRetroInput(team, data, prompt.prompt);
    r := AskRetro(c, parse, team, jobId, id, input, today, timestamp);
  }

  method AnalyzeRetro(c: ApiClient, parse: string -> Option<Value>, team: Value, jobId: Value, data: RetroData,
                      today: string, timestamp: string) returns (r: Result<JobResult>)
    modifies c
    ensures c.sent == old(c.sent) + RetroAfterData(c.respond, parse, team, jobId, data, today, timestamp).reqs
    ensures r == RetroAfterData(c.respond, parse, team, jobId, data, today, timestamp).out
  {
    var id := IntJobId(jobId);
    if id.Raised? {
      return Raised(id.reason);
    }
    r := LookupAndAsk(c, parse, team, jobId, id.value, data, today, timestamp);
  }

  method LookupAndAsk(c: ApiClient, parse: string -> Option<Value>, team: Value, jobId: Value, id: Option<int>,
                      data: RetroData, today: string, timestamp: string) returns (r: Result<JobResult>)
    modifies c
    ensures c.sent == old(c.sent) + RetroAfterId(c.respond, parse, team, jobId, id, data, today, timestamp).reqs
    ensures r == RetroAfterId(c.respond, parse, team, jobId, id, data, today, timestamp).out
  {
    ghost var s0 := c.sent;
    var prompt := GetPromptWithErrorCheck(c, PromptOwner, PromptName);
    ghost var lookup := PromptLookup(c.respond, PromptOwner, PromptName);
    ghost var mid := c.sent;
    r := AskWithPrompt(c, parse, team, jobId, id, data, prompt, today, timestamp);
    ghost var rest := RetroAfterPrompt(c.respond, parse, team, jobId, id, data, prompt, today, timestamp);
    assert c.sent == mid + rest.reqs;
    ConcatAssoc(s0, lookup.reqs, rest.reqs);
  }

  method ProcessRetroJob(c: ApiClient, parse: string -> Option<Value>, job: Record, today: string,
                         timestamp: string) returns (r: Result<JobResult>)
    modifies c
    ensures c.sent == old(c.sent) + Process(c.respond, parse, job, today, timestamp).reqs
    ensures r == Process(c.respond, parse, job, today, timestamp).out
  {
    var team := GetOrNull(job, "team_name");
    if !Truthy(team) {
      return Ok(JobResult(false, MissingTeam));
    }
    ghost var s0 := c.sent;
    var gathered := GatherRetroData(c, team);
    ghost var g := Gather(c.respond, team);
    ghost var mid := c.sent;
    if gathered.Raised? {
      return Raised(gathered.reason);
    }
    r := AnalyzeRetro(c, parse, team, JobIdOf(job), gathered.value, today, timestamp);
    ghost var rest := RetroAfterData(c.respond, parse, team, JobIdOf(job), g.out.value, today, timestamp);
    assert c.sent == mid + rest.reqs;
    ConcatAssoc(s0, g.reqs, rest.reqs);
  }

  // ---------------------------------------------------------------------------
  // properties

  /** A job without a truthy team fails at once and sends nothing; with one, the first request
      reads the team's transcripts. */
  lemma RetroNeedsTeam(respond: Request -> Response, parse: string -> Option<Value>, job: Record, today: string,
                       timestamp: string)
    ensures !Truthy(GetOrNull(job, "team_name")) <==>
      Process(respond, parse, job, today, timestamp) == Step([], Ok(JobResult(false, MissingTeam)))
  {
    var team := GetOrNull(job, "team_name");
    if Truthy(team) {
      assert Process(respond, parse, job, today, timestamp).reqs[0] == TranscriptsRequest(team);
    }
  }

  /** A failed prompt lookup stops the job before the job is patched or the LLM asked. */
  lemma RetroPromptErrorStops(respond: Request -> Response, parse: string -> Option<Value>, team: Value,
                              jobId: Value, id: Option<int>, data: RetroData, today: string, timestamp: string)
    requires PromptLookup(respond, PromptOwner, PromptName).out.error.Some?
    ensures RetroAfterId(respond, parse, team, jobId, id, data, today, timestamp)
         == Step(PromptLookup(respond, PromptOwner, PromptName).reqs,
                 Ok(JobResult(false, PromptLookup(respond, PromptOwner, PromptName).out.error.value)))
  {
  }

    /** Once the input is built: a failed LLM call ends the job as failed; after an answered one
      the job raises exactly when the card helper raises or, after a saved card, the shared JSON
      loop's log line does, and it succeeds otherwise. */
  lemma RetroAfterInputOutcome(respond: Request -> Response, parse: string -> Option<Value>, team: Value,
                               jobId: Value, id: Option<int>, input: string, today: string, timestamp: string)
    ensures var s := RetroAfterInput(respond, parse, team, jobId, id, input, today, timestamp);
      var ask := PatchAndAsk(respond, id, input, RetroJobType, [("team_name", team)]);
      var card := SaveCardCall(respond, parse, ask.out.text, team, IdValue(id), RetroConfig, "Team", today);
      var recs := RecommendationsOf(parse, ask.out.text);
      var loopRaises := card.out.Ok? && recs.Some?
        && SaveLoop(respond, RetroMode(team, today, card.out.value, id), JsonRecItems(recs), 2, 0).out.Raised?;
      && (!ask.out.ok ==> s == Step(ask.reqs, Ok(JobResult(false, AiFailed))))
      && (s.out.Ok? ==> (s.out.value.ok <==> ask.out.ok))
      && (s.out.Raised? <==> ask.out.ok && (card.out.Raised? || loopRaises))
  {
  }

  lemma RetroAfterInputAtMostTwo(respond: Request -> Response, parse: string -> Option<Value>, team: Value,
                                 jobId: Value, id: Option<int>, input: string, today: string, timestamp: string)
    ensures Accepted(respond, RetroAfterInput(respond, parse, team, jobId, id, input, today, timestamp).reqs) <= 2
  {
    var ask := PatchAndAsk(respond, id, input, RetroJobType, [("team_name", team)]);
    PatchBeforeAsk(respond, id, input, RetroJobType, [("team_name", team)]);
    if ask.out.ok {
      RetroWritesCount(respond, parse, team, id, ask.out.text, today);
      AcceptedAfterNone(respond, ask.reqs, RetroWrites(respond, parse, team, id, ask.out.text, today).reqs);
    } else {
      AcceptedNone(respond, ask.reqs);
    }
  }

  lemma RetroAfterPromptAtMostTwo(respond: Request -> Response, parse: string -> Option<Value>, team: Value,
                                  jobId: Value, id: Option<int>, data: RetroData, prompt: PromptResult, today: string,
                                  timestamp: string)
    ensures Accepted(respond, RetroAfterPrompt(respond, parse, team, jobId, id, data, prompt, today, timestamp).reqs)
         <= 2
  {
    if prompt.error.None? {
      RetroAfterInputAtMostTwo(respond, parse, team, jobId, id, RetroInput(team, data, prompt.prompt), today,
                               timestamp);
    }
  }

  lemma RetroAfterIdAtMostTwo(respond: Request -> Response, parse: string -> Option<Value>, team: Value,
                              jobId: Value, id: Option<int>, data: RetroData, today: string, timestamp: string)
    ensures Accepted(respond, RetroAfterId(respond, parse, team, jobId, id, data, today, timestamp).reqs) <= 2
  {
    var prompt := PromptLookup(respond, PromptOwner, PromptName);
    RetroAfterPromptAtMostTwo(respond, parse, team, jobId, id, data, prompt.out, today, timestamp);
    PromptLookupSavesNothing(respond, PromptOwner, PromptName,
                             RetroAfterPrompt(respond, parse, team, jobId, id, data, prompt.out, today, timestamp).reqs);
  }

  lemma RetroAfterDataAtMostTwo(respond: Request -> Response, parse: string -> Option<Value>, team: Value,
                                jobId: Value, data: RetroData, today: string, timestamp: string)
    ensures Accepted(respond, RetroAfterData(respond, parse, team, jobId, data, today, timestamp).reqs) <= 2
  {
    var id := IntJobId(jobId);
    if id.Ok? {
      RetroAfterIdAtMostTwo(respond, parse, team, jobId, id.value, data, today, timestamp);
    }
  }

  /** The job saves at most two recommendations, whatever the backend and the LLM answer. */
  lemma RetroSavesAtMostTwo(respond: Request -> Response, parse: string -> Option<Value>, job: Record, today: string,
                            timestamp: string)
    ensures Accepted(respond, Process(respond, parse, job, today, timestamp).reqs) <= 2
  {
    var team := GetOrNull(job, "team_name");
    if Truthy(team) {
      var g := Gather(respond, team);
      if g.out.Ok? {
        var rest := RetroAfterData(respond, parse, team, JobIdOf(job), g.out.value, today, timestamp);
        RetroAfterDataAtMostTwo(respond, parse, team, JobIdOf(job), g.out.value, today, timestamp);
        GatherSavesNothing(respond, team, rest.reqs);
      } else {
        AcceptedNone(respond, g.reqs);
      }
    }
  }
}
