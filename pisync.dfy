/**
  The "PI Sync" job: for the program increment (PI) a job names, the latest PI-sync transcript,
  the PI burndown and the "PISync" prompt form the LLM input; the answer becomes the "PI Sync
  Review" card in the PI collection and at most two recommendations filed under the PI.
*/
module PiSync {
  import opened Wrappers
  import opened Text
  import opened Json
  import opened Seqs
  import opened Backend
  import opened Llm
  import opened Formatting
  import opened Extraction
  import opened Fetching
  import opened Saving
  import opened Jobs

  const MissingPi: string := "Missing PI in job payload"
  const PiJobType: string := "PI Sync"
  const PiTitle: string := "PI Sync Analysis Completed"
  /** The prompt the job asks the backend for, and the agent it belongs to. */
  const PromptOwner: string := "PIAgent"
  const PromptName: string := "PISync"

  // ---------------------------------------------------------------------------
  // _extract_pi

  /** `job_data`, decoded when it is a JSON text; None when the text does not decode. */
  function DecodedJobData(parse: string -> Option<Value>, job: Record): Option<Value> {
    var jd := GetOrNull(job, "job_data");
    if jd.Str? then parse(jd.s) else Some(jd)
  }

  /** A string `pi` at the top level wins; otherwise a string `pi` inside the (decoded) job data. */
  function ExtractPi(parse: string -> Option<Value>, job: Record): Option<string> {
    var top := GetOrNull(job, "pi");
    if top.Str? then Some(top.s)
    else
      var jd := DecodedJobData(parse, job);
      if jd.Some? && jd.value.Obj? && GetOrNull(jd.value.fields, "pi").Str? then Some(GetOrNull(jd.value.fields, "pi").s)
      else None
  }

  /** Where the PI comes from, case by case: the top-level string; else the job data's string,
      whether the job data is a dict or a JSON text of one; and nothing otherwise, in particular
      when the text does not decode. */
  lemma ExtractPiSources(parse: string -> Option<Value>, job: Record)
    ensures GetOrNull(job, "pi").Str? ==> ExtractPi(parse, job) == Some(GetOrNull(job, "pi").s)
    ensures var jd := GetOrNull(job, "job_data");
      !GetOrNull(job, "pi").Str? && jd.Obj? && GetOrNull(jd.fields, "pi").Str? ==>
        ExtractPi(parse, job) == Some(GetOrNull(jd.fields, "pi").s)
    ensures var jd := GetOrNull(job, "job_data");
      !GetOrNull(job, "pi").Str? && jd.Str? && parse(jd.s).Some? && parse(jd.s).value.Obj?
      && GetOrNull(parse(jd.s).value.fields, "pi").Str? ==>
        ExtractPi(parse, job) == Some(GetOrNull(parse(jd.s).value.fields, "pi").s)
    ensures var jd := GetOrNull(job, "job_data");
      !GetOrNull(job, "pi").Str? && jd.Str? && parse(jd.s).None? ==> ExtractPi(parse, job) == None
    ensures ExtractPi(parse, job).Some? ==>
      GetOrNull(job, "pi").Str? || DecodedJobData(parse, job).Some?
  {
  }

  // ---------------------------------------------------------------------------
  // _format_input

  function PromptPart(prompt: Option<string>): seq<string> {
    if prompt.Some? && prompt.value != "" then ["-- Prompt --", prompt.value] else []
  }

  function PiSyncParts(transcriptText: string, burndownText: string, prompt: Option<string>): seq<string> {
    ["=== PI SYNC DATA ===", "-- Latest Transcript --", transcriptText, "", "-- PI Burndown Snapshot --",
     burndownText, ""] + PromptPart(prompt)
  }

  /** The input; the burndown is formatted outside any try, so a burndown that raises makes the
      job raise. */
  function PiSyncInput(transcript: Value, burndown: Value, prompt: Option<string>): Result<string> {
    var bd := BurndownText(burndown);
    if bd.Raised? then Raised(bd.reason)
    else Ok(Join(PiSyncParts(TranscriptText(transcript, "Transcript:"), bd.value, prompt), "\n"))
  }

  method FormatPiInput(transcript: Value, burndown: Value, prompt: Option<string>) returns (r: Result<string>)
    ensures r == PiSyncInput(transcript, burndown, prompt)
  {
    var parts := ["=== PI SYNC DATA ===", "-- Latest Transcript --"];
    var t := FormatTranscript(transcript, "Transcript:");
    parts := parts + [t, "", "-- PI Burndown Snapshot --"];
    var bd := FormatBurndown(burndown);
    if bd.Raised? {
      return Raised(bd.reason);
    }
    parts := parts + [bd.value, ""];
    var promptPart: seq<string> := [];
    if prompt.Some? && prompt.value != "" {
      promptPart := ["-- Prompt --", prompt.value];
    }
    parts := parts + promptPart;
    PiSyncInputOk(transcript, burndown, prompt, promptPart, parts);
    r := Ok(Join(parts, "\n"));
  }

  /** The input built from the parts, in the order they are appended, once the burndown has
      formatted. */
  lemma PiSyncInputOk(transcript: Value, burndown: Value, prompt: Option<string>, promptPart: seq<string>,
                      parts: seq<string>)
    requires BurndownText(burndown).Ok?
    requires promptPart == if prompt.Some? && prompt.value != "" then ["-- Prompt --", prompt.value] else []
    requires parts == ["=== PI SYNC DATA ===", "-- Latest Transcript --"]
      + [TranscriptText(transcript, "Transcript:"), "", "-- PI Burndown Snapshot --"]
      + [BurndownText(burndown).value, ""] + promptPart
    ensures PiSyncInput(transcript, burndown, prompt) == Ok(Join(parts, "\n"))
  {
    assert parts == PiSyncParts(TranscriptText(transcript, "Transcript:"), BurndownText(burndown).value, prompt);
  }

  /** The input opens with its two headings. */
  lemma PiSyncPartsStart(transcriptText: string, burndownText: string, prompt: Option<string>)
    ensures StartsWith(Join(PiSyncParts(transcriptText, burndownText, prompt), "\n"),
                       "=== PI SYNC DATA ===" + "\n" + "-- Latest Transcript --")
  {
    var rest := [transcriptText, "", "-- PI Burndown Snapshot --", burndownText, ""] + PromptPart(prompt);
    assert PiSyncParts(transcriptText, burndownText, prompt) == ["=== PI SYNC DATA ===", "-- Latest Transcript --"] + rest;
    JoinStartsTwo("=== PI SYNC DATA ===", "-- Latest Transcript --", rest, "\n");
  }

  /** The input closes with the prompt under its heading when a non-empty one was found, and
      with an empty line after the burndown otherwise. */
  lemma PiSyncPartsEnd(transcriptText: string, burndownText: string, prompt: Option<string>)
    ensures prompt.Some? && prompt.value != "" ==>
      EndsWith(Join(PiSyncParts(transcriptText, burndownText, prompt), "\n"), "-- Prompt --" + "\n" + prompt.value)
    ensures !(prompt.Some? && prompt.value != "") ==>
      EndsWith(Join(PiSyncParts(transcriptText, burndownText, prompt), "\n"), burndownText + "\n")
  {
    var head := ["=== PI SYNC DATA ===", "-- Latest Transcript --", transcriptText, "", "-- PI Burndown Snapshot --"];
    if prompt.Some? && prompt.value != "" {
      assert PiSyncParts(transcriptText, burndownText, prompt)
          == (head + [burndownText, ""]) + ["-- Prompt --", prompt.value];
      JoinLastTwo(head + [burndownText, ""], "-- Prompt --", prompt.value, "\n");
    } else {
      assert PiSyncParts(transcriptText, burndownText, prompt) == head + [burndownText, ""];
      JoinLastTwo(head, burndownText, "", "\n");
    }
  }

  // ---------------------------------------------------------------------------
  // the card and the recommendations

  /** The PI card: the PI first, then the common fields with the job's own team, and the raw JSON
      block when the answer had one. */
  function PiCardPayload(pi: string, team: Value, description: string, today: string, jobId: Value,
                         fullInfo: string, raw: string): Record {
    [("pi", Str(pi))]
      + CardFields(team, Str("PI Sync Review"), Str("PI Sync"), description, today, Str("Critical"), Str("PI"), jobId,
                   fullInfo)
      + (if raw != "" then [("information_json", Str(raw))] else [])
  }

  /** The PI card carries the PI and the job's team under the fixed name "PI Sync Review", a
      description of at most 2000 characters, and the raw JSON block exactly when the answer had one. */
  lemma PiCardFields(pi: string, team: Value, description: string, today: string, jobId: Value, fullInfo: string,
                     raw: string)
    ensures var p := PiCardPayload(pi, team, description, today, jobId, fullInfo, raw);
      && GetOrNull(p, "pi") == Str(pi) && GetOrNull(p, "team_name") == team
      && GetOrNull(p, "card_name") == Str("PI Sync Review")
      && GetOrNull(p, "description").Str? && |GetOrNull(p, "description").s| <= 2000
      && (HasKey(p, "information_json") <==> raw != "")
  {
    var head: Record := [("pi", Str(pi))];
    var base := CardFields(team, Str("PI Sync Review"), Str("PI Sync"), description, today, Str("Critical"),
                           Str("PI"), jobId, fullInfo);
    var extra: Record := if raw != "" then [("information_json", Str(raw))] else [];
    var p := head + base + extra;
    GetFirst(p, "pi", 0);
    GetFirst(p, "team_name", 1);
    GetFirst(p, "card_name", 2);
    GetFirst(p, "description", 4);
    CardFieldsLackOptional(team, Str("PI Sync Review"), Str("PI Sync"), description, today, Str("Critical"),
                           Str("PI"), jobId, fullInfo);
    HasKeyConcat(head + base, extra, "information_json");
    HasKeyConcat(head, base, "information_json");
    assert !HasKey(head, "information_json");
    if raw != "" {
      assert extra[0].0 == "information_json";
    }
  }

  function ParsePiAnswer(parse: string -> Option<Value>, answer: string, pi: string, team: Value, jobId: Value,
                         today: string): Parsed {
    var split := SplitTextAndJson(answer, parse);
    var description := Description(BetweenMarkers(answer, Extraction.StartMarker, Extraction.EndMarker), answer);
    var fullInfo := Take(split.prose, 2000);
    Parsed(fullInfo, PiCardPayload(pi, team, description, today, jobId, fullInfo, split.raw),
           JsonRecItems(split.recommendations), FallbackItems(answer))
  }

  method BuildPiPayload(pi: string, team: Value, description: string, today: string, jobId: Value,
                        fullInfo: string, raw: string) returns (payload: Record)
    ensures payload == PiCardPayload(pi, team, description, today, jobId, fullInfo, raw)
  {
    payload := [("pi", Str(pi))]
      + CardFields(team, Str("PI Sync Review"), Str("PI Sync"), description, today, Str("Critical"), Str("PI"), jobId,
                   fullInfo);
    if raw != "" {
      payload := payload + [("information_json", Str(raw))];
    }
  }

  method ParsePiLlmAnswer(parse: string -> Option<Value>, answer: string, pi: string, team: Value, jobId: Value,
                          today: string) returns (p: Parsed)
    ensures p == ParsePiAnswer(parse, answer, pi, team, jobId, today)
  {
    var split := ExtractTextAndJson(answer, parse);
    var extracted := ExtractReviewSection(answer);
    var description := ChooseDescription(extracted, answer);
    var fullInfo := Take(split.prose, 2000);
    var payload := BuildPiPayload(pi, team, description, today, jobId, fullInfo, split.raw);
    var fallback := ExtractFallbackItems(answer);
    p := Parsed(fullInfo, payload, JsonRecItems(split.recommendations), fallback);
  }

  /** The recommendation modes: the shared JSON loop and the text fallback, both filed under the PI
      and carrying the job id. */
  function PiJsonMode(pi: string, today: string, fullInfo: string, id: Option<int>): RecMode {
    SharedJson(Str(pi), today, fullInfo, IdValue(id), Null)
  }

  function PiTextMode(pi: string, today: string, fullInfo: string, id: Option<int>): RecMode {
    PiText(pi, today, fullInfo, IdValue(id))
  }

  /** The PI card upsert, then the recommendations. */
  function PiWrites(respond: Request -> Response, pi: string, today: string, id: Option<int>, p: Parsed)
    : Step<Result<nat>> {
    var u := UpsertCall(respond, PiCards, p.payload, today);
    var recs := SaveWithFallback(respond, PiJsonMode(pi, today, p.fullInfo, id), p.items,
                                 PiTextMode(pi, today, p.fullInfo, id), p.fallback);
    Step(u.reqs + recs.reqs, recs.out)
  }

  method SavePiCardAndRecommendations(c: ApiClient, pi: string, today: string, id: Option<int>, p: Parsed)
    returns (saved: Result<nat>)
    modifies c
    ensures c.sent == old(c.sent) + PiWrites(c.respond, pi, today, id, p).reqs
    ensures saved == PiWrites(c.respond, pi, today, id, p).out
  {
    ghost var s0 := c.sent;
    var _ := UpsertCard(c, PiCards, p.payload, today);
    ghost var u := UpsertCall(c.respond, PiCards, p.payload, today);
    saved := SaveAll(c, PiJsonMode(pi, today, p.fullInfo, id), p.items, PiTextMode(pi, today, p.fullInfo, id),
                     p.fallback);
    ghost var recs := SaveWithFallback(c.respond, PiJsonMode(pi, today, p.fullInfo, id), p.items,
                                       PiTextMode(pi, today, p.fullInfo, id), p.fallback);
    ConcatAssoc(s0, u.reqs, recs.reqs);
  }

  /** The card goes to the PI collection; at most two recommendations follow, a returned count
      is the number the backend accepted, and every one of them is filed under the PI rather than
      a team. */
  lemma PiWritesShape(respond: Request -> Response, pi: string, today: string, id: Option<int>, p: Parsed)
    ensures var s := PiWrites(respond, pi, today, id, p);
      && s.reqs[0] == ListCards(PiCards)
      && Accepted(respond, s.reqs) <= 2
      && (s.out.Ok? ==> s.out.value == Accepted(respond, s.reqs))
      && forall r :: r in s.reqs && r.CreateRecommendation? ==> r.body != [] && r.body[0] == ("team_name", Str(pi))
  {
    var u := UpsertCall(respond, PiCards, p.payload, today);
    var jsonMode := PiJsonMode(pi, today, p.fullInfo, id);
    var textMode := PiTextMode(pi, today, p.fullInfo, id);
    var recs := SaveWithFallback(respond, jsonMode, p.items, textMode, p.fallback);
    var s := PiWrites(respond, pi, today, id, p);
    assert s.reqs == u.reqs + recs.reqs && s.out == recs.out;
    UpsertWritesOnce(respond, PiCards, p.payload, today);
    assert s.reqs[0] == ListCards(PiCards);
    SaveWithFallbackBound(respond, jsonMode, p.items, textMode, p.fallback);
    assert Accepted(respond, s.reqs) == Accepted(respond, recs.reqs) by {
      AcceptedAfterNone(respond, u.reqs, recs.reqs);
    }
    forall r | r in s.reqs && r.CreateRecommendation?
      ensures r.body != [] && r.body[0] == ("team_name", Str(pi))
    {
      assert r in recs.reqs;
      assert FromItems(jsonMode, p.items, r) || FromItems(textMode, p.fallback, r);
    }
  }

  /** The PI writes raise exactly when the shared JSON loop does, and only from its log line. */
  lemma PiWritesRaise(respond: Request -> Response, pi: string, today: string, id: Option<int>, p: Parsed,
                      answer: string)
    requires p.fallback == FallbackItems(answer)
    ensures var s := PiWrites(respond, pi, today, id, p);
      && (s.out.Raised? <==> SaveLoop(respond, PiJsonMode(pi, today, p.fullInfo, id), p.items, 2, 0).out.Raised?)
      && (s.out.Raised? ==> s.out.reason == LogFailed)
  {
    SaveWithFallbackRaises(respond, PiJsonMode(pi, today, p.fullInfo, id), p.items, PiTextMode(pi, today, p.fullInfo, id),
                           answer);
  }

  // ---------------------------------------------------------------------------
  // process

  function PiDetails(pi: string, job: Record, jobId: Value, timestamp: string): seq<string> {
    ["PI: " + pi, "Team: " + Show(GetOrDefault(job, "team_name", Str("Unknown"))), "Job ID: " + Show(jobId),
     "Timestamp: " + timestamp]
  }

  function PiMetadata(pi: string, job: Record): Record {
    [("pi_name", Str(pi)), ("team_name", GetOrNull(job, "team_name"))]
  }

  /** Patch the job, ask the LLM, and save what a good answer yields; the saving's raise ends the
      job, and it can only come from the log line of an accepted recommendation. */
  function PiAfterInput(respond: Request -> Response, parse: string -> Option<Value>, pi: string, job: Record,
                        jobId: Value, id: Option<int>, input: string, today: string,
                        timestamp: string): (s: Step<Result<JobResult>>)
    ensures s.out.Raised? ==> s.out.reason == LogFailed
  {
    var ask := PatchAndAsk(respond, id, input, PiJobType, PiMetadata(pi, job));
    if !ask.out.ok then Step(ask.reqs, Ok(JobResult(false, AiFailed)))
    else
      var p := ParsePiAnswer(parse, ask.out.text, pi, GetOrNull(job, "team_name"), jobId, today);
      var writes := PiWrites(respond, pi, today, id, p);
      PiWritesRaise(respond, pi, today, id, p, ask.out.text);
      Step(ask.reqs + writes.reqs,
           if writes.out.Raised? then Raised(writes.out.reason)
           else Ok(JobResult(true, Report(PiTitle, PiDetails(pi, job, jobId, timestamp), input, ask.out.text))))
  }

  /** Once the prompt lookup has answered: a failed lookup ends the job, otherwise the input is
      built (it may raise) and sent. */
  function PiAfterPrompt(respond: Request -> Response, parse: string -> Option<Value>, pi: string, job: Record,
                         jobId: Value, id: Option<int>, transcript: Value, burndown: Value, prompt: PromptResult,
                         today: string, timestamp: string): Step<Result<JobResult>> {
    if prompt.error.Some? then Step([], Ok(JobResult(false, prompt.error.value)))
    else
      var input := PiSyncInput(transcript, burndown, prompt.prompt);
      if input.Raised? then Step([], Raised(input.reason))
      else PiAfterInput(respond, parse, pi, job, jobId, id, input.value, today, timestamp)
  }

  /** `int(job_id)` is evaluated as the prompt lookup's argument, before it is sent. */
  function PiAfterData(respond: Request -> Response, parse: string -> Option<Value>, pi: string, job: Record,
                       transcript: Value, burndown: Value, today: string, timestamp: string): Step<Result<JobResult>> {
    var jobId := JobIdOf(job);
    var id := IntJobId(jobId);
    if id.Raised? then Step([], Raised(id.reason))
    else
      var prompt := PromptLookup(respond, PromptOwner, PromptName);
      var rest := PiAfterPrompt(respond, parse, pi, job, jobId, id.value, transcript, burndown, prompt.out, today,
                                timestamp);
      Step(prompt.reqs + rest.reqs, rest.out)
  }

  /** The transcript and the burndown the job collects. */
  datatype SyncData = SyncData(transcript: Value, burndown: Value)

  function Gather(respond: Request -> Response, pi: string): Step<Result<SyncData>> {
    var tReq := GetLatestPiSyncTranscript(pi);
    var transcript := LatestTranscript(respond(tReq));
    if transcript.Raised? then Step([tReq], Raised(transcript.reason))
    else
      var bReq := GetPiBurndown(pi, Null);
      Step([tReq, bReq], Ok(SyncData(transcript.value, DataOrNull(respond(bReq)))))
  }

  /** `today` is the current UTC date and `timestamp` the current UTC time as the job prints it. */
  function Process(respond: Request -> Response, parse: string -> Option<Value>, job: Record, today: string,
                   timestamp: string): Step<Result<JobResult>> {
    var pi := ExtractPi(parse, job);
    if pi.None? || pi.value == "" then Step([], Ok(JobResult(false, MissingPi)))
    else
      var gathered := Gather(respond, pi.value);
      if gathered.out.Raised? then Step(gathered.reqs, Raised(gathered.out.reason))
      else
        var rest := PiAfterData(respond, parse, pi.value, job, gathered.out.value.transcript,
                                gathered.out.value.burndown, today, timestamp);
        Step(gathered.reqs + rest.reqs, rest.out)
  }

  method AskPi(c: ApiClient, parse: string -> Option<Value>, pi: string, job: Record, jobId: Value, id: Option<int>,
               input: string, today: string, timestamp: string) returns (r: Result<JobResult>)
    modifies c
    ensures c.sent == old(c.sent) + PiAfterInput(c.respond, parse, pi, job, jobId, id, input, today, timestamp).reqs
    ensures r == PiAfterInput(c.respond, parse, pi, job, jobId, id, input, today, timestamp).out
  {
    ghost var s0 := c.sent;
    var reply := PatchAndAskLlm(c, id, input, PiJobType, PiMetadata(pi, job));
    ghost var ask := PatchAndAsk(c.respond, id, input, PiJobType, PiMetadata(pi, job));
    ghost var mid := c.sent;
    if !reply.ok {
      return Ok(JobResult(false, AiFailed));
    }
    var p := ParsePiLlmAnswer(parse, reply.text, pi, GetOrNull(job, "team_name"), jobId, today);
    var saved := SavePiCardAndRecommendations(c, pi, today, id, p);
    ghost var writes := PiWrites(c.respond, pi, today, id, p);
    assert c.sent == mid + writes.reqs;
    ConcatAssoc(s0, ask.reqs, writes.reqs);
    if saved.Raised? {
      return Raised(saved.reason);
    }
    r := Ok(JobResult(true, Report(PiTitle, PiDetails(pi, job, jobId, timestamp), input, reply.text)));
  }

  method AskWithPrompt(c: ApiClient, parse: string -> Option<Value>, pi: string, job: Record, jobId: Value,
                       id: Option<int>, transcript: Value, burndown: Value, prompt: PromptResult, today: string,
                       timestamp: string) returns (r: Result<JobResult>)
    modifies c
    ensures c.sent == old(c.sent) + PiAfterPrompt(c.respond, parse, pi, job, jobId, id, transcript, burndown, prompt,
                                                  today, timestamp).reqs
    ensures r == PiAfterPrompt(c.respond, parse, pi, job, jobId, id, transcript, burndown, prompt, today,
                               timestamp).out
  {
    if prompt.error.Some? {
      return Ok(JobResult(false, prompt.error.value));
    }
    var input := FormatPiInput(transcript, burndown, prompt.prompt);
    if input.Raised? {
      return Raised(input.reason);
    }
    r := AskPi(c, parse, pi, job, jobId, id, input.value, today, timestamp);
  }

  method AnalyzePi(c: ApiClient, parse: string -> Option<Value>, pi: string, job: Record, transcript: Value,
                   burndown: Value, today: string, timestamp: string) returns (r: Result<JobResult>)
    modifies c
    ensures c.sent == old(c.sent) + PiAfterData(c.respond, parse, pi, job, transcript, burndown, today, timestamp).reqs
    ensures r == PiAfterData(c.respond, parse, pi, job, transcript, burndown, today, timestamp).out
  {
    var jobId := JobIdOf(job);
    var id := IntJobId(jobId);
    if id.Raised? {
      return Raised(id.reason);
    }
    ghost var s0 := c.sent;
    var prompt := GetPromptWithErrorCheck(c, PromptOwner, PromptName);
    ghost var lookup := PromptLookup(c.respond, PromptOwner, PromptName);
    ghost var mid := c.sent;
    r := AskWithPrompt(c, parse, pi, job, jobId, id.value, transcript, burndown, prompt, today, timestamp);
    ghost var rest := PiAfterPrompt(c.respond, parse, pi, job, jobId, id.value, transcript, burndown, prompt, today,
                                    timestamp);
    assert c.sent == mid + rest.reqs;
    ConcatAssoc(s0, lookup.reqs, rest.reqs);
  }

  method GatherPiData(c: ApiClient, pi: string) returns (r: Result<SyncData>)
    modifies c
    ensures c.sent == old(c.sent) + Gather(c.respond, pi).reqs
    ensures r == Gather(c.respond, pi).out
  {
    var tResp := c.Call(GetLatestPiSyncTranscript(pi));
    var transcript := LatestTranscript(tResp);
    if transcript.Raised? {
      return Raised(transcript.reason);
    }
    var bResp := c.Call(GetPiBurndown(pi, Null));
    r := Ok(SyncData(transcript.value, DataOrNull(bResp)));
  }

  method ProcessPiSyncJob(c: ApiClient, parse: string -> Option<Value>, job: Record, today: string,
                          timestamp: string) returns (r: Result<JobResult>)
    modifies c
    ensures c.sent == old(c.sent) + Process(c.respond, parse, job, today, timestamp).reqs
    ensures r == Process(c.respond, parse, job, today, timestamp).out
  {
    var pi := ExtractPi(parse, job);
    if pi.None? || pi.value == "" {
      return Ok(JobResult(false, MissingPi));
    }
    ghost var s0 := c.sent;
    var gathered := GatherPiData(c, pi.value);
    ghost var g := Gather(c.respond, pi.value);
    ghost var mid := c.sent;
    if gathered.Raised? {
      return Raised(gathered.reason);
    }
    r := AnalyzePi(c, parse, pi.value, job, gathered.value.transcript, gathered.value.burndown, today, timestamp);
    ghost var rest := PiAfterData(c.respond, parse, pi.value, job, g.out.value.transcript, g.out.value.burndown, today,
                                  timestamp);
    assert c.sent == mid + rest.reqs;
    ConcatAssoc(s0, g.reqs, rest.reqs);
  }

  // ---------------------------------------------------------------------------
  // properties

  /** A job without a PI (none found, or an empty one) fails at once and sends nothing. */
  lemma PiNeeded(respond: Request -> Response, parse: string -> Option<Value>, job: Record, today: string,
                 timestamp: string)
    ensures ExtractPi(parse, job).None? || ExtractPi(parse, job).value == "" <==>
      Process(respond, parse, job, today, timestamp) == Step([], Ok(JobResult(false, MissingPi)))
  {
    var pi := ExtractPi(parse, job);
    if pi.Some? && pi.value != "" {
      assert Process(respond, parse, job, today, timestamp).reqs[0] == GetLatestPiSyncTranscript(pi.value);
    }
  }

  /** With a PI the job first asks for the PI's latest transcript and then for its burndown. */
  lemma PiRequestOrder(respond: Request -> Response, pi: string)
    ensures var g := Gather(respond, pi);
      && g.reqs[0] == GetLatestPiSyncTranscript(pi)
      && (g.out.Ok? <==> |g.reqs| == 2)
      && (g.out.Ok? ==> g.reqs[1] == GetPiBurndown(pi, Null))
      && (g.out.Raised? <==> LatestTranscript(respond(GetLatestPiSyncTranscript(pi))).Raised?)
  {
  }

  /** A prompt lookup that fails, or a burndown that does not format, stops the job before the
      job is patched or the LLM asked. */
  lemma PiStopsBeforeAsking(respond: Request -> Response, parse: string -> Option<Value>, pi: string, job: Record,
                            jobId: Value, id: Option<int>, transcript: Value, burndown: Value, prompt: PromptResult,
                            today: string, timestamp: string)
    ensures prompt.error.Some? ==>
      PiAfterPrompt(respond, parse, pi, job, jobId, id, transcript, burndown, prompt, today, timestamp)
        == Step([], Ok(JobResult(false, prompt.error.value)))
    ensures prompt.error.None? && BurndownText(burndown).Raised? ==>
      PiAfterPrompt(respond, parse, pi, job, jobId, id, transcript, burndown, prompt, today, timestamp)
        == Step([], Raised(BurndownText(burndown).reason))
  {
  }

  /** Once the input is built, the job saves at most two recommendations. */
  lemma PiAfterInputAtMostTwo(respond: Request -> Response, parse: string -> Option<Value>, pi: string, job: Record,
                              jobId: Value, id: Option<int>, input: string, today: string, timestamp: string)
    ensures Accepted(respond, PiAfterInput(respond, parse, pi, job, jobId, id, input, today, timestamp).reqs) <= 2
  {
    var ask := PatchAndAsk(respond, id, input, PiJobType, PiMetadata(pi, job));
    PatchBeforeAsk(respond, id, input, PiJobType, PiMetadata(pi, job));
    if ask.out.ok {
      var p := ParsePiAnswer(parse, ask.out.text, pi, GetOrNull(job, "team_name"), jobId, today);
      PiWritesShape(respond, pi, today, id, p);
      AcceptedAfterNone(respond, ask.reqs, PiWrites(respond, pi, today, id, p).reqs);
    } else {
      AcceptedNone(respond, ask.reqs);
    }
  }

  /** Once the input is built: a failed LLM call ends the job as failed; after an answered one
      the job raises exactly when the shared JSON loop's log line does, and otherwise succeeds. */
  lemma PiAfterInputOutcome(respond: Request -> Response, parse: string -> Option<Value>, pi: string, job: Record,
                            jobId: Value, id: Option<int>, input: string, today: string, timestamp: string)
    ensures var a := PiAfterInput(respond, parse, pi, job, jobId, id, input, today, timestamp);
      var ask := PatchAndAsk(respond, id, input, PiJobType, PiMetadata(pi, job));
      var p := ParsePiAnswer(parse, ask.out.text, pi, GetOrNull(job, "team_name"), jobId, today);
      && (!ask.out.ok ==> a == Step(ask.reqs, Ok(JobResult(false, AiFailed))))
      && (a.out.Ok? ==> (a.out.value.ok <==> ask.out.ok))
      && (a.out.Raised? <==>
            ask.out.ok && SaveLoop(respond, PiJsonMode(pi, today, p.fullInfo, id), p.items, 2, 0).out.Raised?)
  {
    var ask := PatchAndAsk(respond, id, input, PiJobType, PiMetadata(pi, job));
    if ask.out.ok {
      var p := ParsePiAnswer(parse, ask.out.text, pi, GetOrNull(job, "team_name"), jobId, today);
      PiWritesRaise(respond, pi, today, id, p, ask.out.text);
    }
  }

  /** Every recommendation the job creates is filed under the PI. */
  lemma PiAfterInputUnderPi(respond: Request -> Response, parse: string -> Option<Value>, pi: string, job: Record,
                            jobId: Value, id: Option<int>, input: string, today: string, timestamp: string)
    ensures forall r :: (r in PiAfterInput(respond, parse, pi, job, jobId, id, input, today, timestamp).reqs
                          && r.CreateRecommendation?) ==> r.body != [] && r.body[0] == ("team_name", Str(pi))
  {
    var ask := PatchAndAsk(respond, id, input, PiJobType, PiMetadata(pi, job));
    PatchBeforeAsk(respond, id, input, PiJobType, PiMetadata(pi, job));
    if ask.out.ok {
      var p := ParsePiAnswer(parse, ask.out.text, pi, GetOrNull(job, "team_name"), jobId, today);
      PiWritesShape(respond, pi, today, id, p);
    }
  }

  lemma PiAfterPromptAtMostTwo(respond: Request -> Response, parse: string -> Option<Value>, pi: string, job: Record,
                               jobId: Value, id: Option<int>, transcript: Value, burndown: Value,
                               prompt: PromptResult, today: string, timestamp: string)
    ensures Accepted(respond, PiAfterPrompt(respond, parse, pi, job, jobId, id, transcript, burndown, prompt, today,
                                            timestamp).reqs) <= 2
  {
    var input := PiSyncInput(transcript, burndown, prompt.prompt);
    if prompt.error.None? && input.Ok? {
      PiAfterInputAtMostTwo(respond, parse, pi, job, jobId, id, input.value, today, timestamp);
    }
  }

  lemma PiAfterDataAtMostTwo(respond: Request -> Response, parse: string -> Option<Value>, pi: string, job: Record,
                             transcript: Value, burndown: Value, today: string, timestamp: string)
    ensures Accepted(respond, PiAfterData(respond, parse, pi, job, transcript, burndown, today, timestamp).reqs) <= 2
  {
    var id := IntJobId(JobIdOf(job));
    if id.Ok? {
      var prompt := PromptLookup(respond, PromptOwner, PromptName);
      PiAfterPromptAtMostTwo(respond, parse, pi, job, JobIdOf(job), id.value, transcript, burndown, prompt.out, today,
                             timestamp);
      PromptLookupSavesNothing(respond, PromptOwner, PromptName,
                               PiAfterPrompt(respond, parse, pi, job, JobIdOf(job), id.value, transcript, burndown,
                                             prompt.out, today, timestamp).reqs);
    }
  }

  /** Gathering the data only reads. */
  lemma GatherSavesNothing(respond: Request -> Response, pi: string, rest: seq<Request>)
    ensures Accepted(respond, Gather(respond, pi).reqs + rest) == Accepted(respond, rest)
  {
    AcceptedAfterNone(respond, Gather(respond, pi).reqs, rest);
  }

  /** The job saves at most two recommendations, whatever the backend and the LLM answer. */
  lemma PiSavesAtMostTwo(respond: Request -> Response, parse: string -> Option<Value>, job: Record, today: string,
                         timestamp: string)
    ensures Accepted(respond, Process(respond, parse, job, today, timestamp).reqs) <= 2
  {
    var pi := ExtractPi(parse, job);
    if pi.Some? && pi.value != "" {
      var g := Gather(respond, pi.value);
      if g.out.Ok? {
        var rest := PiAfterData(respond, parse, pi.value, job, g.out.value.transcript, g.out.value.burndown, today,
                                timestamp);
        PiAfterDataAtMostTwo(respond, parse, pi.value, job, g.out.value.transcript, g.out.value.burndown, today,
                             timestamp);
        GatherSavesNothing(respond, pi.value, rest.reqs);
      }
    }
  }
}
