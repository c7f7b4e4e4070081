/**
  What the job processors share: the job id and its `int()` conversion, the latest-transcript
  lookup, recording the LLM input on the job before asking the LLM, the text fallback for
  recommendations, the inline team-card upsert of the daily and sprint-goal jobs, and the layout
  of the result text.
*/
module Jobs {
  import opened Wrappers
  import opened Text
  import opened Json
  import opened Seqs
  import opened Backend
  import opened Llm
  import opened Formatting
  import opened Extraction
  import opened Saving

  /** `(success, message)` as a processor returns it. */
  datatype JobResult = JobResult(ok: bool, text: string)

  const MissingTeam: string := "Missing team_name in job payload"
  const AiFailed: string := "AI chat failed or returned empty response"
  const IntFailed: string := "ValueError: the job id does not convert with int()"
  const JoinFailed: string := "TypeError: a prompt part is not a str"

  /** `job.get("job_id") or job.get("id")`. */
  function JobIdOf(job: Record): Value {
    Or(GetOrNull(job, "job_id"), GetOrNull(job, "id"))
  }

  /** `int(job_id) if job_id is not None else None`, which raises when `int()` does. */
  function IntJobId(jobId: Value): (r: Result<Option<int>>)
    ensures r.Raised? <==> !jobId.Null? && IntOf(jobId).None?
    ensures r.Ok? ==> (r.value.None? <==> jobId.Null?)
    ensures r.Ok? && r.value.Some? ==> IntOf(jobId) == r.value
  {
    if jobId.Null? then Ok(None)
    else if IntOf(jobId).Some? then Ok(Some(IntOf(jobId).value))
    else Raised(IntFailed)
  }

  /** A numeric job id converts to itself, given as a number or as its decimal text. */
  lemma IntJobIdShown(n: int)
    ensures IntJobId(Num(n)) == Ok(Some(n)) && IntJobId(Str(Show(Num(n)))) == Ok(Some(n))
  {
    IntOfNumber(n);
  }

  /** An id as it goes into a payload: the number, or None. */
  function IdValue(id: Option<int>): Value {
    if id.Some? then Num(id.value) else Null
  }

  /** `(data.get("data") or {}).get("transcript") or data.get("data") or data` for a 200 dict
      answer, None otherwise; a truthy "data" that is not a dict raises. */
  function LatestTranscript(resp: Response): (r: Result<Value>)
    ensures !OkDict(resp) ==> r == Ok(Null)
    ensures r.Raised? <==> OkDict(resp) && Truthy(GetOrNull(resp.body.fields, "data"))
                            && !GetOrNull(resp.body.fields, "data").Obj?
  {
    if !OkDict(resp) then Ok(Null)
    else
      var data := GetOrNull(resp.body.fields, "data");
      var inner := Or(data, Obj([]));
      if !inner.Obj? then Raised(NotADict)
      else Ok(Or(Or(GetOrNull(inner.fields, "transcript"), data), resp.body))
  }

  /** The nested transcript wins; then a truthy "data" dict; then the whole answer. */
  lemma LatestTranscriptOrder(resp: Response)
    requires OkDict(resp)
    ensures var data := GetOrNull(resp.body.fields, "data");
      && (data.Obj? && Truthy(GetOrNull(data.fields, "transcript")) ==>
            LatestTranscript(resp) == Ok(GetOrNull(data.fields, "transcript")))
      && (data.Obj? && Truthy(data) && !Truthy(GetOrNull(data.fields, "transcript")) ==>
            LatestTranscript(resp) == Ok(data))
      && (!Truthy(data) ==> LatestTranscript(resp) == Ok(resp.body))
  {
  }

  // ---------------------------------------------------------------------------
  // input_sent, then the LLM

  /** The patch recording the LLM input on the job, when the job has an id. */
  function InputPatch(id: Option<int>, formatted: string): seq<Request> {
    if id.Some? then [PatchAgentJob(id.value, [("input_sent", Str(formatted))])] else []
  }

  function PatchAndAsk(respond: Request -> Response, id: Option<int>, formatted: string, jobType: string,
                       metadata: Record): Step<LlmReply> {
    var call := LlmCall(respond, formatted, jobType, id, metadata);
    Step(InputPatch(id, formatted) + call.reqs, call.out)
  }

  method PatchAndAskLlm(c: ApiClient, id: Option<int>, formatted: string, jobType: string, metadata: Record)
    returns (reply: LlmReply)
    modifies c
    ensures c.sent == old(c.sent) + PatchAndAsk(c.respond, id, formatted, jobType, metadata).reqs
    ensures reply == PatchAndAsk(c.respond, id, formatted, jobType, metadata).out
  {
    if id.Some? {
      var _ := c.Call(PatchAgentJob(id.value, [("input_sent", Str(formatted))]));
    }
    reply := CallAgentLlmProcess(c, formatted, jobType, id, metadata);
  }

  /** The job is patched with exactly the text the LLM is then sent, and before it; a job
      without an id is not patched. */
  lemma PatchBeforeAsk(respond: Request -> Response, id: Option<int>, formatted: string, jobType: string,
                       metadata: Record)
    ensures var s := PatchAndAsk(respond, id, formatted, jobType, metadata);
      && |s.reqs| == (if id.Some? then 2 else 1)
      && s.reqs[|s.reqs| - 1].PostAgentLlmProcess?
      && Get(s.reqs[|s.reqs| - 1].body, "prompt") == Some(Str(formatted))
      && Get(s.reqs[|s.reqs| - 1].body, "job_type") == Some(Str(jobType))
      && (id.Some? ==> s.reqs[0] == PatchAgentJob(id.value, [("input_sent", Str(formatted))]))
      && NoRecommendations(s.reqs)
  {
    var body := LlmBody(formatted, jobType, id, metadata);
    GetFirst(body, "prompt", 0);
    GetFirst(body, "job_type", 1);
  }

  // ---------------------------------------------------------------------------
  // recommendations: JSON first, the answer's text when none was saved

  /** `extract_recommendations(llm_answer, max_count=2)`. */
  function FallbackTexts(answer: string): (r: seq<string>)
    ensures |r| <= 2
    ensures r <= CandidateRecommendations(answer)
  {
    var all := CandidateRecommendations(answer);
    all[..if |all| < 2 then |all| else 2]
  }

  method ExtractFallback(answer: string) returns (r: seq<string>)
    ensures r == FallbackTexts(answer)
    ensures Distinct(r)
  {
    r := ExtractRecommendations(answer, 2);
    var all := CandidateRecommendations(answer);
    assert r == all[..|r|];
  }

  function AsText(s: string): Value {
    Str(s)
  }

  function FallbackItems(answer: string): seq<Value> {
    Map(AsText, FallbackTexts(answer))
  }

  method ExtractFallbackItems(answer: string) returns (items: seq<Value>)
    ensures items == FallbackItems(answer)
  {
    var texts := ExtractFallback(answer);
    items := AsTexts(texts);
  }

  /** The fallback items are the first (at most two) candidate recommendations, as strings. */
  lemma FallbackItemsAreCandidates(answer: string)
    ensures |FallbackItems(answer)| <= 2
    ensures forall k :: 0 <= k < |FallbackItems(answer)| ==>
      FallbackItems(answer)[k] == Str(CandidateRecommendations(answer)[k])
  {
    MapElements(AsText, FallbackTexts(answer));
  }

  /** The text loop over the fallback items, run only when the JSON loop saved nothing. */
  function Fallback(respond: Request -> Response, textMode: RecMode, fallback: seq<Value>, saved: nat)
    : Step<Result<nat>> {
    if saved != 0 then Step([], Ok(saved)) else SaveLoop(respond, textMode, fallback, 2, 0)
  }

  method FallbackRecommendations(c: ApiClient, textMode: RecMode, fallback: seq<Value>, saved: nat)
    returns (total: Result<nat>)
    modifies c
    ensures c.sent == old(c.sent) + Fallback(c.respond, textMode, fallback, saved).reqs
    ensures total == Fallback(c.respond, textMode, fallback, saved).out
  {
    if saved != 0 {
      return Ok(saved);
    }
    total := SaveRecommendations(c, textMode, fallback, 2);
  }

  method AsTexts(texts: seq<string>) returns (items: seq<Value>)
    ensures items == Map(AsText, texts)
  {
    items := [];
    for i := 0 to |texts|
      invariant items == Map(AsText, texts[..i])
    {
      MapNext(AsText, texts, i);
      items := items + [Str(texts[i])];
    }
    assert texts[..|texts|] == texts;
  }

  function SaveWithFallback(respond: Request -> Response, jsonMode: RecMode, items: seq<Value>, textMode: RecMode,
                            fallback: seq<Value>): Step<Result<nat>> {
    var first := SaveLoop(respond, jsonMode, items, 2, 0);
    if first.out.Raised? then first
    else
      var second := Fallback(respond, textMode, fallback, first.out.value);
      Step(first.reqs + second.reqs, second.out)
  }

  method SaveAll(c: ApiClient, jsonMode: RecMode, items: seq<Value>, textMode: RecMode, fallback: seq<Value>)
    returns (saved: Result<nat>)
    modifies c
    ensures c.sent == old(c.sent) + SaveWithFallback(c.respond, jsonMode, items, textMode, fallback).reqs
    ensures saved == SaveWithFallback(c.respond, jsonMode, items, textMode, fallback).out
  {
    ghost var s0 := c.sent;
    var first := SaveRecommendations(c, jsonMode, items, 2);
    ghost var f := SaveLoop(c.respond, jsonMode, items, 2, 0);
    if first.Raised? {
      return first;
    }
    saved := FallbackRecommendations(c, textMode, fallback, first.value);
    ghost var g := Fallback(c.respond, textMode, fallback, f.out.value);
    ConcatAssoc(s0, f.reqs, g.reqs);
  }

  /** At most two recommendations are accepted in all, and a returned count is what the backend
      accepted; a raising JSON loop ends the saving, the text loop runs only when the JSON loop
      got none accepted, and then it alone counts. */
  lemma SaveWithFallbackBound(respond: Request -> Response, jsonMode: RecMode, items: seq<Value>, textMode: RecMode,
                              fallback: seq<Value>)
    ensures var first := SaveLoop(respond, jsonMode, items, 2, 0);
      var s := SaveWithFallback(respond, jsonMode, items, textMode, fallback);
      && Accepted(respond, s.reqs) <= 2
      && (s.out.Ok? ==> s.out.value == Accepted(respond, s.reqs))
      && (first.out.Raised? || first.out.value != 0 ==> s == first)
      && (first.out == Ok(0) ==>
            s == Step(first.reqs + SaveLoop(respond, textMode, fallback, 2, 0).reqs,
                      SaveLoop(respond, textMode, fallback, 2, 0).out))
      && (forall r :: r in s.reqs ==> FromItems(jsonMode, items, r) || FromItems(textMode, fallback, r))
  {
    var first := SaveLoop(respond, jsonMode, items, 2, 0);
    SaveLoopCap(respond, jsonMode, items, 2, 0);
    SaveLoopCounts(respond, jsonMode, items, 2, 0);
    SaveLoopSendsPayloads(respond, jsonMode, items, 2, 0);
    if first.out == Ok(0) {
      var second := SaveLoop(respond, textMode, fallback, 2, 0);
      SaveLoopCap(respond, textMode, fallback, 2, 0);
      SaveLoopCounts(respond, textMode, fallback, 2, 0);
      SaveLoopSendsPayloads(respond, textMode, fallback, 2, 0);
      AcceptedAppend(respond, first.reqs, second.reqs);
    } else if first.out.Ok? {
      assert first.reqs + [] == first.reqs;
    }
  }

  /** The text fallback's items are strings, whose log line always slices; so the saving raises
      exactly when the JSON loop does, from the log line of one of its accepted creates. */
  lemma SaveWithFallbackRaises(respond: Request -> Response, jsonMode: RecMode, items: seq<Value>, textMode: RecMode,
                               answer: string)
    requires textMode.TeamText? || textMode.PiText?
    ensures var s := SaveWithFallback(respond, jsonMode, items, textMode, FallbackItems(answer));
      var first := SaveLoop(respond, jsonMode, items, 2, 0);
      && (s.out.Raised? <==> first.out.Raised?)
      && (s.out.Raised? ==> s.out.reason == LogFailed)
  {
    var fallback := FallbackItems(answer);
    FallbackItemsAreCandidates(answer);
    forall v | v in fallback && PayloadOf(textMode, v).Some?
      ensures !LogRaises(textMode, v)
    {
      var k :| 0 <= k < |fallback| && fallback[k] == v;
    }
    SaveLoopNeverRaises(respond, textMode, fallback, 2, 0);
    SaveLoopRaises(respond, jsonMode, items, 2, 0);
  }

  // ---------------------------------------------------------------------------
  // the team card of the daily and sprint-goal jobs

  /** The constant parts of a job's card. */
  datatype CardSpec = CardSpec(name: string, cardType: string, priority: string, source: string)

  /** The card the job saves, with the dashboard JSON attached when the answer had one. */
  function InlineCardPayload(team: Value, spec: CardSpec, description: string, today: string, jobId: Value,
                             fullInfo: string, dashboard: Option<Value>): Record {
    CardFields(team, Str(spec.name), Str(spec.cardType), description, today, Str(spec.priority), Str(spec.source),
               jobId, fullInfo)
      + (if dashboard.Some? then [("information_json", dashboard.value)] else [])
  }

  /** What the job takes from the answer: the stored prose, the card, and the JSON recommendations. */
  datatype Parsed = Parsed(fullInfo: string, payload: Record, items: seq<Value>, fallback: seq<Value>)

  function ParseAnswer(parse: string -> Option<Value>, answer: string, team: Value, jobId: Value, spec: CardSpec,
                       today: string): Parsed {
    var split := SplitTextAndJson(answer, parse);
    var description := Description(BetweenMarkers(answer, StartMarker, EndMarker), answer);
    var fullInfo := Take(split.prose, 2000);
    Parsed(fullInfo, InlineCardPayload(team, spec, description, today, jobId, fullInfo, split.dashboard),
           JsonRecItems(split.recommendations), FallbackItems(answer))
  }

  method ParseLlmAnswer(parse: string -> Option<Value>, answer: string, team: Value, jobId: Value, spec: CardSpec,
                        today: string) returns (p: Parsed)
    ensures p == ParseAnswer(parse, answer, team, jobId, spec, today)
  {
    var split := ExtractTextAndJson(answer, parse);
    var extracted := ExtractReviewSection(answer);
    var description := ChooseDescription(extracted, answer);
    var fullInfo := Take(split.prose, 2000);
    var payload := BuildInlinePayload(team, spec, description, today, jobId, fullInfo, split.dashboard);
    var fallback := ExtractFallbackItems(answer);
    p := Parsed(fullInfo, payload, JsonRecItems(split.recommendations), fallback);
  }

  method BuildInlinePayload(team: Value, spec: CardSpec, description: string, today: string, jobId: Value,
                            fullInfo: string, dashboard: Option<Value>) returns (payload: Record)
    ensures payload == InlineCardPayload(team, spec, description, today, jobId, fullInfo, dashboard)
  {
    payload := CardFields(team, Str(spec.name), Str(spec.cardType), description, today, Str(spec.priority),
                          Str(spec.source), jobId, fullInfo);
    if dashboard.Some? {
      payload := payload + [("information_json", dashboard.value)];
    }
  }

  /** The card carries the team and the job's fixed name, type, priority and source, a description of
      at most 2000 characters, and the dashboard JSON exactly when the answer had one. */
  lemma InlinePayloadFields(team: Value, spec: CardSpec, description: string, today: string, jobId: Value,
                            fullInfo: string, dashboard: Option<Value>)
    ensures var p := InlineCardPayload(team, spec, description, today, jobId, fullInfo, dashboard);
      && GetOrNull(p, "team_name") == team && GetOrNull(p, "card_name") == Str(spec.name)
      && GetOrNull(p, "card_type") == Str(spec.cardType) && GetOrNull(p, "priority") == Str(spec.priority)
      && GetOrNull(p, "source") == Str(spec.source)
      && GetOrNull(p, "description").Str? && |GetOrNull(p, "description").s| <= 2000
      && (HasKey(p, "information_json") <==> dashboard.Some?)
  {
    var base := CardFields(team, Str(spec.name), Str(spec.cardType), description, today, Str(spec.priority),
                           Str(spec.source), jobId, fullInfo);
    var extra: Record := if dashboard.Some? then [("information_json", dashboard.value)] else [];
    CardFieldsKeys(team, Str(spec.name), Str(spec.cardType), description, today, Str(spec.priority),
                   Str(spec.source), jobId, fullInfo, extra);
    CardFieldsLackOptional(team, Str(spec.name), Str(spec.cardType), description, today, Str(spec.priority),
                           Str(spec.source), jobId, fullInfo);
    HasKeyConcat(base, extra, "information_json");
    if dashboard.Some? {
      assert extra[0].0 == "information_json";
    }
  }

  /** The team card upsert, then the recommendations of the inline JSON loop and its fallback. */
  function InlineWrites(respond: Request -> Response, team: Value, today: string, p: Parsed): Step<Result<nat>> {
    var u := UpsertCall(respond, TeamCards, p.payload, today);
    var recs := SaveWithFallback(respond, InlineJson(team, today, p.fullInfo), p.items,
                                 TeamText(team, today, p.fullInfo), p.fallback);
    Step(u.reqs + recs.reqs, recs.out)
  }

  method SaveCardAndRecommendations(c: ApiClient, team: Value, today: string, p: Parsed)
    returns (saved: Result<nat>)
    modifies c
    ensures c.sent == old(c.sent) + InlineWrites(c.respond, team, today, p).reqs
    ensures saved == InlineWrites(c.respond, team, today, p).out
  {
    ghost var s0 := c.sent;
    var _ := UpsertCard(c, TeamCards, p.payload, today);
    ghost var u := UpsertCall(c.respond, TeamCards, p.payload, today);
    saved := SaveAll(c, InlineJson(team, today, p.fullInfo), p.items, TeamText(team, today, p.fullInfo), p.fallback);
    ghost var recs := SaveWithFallback(c.respond, InlineJson(team, today, p.fullInfo), p.items,
                                       TeamText(team, today, p.fullInfo), p.fallback);
    ConcatAssoc(s0, u.reqs, recs.reqs);
  }

  /** The card goes to the team collection only; at most two recommendations follow it, and a
      returned count is the number the backend accepted. */
  lemma InlineWritesShape(respond: Request -> Response, team: Value, today: string, p: Parsed)
    ensures var s := InlineWrites(respond, team, today, p);
      var u := UpsertCall(respond, TeamCards, p.payload, today);
      && s.reqs[..|u.reqs|] == u.reqs
      && s.reqs[0] == ListCards(TeamCards)
      && Accepted(respond, s.reqs) <= 2
      && (s.out.Ok? ==> s.out.value == Accepted(respond, s.reqs))
  {
    var u := UpsertCall(respond, TeamCards, p.payload, today);
    var recs := SaveWithFallback(respond, InlineJson(team, today, p.fullInfo), p.items,
                                 TeamText(team, today, p.fullInfo), p.fallback);
    UpsertWritesOnce(respond, TeamCards, p.payload, today);
    AcceptedNone(respond, u.reqs);
    SaveWithFallbackBound(respond, InlineJson(team, today, p.fullInfo), p.items, TeamText(team, today, p.fullInfo),
                          p.fallback);
    AcceptedAppend(respond, u.reqs, recs.reqs);
    assert (u.reqs + recs.reqs)[..|u.reqs|] == u.reqs;
  }

  // ---------------------------------------------------------------------------
  // after the input: the daily and sprint-goal jobs

  /** What tells the daily and the sprint-goal job apart once their input is built. */
  datatype InlineJob = InlineJob(jobType: string, title: string, card: CardSpec)

  /** The card and the recommendations the answer yields. */
  function InlineAfterAnswer(respond: Request -> Response, parse: string -> Option<Value>, job: InlineJob,
                             team: Value, jobId: Value, answer: string, today: string): Step<Result<nat>> {
    InlineWrites(respond, team, today, ParseAnswer(parse, answer, team, jobId, job.card, today))
  }

  /** Patch the job, ask the LLM, and save what a good answer yields. */
  function InlineAfterInput(respond: Request -> Response, parse: string -> Option<Value>, job: InlineJob,
                            team: Value, jobId: Value, id: Option<int>, input: string, details: seq<string>,
                            today: string): Step<Result<JobResult>> {
    var ask := PatchAndAsk(respond, id, input, job.jobType, [("team_name", team)]);
    if !ask.out.ok then Step(ask.reqs, Ok(JobResult(false, AiFailed)))
    else
      var writes := InlineAfterAnswer(respond, parse, job, team, jobId, ask.out.text, today);
      Step(ask.reqs + writes.reqs,
           if writes.out.Raised? then Raised(writes.out.reason)
           else Ok(JobResult(true, Report(job.title, details, input, ask.out.text))))
  }

  method SaveInlineAnswer(c: ApiClient, parse: string -> Option<Value>, job: InlineJob, team: Value, jobId: Value,
                          answer: string, today: string) returns (saved: Result<nat>)
    modifies c
    ensures c.sent == old(c.sent) + InlineAfterAnswer(c.respond, parse, job, team, jobId, answer, today).reqs
    ensures saved == InlineAfterAnswer(c.respond, parse, job, team, jobId, answer, today).out
  {
    var parsed := ParseLlmAnswer(parse, answer, team, jobId, job.card, today);
    saved := SaveCardAndRecommendations(c, team, today, parsed);
  }

  method AskInline(c: ApiClient, parse: string -> Option<Value>, job: InlineJob, team: Value, jobId: Value,
                   id: Option<int>, input: string, details: seq<string>, today: string) returns (r: Result<JobResult>)
    modifies c
    ensures c.sent == old(c.sent) + InlineAfterInput(c.respond, parse, job, team, jobId, id, input, details, today).reqs
    ensures r == InlineAfterInput(c.respond, parse, job, team, jobId, id, input, details, today).out
  {
    ghost var s0 := c.sent;
    var reply := PatchAndAskLlm(c, id, input, job.jobType, [("team_name", team)]);
    ghost var ask := PatchAndAsk(c.respond, id, input, job.jobType, [("team_name", team)]);
    ghost var mid := c.sent;
    assert mid == s0 + ask.reqs;
    if !reply.ok {
      return Ok(JobResult(false, AiFailed));
    }
    var saved := SaveInlineAnswer(c, parse, job, team, jobId, reply.text, today);
    ghost var writes := InlineAfterAnswer(c.respond, parse, job, team, jobId, reply.text, today);
    assert c.sent == mid + writes.reqs;
    ConcatAssoc(s0, ask.reqs, writes.reqs);
    if saved.Raised? {
      return Raised(saved.reason);
    }
    r := Ok(JobResult(true, Report(job.title, details, input, reply.text)));
  }

  /** The LLM reply decides: a failed call ends the job as failed with nothing saved; after an
      answered one the job raises exactly when the JSON loop's log line does, and otherwise gives
      a report that ends with the whole answer. */
  lemma InlineAfterInputOutcome(respond: Request -> Response, parse: string -> Option<Value>, job: InlineJob,
                                team: Value, jobId: Value, id: Option<int>, input: string, details: seq<string>,
                                today: string)
    ensures var a := InlineAfterInput(respond, parse, job, team, jobId, id, input, details, today);
      var ask := PatchAndAsk(respond, id, input, job.jobType, [("team_name", team)]);
      var p := ParseAnswer(parse, ask.out.text, team, jobId, job.card, today);
      && a.reqs[..|ask.reqs|] == ask.reqs
      && (!ask.out.ok ==> a == Step(ask.reqs, Ok(JobResult(false, AiFailed))))
      && (ask.out.ok ==>
            (a.out.Raised? <==> SaveLoop(respond, InlineJson(team, today, p.fullInfo), p.items, 2, 0).out.Raised?))
      && (a.out.Raised? ==> a.out.reason == LogFailed)
      && (a.out.Ok? && ask.out.ok ==>
            a.out.value.ok
            && StartsWith(a.out.value.text, job.title + "\n")
            && EndsWith(a.out.value.text, "=== AI ANALYSIS ===\n" + ask.out.text + "\n"))
  {
    var ask := PatchAndAsk(respond, id, input, job.jobType, [("team_name", team)]);
    if ask.out.ok {
      var p := ParseAnswer(parse, ask.out.text, team, jobId, job.card, today);
      var writes := InlineAfterAnswer(respond, parse, job, team, jobId, ask.out.text, today);
      SaveWithFallbackRaises(respond, InlineJson(team, today, p.fullInfo), p.items, TeamText(team, today, p.fullInfo),
                             ask.out.text);
      assert (ask.reqs + writes.reqs)[..|ask.reqs|] == ask.reqs;
      ReportShape(job.title, details, input, ask.out.text);
    } else {
      assert ask.reqs[..|ask.reqs|] == ask.reqs;
    }
  }

  /** At most two recommendations are saved once the input is built. */
  lemma InlineAtMostTwo(respond: Request -> Response, parse: string -> Option<Value>, job: InlineJob, team: Value,
                        jobId: Value, id: Option<int>, input: string, details: seq<string>, today: string)
    ensures Accepted(respond, InlineAfterInput(respond, parse, job, team, jobId, id, input, details, today).reqs) <= 2
  {
    var ask := PatchAndAsk(respond, id, input, job.jobType, [("team_name", team)]);
    PatchBeforeAsk(respond, id, input, job.jobType, [("team_name", team)]);
    AcceptedNone(respond, ask.reqs);
    if ask.out.ok {
      var p := ParseAnswer(parse, ask.out.text, team, jobId, job.card, today);
      var writes := InlineWrites(respond, team, today, p);
      InlineWritesShape(respond, team, today, p);
      AcceptedAppend(respond, ask.reqs, writes.reqs);
    }
  }

  // ---------------------------------------------------------------------------
  // the result text

  /** What the result text says after the job's own detail lines. */
  function Report(title: string, details: seq<string>, formatted: string, answer: string): string {
    Join([title, ""] + details
         + ["", "Data Sent to LLM: " + NatToString(|formatted|) + " characters",
            "LLM Response Length: " + NatToString(|answer|) + " characters", "", "=== AI ANALYSIS ===", answer, ""],
         "\n")
  }

  /** The report opens with its title and closes with the whole answer under its heading. */
  lemma ReportShape(title: string, details: seq<string>, formatted: string, answer: string)
    ensures StartsWith(Report(title, details, formatted, answer), title + "\n")
    ensures EndsWith(Report(title, details, formatted, answer), "=== AI ANALYSIS ===\n" + answer + "\n")
  {
    var front := [title, ""] + details
      + ["", "Data Sent to LLM: " + NatToString(|formatted|) + " characters",
         "LLM Response Length: " + NatToString(|answer|) + " characters", ""];
    var parts := front + ["=== AI ANALYSIS ===", answer, ""];
    assert parts == [title, ""] + (details
      + ["", "Data Sent to LLM: " + NatToString(|formatted|) + " characters",
         "LLM Response Length: " + NatToString(|answer|) + " characters", "", "=== AI ANALYSIS ===", answer, ""]);
    assert parts == [title, ""] + details
      + ["", "Data Sent to LLM: " + NatToString(|formatted|) + " characters",
         "LLM Response Length: " + NatToString(|answer|) + " characters", "", "=== AI ANALYSIS ===", answer, ""];
    JoinStartsTwo(title, "", details
      + ["", "Data Sent to LLM: " + NatToString(|formatted|) + " characters",
         "LLM Response Length: " + NatToString(|answer|) + " characters", "", "=== AI ANALYSIS ===", answer, ""], "\n");
    assert parts == ((front + ["=== AI ANALYSIS ==="]) + [answer]) + [""];
    JoinAppend(front, "=== AI ANALYSIS ===", "\n");
    JoinAppend(front + ["=== AI ANALYSIS ==="], answer, "\n");
    JoinAppend((front + ["=== AI ANALYSIS ==="]) + [answer], "", "\n");
    var j := Join(front, "\n");
    assert Join(parts, "\n") == j + "\n" + "=== AI ANALYSIS ===" + "\n" + answer + "\n" + "";
    var tail := "=== AI ANALYSIS ===\n" + answer + "\n";
    assert Join(parts, "\n") == (j + "\n") + tail;
    assert ((j + "\n") + tail)[|(j + "\n") + tail| - |tail|..] == tail;
  }
}
