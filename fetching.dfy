/**
  The data-fetching helpers: each sends its requests through the API client and turns the
  answers into a text section of the LLM prompt (or, for the PI fetch, into raw objects).
*/
module Fetching {
  import opened Wrappers
  import opened Text
  import opened Json
  import opened Seqs
  import opened Backend
  import opened Formatting

  // ---------------------------------------------------------------------------
  // get_prompt_with_error_check

  /** `(prompt_text, error_message)`: exactly one of them is present. */
  datatype PromptResult = PromptResult(prompt: Option<string>, error: Option<string>)

  /** The first request asks for the name with spaces encoded; only a 404 brings a second,
      with the name as it is. */
  function PromptRequests(respond: Request -> Response, email: string, name: string): (reqs: seq<Request>)
    ensures 1 <= |reqs| <= 2
    ensures forall i :: 0 <= i < |reqs| ==> reqs[i].GetPrompt? && reqs[i].email == email
  {
    var first := GetPrompt(email, EncodeSpaces(name));
    if respond(first).status == 404 then [first, GetPrompt(email, name)] else [first]
  }

  /** The description, looked up at data.prompt.prompt_description, then data.prompt_description,
      then the root prompt_description; a falsy `data` counts as an empty dict. */
  function PromptDescription(root: Record): Value {
    var data := Or(GetOrNull(root, "data"), Obj([]));
    var fromData :=
      if data.Obj? then
        var promptObj := GetOrNull(data.fields, "prompt");
        var nested := if promptObj.Obj? then GetOrNull(promptObj.fields, "prompt_description") else Null;
        if Truthy(nested) then nested else GetOrNull(data.fields, "prompt_description")
      else Null;
    if Truthy(fromData) then fromData else GetOrNull(root, "prompt_description")
  }

  /** A description the lookup accepts: a string with a visible character. */
  predicate UsableDescription(v: Value) {
    v.Str? && !IsBlank(v.s)
  }

  function PromptFailed(email: string, name: string, status: int): string {
    "Failed to fetch prompt '" + name + "' for " + email + ": HTTP " + IntToString(status)
  }

  function PromptInvalid(email: string, name: string): string {
    "Prompt '" + name + "' for " + email + " returned invalid response format"
  }

  function PromptNotFound(email: string, name: string): string {
    "Prompt '" + name + "' not found for " + email
  }

  /** The prompt text between the begin and end markers. */
  function WrapPrompt(text: string): string {
    PromptBegin + "\n" + text + "\n" + PromptEnd
  }

  /** The outcome the final answer gives. */
  function PromptOutcome(resp: Response, email: string, name: string): PromptResult {
    if resp.status != 200 then PromptResult(None, Some(PromptFailed(email, name, resp.status)))
    else if !resp.body.Obj? then PromptResult(None, Some(PromptInvalid(email, name)))
    else
      var text := PromptDescription(resp.body.fields);
      if !Truthy(text) || !text.Str? || Strip(text.s) == [] then PromptResult(None, Some(PromptNotFound(email, name)))
      else PromptResult(Some(WrapPrompt(text.s)), None)
  }

  function PromptLookup(respond: Request -> Response, email: string, name: string): Step<PromptResult> {
    var reqs := PromptRequests(respond, email, name);
    Step(reqs, PromptOutcome(respond(reqs[|reqs| - 1]), email, name))
  }

  method GetPromptWithErrorCheck(c: ApiClient, email: string, name: string) returns (r: PromptResult)
    modifies c
    ensures c.sent == old(c.sent) + PromptLookup(c.respond, email, name).reqs
    ensures r == PromptLookup(c.respond, email, name).out
  {
    var resp := c.Call(GetPrompt(email, EncodeSpaces(name)));
    if resp.status == 404 {
      resp := c.Call(GetPrompt(email, name));
    }
    if resp.status != 200 {
      return PromptResult(None, Some(PromptFailed(email, name, resp.status)));
    }
    if !resp.body.Obj? {
      return PromptResult(None, Some(PromptInvalid(email, name)));
    }
    var text: Value := Null;
    var data := Or(GetOrNull(resp.body.fields, "data"), Obj([]));
    if data.Obj? {
      var promptObj := GetOrNull(data.fields, "prompt");
      if promptObj.Obj? {
        text := GetOrNull(promptObj.fields, "prompt_description");
      }
      if !Truthy(text) {
        text := GetOrNull(data.fields, "prompt_description");
      }
    }
    if !Truthy(text) {
      text := GetOrNull(resp.body.fields, "prompt_description");
    }
    if !Truthy(text) || !text.Str? || Strip(text.s) == [] {
      return PromptResult(None, Some(PromptNotFound(email, name)));
    }
    return PromptResult(Some(WrapPrompt(text.s)), None);
  }

  /** Exactly one side is present; the prompt is there exactly when the final answer is a 200
      dict whose description is a non-blank string, and it is that string between the markers. */
  lemma PromptExactlyOne(respond: Request -> Response, email: string, name: string)
    ensures var r := PromptLookup(respond, email, name).out;
      (r.prompt.Some? <==> r.error.None?)
      && var last := respond(PromptLookup(respond, email, name).reqs[|PromptLookup(respond, email, name).reqs| - 1]);
         (r.prompt.Some? <==> last.status == 200 && last.body.Obj? && UsableDescription(PromptDescription(last.body.fields)))
         && (r.prompt.Some? ==> r.prompt.value == WrapPrompt(PromptDescription(last.body.fields).s))
  {
  }

  /** A prompt lookup only reads: whatever follows it, the count of saved recommendations is
      that of what follows. */
  lemma PromptLookupSavesNothing(respond: Request -> Response, email: string, name: string, rest: seq<Request>)
    ensures Accepted(respond, PromptLookup(respond, email, name).reqs + rest) == Accepted(respond, rest)
  {
    AcceptedAfterNone(respond, PromptLookup(respond, email, name).reqs, rest);
  }

  /** The encoded name is asked for first; the plain name only after a 404, and then the
      second answer decides. */
  lemma PromptRetryOn404(respond: Request -> Response, email: string, name: string)
    ensures var reqs := PromptLookup(respond, email, name).reqs;
      reqs[0] == GetPrompt(email, EncodeSpaces(name))
      && (|reqs| == 2 <==> respond(GetPrompt(email, EncodeSpaces(name))).status == 404)
      && (|reqs| == 2 ==> reqs[1] == GetPrompt(email, name))
  {
  }

  /** The nested description wins when it is truthy; the root one is used only when neither
      the nested nor the data-level one is. */
  lemma PromptDescriptionOrder(root: Record, atRoot: Value)
    requires GetOrNull(root, "prompt_description") == atRoot
    ensures var data := Or(GetOrNull(root, "data"), Obj([]));
      ((data.Obj? && GetOrNull(data.fields, "prompt").Obj?
        && Truthy(GetOrNull(GetOrNull(data.fields, "prompt").fields, "prompt_description")))
        ==> PromptDescription(root) == GetOrNull(GetOrNull(data.fields, "prompt").fields, "prompt_description"))
      && (!data.Obj? ==> PromptDescription(root) == atRoot)
      && (Truthy(PromptDescription(root)) || PromptDescription(root) == atRoot)
  {
  }

  // ---------------------------------------------------------------------------
  // fetch_pi_data_for_analysis

  /** The first transcript of a transcripts answer, or None. */
  function FirstTranscript(resp: Response): Value {
    if !OkDict(resp) then Null
    else
      var dataObj := GetOrDefault(resp.body.fields, "data", Obj([]));
      var transcripts := if dataObj.Obj? then GetOrDefault(dataObj.fields, "transcripts", Arr([])) else Arr([]);
      if Truthy(transcripts) && transcripts.Arr? then transcripts.items[0] else Null
  }

  /** `data.get("data") or data` for a 200 dict answer, else None. */
  function DataOrNull(resp: Response): Value {
    if OkDict(resp) then DataOrBody(resp) else Null
  }

  datatype PiData = PiData(transcript: Value, status: Value, burndown: Value)

  function PiDataFetch(respond: Request -> Response, pi: string, team: Value, withTranscript: bool): Step<PiData> {
    var transcriptReq := GetTranscripts(Str("PI Sync"), Null, Str(pi), 1);
    var statusReq := GetPiSummaryToday(pi, team);
    var burndownReq := GetPiBurndown(pi, team);
    Step((if withTranscript then [transcriptReq] else []) + [statusReq, burndownReq],
         PiData(if withTranscript then FirstTranscript(respond(transcriptReq)) else Null,
                DataOrNull(respond(statusReq)), DataOrNull(respond(burndownReq))))
  }

  method FetchPiDataForAnalysis(c: ApiClient, pi: string, team: Value, withTranscript: bool) returns (r: PiData)
    modifies c
    ensures c.sent == old(c.sent) + PiDataFetch(c.respond, pi, team, withTranscript).reqs
    ensures r == PiDataFetch(c.respond, pi, team, withTranscript).out
  {
    var transcript: Value := Null;
    if withTranscript {
      var resp := c.Call(GetTranscripts(Str("PI Sync"), Null, Str(pi), 1));
      transcript := FirstTranscript(resp);
    }
    var statusResp := c.Call(GetPiSummaryToday(pi, team));
    var status := DataOrNull(statusResp);
    var burndownResp := c.Call(GetPiBurndown(pi, team));
    var burndown := DataOrNull(burndownResp);
    r := PiData(transcript, status, burndown);
  }

  /** Without the transcript flag nothing is asked about transcripts and none comes back; every
      object present came from a 200 dict answer. */
  lemma PiDataShape(respond: Request -> Response, pi: string, team: Value, withTranscript: bool)
    ensures var s := PiDataFetch(respond, pi, team, withTranscript);
      |s.reqs| == (if withTranscript then 3 else 2)
      && (!withTranscript ==> s.out.transcript == Null)
      && (s.out.status != Null ==> OkDict(respond(GetPiSummaryToday(pi, team))))
      && (s.out.burndown != Null ==> OkDict(respond(GetPiBurndown(pi, team))))
  {
  }

  // ---------------------------------------------------------------------------
  // Sections with a header line: burndown, PI status, PI burndown

  const SprintBurndownHeader: string := "=== BURN DOWN DATA FOR THE ACTIVE SPRINT ==="
  const NoBurndownData: string := "No burndown data available"
  const PiStatusHeader: string := "=== PI status for current date ==="
  const NoPiStatusData: string := "No PI status data available"
  const PiBurndownHeader: string := "=== PI Burndown Snapshot ==="

  /** A header, a body and the empty last line, joined by newlines. */
  function Section(header: string, body: string): string {
    Join([header, body, ""], "\n")
  }

  lemma SectionText(header: string, body: string)
    ensures Section(header, body) == header + "\n" + body + "\n"
  {
    assert [header, body, ""] == [header, body] + [""];
    JoinAppend([header, body], "", "\n");
    assert [header, body] == [header] + [body];
    JoinAppend([header], body, "\n");
  }

  /** The rendered body under its header, or the fallback text when rendering raised. */
  function SectionOr(header: string, formatted: Result<string>): string {
    if formatted.Ok? then Section(header, formatted.value) else header + "\n" + NoBurndownData + "\n"
  }

  /** The parts list of a section: header, the rendered body, and an empty last line. */
  method BuildSection(header: string, formatted: Result<string>) returns (r: string)
    ensures r == SectionOr(header, formatted)
  {
    if formatted.Raised? {
      return header + "\n" + NoBurndownData + "\n";
    }
    var parts := [header];
    parts := parts + [formatted.value];
    parts := parts + [""];
    assert parts == [header, formatted.value, ""];
    return Join(parts, "\n");
  }

  /** get_team_sprint_burndown_for_analysis: the rendered burndown under its header; the
      fallback text when the answer is not a 200 dict, the data is empty or rendering raises. */
  function SprintBurndownSection(resp: Response): string {
    if OkDict(resp) && Truthy(DataOrBody(resp)) then SectionOr(SprintBurndownHeader, BurndownText(DataOrBody(resp)))
    else SprintBurndownHeader + "\n" + NoBurndownData + "\n"
  }

  method GetTeamSprintBurndownForAnalysis(c: ApiClient, team: Value) returns (r: string)
    modifies c
    ensures c.sent == old(c.sent) + [GetTeamSprintBurndown(team)]
    ensures r == SprintBurndownSection(c.respond(GetTeamSprintBurndown(team)))
  {
    var resp := c.Call(GetTeamSprintBurndown(team));
    if OkDict(resp) && Truthy(DataOrBody(resp)) {
      var formatted := FormatBurndown(DataOrBody(resp));
      r := BuildSection(SprintBurndownHeader, formatted);
    } else {
      r := SprintBurndownHeader + "\n" + NoBurndownData + "\n";
    }
  }

  /** Both outcomes are the header line, one body, and a final newline; the body is the
      fallback sentence unless the answer was a 200 dict with truthy data. */
  lemma SprintBurndownShape(resp: Response)
    ensures exists body :: SprintBurndownSection(resp) == SprintBurndownHeader + "\n" + body + "\n"
              && (body == NoBurndownData || (OkDict(resp) && Truthy(DataOrBody(resp))))
  {
    if OkDict(resp) && Truthy(DataOrBody(resp)) && BurndownText(DataOrBody(resp)).Ok? {
      var body := BurndownText(DataOrBody(resp)).value;
      SectionText(SprintBurndownHeader, body);
      assert SprintBurndownSection(resp) == SprintBurndownHeader + "\n" + body + "\n";
    } else {
      assert SprintBurndownSection(resp) == SprintBurndownHeader + "\n" + NoBurndownData + "\n";
    }
  }

  /** get_pi_status_for_today_for_analysis. */
  function PiStatusSection(resp: Response): string {
    if OkDict(resp) && Truthy(DataOrBody(resp)) then Section(PiStatusHeader, PiStatusText(DataOrBody(resp)))
    else PiStatusHeader + "\n" + NoPiStatusData + "\n"
  }

  method GetPiStatusForTodayForAnalysis(c: ApiClient, pi: string, team: Value) returns (r: string)
    modifies c
    ensures c.sent == old(c.sent) + [GetPiSummaryToday(pi, team)]
    ensures r == PiStatusSection(c.respond(GetPiSummaryToday(pi, team)))
  {
    var resp := c.Call(GetPiSummaryToday(pi, team));
    if OkDict(resp) && Truthy(DataOrBody(resp)) {
      var formatted := FormatPiStatus(DataOrBody(resp));
      r := BuildSection(PiStatusHeader, Ok(formatted));
    } else {
      r := PiStatusHeader + "\n" + NoPiStatusData + "\n";
    }
  }

  /** get_pi_burndown_for_analysis; here a raising burndown table is not caught. */
  function PiBurndownSection(resp: Response): Result<string> {
    if OkDict(resp) && Truthy(DataOrBody(resp)) then
      var formatted := BurndownText(DataOrBody(resp));
      if formatted.Raised? then Raised(formatted.reason) else Ok(Section(PiBurndownHeader, formatted.value))
    else Ok(PiBurndownHeader + "\n" + NoBurndownData + "\n")
  }

  method GetPiBurndownForAnalysis(c: ApiClient, pi: string, team: Value) returns (r: Result<string>)
    modifies c
    ensures c.sent == old(c.sent) + [GetPiBurndown(pi, team)]
    ensures r == PiBurndownSection(c.respond(GetPiBurndown(pi, team)))
  {
    var resp := c.Call(GetPiBurndown(pi, team));
    if OkDict(resp) && Truthy(DataOrBody(resp)) {
      var formatted := FormatBurndown(DataOrBody(resp));
      if formatted.Raised? {
        return Raised(formatted.reason);
      }
      var text := BuildSection(PiBurndownHeader, formatted);
      return Ok(text);
    }
    return Ok(PiBurndownHeader + "\n" + NoBurndownData + "\n");
  }

  /** The PI sections fall back exactly when the answer is not a 200 dict with truthy data. */
  lemma PiSectionsFallback(resp: Response)
    ensures PiStatusSection(resp) == PiStatusHeader + "\n" + NoPiStatusData + "\n"
            <== !(OkDict(resp) && Truthy(DataOrBody(resp)))
    ensures OkDict(resp) && Truthy(DataOrBody(resp)) ==>
            StartsWith(PiStatusSection(resp), PiStatusHeader + "\n" + PiStatusText(DataOrBody(resp)))
    ensures PiBurndownSection(resp).Raised? ==> OkDict(resp) && BurndownText(DataOrBody(resp)).Raised?
  {
    if OkDict(resp) && Truthy(DataOrBody(resp)) {
      SectionText(PiStatusHeader, PiStatusText(DataOrBody(resp)));
    }
  }

  // ---------------------------------------------------------------------------
  // get_transcripts_for_analysis

  /** The block returned when no transcript list comes back. */
  const NoTranscriptsBlock: string := "Begin transcript\n" + "No transcripts found\n" + "End transcript"

  function BeginMarker(count: nat): string {
    if count > 1 then "Begin transcripts" else "Begin transcript"
  }

  function EndMarker(count: nat): string {
    if count > 1 then "End transcripts" else "End transcript"
  }

  /** The transcripts of a 200 dict answer; None when the list is missing, empty or not a list. */
  function TranscriptList(resp: Response): (r: Option<seq<Value>>)
    ensures r.Some? ==> r.value != []
  {
    if !OkDict(resp) then None
    else
      var dataObj := GetOrDefault(resp.body.fields, "data", Obj([]));
      var transcripts := if dataObj.Obj? then GetOrDefault(dataObj.fields, "transcripts", Arr([])) else Arr([]);
      if !Truthy(transcripts) || !transcripts.Arr? then None else Some(transcripts.items)
  }

  /** The lines of the transcript numbered `index`: its number, its date and its text when
      present, and a blank line; a transcript that is not a dict gives no lines. */
  function TranscriptEntry(t: Value, index: nat): seq<string> {
    if !t.Obj? then []
    else
      var date := GetOrDefault(t.fields, "transcript_date", Str(""));
      var raw := GetOrDefault(t.fields, "raw_text", Str(""));
      ["Transcript " + NatToString(index)]
        + (if Truthy(date) then ["transcript_date: " + Show(date)] else [])
        + (if Truthy(raw) then [Show(raw)] else [])
        + [""]
  }

  /** The lines of all transcripts, each numbered by its position in the list, from 1. */
  function TranscriptEntries(ts: seq<Value>): seq<string> {
    if ts == [] then [] else TranscriptEntries(ts[..|ts| - 1]) + TranscriptEntry(ts[|ts| - 1], |ts|)
  }

  /** The formatted block of a non-empty transcript list. */
  function TranscriptsBlock(ts: seq<Value>): string {
    Join([BeginMarker(|ts|)] + TranscriptEntries(ts) + [EndMarker(|ts|)], "\n")
  }

  function TranscriptsText(resp: Response): string {
    var list := TranscriptList(resp);
    if list.None? then NoTranscriptsBlock else TranscriptsBlock(list.value)
  }

  /** The loop over the transcripts, numbering them from 1. */
  method FormatTranscripts(ts: seq<Value>) returns (r: string)
    ensures r == TranscriptsBlock(ts)
  {
    var entries := [];
    var i := 0;
    while i < |ts|
      invariant 0 <= i <= |ts|
      invariant entries == TranscriptEntries(ts[..i])
    {
      EntriesNext(ts, i);
      var more := EntryLines(ts[i], i + 1);
      entries := entries + more;
      i := i + 1;
    }
    assert ts[..i] == ts;
    var parts := [BeginMarker(|ts|)] + entries + [EndMarker(|ts|)];
    r := Join(parts, "\n");
  }

  lemma EntriesNext(ts: seq<Value>, i: nat)
    requires i < |ts|
    ensures TranscriptEntries(ts[..i + 1]) == TranscriptEntries(ts[..i]) + TranscriptEntry(ts[i], i + 1)
  {
    assert ts[..i + 1][..i] == ts[..i];
  }

  /** The lines one transcript adds to the block. */
  method EntryLines(t: Value, index: nat) returns (more: seq<string>)
    ensures more == TranscriptEntry(t, index)
  {
    more := [];
    if t.Obj? {
      var date := GetOrDefault(t.fields, "transcript_date", Str(""));
      var raw := GetOrDefault(t.fields, "raw_text", Str(""));
      more := more + ["Transcript " + NatToString(index)];
      if Truthy(date) {
        more := more + ["transcript_date: " + Show(date)];
      }
      if Truthy(raw) {
        more := more + [Show(raw)];
      }
      more := more + [""];
    }
  }

  method GetTranscriptsForAnalysis(c: ApiClient, transcriptType: Value, team: Value, pi: Value, limit: int)
    returns (r: string)
    modifies c
    ensures c.sent == old(c.sent) + [GetTranscripts(transcriptType, team, pi, limit)]
    ensures r == TranscriptsText(c.respond(GetTranscripts(transcriptType, team, pi, limit)))
  {
    var resp := c.Call(GetTranscripts(transcriptType, team, pi, limit));
    var list := TranscriptList(resp);
    if list.None? {
      return NoTranscriptsBlock;
    }
    r := FormatTranscripts(list.value);
  }

  /** A dict transcript's lines start with its number. */
  lemma EntryHeaded(t: Value, index: nat)
    ensures t.Obj? ==> TranscriptEntry(t, index) != [] && TranscriptEntry(t, index)[0] == "Transcript " + NatToString(index)
    ensures !t.Obj? ==> TranscriptEntry(t, index) == []
  {
  }

  /** Transcript i (from 0) is announced as number i + 1 whenever it is a dict, however many
      non-dicts come before it. */
  lemma {:induction false} TranscriptNumbering(ts: seq<Value>, i: nat)
    requires i < |ts| && ts[i].Obj?
    ensures "Transcript " + NatToString(i + 1) in TranscriptEntries(ts)
    decreases |ts|
  {
    var init := ts[..|ts| - 1];
    EntryHeaded(ts[|ts| - 1], |ts|);
    if i < |ts| - 1 {
      TranscriptNumbering(init, i);
    }
  }

  /** The block's first line is its begin marker; its last line its end marker. */
  lemma TranscriptsMarkers(ts: seq<Value>)
    ensures StartsWith(TranscriptsBlock(ts), BeginMarker(|ts|))
    ensures EndsWith(TranscriptsBlock(ts), EndMarker(|ts|))
  {
    var parts := [BeginMarker(|ts|)] + TranscriptEntries(ts) + [EndMarker(|ts|)];
    JoinStarts(parts, "\n");
    JoinLast([BeginMarker(|ts|)] + TranscriptEntries(ts), EndMarker(|ts|), "\n");
  }

  /** The markers are plural exactly when there is more than one transcript. */
  lemma TranscriptsPlural(ts: seq<Value>)
    ensures StartsWith(TranscriptsBlock(ts), "Begin transcripts") <==> |ts| > 1
    ensures EndsWith(TranscriptsBlock(ts), "End transcripts") <==> |ts| > 1
  {
    TranscriptsMarkers(ts);
    var block := TranscriptsBlock(ts);
    assert StartsWith(block, "Begin transcripts") <==> |ts| > 1 by {
      var rest := TranscriptEntries(ts) + [EndMarker(|ts|)];
      assert [BeginMarker(|ts|)] + TranscriptEntries(ts) + [EndMarker(|ts|)] == [BeginMarker(|ts|), rest[0]] + rest[1..];
      JoinStartsTwo(BeginMarker(|ts|), rest[0], rest[1..], "\n");
      if |ts| <= 1 {
        assert block[16] == '\n';
        assert "Begin transcripts"[16] == 's';
      }
    }
    assert EndsWith(block, "End transcripts") <==> |ts| > 1 by {
      if |ts| <= 1 {
        var pre := [BeginMarker(|ts|)] + TranscriptEntries(ts);
        JoinLastSep(pre, EndMarker(|ts|), "\n");
        assert block[|block| - 15] == '\n';
      }
    }
  }

  /** The failure block comes back exactly when the answer holds no transcript list. */
  lemma TranscriptsFailure(resp: Response)
    ensures TranscriptsText(resp) == NoTranscriptsBlock <==> TranscriptList(resp).None?
  {
    var list := TranscriptList(resp);
    if list.Some? {
      var ts := list.value;
      var block := TranscriptsBlock(ts);
      assert NoTranscriptsBlock[16] == '\n' && NoTranscriptsBlock[17] == 'N';
      if |ts| > 1 {
        TranscriptsMarkers(ts);
        assert block[16] == 's';
      } else {
        assert ts == [ts[0]] && ts[..0] == [];
        EntryHeaded(ts[0], 1);
        var second := if ts[0].Obj? then "Transcript " + NatToString(1) else EndMarker(1);
        var rest := if ts[0].Obj? then TranscriptEntry(ts[0], 1)[1..] + [EndMarker(1)] else [];
        assert [BeginMarker(1)] + TranscriptEntries(ts) + [EndMarker(1)] == [BeginMarker(1), second] + rest;
        JoinStartsTwo(BeginMarker(1), second, rest, "\n");
        assert block[17] == second[0] != 'N';
      }
    }
  }

  // ---------------------------------------------------------------------------
  // get_daily_transcript_for_analysis

  const TranscriptDataHeader: string := "=== TRANSCRIPT DATA ==="

  /** The text returned when no daily transcript is found. */
  const NoDailyTranscript: string := TranscriptDataHeader + "\n" + NoTranscript + "\n"

  /** As written: any block that contains the failure phrase counts as "not found". */
  function DailyTranscriptAsWritten(formatted: string): string {
    if Contains(formatted, "No transcripts found") then NoDailyTranscript
    else TranscriptDataHeader + "\n" + formatted + "\n"
  }

  function DailyTranscriptRequest(team: Value): Request {
    GetTranscripts(Str("Daily"), team, Null, 1)
  }

  /** The corrected test: "not found" only for the failure block itself (see `DailyTranscriptMisreported`). */
  method GetDailyTranscriptForAnalysis(c: ApiClient, team: Value) returns (r: string)
    modifies c
    ensures c.sent == old(c.sent) + [DailyTranscriptRequest(team)]
    ensures r == DailyTranscriptSection(c.respond(DailyTranscriptRequest(team)))
  {
    var formatted := GetTranscriptsForAnalysis(c, Str("Daily"), team, Null, 1);
    ghost var resp := c.respond(DailyTranscriptRequest(team));
    TranscriptsFailure(resp);
    DailyTranscriptIntended(resp);
    if formatted == NoTranscriptsBlock {
      return NoDailyTranscript;
    }
    r := TranscriptDataHeader + "\n" + formatted + "\n";
  }

  /** A found transcript whose own text is the failure phrase is reported as missing. */
  lemma DailyTranscriptMisreported()
    ensures var resp := Response(200, Obj([("data", Obj([("transcripts",
              Arr([Obj([("raw_text", Str("No transcripts found"))])]))]))]));
      TranscriptList(resp).Some?
      && DailyTranscriptAsWritten(TranscriptsText(resp)) == NoDailyTranscript
  {
    var t := Obj([("raw_text", Str("No transcripts found"))]);
    var resp := Response(200, Obj([("data", Obj([("transcripts", Arr([t]))]))]));
    assert TranscriptList(resp) == Some([t]);
    assert [t][..0] == [];
    assert GetOrDefault(t.fields, "transcript_date", Str("")) == Str("");
    assert GetOrDefault(t.fields, "raw_text", Str("")) == Str("No transcripts found");
    assert TranscriptEntry(t, 1) == ["Transcript " + NatToString(1)] + [] + ["No transcripts found"] + [""];
    var entries := TranscriptEntries([t]);
    assert entries == TranscriptEntries([]) + TranscriptEntry(t, 1);
    assert entries == ["Transcript " + NatToString(1), "No transcripts found", ""];
    var parts := [BeginMarker(1)] + entries + [EndMarker(1)];
    assert parts[2] == "No transcripts found";
    JoinHasPart(parts, "\n", 2);
  }

  /** Intended: "not found" exactly when the fetch found no transcript list. */
  function DailyTranscriptSection(resp: Response): string {
    var list := TranscriptList(resp);
    if list.None? then NoDailyTranscript else TranscriptDataHeader + "\n" + TranscriptsBlock(list.value) + "\n"
  }

  lemma DailyTranscriptIntended(resp: Response)
    ensures DailyTranscriptSection(resp) == NoDailyTranscript <==> TranscriptList(resp).None?
    ensures TranscriptList(resp).Some? ==>
      DailyTranscriptSection(resp) == TranscriptDataHeader + "\n" + TranscriptsText(resp) + "\n"
  {
    var list := TranscriptList(resp);
    if list.Some? {
      TranscriptsMarkers(list.value);
      var r := DailyTranscriptSection(resp);
      assert r[|TranscriptDataHeader| + 1] == 'B';
      assert NoDailyTranscript[|TranscriptDataHeader| + 1] == 'N';
    }
  }

  // ---------------------------------------------------------------------------
  // get_sprint_predictability_for_analysis

  const PredictabilityHeader: string := "=== Previous Sprints metrics" + " and predictability ==="
  const NoPredictabilityHttp: string := PredictabilityHeader + "\n" + "No sprint predictability data found (HTTP error)\n"
  const NoPredictability: string := PredictabilityHeader + "\n" + "No sprint predictability data found\n"
  const NoPredictabilityTable: string := "No sprint predictability data available"

  /** The predictability records of a 200 dict answer, or None when missing, empty or not a list. */
  function PredictabilityList(resp: Response): Option<seq<Value>>
    requires OkDict(resp)
  {
    var dataObj := GetOrDefault(resp.body.fields, "data", Obj([]));
    var list := if dataObj.Obj? then GetOrDefault(dataObj.fields, "sprint_predictability", Arr([])) else Arr([]);
    if !Truthy(list) || !list.Arr? then None else Some(list.items)
  }

  /** A table section: header, a second line, the table (or, when it is "", the stand-in
      sentence) and the empty last line. */
  function TableSection(header: string, second: string, table: string, empty: string): string {
    Join([header, second, if table != "" then table else empty, ""], "\n")
  }

  /** The section, or the table's exception, which is not caught here. */
  function PredictabilitySection(resp: Response): Result<string> {
    if !OkDict(resp) then Ok(NoPredictabilityHttp)
    else
      var list := PredictabilityList(resp);
      if list.None? then Ok(NoPredictability)
      else
        var table := TableOf(list.value, 25);
        if table.Raised? then Raised(table.reason) else Ok(TableSection(PredictabilityHeader, "", table.value, NoPredictabilityTable))
  }

  method GetSprintPredictabilityForAnalysis(c: ApiClient, team: Value, months: int) returns (r: Result<string>)
    modifies c
    ensures c.sent == old(c.sent) + [GetSprintPredictability(team, months)]
    ensures r == PredictabilitySection(c.respond(GetSprintPredictability(team, months)))
  {
    var resp := c.Call(GetSprintPredictability(team, months));
    if !OkDict(resp) {
      return Ok(NoPredictabilityHttp);
    }
    var list := PredictabilityList(resp);
    if list.None? {
      return Ok(NoPredictability);
    }
    var table := FormatTable(list.value, 25);
    if table.Raised? {
      return Raised(table.reason);
    }
    var text := BuildTableSection(PredictabilityHeader, "", table.value, NoPredictabilityTable);
    r := Ok(text);
  }

  method BuildTableSection(header: string, second: string, table: string, empty: string) returns (r: string)
    ensures r == TableSection(header, second, table, empty)
  {
    var parts := [header, second];
    if table != "" {
      parts := parts + [table];
    } else {
      parts := parts + [empty];
    }
    parts := parts + [""];
    assert parts == [header, second, if table != "" then table else empty, ""];
    r := Join(parts, "\n");
  }

  /** Every outcome starts with the header line; only a raising table escapes, and only for a
      predictability list that was actually returned. */
  lemma PredictabilityShape(resp: Response)
    ensures PredictabilitySection(resp).Ok? ==> StartsWith(PredictabilitySection(resp).value, PredictabilityHeader + "\n")
    ensures PredictabilitySection(resp).Raised? <==>
      OkDict(resp) && PredictabilityList(resp).Some? && TableOf(PredictabilityList(resp).value, 25).Raised?
  {
    if OkDict(resp) && PredictabilityList(resp).Some? {
      var table := TableOf(PredictabilityList(resp).value, 25);
      if table.Ok? {
        var body := if table.value != "" then table.value else NoPredictabilityTable;
        assert [PredictabilityHeader, "", body, ""] == [PredictabilityHeader, ""] + [body, ""];
        JoinStartsTwo(PredictabilityHeader, "", [body, ""], "\n");
      }
    }
  }

  // ---------------------------------------------------------------------------
  // get_sprint_issues_with_epic_for_analysis

  const IssuesHeader: string := "=== JIRA ISSUES ==="
  const NoIssues: string := "No issues found"

  /** The columns of every formatted issue, in this order. */
  const IssueColumns: seq<string> := ["issue_key", "issue_summary", "issue_description", "issue_type",
                                      "status_category", "flagged", "dependency", "epic_summary"]

  /** `x or ''`. */
  function OrEmpty(v: Value): Value {
    Or(v, Str(""))
  }

  /** A list-valued field as text: its str() when truthy, else "[]". */
  function ListField(v: Value): Value {
    Str(if Truthy(v) then Show(v) else "[]")
  }

  /** The description kept as it is when a string, str() of it otherwise, '' when falsy. */
  function DescriptionField(v: Value): Value {
    if !Truthy(v) then Str("") else if v.Str? then v else Str(Show(v))
  }

  /** The eight columns built for one issue. */
  function FormattedIssue(issue: Record): Record {
    [("issue_key", OrEmpty(GetOrDefault(issue, "issue_key", Str("")))),
     ("issue_summary", Str(Show(OrEmpty(GetOrDefault(issue, "issue_summary", Str("")))))),
     ("issue_description", DescriptionField(GetOrNull(issue, "issue_description"))),
     ("issue_type", OrEmpty(GetOrDefault(issue, "issue_type", Str("")))),
     ("status_category", OrEmpty(GetOrDefault(issue, "status_category", Str("")))),
     ("flagged", ListField(GetOrDefault(issue, "flagged", Arr([])))),
     ("dependency", ListField(GetOrDefault(issue, "dependency", Arr([])))),
     ("epic_summary", OrEmpty(GetOrDefault(issue, "epic_summary", Str(""))))]
  }

  function FormatIssue(v: Value): Value {
    Obj(FormattedIssue(FieldsOf(v)))
  }

  /** The issues of a successful answer; none unless the answer is a 200 dict with a truthy
      success flag and a truthy issue list. A "data" that is not a dict, an issue list that is
      not a list or an issue that is not a dict raises. */
  function IssuesList(resp: Response): Result<seq<Value>> {
    if !OkDict(resp) || !Truthy(GetOrNull(resp.body.fields, "success")) then Ok([])
    else
      var data := GetOrDefault(resp.body.fields, "data", Obj([]));
      if !data.Obj? then Raised(NotADict)
      else
        var issues := GetOrNull(data.fields, "sprint_issues");
        if !Truthy(issues) then Ok([])
        else if !issues.Arr? || !AllDicts(issues.items) then Raised(NotADict)
        else Ok(issues.items)
  }

  function IssuesSection(resp: Response): Result<string> {
    var issues := IssuesList(resp);
    if issues.Raised? then Raised(issues.reason)
    else
      var table := TableOf(Map(FormatIssue, issues.value), 100);
      if table.Raised? then Raised(table.reason)
      else Ok(TableSection(IssuesHeader, Repeat('-', 20), table.value, NoIssues))
  }

  /** One issue's columns, computed one at a time in the order the dict receives them. */
  method BuildIssue(issue: Record) returns (r: Record)
    ensures r == FormattedIssue(issue)
  {
    var key := OrEmpty(GetOrDefault(issue, "issue_key", Str("")));
    var summary := Str(Show(OrEmpty(GetOrDefault(issue, "issue_summary", Str("")))));
    var description := Or(GetOrNull(issue, "issue_description"), Null);
    var descriptionField;
    if Truthy(description) {
      if description.Str? {
        descriptionField := description;
      } else {
        descriptionField := Str(Show(description));
      }
    } else {
      descriptionField := Str("");
    }
    var issueType := OrEmpty(GetOrDefault(issue, "issue_type", Str("")));
    var category := OrEmpty(GetOrDefault(issue, "status_category", Str("")));
    var flagged := GetOrDefault(issue, "flagged", Arr([]));
    var flaggedField := Str(if Truthy(flagged) then Show(flagged) else "[]");
    var dependency := GetOrDefault(issue, "dependency", Arr([]));
    var dependencyField := Str(if Truthy(dependency) then Show(dependency) else "[]");
    var epic := OrEmpty(GetOrDefault(issue, "epic_summary", Str("")));
    r := [("issue_key", key), ("issue_summary", summary), ("issue_description", descriptionField),
          ("issue_type", issueType), ("status_category", category), ("flagged", flaggedField),
          ("dependency", dependencyField), ("epic_summary", epic)];
    assert descriptionField == DescriptionField(GetOrNull(issue, "issue_description"));
  }

  method FormatIssues(issues: seq<Value>) returns (formatted: seq<Value>)
    ensures formatted == Map(FormatIssue, issues)
  {
    formatted := [];
    var i := 0;
    while i < |issues|
      invariant 0 <= i <= |issues|
      invariant formatted == Map(FormatIssue, issues[..i])
    {
      MapNext(FormatIssue, issues, i);
      var rec := BuildIssue(FieldsOf(issues[i]));
      formatted := formatted + [Obj(rec)];
      i := i + 1;
    }
    assert issues[..i] == issues;
  }

  method GetSprintIssuesWithEpicForAnalysis(c: ApiClient, sprintId: Value, team: Value) returns (r: Result<string>)
    modifies c
    ensures c.sent == old(c.sent) + [GetSprintIssuesWithEpic(sprintId, team)]
    ensures r == IssuesSection(c.respond(GetSprintIssuesWithEpic(sprintId, team)))
  {
    var resp := c.Call(GetSprintIssuesWithEpic(sprintId, team));
    var issues := IssuesList(resp);
    if issues.Raised? {
      return Raised(issues.reason);
    }
    var formatted := FormatIssues(issues.value);
    var table := FormatTable(formatted, 100);
    if table.Raised? {
      return Raised(table.reason);
    }
    var text := BuildTableSection(IssuesHeader, Repeat('-', 20), table.value, NoIssues);
    r := Ok(text);
  }

  /** The columns of a formatted issue are distinct, so each lookup finds its own pair. */
  lemma IssueKeys(r: Record)
    requires |r| == 8
    requires r[0].0 == "issue_key" && r[1].0 == "issue_summary" && r[2].0 == "issue_description"
    requires r[3].0 == "issue_type" && r[4].0 == "status_category" && r[5].0 == "flagged"
    requires r[6].0 == "dependency" && r[7].0 == "epic_summary"
    ensures forall j :: 0 <= j < 2 ==> r[j].0 != "issue_description"
    ensures forall j :: 0 <= j < 5 ==> r[j].0 != "flagged"
    ensures forall j :: 0 <= j < 6 ==> r[j].0 != "dependency"
  {
  }

  /** Every issue gets the same eight columns in the same order. */
  lemma IssueColumnsFixed(issue: Record)
    ensures Keys(FormattedIssue(issue)) == IssueColumns
  {
    var ks := Keys(FormattedIssue(issue));
    assert forall k :: 0 <= k < 8 ==> ks[k] == IssueColumns[k];
  }

  /** An empty or missing flagged or dependency list becomes "[]", and a falsy description
      becomes ''. */
  lemma IssueDefaults(issue: Record)
    ensures !Truthy(GetOrDefault(issue, "flagged", Arr([]))) ==> GetOrNull(FormattedIssue(issue), "flagged") == Str("[]")
    ensures !Truthy(GetOrDefault(issue, "dependency", Arr([]))) ==> GetOrNull(FormattedIssue(issue), "dependency") == Str("[]")
    ensures !Truthy(GetOrNull(issue, "issue_description")) ==> GetOrNull(FormattedIssue(issue), "issue_description") == Str("")
  {
    var r := FormattedIssue(issue);
    IssueFields(r[0].1, r[1].1, r[2].1, r[3].1, r[4].1, r[5].1, r[6].1, r[7].1);
  }

  /** The lookups of an issue's list and description columns find the values it was built with. */
  lemma IssueFields(key: Value, summary: Value, description: Value, issueType: Value, category: Value,
                    flagged: Value, dependency: Value, epic: Value)
    ensures var r := [("issue_key", key), ("issue_summary", summary), ("issue_description", description),
                      ("issue_type", issueType), ("status_category", category), ("flagged", flagged),
                      ("dependency", dependency), ("epic_summary", epic)];
      GetOrNull(r, "flagged") == flagged && GetOrNull(r, "dependency") == dependency
      && GetOrNull(r, "issue_description") == description
  {
    var r := [("issue_key", key), ("issue_summary", summary), ("issue_description", description),
              ("issue_type", issueType), ("status_category", category), ("flagged", flagged),
              ("dependency", dependency), ("epic_summary", epic)];
    IssueKeys(r);
    GetFirst(r, "flagged", 5);
    GetFirst(r, "dependency", 6);
    GetFirst(r, "issue_description", 2);
  }

  /** Rendering the formatted issues never raises: only a malformed answer does. */
  lemma IssuesRaiseOnlyOnBadAnswer(resp: Response)
    ensures IssuesSection(resp).Raised? <==> IssuesList(resp).Raised?
    ensures IssuesList(resp) == Ok([]) ==>
      IssuesSection(resp) == Ok(TableSection(IssuesHeader, Repeat('-', 20), "", NoIssues))
  {
    var issues := IssuesList(resp);
    if issues.Ok? {
      var formatted := Map(FormatIssue, issues.value);
      MapElements(FormatIssue, issues.value);
      assert AllDicts(formatted);
    }
  }

  // ---------------------------------------------------------------------------
  // get_active_sprint_summary_by_team_for_analysis

  const SprintStatusHeader: string := "=== ACTIVE SPRINT STATUS ==="
  const NoSummariesHttp: string := SprintStatusHeader + "\n" + "No active sprint summaries found (HTTP error)\n"
  const NoSummaries: string := SprintStatusHeader + "\n" + "No active sprint summaries found\n"
  const NoValidSprint: string := SprintStatusHeader + "\n" + "No valid sprint" + " found (no issues_at_start data)\n"

  /** `(formatted_string, sprint_id, sprint_goal)`. */
  datatype SprintSummary = SprintSummary(text: string, sprintId: Value, sprintGoal: Value)

  /** A summary's issues_at_start as the comparison sees it: numbers as they are, booleans as
      0/1, strings through int() with 0 when that fails, anything else 0. */
  function IssuesAtStart(summary: Record): int {
    var v := GetOrDefault(summary, "issues_at_start", Num(0));
    if v.Num? then v.n
    else if v.Bool? then (if v.b then 1 else 0)
    else if v.Str? then ParseInt(v.s).GetOr(0)
    else 0
  }

  function Max(a: int, b: int): int {
    if a < b then b else a
  }

  /** The largest issues_at_start, or -1 for no summaries. */
  function MaxIssues(s: seq<Record>): (m: int)
    ensures m >= -1
    ensures forall i :: 0 <= i < |s| ==> IssuesAtStart(s[i]) <= m
  {
    if s == [] then -1 else Max(MaxIssues(s[..|s| - 1]), IssuesAtStart(s[|s| - 1]))
  }

  lemma {:induction false} MaxIssuesAttained(s: seq<Record>)
    ensures MaxIssues(s) == -1 || exists i :: 0 <= i < |s| && IssuesAtStart(s[i]) == MaxIssues(s)
  {
    if s != [] {
      var init := s[..|s| - 1];
      MaxIssuesAttained(init);
      if MaxIssues(s) != IssuesAtStart(s[|s| - 1]) && MaxIssues(init) != -1 {
        var i :| 0 <= i < |init| && IssuesAtStart(init[i]) == MaxIssues(init);
        assert s[i] == init[i];
      }
    }
  }

  /** The position of the first summary whose issues_at_start is m, or |s| when there is none. */
  function FirstWith(s: seq<Record>, m: int): (k: nat)
    ensures k <= |s|
    ensures k < |s| ==> IssuesAtStart(s[k]) == m
    ensures forall j :: 0 <= j < k ==> IssuesAtStart(s[j]) != m
  {
    if s == [] then 0 else if IssuesAtStart(s[0]) == m then 0 else 1 + FirstWith(s[1..], m)
  }

  /** The position the selection loop ends on: the first summary with the largest
      issues_at_start, provided that is above -1. */
  function SelectedSprint(s: seq<Record>): (r: Option<nat>)
    ensures r.Some? ==> r.value < |s|
  {
    var m := MaxIssues(s);
    assert m > -1 ==> FirstWith(s, m) < |s| by {
      MaxIssuesAttained(s);
    }
    if m > -1 then Some(FirstWith(s, m)) else None
  }

  /** A sprint is selected exactly when some summary counts above -1; the selected one has the
      largest count, and every summary before it a strictly smaller one. */
  lemma SelectedIsFirstMax(s: seq<Record>)
    ensures SelectedSprint(s).Some? <==> exists i :: 0 <= i < |s| && IssuesAtStart(s[i]) > -1
    ensures SelectedSprint(s).Some? ==>
      var k := SelectedSprint(s).value;
      && (forall j :: 0 <= j < |s| ==> IssuesAtStart(s[j]) <= IssuesAtStart(s[k]))
      && (forall j :: 0 <= j < k ==> IssuesAtStart(s[j]) < IssuesAtStart(s[k]))
  {
    MaxIssuesAttained(s);
  }

  /** The max-tracking loop: strict `>` against a best value that starts at -1. */
  method SelectSprint(s: seq<Record>) returns (sel: Option<nat>)
    ensures sel == SelectedSprint(s)
  {
    var best := -1;
    sel := None;
    var i := 0;
    while i < |s|
      invariant 0 <= i <= |s|
      invariant best == MaxIssues(s[..i])
      invariant sel == SelectedSprint(s[..i])
    {
      SelectStep(s, i);
      var issues := IssuesAtStart(s[i]);
      if issues > best {
        best := issues;
        sel := Some(i);
      }
      i := i + 1;
    }
    assert s[..i] == s;
  }

  /** One round of the loop: a strictly larger count moves the selection to i. */
  lemma SelectStep(s: seq<Record>, i: nat)
    requires i < |s|
    ensures var best := MaxIssues(s[..i]);
      var v := IssuesAtStart(s[i]);
      && MaxIssues(s[..i + 1]) == Max(best, v)
      && SelectedSprint(s[..i + 1]) == if v > best then Some(i) else SelectedSprint(s[..i])
  {
    var pre := s[..i];
    var next := s[..i + 1];
    assert next[..i] == pre;
    var best := MaxIssues(pre);
    var v := IssuesAtStart(s[i]);
    assert next[i] == s[i];
    if v > best {
      var k := FirstWith(next, v);
      assert forall j :: 0 <= j < i ==> next[j] == pre[j];
      assert k == i;
    } else if best > -1 {
      MaxIssuesAttained(pre);
      var k0 := FirstWith(pre, best);
      var k1 := FirstWith(next, best);
      assert forall j :: 0 <= j < i ==> next[j] == pre[j];
      assert k0 < i;
      assert k1 == k0;
    }
  }

  /** A field shown in the status block: its name lacks "point" and it is not the goal. */
  predicate ShownField(p: (string, Value)) {
    !MentionsPoints(p.0) && p.0 != "sprint_goal"
  }

  function FieldLine(p: (string, Value)): string {
    p.0 + ": " + (if p.1.Null? then "" else Show(p.1))
  }

  function ShownLines(fields: Record): seq<string> {
    Map(FieldLine, Where(ShownField, true, fields))
  }

  /** The lines of the status block for the selected summary. */
  function SprintStatusLines(summary: Record, now: string): seq<string> {
    var goal := GetOrDefault(summary, "sprint_goal", Str(""));
    [SprintStatusHeader, Repeat('-', 30)]
      + (if Truthy(goal) then ["**Sprint Goal:**", Show(goal), ""] else [])
      + ShownLines(summary)
      + ["", "Current Date: " + now, ""]
  }

  /** The summaries of a 200 dict answer, or the exception or the "none found" text. */
  function ActiveSprintSummary(resp: Response, now: string): Result<SprintSummary> {
    if resp.status != 200 then Ok(SprintSummary(NoSummariesHttp, Null, Null))
    else if !resp.body.Obj? then Ok(SprintSummary(NoSummaries, Null, Null))
    else
      var data := GetOrDefault(resp.body.fields, "data", Obj([]));
      if !data.Obj? then Raised(NotADict)
      else
        var summaries := GetOrDefault(data.fields, "summaries", Arr([]));
        if !Truthy(summaries) then Ok(SprintSummary(NoSummaries, Null, Null))
        else if !summaries.Arr? || !AllDicts(summaries.items) then Raised(NotADict)
        else SummaryOf(Map(FieldsOf, summaries.items), now)
  }

  /** The outcome for a list of summaries: the selected one's block, id and goal. */
  function SummaryOf(records: seq<Record>, now: string): Result<SprintSummary> {
    var sel := SelectedSprint(records);
    if sel.None? || records[sel.value] == [] then Ok(SprintSummary(NoValidSprint, Null, Null))
    else
      var chosen := records[sel.value];
      Ok(SprintSummary(Join(SprintStatusLines(chosen, now), "\n"), GetOrNull(chosen, "sprint_id"),
                       GetOrDefault(chosen, "sprint_goal", Str(""))))
  }

  lemma ShownLinesNext(fields: Record, i: nat)
    requires i < |fields|
    ensures ShownLines(fields[..i + 1])
      == ShownLines(fields[..i]) + (if ShownField(fields[i]) then [FieldLine(fields[i])] else [])
  {
    WhereNext(ShownField, true, fields, i);
    MapAppend(FieldLine, Where(ShownField, true, fields[..i]), if ShownField(fields[i]) then [fields[i]] else []);
    assert Map(FieldLine, [fields[i]]) == [FieldLine(fields[i])];
  }

  /** The key/value loop over the selected summary. */
  method ShownFieldLines(fields: Record) returns (lines: seq<string>)
    ensures lines == ShownLines(fields)
  {
    lines := [];
    var i := 0;
    while i < |fields|
      invariant 0 <= i <= |fields|
      invariant lines == ShownLines(fields[..i])
    {
      ShownLinesNext(fields, i);
      if ShownField(fields[i]) {
        lines := lines + [FieldLine(fields[i])];
      }
      i := i + 1;
    }
    assert fields[..i] == fields;
  }

  method FormatSprintStatus(summary: Record, now: string) returns (text: string)
    ensures text == Join(SprintStatusLines(summary, now), "\n")
  {
    var parts := [SprintStatusHeader, Repeat('-', 30)];
    var goal := GetOrDefault(summary, "sprint_goal", Str(""));
    if Truthy(goal) {
      parts := parts + ["**Sprint Goal:**", Show(goal), ""];
    }
    var lines := ShownFieldLines(summary);
    parts := parts + lines;
    parts := parts + ["", "Current Date: " + now, ""];
    assert parts == SprintStatusLines(summary, now);
    text := Join(parts, "\n");
  }

  method SummarizeSprints(records: seq<Record>, now: string) returns (r: Result<SprintSummary>)
    ensures r == SummaryOf(records, now)
  {
    var sel := SelectSprint(records);
    if sel.None? || records[sel.value] == [] {
      return Ok(SprintSummary(NoValidSprint, Null, Null));
    }
    var chosen := records[sel.value];
    var text := FormatSprintStatus(chosen, now);
    r := Ok(SprintSummary(text, GetOrNull(chosen, "sprint_id"), GetOrDefault(chosen, "sprint_goal", Str(""))));
  }

  /** `now` is the current UTC time as the block prints it. */
  method GetActiveSprintSummaryByTeamForAnalysis(c: ApiClient, team: Value, now: string)
    returns (r: Result<SprintSummary>)
    modifies c
    ensures c.sent == old(c.sent) + [GetActiveSprintSummaryByTeam(team)]
    ensures r == ActiveSprintSummary(c.respond(GetActiveSprintSummaryByTeam(team)), now)
  {
    var resp := c.Call(GetActiveSprintSummaryByTeam(team));
    if resp.status != 200 {
      return Ok(SprintSummary(NoSummariesHttp, Null, Null));
    }
    if !resp.body.Obj? {
      return Ok(SprintSummary(NoSummaries, Null, Null));
    }
    var data := GetOrDefault(resp.body.fields, "data", Obj([]));
    if !data.Obj? {
      return Raised(NotADict);
    }
    var summaries := GetOrDefault(data.fields, "summaries", Arr([]));
    if !Truthy(summaries) {
      return Ok(SprintSummary(NoSummaries, Null, Null));
    }
    if !summaries.Arr? || !AllDicts(summaries.items) {
      return Raised(NotADict);
    }
    r := SummarizeSprints(Map(FieldsOf, summaries.items), now);
  }

  /** The status block opens with its header line, so it is never the "no valid sprint" text. */
  lemma StatusBlockHeader(summary: Record, now: string)
    ensures StartsWith(Join(SprintStatusLines(summary, now), "\n"), SprintStatusHeader + "\n")
    ensures Join(SprintStatusLines(summary, now), "\n") != NoValidSprint
  {
    var lines := SprintStatusLines(summary, now);
    var dashes := Repeat('-', 30);
    assert lines == [SprintStatusHeader, dashes] + lines[2..];
    JoinStartsTwo(SprintStatusHeader, dashes, lines[2..], "\n");
    var text := Join(lines, "\n");
    assert text[|SprintStatusHeader| + 1] == '-';
    assert NoValidSprint[|SprintStatusHeader| + 1] == 'N';
  }

  /** The block shows exactly the fields whose name lacks "point" and is not sprint_goal, in order. */
  lemma StatusBlockFields(summary: Record)
    ensures forall p :: p in Where(ShownField, true, summary) <==>
      p in summary && !MentionsPoints(p.0) && p.0 != "sprint_goal"
  {
    WhereMembers(ShownField, true, summary);
  }

  /** Without a selected sprint no id or goal is returned; with one, they are the selected
      summary's and the block is its status text. */
  lemma SummaryOutcome(records: seq<Record>, now: string)
    ensures var r := SummaryOf(records, now).value;
      (r.text == NoValidSprint <==> r.sprintId == Null && r.sprintGoal == Null && r.text == NoValidSprint)
      && (SelectedSprint(records).None? ==> r.text == NoValidSprint)
      && (SelectedSprint(records).Some? && records[SelectedSprint(records).value] != [] ==>
            var chosen := records[SelectedSprint(records).value];
            r.sprintId == GetOrNull(chosen, "sprint_id")
            && r.sprintGoal == GetOrDefault(chosen, "sprint_goal", Str(""))
            && r.text == Join(SprintStatusLines(chosen, now), "\n")
            && r.text != NoValidSprint)
  {
    var sel := SelectedSprint(records);
    if sel.Some? && records[sel.value] != [] {
      StatusBlockHeader(records[sel.value], now);
    }
  }
}
