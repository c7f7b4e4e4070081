/**
  Saving the LLM's results: the client-side card upsert (find today's card, patch it, or
  create one), the recommendation loops with their cap, and the shared
  process_llm_response_and_save_ai_card helper.

  A JSON text the worker stores (json.dumps of a value) is represented by the value itself.
*/
module Saving {
  import opened Wrappers
  import opened Text
  import opened Json
  import opened Seqs
  import opened Backend
  import opened Formatting
  import opened Extraction

  // ---------------------------------------------------------------------------
  // The card upsert

  /** `str(card.get("date", ""))[:10]`. */
  function CardDate(card: Record): string {
    Take(Show(GetOrDefault(card, "date", Str(""))), 10)
  }

  /** The match key: today's date, the same team and card name, and for PI cards the same PI. */
  predicate CardMatches(card: Record, payload: Record, today: string, kind: CardKind) {
    CardDate(card) == today
    && GetOrNull(card, "team_name") == GetOrNull(payload, "team_name")
    && (kind == PiCards ==> GetOrNull(card, "pi") == GetOrNull(payload, "pi"))
    && GetOrNull(card, "card_name") == GetOrNull(payload, "card_name")
  }

  /** A listed card the loop patches: a dict that matches and whose id goes through int().
      Anything else raises inside the loop's try, or does not match, and is passed over. */
  predicate Target(c: Value, payload: Record, today: string, kind: CardKind) {
    c.Obj? && CardMatches(c.fields, payload, today, kind) && IntOf(GetOrNull(c.fields, "id")).Some?
  }

  /** The position of the first target, or |items| when there is none. */
  function FirstTarget(items: seq<Value>, payload: Record, today: string, kind: CardKind): (k: nat)
    ensures k <= |items|
    ensures k < |items| ==> Target(items[k], payload, today, kind)
    ensures forall j :: 0 <= j < k ==> !Target(items[j], payload, today, kind)
  {
    if items == [] then 0
    else if Target(items[0], payload, today, kind) then 0
    else 1 + FirstTarget(items[1..], payload, today, kind)
  }

  /** The cards of a listing: `cards.get("data") or cards` of a 200 dict answer, when a list. */
  function ListedCards(resp: Response): seq<Value> {
    if OkDict(resp) && DataOrBody(resp).Arr? then DataOrBody(resp).items else []
  }

  /** What the upsert did: the id of the card it patched, whether the patch went through, and
      the answer to the create it sent when it did not. */
  datatype Upsert = Upsert(matched: Option<int>, patched: bool, created: Option<Response>)

  /** The id the patch goes to: that of the first target in the listing. */
  function MatchedId(items: seq<Value>, payload: Record, today: string, kind: CardKind): Option<int> {
    var k := FirstTarget(items, payload, today, kind);
    if k < |items| then IntOf(GetOrNull(items[k].fields, "id")) else None
  }

  /** The writes once the listing is searched: a patch of the matched card, if any, and a
      create unless the patch went through. */
  function WriteCardCall(respond: Request -> Response, kind: CardKind, payload: Record, matched: Option<int>): Step<Upsert> {
    var patchReqs := if matched.Some? then [PatchCard(kind, matched.value, payload)] else [];
    var patched := matched.Some? && respond(PatchCard(kind, matched.value, payload)).status < 300;
    var createReq := CreateCard(kind, payload);
    Step(patchReqs + (if patched then [] else [createReq]),
         Upsert(matched, patched, if patched then None else Some(respond(createReq))))
  }

  function UpsertCall(respond: Request -> Response, kind: CardKind, payload: Record, today: string): Step<Upsert> {
    var listReq := ListCards(kind);
    var w := WriteCardCall(respond, kind, payload, MatchedId(ListedCards(respond(listReq)), payload, today, kind));
    Step([listReq] + w.reqs, w.out)
  }

  /** The loop over the listed cards: the first target is patched and the loop stops. */
  method FindTarget(items: seq<Value>, payload: Record, today: string, kind: CardKind) returns (matched: Option<int>)
    ensures matched == MatchedId(items, payload, today, kind)
  {
    var i := 0;
    while i < |items|
      invariant 0 <= i <= |items|
      invariant FirstTarget(items, payload, today, kind) >= i
    {
      var c := items[i];
      if c.Obj? && CardMatches(c.fields, payload, today, kind) {
        var id := IntOf(GetOrNull(c.fields, "id"));
        if id.Some? {
          TargetIsFirst(items, payload, today, kind, i);
          return id;
        }
      }
      NotTargetSkipped(items, payload, today, kind, i);
      i := i + 1;
    }
    TargetIsFirst(items, payload, today, kind, i);
    return None;
  }

  /** With no target before `i`, a target at `i` (or the end of the listing) is the first. */
  lemma TargetIsFirst(items: seq<Value>, payload: Record, today: string, kind: CardKind, i: nat)
    requires i <= |items|
    requires i < |items| ==> Target(items[i], payload, today, kind)
    requires FirstTarget(items, payload, today, kind) >= i
    ensures FirstTarget(items, payload, today, kind) == i
  {
  }

  /** A card that is not a target does not stop the search. */
  lemma NotTargetSkipped(items: seq<Value>, payload: Record, today: string, kind: CardKind, i: nat)
    requires i < |items| && FirstTarget(items, payload, today, kind) >= i
    requires !Target(items[i], payload, today, kind)
    ensures FirstTarget(items, payload, today, kind) >= i + 1
  {
  }

  method WriteCard(c: ApiClient, kind: CardKind, payload: Record, matched: Option<int>) returns (u: Upsert)
    modifies c
    ensures c.sent == old(c.sent) + WriteCardCall(c.respond, kind, payload, matched).reqs
    ensures u == WriteCardCall(c.respond, kind, payload, matched).out
  {
    var done := false;
    if matched.Some? {
      var presp := c.Call(PatchCard(kind, matched.value, payload));
      done := presp.status < 300;
    }
    if !done {
      var cresp := c.Call(CreateCard(kind, payload));
      return Upsert(matched, false, Some(cresp));
    }
    return Upsert(matched, true, None);
  }

  method UpsertCard(c: ApiClient, kind: CardKind, payload: Record, today: string) returns (u: Upsert)
    modifies c
    ensures c.sent == old(c.sent) + UpsertCall(c.respond, kind, payload, today).reqs
    ensures u == UpsertCall(c.respond, kind, payload, today).out
  {
    ghost var s0 := c.sent;
    var cards := c.Call(ListCards(kind));
    var items := ListedCards(cards);
    var matched := FindTarget(items, payload, today, kind);
    u := WriteCard(c, kind, payload, matched);
    ConcatAssoc(s0, [ListCards(kind)], WriteCardCall(c.respond, kind, payload, matched).reqs);
  }

  /** A card is matched exactly when the listing holds a target; the id is that of the first
      target, a card that matches today's key. */
  lemma MatchedIsFirstTarget(items: seq<Value>, payload: Record, today: string, kind: CardKind)
    ensures MatchedId(items, payload, today, kind).Some? <==>
      exists j :: 0 <= j < |items| && Target(items[j], payload, today, kind)
    ensures MatchedId(items, payload, today, kind).Some? ==>
      var k := FirstTarget(items, payload, today, kind);
      k < |items| && items[k].Obj? && CardMatches(items[k].fields, payload, today, kind)
      && MatchedId(items, payload, today, kind) == IntOf(GetOrNull(items[k].fields, "id"))
  {
    var k := FirstTarget(items, payload, today, kind);
    if exists j :: 0 <= j < |items| && Target(items[j], payload, today, kind) {
      var j :| 0 <= j < |items| && Target(items[j], payload, today, kind);
      assert k <= j;
    }
  }

  /** The upsert lists the cards once, then writes once more: a patch of the matched card
      when there is one, and a create exactly when no patch went through (a failed patch is
      followed by a create). It creates no recommendation. */
  lemma UpsertWritesOnce(respond: Request -> Response, kind: CardKind, payload: Record, today: string)
    ensures var s := UpsertCall(respond, kind, payload, today);
      && s.out.matched == MatchedId(ListedCards(respond(ListCards(kind))), payload, today, kind)
      && s.reqs[0] == ListCards(kind)
      && (s.out.matched.Some? ==> s.reqs[1] == PatchCard(kind, s.out.matched.value, payload))
      && (s.out.patched <==> s.out.matched.Some? && respond(PatchCard(kind, s.out.matched.value, payload)).status < 300)
      && (s.out.created.Some? <==> !s.out.patched)
      && (s.out.created.Some? ==> (s.reqs[|s.reqs| - 1] == CreateCard(kind, payload)
            && s.out.created.value == respond(CreateCard(kind, payload))))
      && |s.reqs| == 1 + (if s.out.matched.Some? then 1 else 0) + (if s.out.patched then 0 else 1)
      && NoRecommendations(s.reqs)
  {
  }

  // ---------------------------------------------------------------------------
  // Card payloads

  /** The nine fields every card payload has, in the order the worker writes them. */
  function CardFields(team: Value, name: Value, cardType: Value, description: string, today: string,
                      priority: Value, source: Value, jobId: Value, fullInfo: string): Record {
    [("team_name", team), ("card_name", name), ("card_type", cardType),
     ("description", Str(Take(description, 2000))), ("date", Str(today)), ("priority", priority),
     ("source", source), ("source_job_id", jobId), ("full_information", Str(fullInfo))]
  }

  /** The card description: the extracted review section when non-empty, else the answer's
      first 2000 characters. */
  function Description(extracted: Option<string>, answer: string): (d: string)
    ensures extracted.Some? && extracted.value != "" ==> d == extracted.value
    ensures !(extracted.Some? && extracted.value != "") ==> |d| <= 2000 && StartsWith(answer, d)
  {
    if extracted.Some? && extracted.value != "" then extracted.value else Take(answer, 2000)
  }

  method ChooseDescription(extracted: Option<string>, answer: string) returns (d: string)
    ensures d == Description(extracted, answer)
  {
    if extracted.Some? && extracted.value != "" {
      return extracted.value;
    }
    return Take(answer, 2000);
  }

  /** The card payload of the shared helper: config lookups with their defaults, "pi" only when
      the config has it, and the raw JSON only when non-empty. */
  function SharedCardPayload(team: Value, config: Record, description: string, today: string, jobId: Value,
                             fullInfo: string, raw: string): Record {
    CardFields(team, GetOrNull(config, "card_name"), GetOrNull(config, "card_type"), description, today,
               GetOrDefault(config, "priority", Str("Critical")), GetOrDefault(config, "source", Str("PI")),
               jobId, fullInfo)
      + (if HasKey(config, "pi") then [("pi", GetOrNull(config, "pi"))] else [])
      + (if raw != "" then [("information_json", Str(raw))] else [])
  }

  /** The leading keys of a card payload are distinct, so each lookup finds its own pair. */
  lemma CardKeys(p: Record)
    requires |p| >= 7
    requires p[0].0 == "team_name" && p[1].0 == "card_name" && p[2].0 == "card_type" && p[3].0 == "description"
    requires p[4].0 == "date" && p[5].0 == "priority" && p[6].0 == "source"
    ensures forall j :: 0 <= j < 1 ==> p[j].0 != "card_name"
    ensures forall j :: 0 <= j < 2 ==> p[j].0 != "card_type"
    ensures forall j :: 0 <= j < 3 ==> p[j].0 != "description"
    ensures forall j :: 0 <= j < 5 ==> p[j].0 != "priority"
    ensures forall j :: 0 <= j < 6 ==> p[j].0 != "source"
  {
  }

  /** The fields of a card payload: the description is at most 2000 characters, and the lookups
      of the match key find the values the payload was built with. */
  lemma CardFieldsKeys(team: Value, name: Value, cardType: Value, description: string, today: string,
                       priority: Value, source: Value, jobId: Value, fullInfo: string, extra: Record)
    ensures var p := CardFields(team, name, cardType, description, today, priority, source, jobId, fullInfo) + extra;
      GetOrNull(p, "team_name") == team && GetOrNull(p, "card_name") == name
      && GetOrNull(p, "card_type") == cardType && GetOrNull(p, "priority") == priority
      && GetOrNull(p, "source") == source
      && GetOrNull(p, "description").Str? && |GetOrNull(p, "description").s| <= 2000
  {
    var p := CardFields(team, name, cardType, description, today, priority, source, jobId, fullInfo) + extra;
    CardKeys(p);
    GetFirst(p, "team_name", 0);
    GetFirst(p, "card_name", 1);
    GetFirst(p, "card_type", 2);
    GetFirst(p, "description", 3);
    GetFirst(p, "priority", 5);
    GetFirst(p, "source", 6);
  }

  // ---------------------------------------------------------------------------
  // The recommendation loops

  /** Which of the worker's recommendation loops: the shared JSON saver, the JSON loops written
      out in the Daily and Sprint Goal jobs, and the text fallbacks of the team jobs and the
      PI job. For the fallbacks each item is the text of one recommendation. */
  datatype RecMode =
    | SharedJson(owner: Value, today: string, fullInfo: string, jobId: Value, summaryId: Value)
    | InlineJson(team: Value, today: string, fullInfo: string)
    | TeamText(team: Value, today: string, fullInfo: string)
    | PiText(pi: string, today: string, fullInfo: string, jobId: Value)

  /** A JSON recommendation is saved only when it is a dict with a header and a text. */
  predicate ValidRecommendation(v: Value) {
    v.Obj? && HasKey(v.fields, "header") && HasKey(v.fields, "text")
  }

  /** The create payload for one item, or None when the item is skipped. */
  function PayloadOf(mode: RecMode, v: Value): Option<Record> {
    match mode
    case SharedJson(owner, today, fullInfo, jobId, summaryId) =>
      if !ValidRecommendation(v) then None
      else Some([("team_name", owner), ("action_text", GetOrNull(v.fields, "text")),
                 ("rational", GetOrNull(v.fields, "header")), ("date", Str(today)),
                 ("priority", GetOrDefault(v.fields, "priority", Str("Important"))), ("status", Str("Proposed")),
                 ("full_information", Str(fullInfo)), ("information_json", v), ("source_job_id", jobId),
                 ("source_ai_summary_id", summaryId)])
    case InlineJson(team, today, fullInfo) =>
      if !ValidRecommendation(v) then None
      else Some([("team_name", team), ("action_text", GetOrNull(v.fields, "text")),
                 ("rational", GetOrNull(v.fields, "header")), ("date", Str(today)), ("priority", Str("High")),
                 ("status", Str("Proposed")), ("full_information", Str(fullInfo)), ("information_json", v)])
    case TeamText(team, today, fullInfo) =>
      Some([("team_name", team), ("action_text", v), ("date", Str(today)), ("priority", Str("High")),
            ("status", Str("Proposed")), ("full_information", Str(fullInfo))])
    case PiText(pi, today, fullInfo, jobId) =>
      Some([("team_name", Str(pi)), ("action_text", v), ("date", Str(today)), ("priority", Str("High")),
            ("status", Str("Proposed")), ("full_information", Str(fullInfo)), ("source_job_id", jobId)])
  }

  /** The JSON loop the team jobs write out themselves sends a dict with a header and a text, under
      the team, with its text, priority "High" and status "Proposed". */
  lemma InlineJsonPayloadFields(team: Value, today: string, fullInfo: string, v: Value)
    ensures var p := PayloadOf(InlineJson(team, today, fullInfo), v);
      && (p.Some? <==> ValidRecommendation(v))
      && (p.Some? ==>
        && GetOrNull(p.value, "team_name") == team && GetOrNull(p.value, "action_text") == GetOrNull(v.fields, "text")
        && GetOrNull(p.value, "priority") == Str("High") && GetOrNull(p.value, "status") == Str("Proposed"))
  {
    if ValidRecommendation(v) {
      var text := GetOrNull(v.fields, "text");
      var r := [("team_name", team), ("action_text", text), ("rational", GetOrNull(v.fields, "header")),
                ("date", Str(today)), ("priority", Str("High")), ("status", Str("Proposed")),
                ("full_information", Str(fullInfo)), ("information_json", v)];
      assert PayloadOf(InlineJson(team, today, fullInfo), v) == Some(r);
      GetFirst(r, "team_name", 0);
      GetFirst(r, "action_text", 1);
      GetFirst(r, "priority", 4);
      GetFirst(r, "status", 5);
    }
  }

  /** The text fallback of the team jobs sends every text, under the team, with priority "High"
      and status "Proposed". */
  lemma TeamTextPayloadFields(team: Value, today: string, fullInfo: string, v: Value)
    ensures var p := PayloadOf(TeamText(team, today, fullInfo), v);
      && p.Some?
      && GetOrNull(p.value, "team_name") == team && GetOrNull(p.value, "action_text") == v
      && GetOrNull(p.value, "priority") == Str("High") && GetOrNull(p.value, "status") == Str("Proposed")
  {
    var p := PayloadOf(TeamText(team, today, fullInfo), v);
    GetFirst(p.value, "team_name", 0);
    GetFirst(p.value, "action_text", 1);
    GetFirst(p.value, "priority", 3);
    GetFirst(p.value, "status", 4);
  }

  /** The text fallback of the PI job sends every text under the PI, with priority "High", status
      "Proposed" and the job link. */
  lemma PiTextPayloadFields(pi: string, today: string, fullInfo: string, jobId: Value, v: Value)
    ensures var p := PayloadOf(PiText(pi, today, fullInfo, jobId), v);
      && p.Some?
      && GetOrNull(p.value, "team_name") == Str(pi) && GetOrNull(p.value, "action_text") == v
      && GetOrNull(p.value, "priority") == Str("High") && GetOrNull(p.value, "status") == Str("Proposed")
      && GetOrNull(p.value, "source_job_id") == jobId
  {
    var p := PayloadOf(PiText(pi, today, fullInfo, jobId), v);
    GetFirst(p.value, "team_name", 0);
    GetFirst(p.value, "action_text", 1);
    GetFirst(p.value, "priority", 3);
    GetFirst(p.value, "status", 4);
    GetFirst(p.value, "source_job_id", 6);
  }

  /** A value the log line can slice (`x[:60]`, `x[:120]`): a str or a list; slicing anything
      else raises (a TypeError, or a KeyError on a dict). */
  predicate Sliceable(v: Value) {
    v.Str? || v.Arr?
  }

  /** Whether the log line printed after an accepted create raises for this item: the JSON loops
      show the object's header and text, the text fallbacks the text itself. */
  predicate LogRaises(mode: RecMode, v: Value) {
    if mode.SharedJson? || mode.InlineJson? then
      v.Obj? && !(Sliceable(GetOrNull(v.fields, "header")) && Sliceable(GetOrNull(v.fields, "text")))
    else !Sliceable(v)
  }

  const LogFailed: string := "TypeError: a saved recommendation's header or text does not slice"

  /** The loop over the items from `saved` on. An item with a payload has its create sent; an
      accepted create (status below 300) is counted and then logged, and the log line raises for
      an item whose shown values do not slice; after each create the loop stops once the count
      reaches maxCount. Only `json.JSONDecodeError` is caught around the loop, so that raise ends
      the loop and its caller. */
  function SaveLoop(respond: Request -> Response, mode: RecMode, items: seq<Value>, maxCount: int, saved: nat)
    : Step<Result<nat>>
    decreases |items|
  {
    if items == [] then Step([], Ok(saved))
    else if PayloadOf(mode, items[0]).None? then SaveLoop(respond, mode, items[1..], maxCount, saved)
    else
      var req := CreateRecommendation(PayloadOf(mode, items[0]).value);
      var accepted := respond(req).status < 300;
      if accepted && LogRaises(mode, items[0]) then Step([req], Raised(LogFailed))
      else
        var now := saved + (if accepted then 1 else 0);
        if now >= maxCount then Step([req], Ok(now))
        else
          var rest := SaveLoop(respond, mode, items[1..], maxCount, now);
          Step([req] + rest.reqs, rest.out)
  }

  /** The loop at item `i` passes over an item without a payload. */
  lemma SaveSkip(respond: Request -> Response, mode: RecMode, items: seq<Value>, i: nat, maxCount: int, saved: nat)
    requires i < |items| && PayloadOf(mode, items[i]).None?
    ensures SaveLoop(respond, mode, items[i..], maxCount, saved)
      == SaveLoop(respond, mode, items[i + 1..], maxCount, saved)
  {
    assert items[i..][0] == items[i];
    assert items[i..][1..] == items[i + 1..];
  }

  /** The loop at item `i` sends its create. Accepted with a log line that raises, it ends
      raising; otherwise, with the count it reaches, `now`, it stops there once `now` reaches
      maxCount and goes on with the next item otherwise. */
  lemma SaveOne(respond: Request -> Response, mode: RecMode, items: seq<Value>, i: nat, maxCount: int, saved: nat,
                now: nat)
    requires i < |items| && PayloadOf(mode, items[i]).Some?
    requires now == saved + (if respond(CreateRecommendation(PayloadOf(mode, items[i]).value)).status < 300 then 1 else 0)
    ensures var req := CreateRecommendation(PayloadOf(mode, items[i]).value);
      var rest := SaveLoop(respond, mode, items[i + 1..], maxCount, now);
      SaveLoop(respond, mode, items[i..], maxCount, saved)
        == if respond(req).status < 300 && LogRaises(mode, items[i]) then Step([req], Raised(LogFailed))
           else if now >= maxCount then Step([req], Ok(now))
           else Step([req] + rest.reqs, rest.out)
  {
    assert items[i..][0] == items[i];
    assert items[i..][1..] == items[i + 1..];
  }

  method SaveRecommendations(c: ApiClient, mode: RecMode, items: seq<Value>, maxCount: int) returns (r: Result<nat>)
    modifies c
    ensures c.sent == old(c.sent) + SaveLoop(c.respond, mode, items, maxCount, 0).reqs
    ensures r == SaveLoop(c.respond, mode, items, maxCount, 0).out
  {
    var saved: nat := 0;
    var i := 0;
    ghost var done: seq<Request> := [];
    ghost var whole := SaveLoop(c.respond, mode, items, maxCount, 0);
    assert items[0..] == items;
    while i < |items|
      invariant 0 <= i <= |items|
      invariant c.sent == old(c.sent) + done
      invariant whole == var rest := SaveLoop(c.respond, mode, items[i..], maxCount, saved);
        Step(done + rest.reqs, rest.out)
    {
      var payload := PayloadOf(mode, items[i]);
      if payload.None? {
        SaveSkip(c.respond, mode, items, i, maxCount, saved);
      } else {
        var req := CreateRecommendation(payload.value);
        ghost var before := done;
        ghost var prev := saved;
        var resp := c.Call(req);
        done := done + [req];
        if resp.status < 300 {
          saved := saved + 1;
        }
        if resp.status < 300 && LogRaises(mode, items[i]) {
          // the log line's slices raise
          SaveOne(c.respond, mode, items, i, maxCount, prev, saved);
          return Raised(LogFailed);
        }
        if saved >= maxCount {
          SaveOne(c.respond, mode, items, i, maxCount, prev, saved);
          return Ok(saved);
        }
        SaveOn(c.respond, mode, items, i, maxCount, prev, saved, before);
      }
      i := i + 1;
    }
    assert items[i..] == [];
    r := Ok(saved);
  }

  /** The trace so far followed by the loop at item `i` is the trace with item `i`'s create
      followed by the loop at the next item, when that create neither raises nor reaches the cap. */
  lemma SaveOn(respond: Request -> Response, mode: RecMode, items: seq<Value>, i: nat, maxCount: int, saved: nat,
               now: nat, done: seq<Request>)
    requires i < |items| && PayloadOf(mode, items[i]).Some?
    requires var req := CreateRecommendation(PayloadOf(mode, items[i]).value);
      && now == saved + (if respond(req).status < 300 then 1 else 0)
      && !(respond(req).status < 300 && LogRaises(mode, items[i])) && now < maxCount
    ensures var req := CreateRecommendation(PayloadOf(mode, items[i]).value);
      var here := SaveLoop(respond, mode, items[i..], maxCount, saved);
      var rest := SaveLoop(respond, mode, items[i + 1..], maxCount, now);
      Step(done + here.reqs, here.out) == Step((done + [req]) + rest.reqs, rest.out)
  {
    var req := CreateRecommendation(PayloadOf(mode, items[i]).value);
    SaveOne(respond, mode, items, i, maxCount, saved, now);
    ConcatAssoc(done, [req], SaveLoop(respond, mode, items[i + 1..], maxCount, now).reqs);
  }

  /** How many items have a payload. */
  function Sendable(mode: RecMode, items: seq<Value>): (n: nat)
    ensures n <= |items|
  {
    if items == [] then 0 else (if PayloadOf(mode, items[0]).Some? then 1 else 0) + Sendable(mode, items[1..])
  }

  /** One request is accepted exactly when it is a create the backend answers below 300. */
  lemma AcceptedOne(respond: Request -> Response, req: Request)
    ensures Accepted(respond, [req]) == if req.CreateRecommendation? && respond(req).status < 300 then 1 else 0
  {
    assert [req][..0] == [];
  }

  /** When the loop returns, its count is exactly the number of its creates the backend accepted. */
  lemma {:induction false} SaveLoopCounts(respond: Request -> Response, mode: RecMode, items: seq<Value>,
                                          maxCount: int, saved: nat)
    ensures var s := SaveLoop(respond, mode, items, maxCount, saved);
      s.out.Ok? ==> s.out.value == saved + Accepted(respond, s.reqs)
    decreases |items|
  {
    if items != [] {
      if PayloadOf(mode, items[0]).None? {
        SaveLoopCounts(respond, mode, items[1..], maxCount, saved);
      } else {
        var req := CreateRecommendation(PayloadOf(mode, items[0]).value);
        var accepted := respond(req).status < 300;
        var now := saved + (if accepted then 1 else 0);
        AcceptedOne(respond, req);
        if !(accepted && LogRaises(mode, items[0])) && now < maxCount {
          var rest := SaveLoop(respond, mode, items[1..], maxCount, now);
          SaveLoopCounts(respond, mode, items[1..], maxCount, now);
          SaveLoopCons(respond, mode, items, maxCount, saved);
          AcceptedAppend(respond, [req], rest.reqs);
        }
      }
    }
  }

  /** The loop's first create is followed by the loop over the rest when it neither raises nor
      reaches the cap. */
  lemma SaveLoopCons(respond: Request -> Response, mode: RecMode, items: seq<Value>, maxCount: int, saved: nat)
    requires items != [] && PayloadOf(mode, items[0]).Some?
    requires var req := CreateRecommendation(PayloadOf(mode, items[0]).value);
      !(respond(req).status < 300 && LogRaises(mode, items[0]))
      && saved + (if respond(req).status < 300 then 1 else 0) < maxCount
    ensures var req := CreateRecommendation(PayloadOf(mode, items[0]).value);
      var rest := SaveLoop(respond, mode, items[1..], maxCount, saved + (if respond(req).status < 300 then 1 else 0));
      SaveLoop(respond, mode, items, maxCount, saved) == Step([req] + rest.reqs, rest.out)
  {
  }

  /** Started below the cap, the loop never gets more than maxCount creates accepted, raising or
      not; and when it returns below the cap it has sent every item that has a payload. */
  lemma {:induction false} SaveLoopCap(respond: Request -> Response, mode: RecMode, items: seq<Value>,
                                       maxCount: int, saved: nat)
    requires saved < maxCount
    ensures var s := SaveLoop(respond, mode, items, maxCount, saved);
      && saved + Accepted(respond, s.reqs) <= maxCount
      && (s.out.Ok? ==> s.out.value <= maxCount)
      && (s.out.Ok? && s.out.value < maxCount ==> |s.reqs| == Sendable(mode, items))
    decreases |items|
  {
    SaveLoopCounts(respond, mode, items, maxCount, saved);
    if items != [] {
      if PayloadOf(mode, items[0]).None? {
        SaveLoopCap(respond, mode, items[1..], maxCount, saved);
      } else {
        var req := CreateRecommendation(PayloadOf(mode, items[0]).value);
        var accepted := respond(req).status < 300;
        var now := saved + (if accepted then 1 else 0);
        AcceptedOne(respond, req);
        if !(accepted && LogRaises(mode, items[0])) && now < maxCount {
          SaveLoopCap(respond, mode, items[1..], maxCount, now);
          AcceptedAppend(respond, [req], SaveLoop(respond, mode, items[1..], maxCount, now).reqs);
        }
      }
    }
  }

  /** A request the loop may send: a create whose payload is that of one of the items. */
  predicate FromItems(mode: RecMode, items: seq<Value>, r: Request) {
    r.CreateRecommendation? && exists v :: v in items && PayloadOf(mode, v) == Some(r.body)
  }

  /** The loop sends nothing but creates of the items' payloads. */
  lemma {:induction false} SaveLoopSendsPayloads(respond: Request -> Response, mode: RecMode, items: seq<Value>,
                                                 maxCount: int, saved: nat)
    ensures forall r :: r in SaveLoop(respond, mode, items, maxCount, saved).reqs ==> FromItems(mode, items, r)
    decreases |items|
  {
    if items != [] {
      var now := saved;
      if PayloadOf(mode, items[0]).Some? {
        now := saved + (if respond(CreateRecommendation(PayloadOf(mode, items[0]).value)).status < 300 then 1 else 0);
      }
      var rest := SaveLoop(respond, mode, items[1..], maxCount, now);
      SaveLoopSendsPayloads(respond, mode, items[1..], maxCount, now);
      forall r | r in SaveLoop(respond, mode, items, maxCount, saved).reqs
        ensures FromItems(mode, items, r)
      {
        if r in rest.reqs {
          var v :| v in items[1..] && PayloadOf(mode, v) == Some(r.body);
          assert v in items;
        } else {
          assert items[0] in items;
        }
      }
    }
  }

  /** A create the loop got accepted for an item whose log line raises. */
  predicate LoggedBadly(respond: Request -> Response, mode: RecMode, items: seq<Value>, r: Request) {
    r.CreateRecommendation? && respond(r).status < 300
    && exists v :: v in items && PayloadOf(mode, v) == Some(r.body) && LogRaises(mode, v)
  }

  /** The loop raises only from the log line of its last create, an accepted one for an item
      whose shown values do not slice. */
  lemma {:induction false} SaveLoopRaises(respond: Request -> Response, mode: RecMode, items: seq<Value>,
                                          maxCount: int, saved: nat)
    ensures var s := SaveLoop(respond, mode, items, maxCount, saved);
      s.out.Raised? ==>
        s.out.reason == LogFailed && s.reqs != [] && LoggedBadly(respond, mode, items, s.reqs[|s.reqs| - 1])
    decreases |items|
  {
    if items != [] {
      if PayloadOf(mode, items[0]).None? {
        SaveLoopRaises(respond, mode, items[1..], maxCount, saved);
        LoggedBadlyTail(respond, mode, items, SaveLoop(respond, mode, items[1..], maxCount, saved).reqs);
      } else {
        var req := CreateRecommendation(PayloadOf(mode, items[0]).value);
        var accepted := respond(req).status < 300;
        var now := saved + (if accepted then 1 else 0);
        if accepted && LogRaises(mode, items[0]) {
          assert items[0] in items;
          assert LoggedBadly(respond, mode, items, req);
        } else if now < maxCount {
          var rest := SaveLoop(respond, mode, items[1..], maxCount, now);
          SaveLoopRaises(respond, mode, items[1..], maxCount, now);
          LoggedBadlyTail(respond, mode, items, rest.reqs);
          if rest.out.Raised? {
            LastOfCons(req, rest.reqs);
          }
        }
      }
    }
  }

  /** The last element of a non-empty tail stays last after a head is put in front. */
  lemma LastOfCons<T>(x: T, rest: seq<T>)
    requires rest != []
    ensures ([x] + rest)[|[x] + rest| - 1] == rest[|rest| - 1]
  {
  }

  /** What holds of a request for the items after the first holds for all of them. */
  lemma LoggedBadlyTail(respond: Request -> Response, mode: RecMode, items: seq<Value>, reqs: seq<Request>)
    requires items != []
    ensures forall r :: r in reqs && LoggedBadly(respond, mode, items[1..], r) ==> LoggedBadly(respond, mode, items, r)
  {
    forall r | r in reqs && LoggedBadly(respond, mode, items[1..], r)
      ensures LoggedBadly(respond, mode, items, r)
    {
      var v :| v in items[1..] && PayloadOf(mode, v) == Some(r.body) && LogRaises(mode, v);
      assert v in items;
    }
  }

  /** Over items whose log lines all work the loop never raises. */
  lemma {:induction false} SaveLoopNeverRaises(respond: Request -> Response, mode: RecMode, items: seq<Value>,
                                               maxCount: int, saved: nat)
    requires forall v :: v in items && PayloadOf(mode, v).Some? ==> !LogRaises(mode, v)
    ensures SaveLoop(respond, mode, items, maxCount, saved).out.Ok?
    decreases |items|
  {
    if items != [] {
      assert items[0] in items;
      assert forall v :: v in items[1..] ==> v in items;
      var now := saved;
      if PayloadOf(mode, items[0]).Some? {
        now := saved + (if respond(CreateRecommendation(PayloadOf(mode, items[0]).value)).status < 300 then 1 else 0);
      }
      SaveLoopNeverRaises(respond, mode, items[1..], maxCount, now);
    }
  }

  // ---------------------------------------------------------------------------
  // save_recommendations_from_json

  /** The recommendations to go through: the items of a parsed list, none for anything else
      (including an absent JSON text). */
  function JsonRecItems(recommendations: Option<Value>): seq<Value> {
    if recommendations.Some? && recommendations.value.Arr? then recommendations.value.items else []
  }

  method SaveRecommendationsFromJson(c: ApiClient, recommendations: Option<Value>, owner: Value, today: string,
                                     fullInfo: string, maxCount: int, jobId: Value, summaryId: Value)
    returns (r: Result<nat>)
    modifies c
    ensures c.sent == old(c.sent)
      + SaveLoop(c.respond, SharedJson(owner, today, fullInfo, jobId, summaryId), JsonRecItems(recommendations), maxCount, 0).reqs
    ensures r
      == SaveLoop(c.respond, SharedJson(owner, today, fullInfo, jobId, summaryId), JsonRecItems(recommendations), maxCount, 0).out
  {
    if recommendations.None? {
      return Ok(0);
    }
    r := SaveRecommendations(c, SharedJson(owner, today, fullInfo, jobId, summaryId), JsonRecItems(recommendations), maxCount);
  }

  /** The keys of a JSON saver payload are distinct, so each lookup finds its own pair. */
  lemma SharedRecordKeys(p: Record)
    requires |p| == 10
    requires p[0].0 == "team_name" && p[1].0 == "action_text" && p[2].0 == "rational" && p[3].0 == "date"
    requires p[4].0 == "priority" && p[5].0 == "status" && p[6].0 == "full_information"
    requires p[7].0 == "information_json" && p[8].0 == "source_job_id" && p[9].0 == "source_ai_summary_id"
    ensures forall j :: 0 <= j < 1 ==> p[j].0 != "action_text"
    ensures forall j :: 0 <= j < 2 ==> p[j].0 != "rational"
    ensures forall j :: 0 <= j < 4 ==> p[j].0 != "priority"
    ensures forall j :: 0 <= j < 5 ==> p[j].0 != "status"
    ensures forall j :: 0 <= j < 8 ==> p[j].0 != "source_job_id"
    ensures forall j :: 0 <= j < 9 ==> p[j].0 != "source_ai_summary_id"
  {
  }

  /** The fields of one JSON saver payload, looked up by name. */
  lemma SharedRecordFields(owner: Value, text: Value, header: Value, today: string, priority: Value, fullInfo: string,
                           v: Value, jobId: Value, summaryId: Value)
    ensures var p := [("team_name", owner), ("action_text", text), ("rational", header), ("date", Str(today)),
                      ("priority", priority), ("status", Str("Proposed")), ("full_information", Str(fullInfo)),
                      ("information_json", v), ("source_job_id", jobId), ("source_ai_summary_id", summaryId)];
      GetOrNull(p, "team_name") == owner && GetOrNull(p, "action_text") == text
      && GetOrNull(p, "rational") == header && GetOrNull(p, "priority") == priority
      && GetOrNull(p, "status") == Str("Proposed") && GetOrNull(p, "source_job_id") == jobId
      && GetOrNull(p, "source_ai_summary_id") == summaryId
  {
    var p := [("team_name", owner), ("action_text", text), ("rational", header), ("date", Str(today)),
              ("priority", priority), ("status", Str("Proposed")), ("full_information", Str(fullInfo)),
              ("information_json", v), ("source_job_id", jobId), ("source_ai_summary_id", summaryId)];
    SharedRecordKeys(p);
    GetFirst(p, "team_name", 0);
    GetFirst(p, "action_text", 1);
    GetFirst(p, "rational", 2);
    GetFirst(p, "priority", 4);
    GetFirst(p, "status", 5);
    GetFirst(p, "source_job_id", 8);
    GetFirst(p, "source_ai_summary_id", 9);
  }

  /** The JSON saver's payload: the owner as team, the object's text and header, its priority
      (default "Important"), status "Proposed", and the links to the job and the summary card;
      an object without a header or a text has none. */
  lemma SharedPayloadFields(owner: Value, today: string, fullInfo: string, jobId: Value, summaryId: Value, v: Value)
    ensures var p := PayloadOf(SharedJson(owner, today, fullInfo, jobId, summaryId), v);
      (p.Some? <==> ValidRecommendation(v))
      && (p.Some? ==>
            GetOrNull(p.value, "team_name") == owner
            && GetOrNull(p.value, "action_text") == GetOrNull(v.fields, "text")
            && GetOrNull(p.value, "rational") == GetOrNull(v.fields, "header")
            && GetOrNull(p.value, "priority") == GetOrDefault(v.fields, "priority", Str("Important"))
            && GetOrNull(p.value, "status") == Str("Proposed")
            && GetOrNull(p.value, "source_job_id") == jobId
            && GetOrNull(p.value, "source_ai_summary_id") == summaryId)
  {
    if ValidRecommendation(v) {
      SharedRecordFields(owner, GetOrNull(v.fields, "text"), GetOrNull(v.fields, "header"), today,
                         GetOrDefault(v.fields, "priority", Str("Important")), fullInfo, v, jobId, summaryId);
    }
  }

  /** With a positive cap the saver gets at most that many creates accepted, each of a valid
      object of the list, and when it returns it reports that number; it raises exactly from the
      log line of an accepted object whose header or text is neither a str nor a list, and never
      when every valid object has both sliceable; without a JSON list it sends nothing. */
  lemma SaveFromJsonBound(respond: Request -> Response, recommendations: Option<Value>, owner: Value, today: string,
                          fullInfo: string, maxCount: int, jobId: Value, summaryId: Value)
    requires maxCount >= 1
    ensures var mode := SharedJson(owner, today, fullInfo, jobId, summaryId);
      var items := JsonRecItems(recommendations);
      var s := SaveLoop(respond, mode, items, maxCount, 0);
      && Accepted(respond, s.reqs) <= maxCount
      && (s.out.Ok? ==> s.out.value == Accepted(respond, s.reqs))
      && (forall r :: r in s.reqs ==> FromItems(mode, items, r))
      && (s.out.Raised? ==>
            exists v :: v in items && ValidRecommendation(v)
              && !(Sliceable(GetOrNull(v.fields, "header")) && Sliceable(GetOrNull(v.fields, "text"))))
      && ((forall v :: v in items && ValidRecommendation(v) ==>
             Sliceable(GetOrNull(v.fields, "header")) && Sliceable(GetOrNull(v.fields, "text"))) ==> s.out.Ok?)
      && (items == [] ==> s.reqs == [] && s.out == Ok(0))
  {
    var mode := SharedJson(owner, today, fullInfo, jobId, summaryId);
    var items := JsonRecItems(recommendations);
    SaveLoopCap(respond, mode, items, maxCount, 0);
    SaveLoopCounts(respond, mode, items, maxCount, 0);
    SaveLoopSendsPayloads(respond, mode, items, maxCount, 0);
    SaveLoopRaises(respond, mode, items, maxCount, 0);
    if forall v :: v in items && ValidRecommendation(v) ==>
         Sliceable(GetOrNull(v.fields, "header")) && Sliceable(GetOrNull(v.fields, "text"))
    {
      SaveLoopNeverRaises(respond, mode, items, maxCount, 0);
    }
  }

  // ---------------------------------------------------------------------------
  // process_llm_response_and_save_ai_card

  /** `(description, full_information, raw_json_string, card_id)`. */
  datatype CardOutcome = CardOutcome(description: string, fullInfo: string, raw: string, cardId: Value)

  /** The collection a card type writes to: "PI" and "Team"; any other type writes nowhere. */
  function KindOf(cardType: string): Option<CardKind> {
    if cardType == "PI" then Some(PiCards) else if cardType == "Team" then Some(TeamCards) else None
  }

  /** The card id after the upsert: the patched card's, or that in `data.card.id` of a
      successful create answered with a dict (raising when "data" or "card" is not a dict),
      or else whatever id the loop had matched. */
  function CardIdOf(u: Upsert): Result<Value> {
    var matchedId := if u.matched.Some? then Num(u.matched.value) else Null;
    if u.created.None? then Ok(matchedId)
    else
      var cresp := u.created.value;
      if cresp.status < 300 && cresp.body.Obj? then
        var data := GetOrDefault(cresp.body.fields, "data", Obj([]));
        if !data.Obj? then Raised(NotADict)
        else
          var card := GetOrDefault(data.fields, "card", Obj([]));
          if !card.Obj? then Raised(NotADict) else Ok(GetOrNull(card.fields, "id"))
      else Ok(matchedId)
  }

  /** The text fields the helper derives from the answer, and the payload it saves. */
  function CardParts(parse: string -> Option<Value>, answer: string, team: Value, jobId: Value, config: Record,
                     today: string): (string, string, string, Record) {
    var split := SplitTextAndJson(answer, parse);
    var description := Description(BetweenMarkers(answer, StartMarker, EndMarker), answer);
    var fullInfo := Take(split.prose, 2000);
    (description, fullInfo, split.raw, SharedCardPayload(team, config, description, today, jobId, fullInfo, split.raw))
  }

  /** The upsert of an already built payload into the collection the card type names, and the
      outcome the helper returns. */
  function SaveCardStep(respond: Request -> Response, cardType: string, description: string, fullInfo: string,
                        raw: string, payload: Record, today: string): Step<Result<CardOutcome>> {
    var kind := KindOf(cardType);
    if kind.None? then Step([], Ok(CardOutcome(description, fullInfo, raw, Null)))
    else
      var u := UpsertCall(respond, kind.value, payload, today);
      var id := CardIdOf(u.out);
      Step(u.reqs, if id.Raised? then Raised(id.reason) else Ok(CardOutcome(description, fullInfo, raw, id.value)))
  }

  function SaveCardCall(respond: Request -> Response, parse: string -> Option<Value>, answer: string, team: Value,
                        jobId: Value, config: Record, cardType: string, today: string): Step<Result<CardOutcome>> {
    var (description, fullInfo, raw, payload) := CardParts(parse, answer, team, jobId, config, today);
    SaveCardStep(respond, cardType, description, fullInfo, raw, payload, today)
  }

  /** The payload, with "pi" added only when the config has it and the raw JSON text only when
      it is not empty. */
  method BuildSharedPayload(team: Value, config: Record, description: string, today: string, jobId: Value,
                            fullInfo: string, raw: string) returns (payload: Record)
    ensures payload == SharedCardPayload(team, config, description, today, jobId, fullInfo, raw)
  {
    payload := CardFields(team, GetOrNull(config, "card_name"), GetOrNull(config, "card_type"), description, today,
                          GetOrDefault(config, "priority", Str("Critical")), GetOrDefault(config, "source", Str("PI")),
                          jobId, fullInfo);
    if HasKey(config, "pi") {
      payload := payload + [("pi", GetOrNull(config, "pi"))];
    }
    if raw != "" {
      payload := payload + [("information_json", Str(raw))];
    }
  }

  /** `today` is the current UTC date; `parse` stands for json.loads. */
  method ProcessLlmResponseAndSaveAiCard(c: ApiClient, parse: string -> Option<Value>, answer: string, team: Value,
                                         jobId: Value, config: Record, cardType: string, today: string)
    returns (r: Result<CardOutcome>)
    modifies c
    ensures c.sent == old(c.sent) + SaveCardCall(c.respond, parse, answer, team, jobId, config, cardType, today).reqs
    ensures r == SaveCardCall(c.respond, parse, answer, team, jobId, config, cardType, today).out
  {
    var split := ExtractTextAndJson(answer, parse);
    var extracted := ExtractReviewSection(answer);
    var description := ChooseDescription(extracted, answer);
    var fullInfo := Take(split.prose, 2000);
    var payload := BuildSharedPayload(team, config, description, today, jobId, fullInfo, split.raw);
    var kind := KindOf(cardType);
    if kind.None? {
      return Ok(CardOutcome(description, fullInfo, split.raw, Null));
    }
    var u := UpsertCard(c, kind.value, payload, today);
    var id := CardIdOf(u);
    if id.Raised? {
      return Raised(id.reason);
    }
    r := Ok(CardOutcome(description, fullInfo, split.raw, id.value));
  }

  /** The helper saves its card into the collection its type names, and only there; another
      type saves nothing and has no card id. It never creates a recommendation. */
  lemma SaveCardTargets(respond: Request -> Response, cardType: string, description: string, fullInfo: string,
                        raw: string, payload: Record, today: string)
    ensures var s := SaveCardStep(respond, cardType, description, fullInfo, raw, payload, today);
      && NoRecommendations(s.reqs)
      && (KindOf(cardType).None? ==> s.reqs == [] && s.out == Ok(CardOutcome(description, fullInfo, raw, Null)))
      && (KindOf(cardType).Some? ==> s.reqs != [] && s.reqs[0] == ListCards(KindOf(cardType).value))
      && (forall r :: r in s.reqs && (r.PatchCard? || r.CreateCard?) ==> (r.kind == KindOf(cardType).value
                                                                          && r.body == payload))
      && (cardType == "PI" ==> KindOf(cardType) == Some(PiCards))
      && (cardType == "Team" ==> KindOf(cardType) == Some(TeamCards))
  {
    var kind := KindOf(cardType);
    if kind.Some? {
      UpsertWritesOnce(respond, kind.value, payload, today);
      UpsertWritesPayload(respond, kind.value, payload, today);
    }
  }

  /** Every card write of the upsert goes to its collection with the payload as body. */
  lemma UpsertWritesPayload(respond: Request -> Response, kind: CardKind, payload: Record, today: string)
    ensures forall r :: r in UpsertCall(respond, kind, payload, today).reqs && (r.PatchCard? || r.CreateCard?) ==>
      r.kind == kind && r.body == payload
  {
    var matched := MatchedId(ListedCards(respond(ListCards(kind))), payload, today, kind);
    var w := WriteCardCall(respond, kind, payload, matched);
    assert forall r :: r in w.reqs ==> r == CreateCard(kind, payload) || (matched.Some? && r == PatchCard(kind, matched.value, payload));
  }

  /** The card id the helper reports: the matched card's after a successful patch, the one the
      backend reports for a created card, or the matched one otherwise. */
  lemma SaveCardId(respond: Request -> Response, cardType: string, description: string, fullInfo: string,
                   raw: string, payload: Record, today: string)
    requires KindOf(cardType).Some?
    ensures var s := SaveCardStep(respond, cardType, description, fullInfo, raw, payload, today);
      var u := UpsertCall(respond, KindOf(cardType).value, payload, today).out;
      && (u.patched ==> s.out == Ok(CardOutcome(description, fullInfo, raw, Num(u.matched.value))))
      && (!u.patched ==>
            var cresp := respond(CreateCard(KindOf(cardType).value, payload));
            (cresp.status < 300 && cresp.body.Obj? && GetOrDefault(cresp.body.fields, "data", Obj([])).Obj?
             && GetOrDefault(GetOrDefault(cresp.body.fields, "data", Obj([])).fields, "card", Obj([])).Obj?) ==>
              s.out == Ok(CardOutcome(description, fullInfo, raw,
                GetOrNull(GetOrDefault(GetOrDefault(cresp.body.fields, "data", Obj([])).fields, "card", Obj([])).fields,
                          "id"))))
  {
  }

  /** The shared payload: the config's name and type, its priority or "Critical", its source
      or "PI", and a description of at most 2000 characters. */
  lemma SharedCardFields(team: Value, config: Record, description: string, today: string, jobId: Value,
                            fullInfo: string, raw: string)
    ensures var p := SharedCardPayload(team, config, description, today, jobId, fullInfo, raw);
      && GetOrNull(p, "team_name") == team
      && GetOrNull(p, "card_name") == GetOrNull(config, "card_name")
      && GetOrNull(p, "card_type") == GetOrNull(config, "card_type")
      && GetOrNull(p, "priority") == GetOrDefault(config, "priority", Str("Critical"))
      && GetOrNull(p, "source") == GetOrDefault(config, "source", Str("PI"))
      && GetOrNull(p, "description").Str? && |GetOrNull(p, "description").s| <= 2000
  {
    var base := CardFields(team, GetOrNull(config, "card_name"), GetOrNull(config, "card_type"), description, today,
                           GetOrDefault(config, "priority", Str("Critical")), GetOrDefault(config, "source", Str("PI")),
                           jobId, fullInfo);
    var pi: Record := if HasKey(config, "pi") then [("pi", GetOrNull(config, "pi"))] else [];
    var json: Record := if raw != "" then [("information_json", Str(raw))] else [];
    assert (base + pi) + json == base + (pi + json);
    CardFieldsKeys(team, GetOrNull(config, "card_name"), GetOrNull(config, "card_type"), description, today,
                   GetOrDefault(config, "priority", Str("Critical")), GetOrDefault(config, "source", Str("PI")),
                   jobId, fullInfo, pi + json);
  }

  /** The shared payload carries "pi" exactly when the config has one, and the raw JSON text
      exactly when it is not empty. */
  lemma SharedCardOptional(team: Value, config: Record, description: string, today: string, jobId: Value,
                              fullInfo: string, raw: string)
    ensures var p := SharedCardPayload(team, config, description, today, jobId, fullInfo, raw);
      && (HasKey(p, "pi") <==> HasKey(config, "pi"))
      && (HasKey(p, "information_json") <==> raw != "")
  {
    var base := CardFields(team, GetOrNull(config, "card_name"), GetOrNull(config, "card_type"), description, today,
                           GetOrDefault(config, "priority", Str("Critical")), GetOrDefault(config, "source", Str("PI")),
                           jobId, fullInfo);
    var pi: Record := if HasKey(config, "pi") then [("pi", GetOrNull(config, "pi"))] else [];
    var json: Record := if raw != "" then [("information_json", Str(raw))] else [];
    CardFieldsLackOptional(team, GetOrNull(config, "card_name"), GetOrNull(config, "card_type"), description, today,
                           GetOrDefault(config, "priority", Str("Critical")), GetOrDefault(config, "source", Str("PI")),
                           jobId, fullInfo);
    HasKeyConcat(base + pi, json, "pi");
    HasKeyConcat(base, pi, "pi");
    HasKeyConcat(base + pi, json, "information_json");
    HasKeyConcat(base, pi, "information_json");
    if raw != "" {
      assert json[0].0 == "information_json";
    }
    if HasKey(config, "pi") {
      assert pi[0].0 == "pi";
    }
  }

  /** A card payload itself has neither a "pi" nor an "information_json" field. */
  lemma CardFieldsLackOptional(team: Value, name: Value, cardType: Value, description: string, today: string,
                               priority: Value, source: Value, jobId: Value, fullInfo: string)
    ensures var p := CardFields(team, name, cardType, description, today, priority, source, jobId, fullInfo);
      !HasKey(p, "pi") && !HasKey(p, "information_json")
  {
    var p := CardFields(team, name, cardType, description, today, priority, source, jobId, fullInfo);
    forall i | 0 <= i < |p|
      ensures p[i].0 != "pi" && p[i].0 != "information_json"
    {
      assert p[i].0 in ["team_name", "card_name", "card_type", "description", "date", "priority", "source",
                        "source_job_id", "full_information"];
    }
  }
}
