/**
  The backend as the worker sees it: every client call sends one request and gets back an
  HTTP status and a decoded JSON body. The server is a fixed function of the request; the
  client object records every request it sends, in order.
*/
module Backend {
  import opened Wrappers
  import opened Json

  /** The two card collections: team-ai-cards and pi-ai-cards. */
  datatype CardKind = TeamCards | PiCards

  /** One call of the API client, with the arguments that reach the server. */
  datatype Request =
    | GetNextPendingJob(cycle: nat)
    | PatchAgentJob(jobId: int, body: Record)
    | GetLatestDailyTranscript(team: Value)
    | GetLatestPiSyncTranscript(pi: string)
    | GetTranscripts(transcriptType: Value, team: Value, piName: Value, limit: int)
    | GetTeamSprintBurndown(team: Value)
    | GetPiBurndown(pi: string, team: Value)
    | GetPiSummaryToday(pi: string, team: Value)
    | GetSprints(team: Value, sprintStatus: string)
    | GetActiveSprintSummaryByTeam(team: Value)
    | GetSprintPredictability(team: Value, months: int)
    | GetSprintIssuesWithEpic(sprintId: Value, team: Value)
    | GetPrompt(email: string, name: string)
    | PostAgentLlmProcess(body: Record)
    | ListCards(kind: CardKind)
    | PatchCard(kind: CardKind, cardId: int, body: Record)
    | CreateCard(kind: CardKind, body: Record)
    | CreateRecommendation(body: Record)

  /** `(status_code, json)` as the client returns it. */
  datatype Response = Response(status: int, body: Value)

  /** `status == 200 and isinstance(body, dict)`. */
  predicate OkDict(r: Response) {
    r.status == 200 && r.body.Obj?
  }

  /** `body.get("data") or body` for a dict body. */
  function DataOrBody(r: Response): Value
    requires r.body.Obj?
  {
    Or(GetOrNull(r.body.fields, "data"), r.body)
  }

  /** What a sequence of client calls sends, and what it computes from the answers. */
  datatype Step<T> = Step(reqs: seq<Request>, out: T)

  /** How many recommendations the backend accepted (status below 300) among the requests. */
  function Accepted(respond: Request -> Response, reqs: seq<Request>): (n: nat)
    ensures n <= |reqs|
  {
    if reqs == [] then 0
    else
      var last := reqs[|reqs| - 1];
      Accepted(respond, reqs[..|reqs| - 1])
        + (if last.CreateRecommendation? && respond(last).status < 300 then 1 else 0)
  }

  lemma {:induction false} AcceptedAppend(respond: Request -> Response, a: seq<Request>, b: seq<Request>)
    ensures Accepted(respond, a + b) == Accepted(respond, a) + Accepted(respond, b)
    decreases |b|
  {
    if b == [] {
      assert a + b == a;
    } else {
      var init := b[..|b| - 1];
      assert (a + b)[..|a + b| - 1] == a + init;
      AcceptedAppend(respond, a, init);
    }
  }

  /** Requests that create no recommendation leave the count alone. */
  predicate NoRecommendations(reqs: seq<Request>) {
    forall i :: 0 <= i < |reqs| ==> !reqs[i].CreateRecommendation?
  }

  lemma {:induction false} AcceptedNone(respond: Request -> Response, reqs: seq<Request>)
    requires NoRecommendations(reqs)
    ensures Accepted(respond, reqs) == 0
    decreases |reqs|
  {
    if reqs != [] {
      AcceptedNone(respond, reqs[..|reqs| - 1]);
    }
  }

  /** Requests that create nothing in front of others leave their count alone. */
  lemma AcceptedAfterNone(respond: Request -> Response, a: seq<Request>, b: seq<Request>)
    requires NoRecommendations(a)
    ensures Accepted(respond, a + b) == Accepted(respond, b)
  {
    AcceptedNone(respond, a);
    AcceptedAppend(respond, a, b);
  }

  /** One request in front of others adds one to the count when it is an accepted
      recommendation, and nothing otherwise. */
  lemma AcceptedAfterOne(respond: Request -> Response, req: Request, rest: seq<Request>)
    ensures Accepted(respond, [req] + rest)
         == (if req.CreateRecommendation? && respond(req).status < 300 then 1 else 0) + Accepted(respond, rest)
  {
    AcceptedAppend(respond, [req], rest);
    assert [req][..0] == [];
  }

  /** The API client: the server's answers are fixed when it is made; it logs what it sends. */
  class ApiClient {
    /** The status and body the server answers each request with. */
    const respond: Request -> Response
    /** The polling cycles in which the backend cannot be reached at all. */
    const unreachable: set<nat>
    /** Every request sent so far, oldest first. */
    var sent: seq<Request>

    constructor (respond: Request -> Response, unreachable: set<nat>)
      ensures this.respond == respond && this.unreachable == unreachable
      ensures sent == []
    {
      this.respond := respond;
      this.unreachable := unreachable;
      sent := [];
    }

    /** Send one request and return the server's answer. */
    method Call(req: Request) returns (resp: Response)
      modifies this
      ensures sent == old(sent) + [req]
      ensures resp == respond(req)
    {
      sent := sent + [req];
      resp := respond(req);
    }

    /** `get_next_pending_job`: None when the request fails at the network level. */
    method PollNextPendingJob(cycle: nat) returns (resp: Option<Response>)
      modifies this
      ensures sent == old(sent) + [GetNextPendingJob(cycle)]
      ensures resp == if cycle in unreachable then None else Some(respond(GetNextPendingJob(cycle)))
    {
      sent := sent + [GetNextPendingJob(cycle)];
      if cycle in unreachable {
        resp := None;
      } else {
        resp := Some(respond(GetNextPendingJob(cycle)));
      }
    }
  }
}
