/**
  call_agent_llm_process: the request body sent to the agent LLM endpoint and the strict check
  of the success envelope it answers with.
*/
module Llm {
  import opened Wrappers
  import opened Text
  import opened Json
  import opened Backend

  /** The request body: prompt and job type always, the job id when given, metadata when non-empty. */
  function LlmBody(prompt: string, jobType: string, jobId: Option<int>, metadata: Record): (body: Record)
    ensures |body| >= 2 && body[0] == ("prompt", Str(prompt)) && body[1] == ("job_type", Str(jobType))
    ensures HasKey(body, "job_id") <==> jobId.Some?
    ensures jobId.Some? ==> Get(body, "job_id") == Some(Num(jobId.value))
    ensures HasKey(body, "metadata") <==> metadata != []
    ensures metadata != [] ==> Get(body, "metadata") == Some(Obj(metadata))
  {
    var base := [("prompt", Str(prompt)), ("job_type", Str(jobType))];
    var withId := base + (if jobId.Some? then [("job_id", Num(jobId.value))] else []);
    var body := withId + (if metadata != [] then [("metadata", Obj(metadata))] else []);
    assert HasKey(body, "job_id") ==> jobId.Some? by {
      if HasKey(body, "job_id") {
        var i :| 0 <= i < |body| && body[i].0 == "job_id";
        assert i == 2;
      }
    }
    assert jobId.Some? ==> Get(body, "job_id") == Some(Num(jobId.value)) by {
      if jobId.Some? {
        GetFirst(body, "job_id", 2);
      }
    }
    assert HasKey(body, "metadata") ==> metadata != [] by {
      if HasKey(body, "metadata") {
        var i :| 0 <= i < |body| && body[i].0 == "metadata";
        assert i == |withId|;
      }
    }
    assert metadata != [] ==> Get(body, "metadata") == Some(Obj(metadata)) by {
      if metadata != [] {
        GetFirst(body, "metadata", |withId|);
      }
    }
    body
  }

  /** The envelope counts as a success: status 200, a dict with a truthy "success", a dict
      "data", and a "response" in it that is a string with a visible character. */
  predicate EnvelopeOk(resp: Response) {
    resp.status == 200 && resp.body.Obj? && Truthy(GetOrNull(resp.body.fields, "success"))
    && GetOrNull(resp.body.fields, "data").Obj?
    && GetOrNull(GetOrNull(resp.body.fields, "data").fields, "response").Str?
    && !IsBlank(GetOrNull(GetOrNull(resp.body.fields, "data").fields, "response").s)
  }

  /** `(success, response_text, raw_payload)`. */
  datatype LlmReply = LlmReply(ok: bool, text: string, raw: Value)

  /** The reply the worker takes from the endpoint's answer. */
  function Reply(resp: Response): LlmReply {
    if resp.status == 200 && resp.body.Obj? && Truthy(GetOrNull(resp.body.fields, "success")) then
      var data := GetOrNull(resp.body.fields, "data");
      if data.Obj? then
        var answer := GetOrNull(data.fields, "response");
        if answer.Str? && Strip(answer.s) != [] then LlmReply(true, answer.s, resp.body)
        else LlmReply(false, "", resp.body)
      else LlmReply(false, "", resp.body)
    else LlmReply(false, "", if resp.body.Obj? then resp.body else Obj([]))
  }

  /** Success exactly when the envelope checks out; then the text is returned unchanged,
      otherwise the text is empty and the payload is the body when it is a dict, else {}. */
  lemma ReplyStrict(resp: Response)
    ensures Reply(resp).ok <==> EnvelopeOk(resp)
    ensures Reply(resp).ok ==>
      Reply(resp).text == GetOrNull(GetOrNull(resp.body.fields, "data").fields, "response").s
      && !IsBlank(Reply(resp).text) && Reply(resp).raw == resp.body
    ensures !Reply(resp).ok ==>
      Reply(resp).text == "" && Reply(resp).raw == (if resp.body.Obj? then resp.body else Obj([]))
  {
  }

  /** The one request the call sends, and the reply it takes from the answer. */
  function LlmCall(respond: Request -> Response, prompt: string, jobType: string, jobId: Option<int>,
                   metadata: Record): Step<LlmReply> {
    var req := PostAgentLlmProcess(LlmBody(prompt, jobType, jobId, metadata));
    Step([req], Reply(respond(req)))
  }

  method CallAgentLlmProcess(c: ApiClient, prompt: string, jobType: string, jobId: Option<int>,
                             metadata: Record) returns (reply: LlmReply)
    modifies c
    ensures c.sent == old(c.sent) + LlmCall(c.respond, prompt, jobType, jobId, metadata).reqs
    ensures reply == LlmCall(c.respond, prompt, jobType, jobId, metadata).out
  {
    var body := [("prompt", Str(prompt)), ("job_type", Str(jobType))];
    if jobId.Some? {
      body := body + [("job_id", Num(jobId.value))];
    }
    if metadata != [] {
      body := body + [("metadata", Obj(metadata))];
    }
    assert body == LlmBody(prompt, jobType, jobId, metadata);
    var resp := c.Call(PostAgentLlmProcess(body));
    reply := Reply(resp);
  }
}
