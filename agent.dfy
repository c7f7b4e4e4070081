/**
  The agent's polling loop: each cycle asks the backend for the next pending job, claims it,
  marks its input, routes it to its processor and records the outcome on the job. When the
  backend cannot be reached the agent waits, doubling the wait up to a cap, and the wait drops
  back to its initial value after any poll that reaches the backend.
*/
module Agent {
  import opened Wrappers
  import opened Text
  import opened Json
  import opened Seqs
  import opened Backend
  import opened Jobs
  import opened Router

  /** The job types the agent takes. */
  const JobTypes: seq<string> := ["Daily Agent", "Sprint Goal", "PI Sync"]
  /** Seconds: the first network backoff, its cap, the wait after an empty or failed poll, the
      wait after handling a job, and the cool-down after an unexpected error. */
  const InitialBackoff: int := 2
  const BackoffCap: int := 300
  const PollingInterval: int := 10
  const PollingIntervalAfterJob: int := 1
  const ErrorCooldown: int := 30
  const InputNote: string := "SparksAI-Agent collected basic job context at "

  // ---------------------------------------------------------------------------
  // _select_pending_supported

  predicate Supported(job: Record) {
    Lower(Show(GetOrDefault(job, "status", Str("")))) == "pending"
    && Show(GetOrDefault(job, "job_type", Str(""))) in JobTypes
  }

  /** The first pending job of a supported type. */
  function SelectPendingSupported(jobs: seq<Record>): (r: Option<Record>)
    ensures r.None? <==> forall i :: 0 <= i < |jobs| ==> !Supported(jobs[i])
    ensures r.Some? ==> exists i :: 0 <= i < |jobs| && jobs[i] == r.value && Supported(jobs[i])
                                    && forall j :: 0 <= j < i ==> !Supported(jobs[j])
  {
    if jobs == [] then None
    else if Supported(jobs[0]) then Some(jobs[0])
    else
      var r := SelectPendingSupported(jobs[1..]);
      assert forall i :: 1 <= i < |jobs| ==> jobs[i] == jobs[1..][i - 1];
      if r.Some? then
        var k :| 0 <= k < |jobs[1..]| && jobs[1..][k] == r.value && Supported(jobs[1..][k])
                 && forall j :: 0 <= j < k ==> !Supported(jobs[1..][j]);
        assert jobs[k + 1] == r.value;
        r
      else r
  }

  /** The agent takes exactly the types the router has a processor for. */
  lemma JobTypesAreRouted(jobType: string)
    ensures jobType in JobTypes <==> Routed(jobType)
  {
  }

  // ---------------------------------------------------------------------------
  // _extract_job_id

  /** `job.get("job_id", job.get("id"))` as an int: a `job_id` key shadows `id` even when its
      value is `None`, and a value `int()` rejects gives no id. */
  function ExtractJobId(job: Record): Option<int> {
    var candidate := if HasKey(job, "job_id") then GetOrNull(job, "job_id") else GetOrNull(job, "id");
    if candidate.Null? then None else IntOf(candidate)
  }

  lemma ExtractJobIdSources(job: Record)
    ensures HasKey(job, "job_id") && GetOrNull(job, "job_id").Null? ==> ExtractJobId(job) == None
    ensures HasKey(job, "job_id") && GetOrNull(job, "job_id").Num? ==>
      ExtractJobId(job) == Some(GetOrNull(job, "job_id").n)
    ensures !HasKey(job, "job_id") ==> ExtractJobId(job) == (if GetOrNull(job, "id").Null? then None
                                                            else IntOf(GetOrNull(job, "id")))
    ensures var candidate := if HasKey(job, "job_id") then GetOrNull(job, "job_id") else GetOrNull(job, "id");
      ExtractJobId(job).Some? ==> candidate.Num? || candidate.Bool? || candidate.Str?
  {
  }

  // ---------------------------------------------------------------------------
  // one cycle of run_agent

  /** `204`, or `200` with a falsy body, means there is no job. */
  predicate NoJobResponse(resp: Response) {
    resp.status == 204 || (resp.status == 200 && !Truthy(resp.body))
  }

  /** The job in a poll answer: `data.job` when the container has a dict there, else the
      container itself, where the container is the body's `data` (the body itself when it is not
      a dict). */
  function JobOf(body: Value): Option<Record> {
    var container := if body.Obj? then GetOrNull(body.fields, "data") else body;
    var nested := if container.Obj? then GetOrNull(container.fields, "job") else Null;
    var job := if container.Obj? && nested.Obj? then nested else container;
    if job.Obj? then Some(job.fields) else None
  }

  lemma JobOfShape(body: Value)
    ensures body.Obj? && GetOrNull(body.fields, "data").Obj? ==>
      var container := GetOrNull(body.fields, "data").fields;
      JobOf(body) == Some(if GetOrNull(container, "job").Obj? then GetOrNull(container, "job").fields else container)
    ensures body.Obj? && !GetOrNull(body.fields, "data").Obj? ==> JobOf(body) == None
    ensures !body.Obj? ==> JobOf(body) == None
  {
  }

  function ClaimBody(job: Record, claimedAt: string): Record {
    [("status", Str("claimed")), ("claimed_by", Str(Show(GetOrDefault(job, "job_type", Str("Unknown"))))),
     ("claimed_at", Str(claimedAt))]
  }

  function InputBody(inputAt: string): Record {
    [("input_sent", Str(InputNote + inputAt))]
  }

  /** The final update: `completed` with the result, or `error` with the message (an empty one
      reads "Unknown error"). */
  function FinalBody(result: JobResult): Record {
    [("status", Str(if result.ok then "completed" else "error")),
     ("result", if result.ok then Str(result.text) else Null),
     ("error", if result.ok then Null else Str(if result.text == "" then "Unknown error" else result.text))]
  }

  lemma FinalBodyFields(result: JobResult)
    ensures var b := FinalBody(result);
      && (GetOrNull(b, "status") == Str("completed") <==> result.ok)
      && (GetOrNull(b, "status") == Str("error") <==> !result.ok)
      && (result.ok ==> GetOrNull(b, "result") == Str(result.text) && GetOrNull(b, "error") == Null)
      && (!result.ok ==> GetOrNull(b, "result") == Null && GetOrNull(b, "error").Str?
                         && GetOrNull(b, "error").s != "")
      && (!result.ok && result.text != "" ==> GetOrNull(b, "error") == Str(result.text))
  {
    var b := FinalBody(result);
    GetFirst(b, "status", 0);
    GetFirst(b, "result", 1);
    GetFirst(b, "error", 2);
  }

  /** The clock readings of one cycle: the claim time, the input note's time, and what the
      processors are handed. */
  datatype Clock = Clock(claimedAt: string, inputAt: string, now: string, today: string, timestamp: string)

  /** How a cycle ends. */
  datatype Outcome =
    | Unreachable
    | NoJob
    | PollFailed(status: int)
    | BadFormat
    | MissingId
    | ClaimFailed(claimedId: int)
    | Processed(jobId: int, result: JobResult)
    | Crashed(crashedId: int, reason: string)

  /** The seconds the agent sleeps after a cycle that reached the backend. */
  function SleepAfter(outcome: Outcome): int {
    match outcome
    case Unreachable => PollingInterval
    case NoJob => PollingInterval
    case PollFailed(_) => PollingInterval
    case BadFormat => PollingInterval
    case Crashed(_, _) => ErrorCooldown
    case _ => PollingIntervalAfterJob
  }

  /** The processor the agent hands a claimed job to, given the cycle's clock. */
  type Processor = (Record, Clock) -> Step<Result<JobResult>>

  /** The router, as the agent calls it. */
  function Processors(respond: Request -> Response, parse: string -> Option<Value>): Processor {
    (job: Record, clock: Clock) => Route(respond, parse, job, clock.now, clock.today, clock.timestamp)
  }

  /** After routing: a processor that raised leaves the job without a final update. */
  function AfterRoute(id: int, routed: Step<Result<JobResult>>): Step<Outcome> {
    if routed.out.Raised? then Step(routed.reqs, Crashed(id, routed.out.reason))
    else Step(routed.reqs + [PatchAgentJob(id, FinalBody(routed.out.value))], Processed(id, routed.out.value))
  }

  /** Once claimed: the input note (its status is ignored), the processor, the final update. */
  function AfterClaim(route: Processor, clock: Clock, job: Record, id: int): Step<Outcome> {
    var rest := AfterRoute(id, route(job, clock));
    Step([PatchAgentJob(id, InputBody(clock.inputAt))] + rest.reqs, rest.out)
  }

  /** The claim; a claim the backend does not answer with 200 ends the cycle. */
  function AfterId(respond: Request -> Response, route: Processor, clock: Clock, job: Record, id: int): Step<Outcome> {
    var claim := PatchAgentJob(id, ClaimBody(job, clock.claimedAt));
    if respond(claim).status != 200 then Step([claim], ClaimFailed(id))
    else
      var rest := AfterClaim(route, clock, job, id);
      Step([claim] + rest.reqs, rest.out)
  }

  /** What the agent does with a poll answer that reached it. */
  function AfterPoll(respond: Request -> Response, route: Processor, clock: Clock, resp: Response): Step<Outcome> {
    if NoJobResponse(resp) then Step([], NoJob)
    else if resp.status != 200 then Step([], PollFailed(resp.status))
    else
      var job := JobOf(resp.body);
      if job.None? then Step([], BadFormat)
      else
        var id := ExtractJobId(job.value);
        if id.None? then Step([], MissingId)
        else AfterId(respond, route, clock, job.value, id.value)
  }

  function Min(a: int, b: int): int {
    if a <= b then a else b
  }

  /** The requests of one cycle, how it ended, the seconds slept after it, and the backoff the
      next cycle starts with. */
  datatype CycleStep = CycleStep(reqs: seq<Request>, outcome: Outcome, sleep: int, backoff: int)

  function Cycle(respond: Request -> Response, unreachable: set<nat>, route: Processor, clock: Clock, cycle: nat,
                 backoff: int): CycleStep {
    var poll := GetNextPendingJob(cycle);
    if cycle in unreachable then CycleStep([poll], Unreachable, backoff, Min(backoff * 2, BackoffCap))
    else
      var rest := AfterPoll(respond, route, clock, respond(poll));
      CycleStep([poll] + rest.reqs, rest.out, SleepAfter(rest.out), InitialBackoff)
  }

  method FinishJob(c: ApiClient, parse: string -> Option<Value>, clock: Clock, job: Record, id: int)
    returns (outcome: Outcome)
    modifies c
    ensures c.sent == old(c.sent) + AfterRoute(id, Processors(c.respond, parse)(job, clock)).reqs
    ensures outcome == AfterRoute(id, Processors(c.respond, parse)(job, clock)).out
  {
    var routed := RouteAndProcess(c, parse, job, clock.now, clock.today, clock.timestamp);
    if routed.Raised? {
      return Crashed(id, routed.reason);
    }
    var _ := c.Call(PatchAgentJob(id, FinalBody(routed.value)));
    outcome := Processed(id, routed.value);
  }

  method HandleClaimedJob(c: ApiClient, parse: string -> Option<Value>, clock: Clock, job: Record, id: int)
    returns (outcome: Outcome)
    modifies c
    ensures c.sent == old(c.sent) + AfterClaim(Processors(c.respond, parse), clock, job, id).reqs
    ensures outcome == AfterClaim(Processors(c.respond, parse), clock, job, id).out
  {
    ghost var s0 := c.sent;
    var _ := c.Call(PatchAgentJob(id, InputBody(clock.inputAt)));
    outcome := FinishJob(c, parse, clock, job, id);
    ConcatAssoc(s0, [PatchAgentJob(id, InputBody(clock.inputAt))],
                AfterRoute(id, Processors(c.respond, parse)(job, clock)).reqs);
  }

  method HandleJob(c: ApiClient, parse: string -> Option<Value>, clock: Clock, job: Record, id: int)
    returns (outcome: Outcome)
    modifies c
    ensures c.sent == old(c.sent) + AfterId(c.respond, Processors(c.respond, parse), clock, job, id).reqs
    ensures outcome == AfterId(c.respond, Processors(c.respond, parse), clock, job, id).out
  {
    ghost var s0 := c.sent;
    var claimResp := c.Call(PatchAgentJob(id, ClaimBody(job, clock.claimedAt)));
    if claimResp.status != 200 {
      return ClaimFailed(id);
    }
    outcome := HandleClaimedJob(c, parse, clock, job, id);
    ConcatAssoc(s0, [PatchAgentJob(id, ClaimBody(job, clock.claimedAt))],
                AfterClaim(Processors(c.respond, parse), clock, job, id).reqs);
  }

  method HandlePoll(c: ApiClient, parse: string -> Option<Value>, clock: Clock, resp: Response)
    returns (outcome: Outcome)
    modifies c
    ensures c.sent == old(c.sent) + AfterPoll(c.respond, Processors(c.respond, parse), clock, resp).reqs
    ensures outcome == AfterPoll(c.respond, Processors(c.respond, parse), clock, resp).out
  {
    if NoJobResponse(resp) {
      return NoJob;
    }
    if resp.status != 200 {
      return PollFailed(resp.status);
    }
    var job := JobOf(resp.body);
    if job.None? {
      return BadFormat;
    }
    var id := ExtractJobId(job.value);
    if id.None? {
      return MissingId;
    }
    outcome := HandleJob(c, parse, clock, job.value, id.value);
  }

  method RunCycle(c: ApiClient, parse: string -> Option<Value>, clock: Clock, cycle: nat, backoff: int)
    returns (outcome: Outcome, sleep: int, nextBackoff: int)
    modifies c
    ensures var s := Cycle(c.respond, c.unreachable, Processors(c.respond, parse), clock, cycle, backoff);
      c.sent == old(c.sent) + s.reqs && outcome == s.outcome && sleep == s.sleep && nextBackoff == s.backoff
  {
    ghost var s0 := c.sent;
    var poll := c.PollNextPendingJob(cycle);
    if poll.None? {
      return Unreachable, backoff, Min(backoff * 2, BackoffCap);
    }
    ghost var mid := c.sent;
    outcome := HandlePoll(c, parse, clock, poll.value);
    ghost var rest := AfterPoll(c.respond, Processors(c.respond, parse), clock, poll.value);
    assert c.sent == mid + rest.reqs;
    ConcatAssoc(s0, [GetNextPendingJob(cycle)], rest.reqs);
    sleep := SleepAfter(outcome);
    nextBackoff := InitialBackoff;
  }

  // ---------------------------------------------------------------------------
  // run_agent

  /** The first `n` cycles: every request, each cycle's outcome and sleep, and the backoff the
      next cycle starts with. Cycles are numbered from 1, as the agent counts them. */
  datatype RunTrace = RunTrace(reqs: seq<Request>, outcomes: seq<Outcome>, sleeps: seq<int>, backoff: int)

  /** The trace extended by one more cycle. */
  function Extend(prev: RunTrace, cyc: CycleStep): RunTrace {
    RunTrace(prev.reqs + cyc.reqs, prev.outcomes + [cyc.outcome], prev.sleeps + [cyc.sleep], cyc.backoff)
  }

  function Run(respond: Request -> Response, unreachable: set<nat>, route: Processor, clock: nat -> Clock,
               n: nat): RunTrace
    decreases n
  {
    if n == 0 then RunTrace([], [], [], InitialBackoff)
    else
      var prev := Run(respond, unreachable, route, clock, n - 1);
      Extend(prev, Cycle(respond, unreachable, route, clock(n), n, prev.backoff))
  }

  /** The loop, bounded to `cycles` cycles; `clock(k)` is what the clock reads in cycle `k`. */
  method RunAgent(c: ApiClient, parse: string -> Option<Value>, clock: nat -> Clock, cycles: nat)
    returns (outcomes: seq<Outcome>, sleeps: seq<int>)
    modifies c
    ensures var t := Run(c.respond, c.unreachable, Processors(c.respond, parse), clock, cycles);
      c.sent == old(c.sent) + t.reqs && outcomes == t.outcomes && sleeps == t.sleeps
  {
    ghost var s0 := c.sent;
    ghost var route := Processors(c.respond, parse);
    var cycleCount := 0;
    var backoff := InitialBackoff;
    outcomes, sleeps := [], [];
    while cycleCount < cycles
      invariant 0 <= cycleCount <= cycles
      invariant c.sent == s0 + Run(c.respond, c.unreachable, route, clock, cycleCount).reqs
      invariant outcomes == Run(c.respond, c.unreachable, route, clock, cycleCount).outcomes
      invariant sleeps == Run(c.respond, c.unreachable, route, clock, cycleCount).sleeps
      invariant backoff == Run(c.respond, c.unreachable, route, clock, cycleCount).backoff
    {
      cycleCount := cycleCount + 1;
      ghost var prev := Run(c.respond, c.unreachable, route, clock, cycleCount - 1);
      var outcome, sleep, next := RunCycle(c, parse, clock(cycleCount), cycleCount, backoff);
      ghost var cyc := Cycle(c.respond, c.unreachable, route, clock(cycleCount), cycleCount, prev.backoff);
      ConcatAssoc(s0, prev.reqs, cyc.reqs);
      outcomes := outcomes + [outcome];
      sleeps := sleeps + [sleep];
      backoff := next;
    }
  }

  // ---------------------------------------------------------------------------
  // properties of a cycle

  /** Every cycle starts with the poll; a cycle that finds no job to take, or no usable one,
      sends nothing else. */
  lemma CyclePollsFirst(respond: Request -> Response, unreachable: set<nat>, route: Processor, clock: Clock,
                        cycle: nat, backoff: int)
    ensures var s := Cycle(respond, unreachable, route, clock, cycle, backoff);
      && s.reqs != [] && s.reqs[0] == GetNextPendingJob(cycle)
      && ((s.outcome.Unreachable? || s.outcome.NoJob? || s.outcome.PollFailed? || s.outcome.BadFormat?
           || s.outcome.MissingId?) ==> s.reqs == [GetNextPendingJob(cycle)])
  {
  }

  /** An unreachable backend doubles the backoff up to the cap and the cycle sleeps the old
      backoff; any poll that reaches the backend resets it. */
  lemma CycleBackoff(respond: Request -> Response, unreachable: set<nat>, route: Processor, clock: Clock,
                     cycle: nat, backoff: int)
    ensures var s := Cycle(respond, unreachable, route, clock, cycle, backoff);
      && (cycle in unreachable <==> s.outcome == Unreachable)
      && (cycle in unreachable ==> s.sleep == backoff && s.backoff == Min(2 * backoff, 300))
      && (cycle !in unreachable ==> s.backoff == 2)
  {
  }

  /** The no-job answer is recognised exactly by its status and body. */
  lemma NoJobExactly(respond: Request -> Response, route: Processor, clock: Clock, resp: Response)
    ensures AfterPoll(respond, route, clock, resp).out == NoJob <==> NoJobResponse(resp)
  {
  }

  /** A failed claim stops at the claim: the job is neither marked nor processed. */
  lemma ClaimGuardsProcessing(respond: Request -> Response, route: Processor, clock: Clock, job: Record, id: int)
    ensures var s := AfterId(respond, route, clock, job, id);
      var claim := PatchAgentJob(id, ClaimBody(job, clock.claimedAt));
      && s.reqs[0] == claim
      && (respond(claim).status != 200 <==> s.out == ClaimFailed(id))
      && (s.out == ClaimFailed(id) ==> s.reqs == [claim])
  {
  }

  /** A processed job gets exactly one final update, the last request of the cycle, carrying its
      result; a processor that raised leaves the job without one. */
  lemma FinalUpdateOnce(id: int, routed: Step<Result<JobResult>>)
    ensures var s := AfterRoute(id, routed);
      && (routed.out.Ok? ==> s.out == Processed(id, routed.out.value)
                             && s.reqs == routed.reqs + [PatchAgentJob(id, FinalBody(routed.out.value))])
      && (routed.out.Raised? ==> s.out == Crashed(id, routed.out.reason) && s.reqs == routed.reqs)
  {
  }

  /** Writing to the job saves no recommendation. */
  lemma AfterRouteSaves(respond: Request -> Response, id: int, routed: Step<Result<JobResult>>)
    ensures Accepted(respond, AfterRoute(id, routed).reqs) == Accepted(respond, routed.reqs)
  {
    if routed.out.Ok? {
      AcceptedAppend(respond, routed.reqs, [PatchAgentJob(id, FinalBody(routed.out.value))]);
      AcceptedNone(respond, [PatchAgentJob(id, FinalBody(routed.out.value))]);
    }
  }

  /** The recommendations a cycle saves are those its processor saves. */
  lemma AfterIdSaves(respond: Request -> Response, route: Processor, clock: Clock, job: Record, id: int)
    ensures Accepted(respond, AfterId(respond, route, clock, job, id).reqs)
         == if respond(PatchAgentJob(id, ClaimBody(job, clock.claimedAt))).status == 200
            then Accepted(respond, route(job, clock).reqs) else 0
  {
    var claim := PatchAgentJob(id, ClaimBody(job, clock.claimedAt));
    if respond(claim).status == 200 {
      AfterRouteSaves(respond, id, route(job, clock));
      AcceptedAfterNone(respond, [PatchAgentJob(id, InputBody(clock.inputAt))], AfterRoute(id, route(job, clock)).reqs);
      AcceptedAfterNone(respond, [claim], AfterClaim(route, clock, job, id).reqs);
    } else {
      AcceptedNone(respond, [claim]);
    }
  }

  /** A processor that saves at most two recommendations a job keeps a cycle to at most two. */
  lemma CycleSavesAtMostTwo(respond: Request -> Response, unreachable: set<nat>, route: Processor, clock: Clock,
                            cycle: nat, backoff: int)
    requires forall job: Record, k: Clock :: Accepted(respond, route(job, k).reqs) <= 2
    ensures Accepted(respond, Cycle(respond, unreachable, route, clock, cycle, backoff).reqs) <= 2
  {
    var poll := GetNextPendingJob(cycle);
    if cycle !in unreachable {
      var resp := respond(poll);
      var rest := AfterPoll(respond, route, clock, resp);
      var job := JobOf(resp.body);
      if !NoJobResponse(resp) && resp.status == 200 && job.Some? && ExtractJobId(job.value).Some? {
        AfterIdSaves(respond, route, clock, job.value, ExtractJobId(job.value).value);
      } else {
        AcceptedNone(respond, rest.reqs);
      }
      AcceptedAfterNone(respond, [poll], rest.reqs);
    } else {
      AcceptedNone(respond, [poll]);
    }
  }

  /** The router saves at most two recommendations a job. */
  lemma ProcessorsSaveAtMostTwo(respond: Request -> Response, parse: string -> Option<Value>)
    ensures forall job: Record, k: Clock :: Accepted(respond, Processors(respond, parse)(job, k).reqs) <= 2
  {
    forall job: Record, k: Clock
      ensures Accepted(respond, Processors(respond, parse)(job, k).reqs) <= 2
    {
      RouteSavesAtMostTwo(respond, parse, job, k.now, k.today, k.timestamp);
    }
  }

  // ---------------------------------------------------------------------------
  // properties of a run

  /** The run keeps one entry per cycle, and the backoff stays between its initial value and
      the cap. */
  lemma {:induction false} RunBounds(respond: Request -> Response, unreachable: set<nat>, route: Processor,
                                     clock: nat -> Clock, n: nat)
    ensures var t := Run(respond, unreachable, route, clock, n);
      |t.outcomes| == n && |t.sleeps| == n && InitialBackoff <= t.backoff <= BackoffCap
    decreases n
  {
    if n > 0 {
      RunBounds(respond, unreachable, route, clock, n - 1);
    }
  }

  /** Two recommendations per cycle at most, given a processor that keeps to two a job. */
  lemma {:induction false} RunSavesAtMost(respond: Request -> Response, unreachable: set<nat>, route: Processor,
                                          clock: nat -> Clock, n: nat)
    requires forall job: Record, k: Clock :: Accepted(respond, route(job, k).reqs) <= 2
    ensures Accepted(respond, Run(respond, unreachable, route, clock, n).reqs) <= 2 * n
    decreases n
  {
    if n > 0 {
      var prev := Run(respond, unreachable, route, clock, n - 1);
      var cyc := Cycle(respond, unreachable, route, clock(n), n, prev.backoff);
      RunSavesAtMost(respond, unreachable, route, clock, n - 1);
      CycleSavesAtMostTwo(respond, unreachable, route, clock(n), n, prev.backoff);
      AcceptedAppend(respond, prev.reqs, cyc.reqs);
    }
  }

  /** The agent saves at most two recommendations per polling cycle. */
  lemma AgentSavesAtMostTwoPerCycle(respond: Request -> Response, unreachable: set<nat>,
                                    parse: string -> Option<Value>, clock: nat -> Clock, n: nat)
    ensures Accepted(respond, Run(respond, unreachable, Processors(respond, parse), clock, n).reqs) <= 2 * n
  {
    ProcessorsSaveAtMostTwo(respond, parse);
    RunSavesAtMost(respond, unreachable, Processors(respond, parse), clock, n);
  }

  function Pow2(k: nat): nat {
    if k == 0 then 1 else 2 * Pow2(k - 1)
  }

  /** How many cycles up to and including `n` in a row could not reach the backend. */
  function Streak(unreachable: set<nat>, n: nat): nat {
    if n == 0 || n !in unreachable then 0 else 1 + Streak(unreachable, n - 1)
  }

  /** After `k` unreachable cycles in a row the backoff is `2^(k+1)` seconds, capped. */
  lemma {:induction false} BackoffDoubles(respond: Request -> Response, unreachable: set<nat>, route: Processor,
                                          clock: nat -> Clock, n: nat)
    ensures Run(respond, unreachable, route, clock, n).backoff == Min(Pow2(Streak(unreachable, n) + 1), BackoffCap)
    decreases n
  {
    if n > 0 && n in unreachable {
      BackoffDoubles(respond, unreachable, route, clock, n - 1);
      var k := Streak(unreachable, n - 1);
      assert Pow2(k + 2) == 2 * Pow2(k + 1);
    }
  }

  /** The `k`-th unreachable cycle in a row waits `2^k` seconds, capped: 2, 4, 8, and so on up to
      the cap. */
  lemma RetryWait(respond: Request -> Response, unreachable: set<nat>, route: Processor, clock: nat -> Clock, n: nat)
    requires n >= 1 && n in unreachable
    ensures var t := Run(respond, unreachable, route, clock, n);
      |t.sleeps| == n && t.sleeps[n - 1] == Min(Pow2(Streak(unreachable, n)), BackoffCap)
  {
    RunBounds(respond, unreachable, route, clock, n - 1);
    BackoffDoubles(respond, unreachable, route, clock, n - 1);
  }
}
