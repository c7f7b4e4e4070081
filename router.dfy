/**
  The job router: a job is handed to the processor its `job_type` names; the "Team Retro
  Topics" processor is not among them.
*/
module Router {
  import opened Wrappers
  import opened Json
  import opened Backend
  import opened Jobs
  import Daily
  import SprintGoal
  import PiSync

  const DailyType: string := "Daily Agent"
  const SprintGoalType: string := "Sprint Goal"
  const PiSyncType: string := "PI Sync"
  const UnknownPrefix: string := "Unknown job type: "

  /** `str(job.get("job_type", ""))`: a key present with `None` reads "None". */
  function JobTypeOf(job: Record): string {
    Show(GetOrDefault(job, "job_type", Str("")))
  }

  /** The job types the router has a processor for. */
  predicate Routed(jobType: string) {
    jobType == DailyType || jobType == SprintGoalType || jobType == PiSyncType
  }

  /** `now` is the moment the sprint-goal job measures the sprint against, `today` the current
      UTC date and `timestamp` the current UTC time as the processors print them. */
  function Route(respond: Request -> Response, parse: string -> Option<Value>, job: Record, now: string,
                 today: string, timestamp: string): Step<Result<JobResult>> {
    var jobType := JobTypeOf(job);
    if jobType == DailyType then Daily.Process(respond, parse, job, today, timestamp)
    else if jobType == SprintGoalType then SprintGoal.Process(respond, parse, job, now, today, timestamp)
    else if jobType == PiSyncType then PiSync.Process(respond, parse, job, today, timestamp)
    else Step([], Ok(JobResult(false, UnknownPrefix + jobType)))
  }

  method RouteAndProcess(c: ApiClient, parse: string -> Option<Value>, job: Record, now: string, today: string,
                         timestamp: string) returns (r: Result<JobResult>)
    modifies c
    ensures c.sent == old(c.sent) + Route(c.respond, parse, job, now, today, timestamp).reqs
    ensures r == Route(c.respond, parse, job, now, today, timestamp).out
  {
    var jobType := JobTypeOf(job);
    if jobType == DailyType {
      r := Daily.ProcessDailyJob(c, parse, job, today, timestamp);
    } else if jobType == SprintGoalType {
      r := SprintGoal.ProcessSprintGoalJob(c, parse, job, now, today, timestamp);
    } else if jobType == PiSyncType {
      r := PiSync.ProcessPiSyncJob(c, parse, job, today, timestamp);
    } else {
      r := Ok(JobResult(false, UnknownPrefix + jobType));
    }
  }

  /** Each routed type reaches its own processor. */
  lemma RouteDispatch(respond: Request -> Response, parse: string -> Option<Value>, job: Record, now: string,
                      today: string, timestamp: string)
    ensures JobTypeOf(job) == "Daily Agent" ==>
      Route(respond, parse, job, now, today, timestamp) == Daily.Process(respond, parse, job, today, timestamp)
    ensures JobTypeOf(job) == "Sprint Goal" ==>
      Route(respond, parse, job, now, today, timestamp) == SprintGoal.Process(respond, parse, job, now, today, timestamp)
    ensures JobTypeOf(job) == "PI Sync" ==>
      Route(respond, parse, job, now, today, timestamp) == PiSync.Process(respond, parse, job, today, timestamp)
  {
  }

  /** Any other type, a missing one (read as "") included, fails with the type in the message and
      sends nothing. */
  lemma RouteUnknown(respond: Request -> Response, parse: string -> Option<Value>, job: Record, now: string,
                     today: string, timestamp: string)
    ensures !Routed(JobTypeOf(job)) ==>
      Route(respond, parse, job, now, today, timestamp) == Step([], Ok(JobResult(false, "Unknown job type: " + JobTypeOf(job))))
    ensures !HasKey(job, "job_type") ==>
      Route(respond, parse, job, now, today, timestamp) == Step([], Ok(JobResult(false, "Unknown job type: ")))
  {
    if !HasKey(job, "job_type") {
      assert GetOrDefault(job, "job_type", Str("")) == Str("");
      assert JobTypeOf(job) == "";
      assert UnknownPrefix + "" == UnknownPrefix;
    }
  }

  /** Whatever the job, routing it saves at most two recommendations. */
  lemma RouteSavesAtMostTwo(respond: Request -> Response, parse: string -> Option<Value>, job: Record, now: string,
                            today: string, timestamp: string)
    ensures Accepted(respond, Route(respond, parse, job, now, today, timestamp).reqs) <= 2
  {
    var jobType := JobTypeOf(job);
    if jobType == DailyType {
      Daily.DailySavesAtMostTwo(respond, parse, job, today, timestamp);
    } else if jobType == SprintGoalType {
      SprintGoal.SprintGoalSavesAtMostTwo(respond, parse, job, now, today, timestamp);
    } else if jobType == PiSyncType {
      PiSync.PiSavesAtMostTwo(respond, parse, job, today, timestamp);
    }
  }
}
