/**
 * The part of the Quartz Scheduler the cache uses, as abstract state: a
 * started flag, a shut-down flag, and the stored jobs by job-key name. A job
 * is the durable delete job built for one cache key: the cache key carried in
 * its job data and the start time of its one-shot trigger. Durable jobs stay
 * stored after their trigger has fired. Every call on a shut-down scheduler
 * throws SchedulerException; scheduling a job under a key that is already
 * stored throws ObjectAlreadyExistsException.
 */
module Scheduling {
  import opened Wrappers

  /** A delete job: the cache key in its job data and its trigger's start time,
      in seconds since the epoch. */
  datatype Job = Job(cacheKey: string, fireAt: int)

  datatype SchedulerError = SchedulerShutDown | JobAlreadyExists(jobKey: string)

  datatype SchedulerState = SchedulerState(started: bool, shutDown: bool, jobs: map<string, Job>)

  class Scheduler {
    var started: bool
    var shutDown: bool
    var jobs: map<string, Job>

    constructor (shutDown: bool)
      ensures State() == SchedulerState(false, shutDown, map[])
    {
      started := false;
      this.shutDown := shutDown;
      jobs := map[];
    }

    function State(): SchedulerState
      reads this
    {
      SchedulerState(started, shutDown, jobs)
    }

    predicate IsStarted()
      reads this
    {
      started
    }

    method Start() returns (o: Outcome<SchedulerError>)
      modifies this
      ensures o == if old(shutDown) then Fail(SchedulerShutDown) else Pass
      ensures State() == if old(shutDown) then old(State()) else old(State()).(started := true)
    {
      if shutDown {
        return Fail(SchedulerShutDown);
      }
      started := true;
      return Pass;
    }

    method CheckExists(jobKey: string) returns (r: Result<bool, SchedulerError>)
      ensures r == if shutDown then Failure(SchedulerShutDown) else Success(jobKey in jobs)
    {
      if shutDown {
        return Failure(SchedulerShutDown);
      }
      return Success(jobKey in jobs);
    }

    /** Removes a stored job and its triggers; tells whether one was found. */
    method DeleteJob(jobKey: string) returns (r: Result<bool, SchedulerError>)
      modifies this
      ensures r == if old(shutDown) then Failure(SchedulerShutDown) else Success(jobKey in old(jobs))
      ensures State() == if old(shutDown) then old(State()) else old(State()).(jobs := old(jobs) - {jobKey})
    {
      if shutDown {
        return Failure(SchedulerShutDown);
      }
      r := Success(jobKey in jobs);
      jobs := jobs - {jobKey};
    }

    /** Stores a new job with its trigger. */
    method ScheduleJob(jobKey: string, job: Job) returns (o: Outcome<SchedulerError>)
      modifies this
      ensures o == if old(shutDown) then Fail(SchedulerShutDown)
                   else if jobKey in old(jobs) then Fail(JobAlreadyExists(jobKey))
                   else Pass
      ensures State() == if o.Fail? then old(State()) else old(State()).(jobs := old(jobs)[jobKey := job])
    {
      if shutDown {
        return Fail(SchedulerShutDown);
      }
      if jobKey in jobs {
        return Fail(JobAlreadyExists(jobKey));
      }
      jobs := jobs[jobKey := job];
      return Pass;
    }
  }
}
