/**
 * DeleteStaleClientInfoJob: the Quartz job a put arms. When it fires it reads
 * the cache key from its job data, deletes that key from the cache once, and
 * logs the outcome: info when an entry was removed, a warning when the entry
 * was already gone. It never fails and never retries.
 */
module EvictionJob {
  import opened ClientInfoRecord
  import opened Scheduling
  import opened Cache

  datatype LogLevel = Info | Warn

  datatype LogLine = LogLine(level: LogLevel, message: string)

  /** The line execute logs for the job named name, given what delete answered. */
  function Report(name: string, removed: bool): (l: LogLine)
    ensures l.level == Info <==> removed
  {
    if removed then LogLine(Info, "client info deleted for job: " + name)
    else LogLine(Warn, "client info not found for job: " + name + ", nothing to delete.  ???")
  }

  /** execute on a map: one delete of the job's cache key, and the line logged. */
  function ExecuteStep(entries: map<string, ClientInfo>, name: string, job: Job): (map<string, ClientInfo>, LogLine) {
    var (m, removed) := DeleteStep(entries, job.cacheKey);
    (m, Report(name, removed))
  }

  /** execute, acting on the cache the job looks up. */
  method Execute(cache: CacheService, name: string, job: Job) returns (logged: LogLine)
    modifies cache
    ensures (cache.entries, logged) == ExecuteStep(old(cache.entries), name, job)
  {
    var removed := cache.Delete(job.cacheKey);
    logged := Report(name, removed);
  }

  /** After execute the job's key is absent, every other entry is as before,
      and the log level is info exactly when the key was present. */
  lemma ExecuteRemovesOnlyItsKey(entries: map<string, ClientInfo>, name: string, job: Job)
    ensures var (m, l) := ExecuteStep(entries, name, job);
            && job.cacheKey !in m
            && (forall k :: k != job.cacheKey ==> (k in m <==> k in entries))
            && (forall k :: k in m ==> m[k] == entries[k])
            && (l.level == Info <==> job.cacheKey in entries)
  {
  }

  /** A job whose entry was already deleted only logs a warning. */
  lemma ExecuteAfterDelete(entries: map<string, ClientInfo>, name: string, job: Job)
    requires job.cacheKey !in entries
    ensures ExecuteStep(entries, name, job) == (entries, LogLine(Warn, "client info not found for job: " + name + ", nothing to delete.  ???"))
  {
    assert entries - {job.cacheKey} == entries;
  }

  /** Running a job twice: the second run finds nothing and changes nothing. */
  lemma ExecuteTwice(entries: map<string, ClientInfo>, name: string, job: Job)
    ensures var (m1, _) := ExecuteStep(entries, name, job);
            var (m2, l2) := ExecuteStep(m1, name, job);
            m2 == m1 && l2.level == Warn
  {
    var (m1, _) := ExecuteStep(entries, name, job);
    ExecuteAfterDelete(m1, name, job);
  }

  /** The job a successful put arms, run under its own job-key name, evicts
      exactly that put's entry and reports it at info level. */
  lemma ArmedJobEvictsPutEntry(st: CacheState, c: ClientInfo, now: int, cfg: Config)
    requires CacheKey(c, cfg) !in st.entries
    ensures var (st', r) := PutStep(st, c, now, cfg);
            r.Success? ==>
              var name := JobKeyFor(r.value, cfg);
              var job := st'.scheduler.jobs[name];
              var (m, l) := ExecuteStep(st'.entries, name, job);
              m == st.entries && l == LogLine(Info, "client info deleted for job: " + name)
  {
    PutNewKey(st, c, now, cfg);
    var (st', r) := PutStep(st, c, now, cfg);
    if r.Success? {
      var key := CacheKey(c, cfg);
      assert st'.entries - {key} == st.entries;
    }
  }
}
