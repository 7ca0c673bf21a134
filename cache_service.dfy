/**
 * CacheService: the in-memory session store. A ClientInfo is stored under a
 * key derived from its toString text and a per-instance salt; storing a new
 * key arms a one-shot Quartz job that deletes the entry when the session's
 * bearer token expires (or a day after registration when the expiry cannot
 * be read from the token).
 *
 * The pure parts (expiry derivation, key derivation, get, exists, and the
 * state transitions of put and of job arming) are functions; the class
 * CacheService holds the map and a reference to the scheduler, and its
 * methods change them in place as the Java service does.
 */
module Cache {
  import opened Wrappers
  import opened JavaStrings
  import Base64
  import opened ClientInfoRecord
  import opened Scheduling

  /** Calendar.add(Calendar.DATE, 1), taken as 86400 seconds. */
  const OneDay := 86400

  const JobKeyPrefix := "deleteStaleClientInfoJob-"

  /** What JWTParser.parsePayload followed by Payload.getExpiresAt makes of a
      decoded payload: an exception, a null date (no "exp" claim), or the
      "exp" claim of section 4.1.4 of RFC 7519 in seconds since the epoch. */
  datatype PayloadExpiry = Unparseable | NoExpiry | ExpiresAt(seconds: int)

  /** The fixed collaborators of one CacheService instance: the salt drawn at
      construction, Base64 of SHA-512 (cache keys), Base64 of SHA-1 (job ids),
      and the JSON payload parser. */
  datatype Config = Config(
    salt: string,
    keyDigest: string -> string,
    jobDigest: string -> string,
    parsePayload: seq<Base64.byte> -> PayloadExpiry)

  /** ClientInfoNotFoundException, the RuntimeException wrapping a
      SchedulerException, and the IllegalArgumentException Quartz throws when
      a trigger is built with a null start time. */
  datatype CacheError =
    | ClientInfoNotFound(key: string)
    | SchedulingFailed(cause: SchedulerError)
    | TriggerWithoutStartTime

  // ---------------------------------------------------------------------------
  // Expiry derivation

  /** parts[1] of bearerToken.split("\\."), if there is such an element. */
  function PayloadSegment(token: string): (r: Option<string>)
    ensures r.Some? ==> '.' !in r.value
  {
    var parts := JavaSplit(token, '.');
    if |parts| >= 2 then Some(parts[1]) else None
  }

  function ExpiryOrFallback(e: PayloadExpiry, now: int): Option<int> {
    match e
    case Unparseable => Some(now + OneDay)
    case NoExpiry => None
    case ExpiresAt(t) => Some(t)
  }

  /** deriveExpirationTimestamp: the "exp" claim of the token's payload, or
      now + 1 day when any step throws. None is the null Date that
      getExpiresAt returns for a payload without "exp". */
  function DeriveExpirationTimestamp(bearerToken: string, now: int, parsePayload: seq<Base64.byte> -> PayloadExpiry): (r: Option<int>)
    ensures r.None? <==>
              && PayloadSegment(bearerToken).Some?
              && Base64.Decode(PayloadSegment(bearerToken).value).Some?
              && parsePayload(Base64.Decode(PayloadSegment(bearerToken).value).value) == NoExpiry
    ensures r.Some? && r.value != now + OneDay ==>
              && PayloadSegment(bearerToken).Some?
              && Base64.Decode(PayloadSegment(bearerToken).value).Some?
              && parsePayload(Base64.Decode(PayloadSegment(bearerToken).value).value) == ExpiresAt(r.value)
    ensures PayloadSegment(bearerToken).Some? && Base64.Decode(PayloadSegment(bearerToken).value).Some? ==>
              r == ExpiryOrFallback(parsePayload(Base64.Decode(PayloadSegment(bearerToken).value).value), now)
    ensures PayloadSegment(bearerToken).None? || Base64.Decode(PayloadSegment(bearerToken).value).None? ==>
              r == Some(now + OneDay)
  {
    match PayloadSegment(bearerToken)
    case None => Some(now + OneDay)
    case Some(segment) =>
      match Base64.Decode(segment)
      case None => Some(now + OneDay)
      case Some(payload) => ExpiryOrFallback(parsePayload(payload), now)
  }

  /** A payload segment holding any character outside the standard Base64
      alphabet other than '=' (a space, a '.', a base64url '-' or '_', a
      non-ASCII letter) makes the decoder throw, and the token gets the
      fallback. */
  lemma ExpirationOfForeignCharFallsBack(token: string, i: nat, now: int, parsePayload: seq<Base64.byte> -> PayloadExpiry)
    requires PayloadSegment(token).Some?
    requires i < |PayloadSegment(token).value|
    requires !Base64.InAlphabet(PayloadSegment(token).value[i]) && PayloadSegment(token).value[i] != '='
    ensures DeriveExpirationTimestamp(token, now, parsePayload) == Some(now + OneDay)
  {
    Base64.DecodeRefusesForeignChar(PayloadSegment(token).value, i);
  }

  /** Only the second '.'-separated segment is inspected. */
  lemma ExpirationReadsOnlyPayloadSegment(t1: string, t2: string, now: int, parsePayload: seq<Base64.byte> -> PayloadExpiry)
    requires PayloadSegment(t1) == PayloadSegment(t2)
    ensures DeriveExpirationTimestamp(t1, now, parsePayload) == DeriveExpirationTimestamp(t2, now, parsePayload)
  {
  }

  /** A token with fewer than two segments gets the fallback. */
  lemma ExpirationWithoutDotFallsBack(token: string, now: int, parsePayload: seq<Base64.byte> -> PayloadExpiry)
    requires '.' !in token
    ensures DeriveExpirationTimestamp(token, now, parsePayload) == Some(now + OneDay)
  {
    if token != "" {
      SplitWithoutSeparator(token, '.');
    }
    assert PayloadSegment(token).None?;
  }

  /** A payload segment in the URL-safe alphabet ('-' or '_') is refused by the
      standard decoder and gets the fallback. */
  lemma ExpirationOfUrlSafePayloadFallsBack(token: string, now: int, parsePayload: seq<Base64.byte> -> PayloadExpiry)
    requires PayloadSegment(token).Some?
    requires '-' in PayloadSegment(token).value || '_' in PayloadSegment(token).value
    ensures DeriveExpirationTimestamp(token, now, parsePayload) == Some(now + OneDay)
  {
    Base64.DecodeRefusesUrlSafe(PayloadSegment(token).value);
  }

  /** In header.e.signature with no '.' inside the three parts and e
      non-empty, the payload segment is e. */
  lemma CompactTokenPayloadSegment(header: string, e: string, signature: string)
    requires '.' !in header && '.' !in e && '.' !in signature && e != ""
    ensures PayloadSegment(header + "." + e + "." + signature) == Some(e)
  {
    var token := header + "." + e + "." + signature;
    assert token == header + ['.'] + (e + ['.'] + signature);
    SplitAtFirstSeparator(header, e + ['.'] + signature, '.');
    SplitAtFirstSeparator(e, signature, '.');
    SplitWithoutSeparator(signature, '.');
    var parts := Split(token, '.');
    assert parts == [header, e, signature];
    var kept := DropTrailingEmpty(parts);
    assert parts[1] != "";
    assert |kept| >= 2;
  }

  /** A compact token header.payload.signature whose payload is standard
      Base64 without padding yields what the parser makes of that payload. */
  lemma ExpirationOfCompactToken(header: string, payload: seq<Base64.byte>, signature: string, now: int,
                                 parsePayload: seq<Base64.byte> -> PayloadExpiry)
    requires '.' !in header && '.' !in signature
    requires |payload| > 0
    ensures DeriveExpirationTimestamp(header + "." + Base64.Encode(payload) + "." + signature, now, parsePayload)
            == ExpiryOrFallback(parsePayload(payload), now)
  {
    NoDotInEncoding(payload);
    CompactTokenPayloadSegment(header, Base64.Encode(payload), signature);
    Base64.DecodeEncode(payload);
  }

  lemma NoDotInEncoding(payload: seq<Base64.byte>)
    requires |payload| > 0
    ensures '.' !in Base64.Encode(payload) && Base64.Encode(payload) != ""
  {
    Base64.EncodedCharsInAlphabet(payload);
    assert !Base64.InAlphabet('.');
  }

  // ---------------------------------------------------------------------------
  // Keys

  /** Base64(SHA-512(clientInfo.toString() + salt)). */
  function CacheKey(c: ClientInfo, cfg: Config): string {
    cfg.keyDigest(ToString(c) + cfg.salt)
  }

  /** The job key name: a fixed prefix and Base64(SHA-1(cacheKey + salt)). */
  function JobKeyFor(cacheKey: string, cfg: Config): string {
    JobKeyPrefix + cfg.jobDigest(cacheKey + cfg.salt)
  }

  /** Records with the same text get the same key from the same instance. */
  lemma SameTextSameKey(a: ClientInfo, b: ClientInfo, cfg: Config)
    requires ToString(a) == ToString(b)
    ensures CacheKey(a, cfg) == CacheKey(b, cfg)
  {
  }

  ghost predicate Injective(f: string -> string) {
    forall x, y :: f(x) == f(y) ==> x == y
  }

  /** With a collision-free digest, equal keys mean equal texts. */
  lemma SameKeySameText(a: ClientInfo, b: ClientInfo, cfg: Config)
    requires Injective(cfg.keyDigest)
    requires CacheKey(a, cfg) == CacheKey(b, cfg)
    ensures ToString(a) == ToString(b)
  {
    var x, y := ToString(a) + cfg.salt, ToString(b) + cfg.salt;
    assert x == y;
    assert ToString(a) == x[..|ToString(a)|];
    assert ToString(b) == y[..|ToString(b)|];
  }

  // ---------------------------------------------------------------------------
  // Lookups

  /** get: the stored record, or ClientInfoNotFoundException. */
  function Get(entries: map<string, ClientInfo>, key: string): (r: Result<ClientInfo, CacheError>)
    ensures r.Success? <==> key in entries
    ensures r.Success? ==> r.value == entries[key]
    ensures r.Failure? ==> r.error == ClientInfoNotFound(key)
  {
    if key in entries then Success(entries[key]) else Failure(ClientInfoNotFound(key))
  }

  /** exists: plain membership, which is exactly when get does not throw. */
  function Exists(entries: map<string, ClientInfo>, key: string): (b: bool)
    ensures b <==> Get(entries, key).Success?
  {
    key in entries
  }

  // ---------------------------------------------------------------------------
  // State transitions of put

  datatype CacheState = CacheState(entries: map<string, ClientInfo>, scheduler: SchedulerState)

  /** setupDeleteStaleClientInfoJob on scheduler state s: derive the fire time,
      start the scheduler if needed, drop a stored job with the same job key,
      and store the new job. */
  function ArmStep(s: SchedulerState, c: ClientInfo, cacheKey: string, now: int, cfg: Config): (r: (SchedulerState, Outcome<CacheError>))
    ensures r.1.Pass? <==> DeriveExpirationTimestamp(c.bearerToken, now, cfg.parsePayload).Some? && !s.shutDown
    ensures r.1.Fail? ==> r.0 == s
    ensures r.1.Pass? ==> r.0.started && r.0.shutDown == s.shutDown && JobKeyFor(cacheKey, cfg) in r.0.jobs
                          && r.0.jobs[JobKeyFor(cacheKey, cfg)].cacheKey == cacheKey
                          && r.0.jobs.Keys == s.jobs.Keys + {JobKeyFor(cacheKey, cfg)}
                          && r.0.jobs[JobKeyFor(cacheKey, cfg)].fireAt == DeriveExpirationTimestamp(c.bearerToken, now, cfg.parsePayload).value
                          && (forall k :: k in s.jobs && k != JobKeyFor(cacheKey, cfg) ==> r.0.jobs[k] == s.jobs[k])
  {
    match DeriveExpirationTimestamp(c.bearerToken, now, cfg.parsePayload)
    case None => (s, Fail(TriggerWithoutStartTime))
    case Some(fireAt) =>
      if s.shutDown then (s, Fail(SchedulingFailed(SchedulerShutDown)))
      else (s.(started := true, jobs := s.jobs[JobKeyFor(cacheKey, cfg) := Job(cacheKey, fireAt)]), Pass)
  }

  /** put on state st: a new key is inserted and then armed; a present key
      changes nothing. */
  function PutStep(st: CacheState, c: ClientInfo, now: int, cfg: Config): (r: (CacheState, Result<string, CacheError>))
    ensures r.0.entries.Keys == st.entries.Keys + {CacheKey(c, cfg)}
    ensures r.1.Success? ==> r.1.value == CacheKey(c, cfg)
  {
    var key := CacheKey(c, cfg);
    if key in st.entries then (st, Success(key))
    else
      var (s', o) := ArmStep(st.scheduler, c, key, now, cfg);
      (CacheState(st.entries[key := c], s'), if o.Pass? then Success(key) else Failure(o.error))
  }

  /** delete on a map: the map without key, and whether key was there. */
  function DeleteStep(entries: map<string, ClientInfo>, key: string): (r: (map<string, ClientInfo>, bool))
    ensures r.1 <==> key in entries
    ensures key !in r.0
    ensures forall k :: k != key ==> (k in r.0 <==> k in entries)
    ensures forall k :: k in r.0 ==> r.0[k] == entries[k]
  {
    (entries - {key}, key in entries)
  }

  // ---------------------------------------------------------------------------
  // Properties of put, delete and arming

  /** Records with equal text get the same answer from put, whatever the
      state each put runs on. */
  lemma PutSameTextSameKey(st1: CacheState, st2: CacheState, a: ClientInfo, b: ClientInfo, now1: int, now2: int, cfg: Config)
    requires ToString(a) == ToString(b)
    ensures var (_, r1) := PutStep(st1, a, now1, cfg);
            var (_, r2) := PutStep(st2, b, now2, cfg);
            r1.Success? && r2.Success? ==> r1.value == r2.value
  {
    SameTextSameKey(a, b, cfg);
  }

  /** put of a new key inserts exactly that pair, keeps every other entry,
      and either arms exactly one job for the key (under its job key,
      replacing any job stored there, firing at the derived expiry) or fails
      with the scheduler untouched. */
  lemma PutNewKey(st: CacheState, c: ClientInfo, now: int, cfg: Config)
    requires CacheKey(c, cfg) !in st.entries
    ensures var key := CacheKey(c, cfg);
            var (st', r) := PutStep(st, c, now, cfg);
            var fireAt := DeriveExpirationTimestamp(c.bearerToken, now, cfg.parsePayload);
            && key in st'.entries && st'.entries[key] == c
            && st'.entries.Keys == st.entries.Keys + {key}
            && (forall k :: k in st.entries ==> st'.entries[k] == st.entries[k])
            && (r.Success? <==> fireAt.Some? && !st.scheduler.shutDown)
            && (r.Success? ==>
                  && r.value == key
                  && st'.scheduler.started
                  && st'.scheduler.jobs.Keys == st.scheduler.jobs.Keys + {JobKeyFor(key, cfg)}
                  && st'.scheduler.jobs[JobKeyFor(key, cfg)] == Job(key, fireAt.value)
                  && (forall jk :: jk in st.scheduler.jobs && jk != JobKeyFor(key, cfg) ==>
                        st'.scheduler.jobs[jk] == st.scheduler.jobs[jk]))
            && (r.Failure? ==>
                  && st'.scheduler == st.scheduler
                  && r.error == (if fireAt.None? then TriggerWithoutStartTime else SchedulingFailed(SchedulerShutDown)))
  {
  }

  /** put of a key already present changes nothing and still answers the key. */
  lemma PutExistingKey(st: CacheState, c: ClientInfo, now: int, cfg: Config)
    requires CacheKey(c, cfg) in st.entries
    ensures PutStep(st, c, now, cfg) == (st, Success(CacheKey(c, cfg)))
  {
  }

  /** After put, whether it armed a job or failed, the key is present and get
      succeeds on it. */
  lemma PutThenGet(st: CacheState, c: ClientInfo, now: int, cfg: Config)
    ensures var (st', _) := PutStep(st, c, now, cfg);
            Exists(st'.entries, CacheKey(c, cfg)) && Get(st'.entries, CacheKey(c, cfg)).Success?
  {
  }

  /** A second put of the same record is a no-op that answers the key, also
      when the first failed: the retry arms nothing. */
  lemma PutTwice(st: CacheState, c: ClientInfo, now1: int, now2: int, cfg: Config)
    ensures var (st1, _) := PutStep(st, c, now1, cfg);
            PutStep(st1, c, now2, cfg) == (st1, Success(CacheKey(c, cfg)))
  {
    var (st1, _) := PutStep(st, c, now1, cfg);
    PutThenGet(st, c, now1, cfg);
    PutExistingKey(st1, c, now2, cfg);
  }

  /** A put whose arming fails leaves the new entry in the map with no job
      stored for it, and a retry does not arm one either. */
  lemma FailedPutLeavesEntryUnarmed(st: CacheState, c: ClientInfo, now1: int, now2: int, cfg: Config)
    requires CacheKey(c, cfg) !in st.entries
    requires JobKeyFor(CacheKey(c, cfg), cfg) !in st.scheduler.jobs
    ensures var (st1, r1) := PutStep(st, c, now1, cfg);
            r1.Failure? ==>
              && CacheKey(c, cfg) in st1.entries
              && JobKeyFor(CacheKey(c, cfg), cfg) !in st1.scheduler.jobs
              && var (st2, r2) := PutStep(st1, c, now2, cfg);
                 r2 == Success(CacheKey(c, cfg)) && JobKeyFor(CacheKey(c, cfg), cfg) !in st2.scheduler.jobs
  {
    PutNewKey(st, c, now1, cfg);
    PutTwice(st, c, now1, now2, cfg);
  }

  /** Every stored record sits under the key derived from it. */
  ghost predicate KeysDerived(entries: map<string, ClientInfo>, cfg: Config) {
    forall k :: k in entries ==> CacheKey(entries[k], cfg) == k
  }

  /** Every stored job sits under the job key derived from its cache key. */
  ghost predicate JobsKeyed(jobs: map<string, Job>, cfg: Config) {
    forall jk :: jk in jobs ==> JobKeyFor(jobs[jk].cacheKey, cfg) == jk
  }

  ghost predicate Valid(st: CacheState, cfg: Config) {
    KeysDerived(st.entries, cfg) && JobsKeyed(st.scheduler.jobs, cfg)
  }

  /** A fresh service with a scheduler holding no jobs starts valid. */
  lemma InitialValid(cfg: Config, shutDown: bool)
    ensures Valid(CacheState(map[], SchedulerState(false, shutDown, map[])), cfg)
  {
  }

  lemma ArmStepKeepsJobsKeyed(s: SchedulerState, c: ClientInfo, cacheKey: string, now: int, cfg: Config)
    requires JobsKeyed(s.jobs, cfg)
    ensures JobsKeyed(ArmStep(s, c, cacheKey, now, cfg).0.jobs, cfg)
  {
  }

  lemma PutStepKeepsValid(st: CacheState, c: ClientInfo, now: int, cfg: Config)
    requires Valid(st, cfg)
    ensures Valid(PutStep(st, c, now, cfg).0, cfg)
  {
    ArmStepKeepsJobsKeyed(st.scheduler, c, CacheKey(c, cfg), now, cfg);
  }

  lemma DeleteStepKeepsKeysDerived(entries: map<string, ClientInfo>, key: string, cfg: Config)
    requires KeysDerived(entries, cfg)
    ensures KeysDerived(DeleteStep(entries, key).0, cfg)
  {
  }

  /** In a valid scheduler state two jobs for the same cache key are the same
      job: arming never leaves a second job behind. */
  lemma AtMostOneJobPerCacheKey(jobs: map<string, Job>, cfg: Config, j1: string, j2: string)
    requires JobsKeyed(jobs, cfg)
    requires j1 in jobs && j2 in jobs && jobs[j1].cacheKey == jobs[j2].cacheKey
    ensures j1 == j2
  {
  }

  /** Arming over a stored job with the same job key replaces it: only the
      new job's cache key remains under that key. When two cache keys share a
      job key (a digest collision), the older entry loses its eviction job. */
  lemma ArmingReplacesCollidingJob(s: SchedulerState, c: ClientInfo, k1: string, k2: string, now: int, cfg: Config)
    requires JobKeyFor(k1, cfg) == JobKeyFor(k2, cfg) && k1 != k2
    requires JobKeyFor(k1, cfg) in s.jobs && s.jobs[JobKeyFor(k1, cfg)].cacheKey == k1
    ensures var (s', o) := ArmStep(s, c, k2, now, cfg);
            o.Pass? ==> JobKeyFor(k1, cfg) in s'.jobs && s'.jobs[JobKeyFor(k1, cfg)].cacheKey == k2
                        && |s'.jobs| == |s.jobs|
  {
  }

  /** With a collision-free key digest, put answers the key of the very
      record stored under it: a present key holds a record with the same
      text, which for quote-free fields is the same record. */
  lemma PutThenGetSameRecord(st: CacheState, c: ClientInfo, now: int, cfg: Config)
    requires Valid(st, cfg) && Injective(cfg.keyDigest)
    requires FieldsQuoteFree(c)
    requires forall k :: k in st.entries ==> FieldsQuoteFree(st.entries[k])
    ensures var (st', _) := PutStep(st, c, now, cfg);
            Get(st'.entries, CacheKey(c, cfg)) == Success(c)
  {
    var key := CacheKey(c, cfg);
    if key in st.entries {
      var d := st.entries[key];
      SameKeySameText(d, c, cfg);
      ToStringInjective(d, c);
    }
  }

  /** delete removes only the key; an immediate second delete finds nothing,
      changes nothing and does not fail. */
  lemma DeleteIdempotent(entries: map<string, ClientInfo>, key: string)
    ensures var (m1, _) := DeleteStep(entries, key);
            DeleteStep(m1, key) == (m1, false)
  {
    var m1 := entries - {key};
    assert m1 - {key} == m1;
  }

  class CacheService {
    var entries: map<string, ClientInfo>
    const cfg: Config
    const scheduler: Scheduler

    constructor (cfg: Config, scheduler: Scheduler)
      ensures entries == map[] && this.cfg == cfg && this.scheduler == scheduler
    {
      entries := map[];
      this.cfg := cfg;
      this.scheduler := scheduler;
    }

    function State(): CacheState
      reads this, scheduler
    {
      CacheState(entries, scheduler.State())
    }

    method Put(c: ClientInfo, now: int) returns (r: Result<string, CacheError>)
      modifies this, scheduler
      ensures (State(), r) == PutStep(old(State()), c, now, cfg)
    {
      var key := CacheKey(c, cfg);
      if key !in entries {
        entries := entries[key := c];
        var armed := SetupDeleteStaleClientInfoJob(c, key, now);
        if armed.Fail? {
          return Failure(armed.error);
        }
      }
      return Success(key);
    }

    /** delete: removes the key and tells whether it was there. */
    method Delete(key: string) returns (removed: bool)
      modifies this
      ensures (entries, removed) == DeleteStep(old(entries), key)
    {
      removed := key in entries;
      entries := entries - {key};
    }

    method SetupDeleteStaleClientInfoJob(c: ClientInfo, cacheKey: string, now: int) returns (o: Outcome<CacheError>)
      modifies scheduler
      ensures (scheduler.State(), o) == ArmStep(old(scheduler.State()), c, cacheKey, now, cfg)
    {
      var shutdownTimestamp := DeriveExpirationTimestamp(c.bearerToken, now, cfg.parsePayload);
      var jobKey := JobKeyFor(cacheKey, cfg);
      if shutdownTimestamp.None? {
        return Fail(TriggerWithoutStartTime);
      }
      var job := Job(cacheKey, shutdownTimestamp.value);
      ghost var before := scheduler.State();
      if !scheduler.IsStarted() {
        var started := scheduler.Start();
        if started.Fail? {
          return Fail(SchedulingFailed(started.error));
        }
      }
      var found := scheduler.CheckExists(jobKey);
      if found.Failure? {
        return Fail(SchedulingFailed(found.error));
      }
      if found.value {
        var deleted := scheduler.DeleteJob(jobKey);
        // The scheduler answered the lookup, so it is not shut down and the
        // removal goes through.
        if deleted.Failure? {
          assert false;
        }
      }
      var scheduled := scheduler.ScheduleJob(jobKey, job);
      // The key is free now, so storing the job goes through.
      if scheduled.Fail? {
        assert false;
      }
      assert scheduler.jobs == before.jobs[jobKey := job];
      return Pass;
    }
  }
}
