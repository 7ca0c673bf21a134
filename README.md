# fhir-proxy session cache and request helpers, in Dafny

This project models the core of fhir-proxy, a Spring service that stands
between FHIR clients and upstream FHIR servers:

- **the session cache** (`CacheService`): a map from a salted digest of a
  `ClientInfo` record's `toString()` text to the record; a new entry arms a
  one-shot Quartz job that deletes it when the session's bearer token expires,
  where the expiry is read from the token's JWT payload with a fallback of
  one day;
- **the eviction job** (`DeleteStaleClientInfoJob`), which deletes one key
  and logs whether it found it;
- **the `ClientInfo` record** and its `toString` serialisation;
- **the controller helpers** (`ProxyController`): extraction of the bearer
  token from the Authorization header, the `_format` and `_pretty`
  parameters, the Content-Type header, the status code each exception
  becomes, and the four operations that are not implemented;
- **`ProxyService.search`**: the search path and the aggregation of result
  pages under a page limit;
- **`FhirUtil.getPatientSearchKeyForResource`**.

Modules follow the Java classes: `ClientInfoRecord`, `Cache` (with the class
`Cache.CacheService`), `Scheduling` (the part of the Quartz scheduler the cache
uses, as abstract state), `EvictionJob`, `ProxyController`, `ProxyService` and
`FhirUtil`. Three helper modules hold the library behaviour the code relies on:
`Wrappers` (Option, Result, Outcome), `JavaStrings` (`StringUtils.isBlank`,
`equalsIgnoreCase`, `String.split` on one character with trailing empty strings
removed, `StringUtils.join`) and `Base64` (the `java.util.Base64` basic decoder:
standard alphabet, optional padding; with an unpadded encoder as its inverse).

The state-changing code is imperative Dafny. `CacheService.Put`,
`CacheService.Delete` and `CacheService.SetupDeleteStaleClientInfoJob` change the
map field and the scheduler object in place. Their postconditions tie the new
state to the value-level steps `PutStep`, `DeleteStep` and `ArmStep`, and the
lemmas about those steps carry the properties. The search loops
(`ProxyService.SearchPath`, `ProxyService.Search`) are loops proved against
specification functions. The controller handler builds a mutable `HttpHeaders`.

The SHA-512 and SHA-1 digests, the instance salt and the JWT payload parser are
fields of a `Cache.Config` value, so every property holds for any digest, salt
and parser. Where a property needs a collision-free digest, it takes this as an
explicit precondition (`Cache.Injective`). The clock is a parameter `now`, in
seconds, and `Calendar.add(DATE, 1)` is 86400 seconds. The upstream FHIR server
is also a parameter: a function from the session to a resource or a fault in the
handler, and the given sequence of pages in search.

The code behaves as follows where JWTs or callers might expect otherwise:

- The payload segment is decoded with the standard Base64 decoder, which refuses
  the base64url characters '-' and '_' that JWTs use. Such a token gets the
  one-day fallback (`Cache.ExpirationOfUrlSafePayloadFallsBack`).
- A payload without an `exp` claim makes `getExpiresAt()` return null rather
  than throw, so no fallback applies. The trigger is then built with a null
  start time. Quartz refuses this with an `IllegalArgumentException`, before the
  `try` block and after the entry was inserted. `put` fails, the entry stays
  without a job, and a retry returns the key without arming one
  (`Cache.FailedPutLeavesEntryUnarmed`).
- A scheduler failure also leaves the inserted entry in the map.
- `toString` does not determine the record in general
  (`ClientInfoRecord.ToStringNotInjective`). It does so only when no field holds
  a quote (`ClientInfoRecord.ToStringInjective`).

## Model

| member | source | states |
|---|---|---|
| ClientInfoRecord.ToString | src/main/java/edu/ohsu/cmp/fhirproxy/model/ClientInfo.java:19-26 | the text is `ClientInfo{clientId='…', serverUrl='…', bearerToken='…', patientId='…', userId='…'}`: it opens with the client-id label, closes with `'}`, and is exactly as long as the five labels, the closing and the five fields together |
| ClientInfoRecord.ParseToString | src/main/java/edu/ohsu/cmp/fhirproxy/model/ClientInfo.java:19-26 | the toString text of a record whose fields hold no quote parses back to the record |
| ClientInfoRecord.ToStringInjective | src/main/java/edu/ohsu/cmp/fhirproxy/model/ClientInfo.java:19-26 | quote-free records with equal toString text are equal |
| ClientInfoRecord.ToStringNotInjective | src/main/java/edu/ohsu/cmp/fhirproxy/model/ClientInfo.java:20-22 | a client id ending in "', serverUrl='…" gives two different records with the same text |
| ClientInfoRecord.BearerTokenVerbatim | src/main/java/edu/ohsu/cmp/fhirproxy/model/ClientInfo.java:23 | the bearer token appears verbatim right after its tag |
| JavaStrings.Split | src/main/java/edu/ohsu/cmp/fhirproxy/service/CacheService.java:120 | the pieces of a text between separators hold no separator, and joining them with it gives the text back; `JavaStrings.JavaSplit` then drops the trailing empty pieces as String.split does |
| Base64.Decode | src/main/java/edu/ohsu/cmp/fhirproxy/service/CacheService.java:121 | the basic decoder with padding optional and non-canonical trailing bits accepted: any accepted text has a length that is not 1 more than a multiple of 4, and an accepted text without '=' yields the floor of 6 bits per character in bytes |
| Base64.DecodeEncode | src/main/java/edu/ohsu/cmp/fhirproxy/service/CacheService.java:121 | the standard decoder undoes unpadded standard encoding of any byte sequence |
| Base64.DecodeRefusesUrlSafe | src/main/java/edu/ohsu/cmp/fhirproxy/service/CacheService.java:121 | a text holding '-' or '_' makes the decoder throw |
| Base64.DecodeRefusesForeignChar | src/main/java/edu/ohsu/cmp/fhirproxy/service/CacheService.java:121 | a character outside the standard alphabet other than '=' anywhere in the text makes the decoder throw |
| Cache.DeriveExpirationTimestamp | src/main/java/edu/ohsu/cmp/fhirproxy/service/CacheService.java:118-135 | whenever the second segment exists and decodes, the result is the parser's exp claim, null for a payload without exp, or now + 1 day when the parser throws; a missing or undecodable segment gives now + 1 day; null arises only from a decodable payload without exp |
| Cache.PayloadSegment | src/main/java/edu/ohsu/cmp/fhirproxy/service/CacheService.java:120-121 | element 1 of the Java split on '.' with trailing empty strings dropped, absent when the split has fewer than two elements; a present segment never holds a '.' |
| Cache.ExpirationReadsOnlyPayloadSegment | src/main/java/edu/ohsu/cmp/fhirproxy/service/CacheService.java:120-121 | tokens with the same second segment get the same expiry |
| Cache.ExpirationWithoutDotFallsBack | src/main/java/edu/ohsu/cmp/fhirproxy/service/CacheService.java:120-121 | a token without '.' has no parts[1] and gets now + 1 day |
| Cache.ExpirationOfUrlSafePayloadFallsBack | src/main/java/edu/ohsu/cmp/fhirproxy/service/CacheService.java:121 | a base64url payload segment gets now + 1 day |
| Cache.ExpirationOfForeignCharFallsBack | src/main/java/edu/ohsu/cmp/fhirproxy/service/CacheService.java:120-121 | a payload segment holding any character outside the standard alphabet other than '=' gets now + 1 day |
| Cache.ExpirationOfCompactToken | src/main/java/edu/ohsu/cmp/fhirproxy/service/CacheService.java:120-124 | for header.payload.signature with a standard-Base64 payload, the expiry is what the parser reads from that payload |
| Cache.NoDotInEncoding | src/main/java/edu/ohsu/cmp/fhirproxy/service/CacheService.java:120 | an encoded payload is non-empty and holds no '.', so split keeps it whole |
| Cache.CacheKey | src/main/java/edu/ohsu/cmp/fhirproxy/service/CacheService.java:41 | computes the digest of toString() + salt; its properties are SameTextSameKey and SameKeySameText |
| Cache.JobKeyFor | src/main/java/edu/ohsu/cmp/fhirproxy/service/CacheService.java:76-78 | computes "deleteStaleClientInfoJob-" + the digest of cacheKey + salt; AtMostOneJobPerCacheKey and ArmingReplacesCollidingJob are about it |
| Cache.SameTextSameKey | src/main/java/edu/ohsu/cmp/fhirproxy/service/CacheService.java:41 | records with equal toString text get equal keys |
| Cache.SameKeySameText | src/main/java/edu/ohsu/cmp/fhirproxy/service/CacheService.java:41 | with a collision-free digest, equal keys mean equal texts |
| Cache.Get | src/main/java/edu/ohsu/cmp/fhirproxy/service/CacheService.java:52-58 | succeeds exactly when the key exists, with the stored record; otherwise ClientInfoNotFound for that key |
| Cache.Exists | src/main/java/edu/ohsu/cmp/fhirproxy/service/CacheService.java:36-38 | exists holds exactly when get does not throw |
| Cache.DeleteStep | src/main/java/edu/ohsu/cmp/fhirproxy/service/CacheService.java:60-62 | answers whether the key was present, removes it and keeps every other entry |
| Cache.ArmStep | src/main/java/edu/ohsu/cmp/fhirproxy/service/CacheService.java:68-116 | arming succeeds exactly when an expiry is derived and the scheduler is not shut down; a failure leaves the scheduler unchanged; a success starts it and stores under the job key one job for the cache key that fires at the derived expiry, adding only that key and keeping every other job as it was and the scheduler not shut down |
| Cache.PutStep | src/main/java/edu/ohsu/cmp/fhirproxy/service/CacheService.java:40-50 | put always leaves the derived key in the map and adds no other key; a successful put answers the derived key, as line 49 does |
| Cache.PutSameTextSameKey | src/main/java/edu/ohsu/cmp/fhirproxy/service/CacheService.java:41 | puts of records with equal text answer the same key, from any states |
| Cache.PutNewKey | src/main/java/edu/ohsu/cmp/fhirproxy/service/CacheService.java:43-47 | a new key inserts exactly that pair; on success the scheduler is started and exactly one job (firing at the derived expiry) is stored under the job key, other jobs unchanged; on failure the scheduler is unchanged and the error says why |
| Cache.PutExistingKey | src/main/java/edu/ohsu/cmp/fhirproxy/service/CacheService.java:43-49 | a present key leaves map and scheduler unchanged and answers the key |
| Cache.PutThenGet | src/main/java/edu/ohsu/cmp/fhirproxy/service/CacheService.java:43-45 | after put, successful or not, exists(key) holds and get(key) succeeds |
| Cache.PutTwice | src/main/java/edu/ohsu/cmp/fhirproxy/service/CacheService.java:43-49 | a second put of the same record changes nothing and answers the key |
| Cache.FailedPutLeavesEntryUnarmed | src/main/java/edu/ohsu/cmp/fhirproxy/service/CacheService.java:44-46 | a put whose arming fails leaves the entry without a job, and a retry does not arm one |
| Cache.ArmStepKeepsJobsKeyed | src/main/java/edu/ohsu/cmp/fhirproxy/service/CacheService.java:76-111 | arming keeps every job under the job key derived from its cache key |
| Cache.PutStepKeepsValid | src/main/java/edu/ohsu/cmp/fhirproxy/service/CacheService.java:40-50 | put keeps entries under their derived keys and jobs under their derived job keys |
| Cache.DeleteStepKeepsKeysDerived | src/main/java/edu/ohsu/cmp/fhirproxy/service/CacheService.java:60-62 | delete keeps entries under their derived keys |
| Cache.InitialValid | src/main/java/edu/ohsu/cmp/fhirproxy/service/CacheService.java:31-34 | an empty map with a scheduler holding no jobs satisfies both invariants |
| Cache.AtMostOneJobPerCacheKey | src/main/java/edu/ohsu/cmp/fhirproxy/service/CacheService.java:76-78 | in a valid scheduler state two jobs for one cache key are the same job |
| Cache.ArmingReplacesCollidingJob | src/main/java/edu/ohsu/cmp/fhirproxy/service/CacheService.java:102-111 | arming over a stored job with the same job key replaces it, so the job count stays the same |
| Cache.PutThenGetSameRecord | src/main/java/edu/ohsu/cmp/fhirproxy/service/CacheService.java:40-58 | with a collision-free digest and quote-free records, get(put(c)) is c itself |
| Cache.DeleteIdempotent | src/main/java/edu/ohsu/cmp/fhirproxy/service/CacheService.java:60-62 | a second delete of the same key answers false and changes nothing |
| Cache.CacheService.constructor | src/main/java/edu/ohsu/cmp/fhirproxy/service/CacheService.java:31-34 | a new service has an empty map |
| Cache.CacheService.Put | src/main/java/edu/ohsu/cmp/fhirproxy/service/CacheService.java:40-50 | the new map and scheduler state and the answer are those of PutStep |
| Cache.CacheService.Delete | src/main/java/edu/ohsu/cmp/fhirproxy/service/CacheService.java:60-62 | the new map and the answer are those of DeleteStep |
| Cache.CacheService.SetupDeleteStaleClientInfoJob | src/main/java/edu/ohsu/cmp/fhirproxy/service/CacheService.java:68-116 | the new scheduler state and the outcome are those of ArmStep: start if needed, delete an existing job, schedule the new one |
| Scheduling.Scheduler.Start | src/main/java/edu/ohsu/cmp/fhirproxy/service/CacheService.java:98-100 | starting sets the started flag, or fails on a shut-down scheduler |
| Scheduling.Scheduler.CheckExists | src/main/java/edu/ohsu/cmp/fhirproxy/service/CacheService.java:102 | answers whether a job is stored under the key, or fails when shut down |
| Scheduling.Scheduler.DeleteJob | src/main/java/edu/ohsu/cmp/fhirproxy/service/CacheService.java:107 | removes the job stored under the key |
| Scheduling.Scheduler.ScheduleJob | src/main/java/edu/ohsu/cmp/fhirproxy/service/CacheService.java:111 | stores the job, refusing a key already stored |
| EvictionJob.Report | src/main/java/edu/ohsu/cmp/fhirproxy/DeleteStaleClientInfoJob.java:31-35 | the level logged is info exactly when delete answered true |
| EvictionJob.ExecuteStep | src/main/java/edu/ohsu/cmp/fhirproxy/DeleteStaleClientInfoJob.java:28-35 | one delete of the job's cache key and the line Report gives for its answer; its properties are the Execute lemmas |
| EvictionJob.Execute | src/main/java/edu/ohsu/cmp/fhirproxy/DeleteStaleClientInfoJob.java:21-36 | the cache map and the logged line are those of one delete of the job's cache key |
| EvictionJob.ExecuteRemovesOnlyItsKey | src/main/java/edu/ohsu/cmp/fhirproxy/DeleteStaleClientInfoJob.java:28-35 | afterwards the job's key is absent, every other entry unchanged, and the level is info iff the key was present |
| EvictionJob.ExecuteAfterDelete | src/main/java/edu/ohsu/cmp/fhirproxy/DeleteStaleClientInfoJob.java:33-35 | when the key is already gone, the map is unchanged and only a warning is logged |
| EvictionJob.ExecuteTwice | src/main/java/edu/ohsu/cmp/fhirproxy/DeleteStaleClientInfoJob.java:31-35 | a second run changes nothing and warns |
| EvictionJob.ArmedJobEvictsPutEntry | src/main/java/edu/ohsu/cmp/fhirproxy/DeleteStaleClientInfoJob.java:28-31 | the job a successful put arms, run under its job-key name, removes exactly the entry that put added and logs the info line for that name |
| ProxyController.ExtractBearerToken | src/main/java/edu/ohsu/cmp/fhirproxy/controller/ProxyController.java:432-444 | succeeds exactly on a header that starts with "Bearer " followed by a non-blank rest; then "Bearer " + result is the header and the result is non-blank; a blank or null header fails as blank |
| ProxyController.ExtractBearerTokenOfHeader | src/main/java/edu/ohsu/cmp/fhirproxy/controller/ProxyController.java:439-443 | "Bearer " + t gives t back for every non-blank t |
| ProxyController.ExtractBearerTokenIsCaseSensitive | src/main/java/edu/ohsu/cmp/fhirproxy/controller/ProxyController.java:436-437 | "bearer " + t is refused as not a bearer token |
| ProxyController.ExtractBearerTokenRefusesBlankToken | src/main/java/edu/ohsu/cmp/fhirproxy/controller/ProxyController.java:439-441 | "Bearer " followed by whitespace only is refused as a blank token |
| ProxyController.DoEncodeJson | src/main/java/edu/ohsu/cmp/fhirproxy/controller/ProxyController.java:398-404 | non-blank and equal ignoring case to json, application/json or application/fhir+json; characterised by FormatChoice |
| ProxyController.DoEncodeRdf | src/main/java/edu/ohsu/cmp/fhirproxy/controller/ProxyController.java:407-413 | no turtle alias is also a JSON alias |
| ProxyController.DoEncodeXml | src/main/java/edu/ohsu/cmp/fhirproxy/controller/ProxyController.java:416-423 | no XML alias is also a JSON alias; XmlAliasesSelectXml shows every XML alias selects XML |
| ProxyController.ContentTypeFor | src/main/java/edu/ohsu/cmp/fhirproxy/controller/ProxyController.java:372-380 | the Content-Type value is always one of the three FHIR media types |
| ProxyController.EncodeResponse | src/main/java/edu/ohsu/cmp/fhirproxy/controller/ProxyController.java:382-395 | the encoder chosen always agrees with the Content-Type header chosen for the same _format |
| ProxyController.DoPrettyPrint | src/main/java/edu/ohsu/cmp/fhirproxy/controller/ProxyController.java:425-428 | non-blank and equal to "true" ignoring case; PrettyIffTrue shows the blank test is redundant |
| ProxyController.FormatChoice | src/main/java/edu/ohsu/cmp/fhirproxy/controller/ProxyController.java:382-394 | JSON iff _format is absent, blank or a JSON alias; RDF iff a turtle alias; XML iff neither |
| ProxyController.XmlAliasesSelectXml | src/main/java/edu/ohsu/cmp/fhirproxy/controller/ProxyController.java:416-423 | every alias doEncodeXml accepts selects XML |
| ProxyController.FormatIgnoresAsciiCase | src/main/java/edu/ohsu/cmp/fhirproxy/controller/ProxyController.java:398-413 | ASCII _format values with the same lower-case form select the same format |
| ProxyController.PrettyIffTrue | src/main/java/edu/ohsu/cmp/fhirproxy/controller/ProxyController.java:425-428 | pretty printing is on iff _pretty equals "true" ignoring case |
| ProxyController.AppendContentTypeResponseHeader | src/main/java/edu/ohsu/cmp/fhirproxy/controller/ProxyController.java:372-380 | appends exactly one Content-Type header, the one for the _format value |
| ProxyController.Handle | src/main/java/edu/ohsu/cmp/fhirproxy/controller/ProxyController.java:58-93 | Content-Type first, matching the encoding; a malformed header gives 500 with its message; a cache miss gives 403 "invalid authorization"; an upstream server exception passes its status through; any other exception gives 500; success gives 200, with ETag and Last-Modified for read and vread, and a null last-updated time gives 500 with the ETag already added |
| ProxyController.Update | src/main/java/edu/ohsu/cmp/fhirproxy/controller/ProxyController.java:168 | always fails with NotImplementedException("update not implemented") |
| ProxyController.Patch | src/main/java/edu/ohsu/cmp/fhirproxy/controller/ProxyController.java:186 | always fails with NotImplementedException("patch not implemented") |
| ProxyController.Delete | src/main/java/edu/ohsu/cmp/fhirproxy/controller/ProxyController.java:202 | always fails with NotImplementedException("delete not implemented") |
| ProxyController.Create | src/main/java/edu/ohsu/cmp/fhirproxy/controller/ProxyController.java:218 | always fails with NotImplementedException("create not implemented") |
| ProxyService.SearchPath | src/main/java/edu/ohsu/cmp/fhirproxy/service/ProxyService.java:60-66 | the loop builds resourceType + "?" + the key=value strings joined by "&" |
| ProxyService.QueryPath | src/main/java/edu/ohsu/cmp/fhirproxy/service/ProxyService.java:66 | the path starts with resourceType + "?" and, with parameters, continues with exactly the key=value strings joined by "&" |
| ProxyService.QueryPathWithoutParams | src/main/java/edu/ohsu/cmp/fhirproxy/service/ProxyService.java:66 | no parameters leave a trailing "?" |
| ProxyService.QueryPathRoundTrip | src/main/java/edu/ohsu/cmp/fhirproxy/service/ProxyService.java:60-66 | with no '&' or '=' in keys and values, the query splits back into the parameters in order |
| ProxyService.PagesUsed | src/main/java/edu/ohsu/cmp/fhirproxy/service/ProxyService.java:77-99 | between one page and all pages of the chain |
| ProxyService.SearchResult | src/main/java/edu/ohsu/cmp/fhirproxy/service/ProxyService.java:75-108 | the first page, or a new searchset of the entries of the first PagesUsed pages with the first page's total; its properties are the lemmas below |
| ProxyService.Search | src/main/java/edu/ohsu/cmp/fhirproxy/service/ProxyService.java:75-108 | the loop returns the first page, or a searchset of the entries of the first PagesUsed pages with the first page's total |
| ProxyService.SinglePageUnchanged | src/main/java/edu/ohsu/cmp/fhirproxy/service/ProxyService.java:77-78 | no next link or a limit of 1 return the first bundle unchanged |
| ProxyService.UnlimitedSearchGathersAllPages | src/main/java/edu/ohsu/cmp/fhirproxy/service/ProxyService.java:88-96 | a null or 0 limit gathers the entries of every page, in order |
| ProxyService.LimitBoundsPagesUsed | src/main/java/edu/ohsu/cmp/fhirproxy/service/ProxyService.java:94-99 | a limit of at least 2 bounds the pages used, which stop at the limit or the last page |
| ProxyService.NegativeLimitStopsAfterSecondPage | src/main/java/edu/ohsu/cmp/fhirproxy/service/ProxyService.java:94-99 | a negative limit uses exactly the first two pages |
| ProxyService.CompositeBundleShape | src/main/java/edu/ohsu/cmp/fhirproxy/service/ProxyService.java:102-107 | the composite is a searchset with the first page's total and no next link |
| ProxyService.FlattenPrefix | src/main/java/edu/ohsu/cmp/fhirproxy/service/ProxyService.java:83-93 | the entries of the first n pages are a prefix of all entries |
| ProxyService.HigherLimitGathersMore | src/main/java/edu/ohsu/cmp/fhirproxy/service/ProxyService.java:86-99 | a higher limit gathers a longer prefix of the same entries |
| FhirUtil.GetPatientSearchKeyForResource | src/main/java/edu/ohsu/cmp/fhirproxy/util/FhirUtil.java:44-50 | always "patient" or "subject"; "patient" iff the type equals "Immunization" ignoring case, never for null |
| FhirUtil.PatientKeyForAsciiType | src/main/java/edu/ohsu/cmp/fhirproxy/util/FhirUtil.java:45-46 | for ASCII types, "patient" iff the lower-case type is "immunization" |
| FhirUtil.PatientKeyForDottedCapitalI | src/main/java/edu/ohsu/cmp/fhirproxy/util/FhirUtil.java:45-46 | non-ASCII spellings with U+0130 or U+0131 for an 'i' also select "patient" |

`ClientInfo`'s getters are the datatype's destructors, so each returns its
constructor argument and a record never changes.

## Left out

- Concurrency: the unsynchronised `HashMap` and Quartz's worker threads are not modelled; every operation runs alone.
- Logging is left out, except for the line the eviction job logs, because that line is its only outcome.
- The SHA-512 and SHA-1 digests, the Base64 encoding of digests, the random salt (`CryptoUtil.randomBytes`) and the `JWTParser` JSON parsing are parameters in `Cache.Config`. No property of the real hash functions is claimed.
- Cache.DeriveExpirationTimestamp: takes the parser's answer as given; which JSON texts the parser refuses is not modelled.
- The wall clock is the parameter `now`; a calendar day is 86400 seconds, ignoring daylight-saving changes.
- The `new String(bytes, UTF_8)` step between decoding and parsing is part of the parser parameter.
- Quartz is reduced to a started flag, a shut-down flag and the stored jobs. A failing scheduler is a shut-down one, which fails every call. Trigger identities, job descriptions, the `ApplicationContext` in the job data, the unused `JobDetailFactoryBean` and the firing of jobs at their time are left out.
- Cache.CacheService.SetupDeleteStaleClientInfoJob: the case where the scheduler fails between its own calls is not modelled, because the shut-down flag is fixed for the duration of one call.
- Null fields of `ClientInfo` (which `toString` prints as "null") are not modelled; fields are strings.
- HAPI FHIR encoding (`FhirUtil.toJson`, `toXml`, `toRDF`) and client building (`FhirUtil.buildClient`), `ProxyService.read` and `vread` and all network access are left out. The upstream answer is a parameter of `ProxyController.Handle`, and the pages are a parameter of `ProxyService.Search`.
- ProxyController.Handle: a null ETag version id, a null operation outcome in a `BaseServerResponseException`, and the message of the `NullPointerException` raised by a null last-updated time (modelled as null diagnostics) are not modelled.
- ProxyController.Handle: models the shared skeleton of read, vread, doSearch and doPatientSearch; which `ProxyService.search` overload the controller's searches reach is not modelled, because the controller's three- and four-argument calls do not match the one `search` in the service.
- Spring's own handling of a missing Authorization header and of the `NotImplementedException` thrown by update, patch, delete and create is outside the controller.
- ProxyService.Search: the page chain is finite and complete (the last page has no next link); an endless chain of next links, which the Java loop would follow forever without a limit, is not modelled. Links other than next, and bundle fields other than type, total and entries, are left out.
- ProxyService.SearchPath: `HashMap` iteration order is given as the order of the parameter sequence.
- `RegistrationController`, `Registration`, `FhirProxyApplication` and `CryptoUtil` are not part of this model.
- Java's `String.equalsIgnoreCase` is modelled for comparisons against ASCII literals only, which is the only way the code uses it.
