/**
 * ProxyController: the request handlers of the proxy's FHIR REST endpoints
 * and their helpers. Every handler that is implemented follows the same
 * skeleton: choose the Content-Type from the _format parameter, read the
 * bearer token from the Authorization header, look the session up in the
 * cache, call the upstream server, and turn exceptions into status codes.
 * Update, patch, delete and create are not implemented.
 */
module ProxyController {
  import opened Wrappers
  import opened JavaStrings
  import opened ClientInfoRecord
  import Cache

  const BearerTokenPrefix := "Bearer "
  const FormatParam := "_format"
  const PrettyParam := "_pretty"

  // ---------------------------------------------------------------------------
  // The Authorization header

  /** extractBearerToken: the text after "Bearer " (matched case-sensitively),
      or the IllegalArgumentException it throws, carrying its message. */
  function ExtractBearerToken(authorization: Option<string>): (r: Result<string, string>)
    ensures r.Success? <==>
              && authorization.Some?
              && BearerTokenPrefix <= authorization.value
              && !IsBlank(authorization.value[|BearerTokenPrefix|..])
    ensures r.Success? ==> BearerTokenPrefix + r.value == authorization.value && !IsBlank(r.value)
    ensures IsBlankOrNull(authorization) ==> r == Failure("authorization is blank")
  {
    if IsBlankOrNull(authorization) then Failure("authorization is blank")
    else if !(BearerTokenPrefix <= authorization.value) then Failure("authorization is not a bearer token")
    else
      var key := authorization.value[|BearerTokenPrefix|..];
      if IsBlank(key) then Failure("bearer token is blank")
      else Success(key)
  }

  /** A token prefixed with "Bearer " is read back unchanged. */
  lemma ExtractBearerTokenOfHeader(token: string)
    requires !IsBlank(token)
    ensures ExtractBearerToken(Some(BearerTokenPrefix + token)) == Success(token)
  {
    var a := BearerTokenPrefix + token;
    assert a[|BearerTokenPrefix|..] == token;
  }

  /** The scheme is matched case-sensitively: "bearer " is refused, although
      section 2.1 of RFC 6750 takes the scheme name from HTTP authentication,
      where it is case-insensitive. */
  lemma ExtractBearerTokenIsCaseSensitive(token: string)
    ensures ExtractBearerToken(Some("bearer " + token)) == Failure("authorization is not a bearer token")
  {
    var a := "bearer " + token;
    assert a[0] != BearerTokenPrefix[0];
  }

  /** "Bearer " followed only by whitespace is refused as a blank token. */
  lemma ExtractBearerTokenRefusesBlankToken(pad: string)
    requires IsBlank(pad)
    ensures ExtractBearerToken(Some(BearerTokenPrefix + pad)) == Failure("bearer token is blank")
  {
    var a := BearerTokenPrefix + pad;
    assert !IsWhitespace(a[0]);
    assert a[|BearerTokenPrefix|..] == pad;
  }

  // ---------------------------------------------------------------------------
  // The _format and _pretty parameters (the "parameters" section of the HL7
  // FHIR R4 RESTful API)

  datatype Format = Json | Rdf | Xml

  /** params.get(name): a request parameter, or null. */
  function Param(params: map<string, string>, name: string): Option<string> {
    if name in params then Some(params[name]) else None
  }

  predicate DoEncodeJson(format: Option<string>) {
    && !IsBlankOrNull(format)
    && (|| EqualsIgnoreCase(format.value, "json")
        || EqualsIgnoreCase(format.value, "application/json")
        || EqualsIgnoreCase(format.value, "application/fhir+json"))
  }

  /** doEncodeRDF: no turtle alias is also a JSON alias. */
  function DoEncodeRdf(format: Option<string>): (b: bool)
    ensures b ==> !DoEncodeJson(format)
  {
    && !IsBlankOrNull(format)
    && (|| EqualsIgnoreCase(format.value, "ttl")
        || EqualsIgnoreCase(format.value, "application/fhir+turtle")
        || EqualsIgnoreCase(format.value, "text/turtle"))
  }

  /** doEncodeXml: defined in the controller, but neither the header choice
      nor the encoder choice consults it; XML is the fallback. */
  function DoEncodeXml(format: Option<string>): (b: bool)
    ensures b ==> !DoEncodeJson(format)
  {
    && !IsBlankOrNull(format)
    && (|| EqualsIgnoreCase(format.value, "xml")
        || EqualsIgnoreCase(format.value, "text/xml")
        || EqualsIgnoreCase(format.value, "application/xml")
        || EqualsIgnoreCase(format.value, "application/fhir+xml"))
  }

  function MediaType(f: Format): string {
    match f
    case Json => "application/fhir+json"
    case Rdf => "application/fhir+turtle"
    case Xml => "application/fhir+xml"
  }

  /** The Content-Type value appendContentTypeResponseHeader adds: always
      one of the three FHIR media types. */
  function ContentTypeFor(format: Option<string>): (t: string)
    ensures t == MediaType(Json) || t == MediaType(Rdf) || t == MediaType(Xml)
  {
    if IsBlankOrNull(format) || DoEncodeJson(format) then "application/fhir+json"
    else if DoEncodeRdf(format) then "application/fhir+turtle"
    else "application/fhir+xml"
  }

  /** doPrettyPrint. */
  predicate DoPrettyPrint(params: map<string, string>) {
    var pretty := Param(params, PrettyParam);
    !IsBlankOrNull(pretty) && EqualsIgnoreCase(pretty.value, "true")
  }

  /** The encoder encodeResponse picks: FhirUtil.toJson, toRDF or toXml, and
      whether it pretty-prints. */
  datatype Encoding = Encoding(format: Format, pretty: bool)

  /** The Content-Type header always names the encoding of the body: the
      header's choice and the encoder's choice agree. */
  function EncodeResponse(params: map<string, string>): (e: Encoding)
    ensures MediaType(e.format) == ContentTypeFor(Param(params, FormatParam))
  {
    var format := Param(params, FormatParam);
    var pretty := DoPrettyPrint(params);
    if IsBlankOrNull(format) || DoEncodeJson(format) then Encoding(Json, pretty)
    else if DoEncodeRdf(format) then Encoding(Rdf, pretty)
    else Encoding(Xml, pretty)
  }

  /** _format selects JSON when absent, blank or a JSON alias, RDF when a
      turtle alias, and XML for everything else, unknown values included. */
  lemma FormatChoice(params: map<string, string>)
    ensures var f := Param(params, FormatParam);
            var chosen := EncodeResponse(params).format;
            && (chosen == Json <==> IsBlankOrNull(f) || DoEncodeJson(f))
            && (chosen == Rdf <==> DoEncodeRdf(f))
            && (chosen == Xml <==> !IsBlankOrNull(f) && !DoEncodeJson(f) && !DoEncodeRdf(f))
  {
    var f := Param(params, FormatParam);
    if DoEncodeRdf(f) {
      assert !DoEncodeJson(f);
    }
  }

  /** Every XML alias does select XML, so the fallback agrees with doEncodeXml. */
  lemma XmlAliasesSelectXml(params: map<string, string>)
    requires DoEncodeXml(Param(params, FormatParam))
    ensures EncodeResponse(params).format == Xml
  {
    var v := Param(params, FormatParam).value;
    if |v| == 3 {
      assert CharEqualsIgnoreCase(v[0], 'x');
      assert !CharEqualsIgnoreCase(v[0], 't');
    }
  }

  /** An ASCII _format value selects by its lower-case form. */
  lemma FormatIgnoresAsciiCase(p1: map<string, string>, p2: map<string, string>)
    requires FormatParam in p1 && FormatParam in p2
    requires IsAscii(p1[FormatParam]) && IsAscii(p2[FormatParam])
    requires LowerAscii(p1[FormatParam]) == LowerAscii(p2[FormatParam])
    ensures EncodeResponse(p1).format == EncodeResponse(p2).format
  {
    var a, b := p1[FormatParam], p2[FormatParam];
    assert IsBlank(a) <==> IsBlank(b) by {
      forall i | 0 <= i < |a| ensures IsWhitespace(a[i]) <==> IsWhitespace(b[i]) {
        assert LowerAscii(a)[i] == LowerAscii(b)[i];
      }
    }
    var lits := ["json", "application/json", "application/fhir+json", "ttl", "application/fhir+turtle", "text/turtle"];
    forall lit | lit in lits ensures EqualsIgnoreCase(a, lit) <==> EqualsIgnoreCase(b, lit) {
      EqualsIgnoreCaseIsLowerAscii(a, lit);
      EqualsIgnoreCaseIsLowerAscii(b, lit);
    }
  }

  /** _pretty turns pretty-printing on exactly when it equals "true" ignoring
      case; the blank test in front of it never decides anything. */
  lemma PrettyIffTrue(params: map<string, string>)
    ensures DoPrettyPrint(params) <==> PrettyParam in params && EqualsIgnoreCase(params[PrettyParam], "true")
  {
    if PrettyParam in params && EqualsIgnoreCase(params[PrettyParam], "true") {
      assert !IsWhitespace(params[PrettyParam][0]);
    }
  }

  // ---------------------------------------------------------------------------
  // Response headers

  /** The mutable response headers, in insertion order. */
  class HttpHeaders {
    var entries: seq<(string, string)>

    constructor ()
      ensures entries == []
    {
      entries := [];
    }

    method Add(name: string, value: string)
      modifies this
      ensures entries == old(entries) + [(name, value)]
    {
      entries := entries + [(name, value)];
    }
  }

  method AppendContentTypeResponseHeader(headers: HttpHeaders, format: Option<string>)
    modifies headers
    ensures headers.entries == old(headers.entries) + [("Content-Type", ContentTypeFor(format))]
  {
    if IsBlankOrNull(format) || DoEncodeJson(format) {
      headers.Add("Content-Type", "application/fhir+json");
    } else if DoEncodeRdf(format) {
      headers.Add("Content-Type", "application/fhir+turtle");
    } else {
      headers.Add("Content-Type", "application/fhir+xml");
    }
  }

  // ---------------------------------------------------------------------------
  // Handlers

  /** What the upstream FHIR server hands back: a resource with its meta
      version id and last-updated time (null when absent), a
      BaseServerResponseException with its status code and operation outcome,
      or any other exception with its message. */
  datatype Resource = Resource(versionId: string, lastUpdated: Option<string>, content: string)

  datatype UpstreamFault =
    | ServerResponse(statusCode: int, outcome: string)
    | OtherException(message: Option<string>)

  /** Read and vread add ETag and Last-Modified headers; the searches do not. */
  datatype Operation = Read | VRead | Search | PatientSearch

  datatype IssueType = Forbidden | ExceptionIssue

  datatype Body =
    | ResourceBody(resource: Resource)
    | OutcomeBody(code: IssueType, diagnostics: Option<string>)
    | UpstreamOutcome(outcome: string)

  datatype Response = Response(status: int, headers: seq<(string, string)>, encoding: Encoding, body: Body)

  const Ok := 200
  const ForbiddenStatus := 403
  const InternalServerError := 500

  /** read, vread, doSearch and doPatientSearch. The upstream call is a
      parameter; a missing Last-Modified time is the NullPointerException its
      toString() throws, which the generic handler turns into a 500. */
  method Handle(cache: Cache.CacheService, authorization: Option<string>, params: map<string, string>,
                op: Operation, call: ClientInfo -> Result<Resource, UpstreamFault>)
    returns (resp: Response)
    ensures resp.encoding == EncodeResponse(params)
    ensures |resp.headers| >= 1 && resp.headers[0] == ("Content-Type", MediaType(resp.encoding.format))
    ensures var token := ExtractBearerToken(authorization);
            && (token.Failure? ==>
                  resp.status == InternalServerError && resp.body == OutcomeBody(ExceptionIssue, Some(token.error))
                  && |resp.headers| == 1)
            && (token.Success? && token.value !in cache.entries ==>
                  resp.status == ForbiddenStatus && resp.body == OutcomeBody(Forbidden, Some("invalid authorization"))
                  && |resp.headers| == 1)
            && (token.Success? && token.value in cache.entries ==>
                  match call(cache.entries[token.value])
                  case Failure(ServerResponse(code, outcome)) =>
                    resp.status == code && resp.body == UpstreamOutcome(outcome) && |resp.headers| == 1
                  case Failure(OtherException(m)) =>
                    resp.status == InternalServerError && resp.body == OutcomeBody(ExceptionIssue, m)
                    && |resp.headers| == 1
                  case Success(res) =>
                    if op == Search || op == PatientSearch then
                      resp.status == Ok && resp.body == ResourceBody(res) && |resp.headers| == 1
                    else if res.lastUpdated.None? then
                      resp.status == InternalServerError && resp.body == OutcomeBody(ExceptionIssue, None)
                      && resp.headers[1..] == [("ETag", res.versionId)]
                    else
                      resp.status == Ok && resp.body == ResourceBody(res)
                      && resp.headers[1..] == [("ETag", res.versionId), ("Last-Modified", res.lastUpdated.value)])
  {
    var headers := new HttpHeaders();
    var format := Param(params, FormatParam);
    AppendContentTypeResponseHeader(headers, format);
    var encoding := EncodeResponse(params);

    var token := ExtractBearerToken(authorization);
    if token.Failure? {
      return Response(InternalServerError, headers.entries, encoding, OutcomeBody(ExceptionIssue, Some(token.error)));
    }
    var clientInfo := Cache.Get(cache.entries, token.value);
    if clientInfo.Failure? {
      return Response(ForbiddenStatus, headers.entries, encoding, OutcomeBody(Forbidden, Some("invalid authorization")));
    }
    var result := call(clientInfo.value);
    match result {
      case Failure(ServerResponse(code, outcome)) =>
        return Response(code, headers.entries, encoding, UpstreamOutcome(outcome));
      case Failure(OtherException(m)) =>
        return Response(InternalServerError, headers.entries, encoding, OutcomeBody(ExceptionIssue, m));
      case Success(res) =>
        if op == Read || op == VRead {
          headers.Add("ETag", res.versionId);
          if res.lastUpdated.None? {
            return Response(InternalServerError, headers.entries, encoding, OutcomeBody(ExceptionIssue, None));
          }
          headers.Add("Last-Modified", res.lastUpdated.value);
        }
        return Response(Ok, headers.entries, encoding, ResourceBody(res));
    }
  }

  // ---------------------------------------------------------------------------
  // Operations that are not implemented

  /** The NotImplementedException update, patch, delete and create throw. */
  datatype NotImplemented = NotImplemented(message: string)

  function Update(authorization: string, resourceType: string, id: string, params: map<string, string>): (r: Result<Response, NotImplemented>)
    ensures r == Failure(NotImplemented("update not implemented"))
  {
    Failure(NotImplemented("update not implemented"))
  }

  function Patch(authorization: string, resourceType: string, id: string, params: map<string, string>): (r: Result<Response, NotImplemented>)
    ensures r == Failure(NotImplemented("patch not implemented"))
  {
    Failure(NotImplemented("patch not implemented"))
  }

  function Delete(authorization: string, resourceType: string, id: string): (r: Result<Response, NotImplemented>)
    ensures r == Failure(NotImplemented("delete not implemented"))
  {
    Failure(NotImplemented("delete not implemented"))
  }

  function Create(authorization: string, resourceType: string, params: map<string, string>): (r: Result<Response, NotImplemented>)
    ensures r == Failure(NotImplemented("create not implemented"))
  {
    Failure(NotImplemented("create not implemented"))
  }
}
