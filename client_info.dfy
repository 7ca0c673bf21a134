/**
 * ClientInfo: the immutable record of one registered upstream session. Its
 * five fields are set once by the constructor and read back by the getters,
 * which here are the datatype's own destructors; toString is the text the
 * cache key is derived from.
 */
module ClientInfoRecord {
  import opened Wrappers

  datatype ClientInfo = ClientInfo(
    clientId: string,
    serverUrl: string,
    bearerToken: string,
    patientId: string,
    userId: string)

  const ClientIdLabel := "ClientInfo{clientId='"
  const ServerUrlLabel := "', serverUrl='"
  const BearerTokenLabel := "', bearerToken='"
  const PatientIdLabel := "', patientId='"
  const UserIdLabel := "', userId='"
  const Closing := "'}"

  /** ClientInfo.toString: every field, in declaration order, quoted and labelled. */
  function ToString(c: ClientInfo): (r: string)
    ensures |r| == |ClientIdLabel| + |c.clientId| + |ServerUrlLabel| + |c.serverUrl|
                   + |BearerTokenLabel| + |c.bearerToken| + |PatientIdLabel| + |c.patientId|
                   + |UserIdLabel| + |c.userId| + |Closing|
    ensures r[..|ClientIdLabel|] == ClientIdLabel && r[|r| - |Closing|..] == Closing
  {
    ClientIdLabel + c.clientId
      + (ServerUrlLabel + c.serverUrl
      + (BearerTokenLabel + c.bearerToken
      + (PatientIdLabel + c.patientId
      + (UserIdLabel + c.userId
      + Closing))))
  }

  predicate QuoteFree(s: string) {
    '\'' !in s
  }

  /** No field holds the quote character that toString puts around it. */
  predicate FieldsQuoteFree(c: ClientInfo) {
    QuoteFree(c.clientId) && QuoteFree(c.serverUrl) && QuoteFree(c.bearerToken)
    && QuoteFree(c.patientId) && QuoteFree(c.userId)
  }

  /** Index of the first quote in t, or |t| if there is none. */
  function QuoteIndex(t: string): (i: nat)
    ensures i <= |t|
    ensures forall j :: 0 <= j < i ==> t[j] != '\''
    ensures i < |t| ==> t[i] == '\''
  {
    if |t| == 0 || t[0] == '\'' then 0 else 1 + QuoteIndex(t[1..])
  }

  /** Reads tag, then a value running up to the next quote; gives the value
      and the text from that quote on. */
  function ReadField(s: string, tag: string): Option<(string, string)> {
    if tag <= s then
      var t := s[|tag|..];
      var i := QuoteIndex(t);
      if i < |t| then Some((t[..i], t[i..])) else None
    else None
  }

  /** Reads a toString text back into a record; the inverse of ToString on
      records whose fields hold no quote. */
  function Parse(s: string): Option<ClientInfo> {
    match ReadField(s, ClientIdLabel)
    case None => None
    case Some((clientId, s1)) =>
      match ReadField(s1, ServerUrlLabel)
      case None => None
      case Some((serverUrl, s2)) =>
        match ReadField(s2, BearerTokenLabel)
        case None => None
        case Some((bearerToken, s3)) =>
          match ReadField(s3, PatientIdLabel)
          case None => None
          case Some((patientId, s4)) =>
            match ReadField(s4, UserIdLabel)
            case None => None
            case Some((userId, s5)) =>
              if s5 == Closing then Some(ClientInfo(clientId, serverUrl, bearerToken, patientId, userId))
              else None
  }

  lemma ReadFieldAppend(tag: string, v: string, rest: string)
    requires QuoteFree(v)
    requires |rest| > 0 && rest[0] == '\''
    ensures ReadField(tag + v + rest, tag) == Some((v, rest))
  {
    var s := tag + v + rest;
    assert tag <= s;
    var t := s[|tag|..];
    assert t == v + rest;
    var i := QuoteIndex(t);
    assert t[|v|] == '\'';
    assert forall j :: 0 <= j < |v| ==> t[j] == v[j];
    assert i == |v|;
    assert t[..i] == v && t[i..] == rest;
  }

  /** Parsing undoes toString for records whose fields hold no quote. */
  lemma ParseToString(c: ClientInfo)
    requires FieldsQuoteFree(c)
    ensures Parse(ToString(c)) == Some(c)
  {
    var s5 := Closing;
    var s4 := UserIdLabel + c.userId + s5;
    var s3 := PatientIdLabel + c.patientId + s4;
    var s2 := BearerTokenLabel + c.bearerToken + s3;
    var s1 := ServerUrlLabel + c.serverUrl + s2;
    assert ToString(c) == ClientIdLabel + c.clientId + s1;
    ReadFieldAppend(ClientIdLabel, c.clientId, s1);
    ReadFieldAppend(ServerUrlLabel, c.serverUrl, s2);
    ReadFieldAppend(BearerTokenLabel, c.bearerToken, s3);
    ReadFieldAppend(PatientIdLabel, c.patientId, s4);
    ReadFieldAppend(UserIdLabel, c.userId, s5);
  }

  /** Quote-free records with the same text are the same record. */
  lemma ToStringInjective(a: ClientInfo, b: ClientInfo)
    requires FieldsQuoteFree(a) && FieldsQuoteFree(b)
    requires ToString(a) == ToString(b)
    ensures a == b
  {
    ParseToString(a);
    ParseToString(b);
  }

  /** In general the text does not determine the record: a client id that
      ends in a quote and the server-URL tag reads the same as a shorter
      client id followed by a longer server URL. */
  lemma ToStringNotInjective(x: string, y: string, z: string, t: string, p: string, u: string)
    ensures var a := ClientInfo(x + ServerUrlLabel + y, z, t, p, u);
            var b := ClientInfo(x, y + ServerUrlLabel + z, t, p, u);
            a != b && ToString(a) == ToString(b)
  {
    var a := ClientInfo(x + ServerUrlLabel + y, z, t, p, u);
    var b := ClientInfo(x, y + ServerUrlLabel + z, t, p, u);
    var rest := BearerTokenLabel + t + (PatientIdLabel + p + (UserIdLabel + u + Closing));
    var w := ServerUrlLabel + z + rest;
    assert |a.clientId| != |b.clientId|;
    calc {
      ToString(a);
      (ClientIdLabel + (x + ServerUrlLabel + y)) + w;
      { AppendAssoc(ClientIdLabel, x + ServerUrlLabel + y, w); }
      ClientIdLabel + ((x + ServerUrlLabel + y) + w);
      { AppendAssoc(x + ServerUrlLabel, y, w); AppendAssoc(x, ServerUrlLabel, y + w); }
      ClientIdLabel + (x + (ServerUrlLabel + (y + w)));
    }
    calc {
      ToString(b);
      (ClientIdLabel + x) + (ServerUrlLabel + (y + ServerUrlLabel + z) + rest);
      { AppendAssoc(ClientIdLabel, x, ServerUrlLabel + (y + ServerUrlLabel + z) + rest); }
      ClientIdLabel + (x + (ServerUrlLabel + (y + ServerUrlLabel + z) + rest));
      { AppendAssoc(ServerUrlLabel, y + ServerUrlLabel + z, rest);
        AppendAssoc(y + ServerUrlLabel, z, rest);
        AppendAssoc(y, ServerUrlLabel, z + rest);
        AppendAssoc(ServerUrlLabel, z, rest); }
      ClientIdLabel + (x + (ServerUrlLabel + (y + w)));
    }
  }

  lemma AppendAssoc(a: string, b: string, c: string)
    ensures (a + b) + c == a + (b + c)
  {
  }

  /** The bearer token appears verbatim in the text, right after its tag. */
  lemma BearerTokenVerbatim(c: ClientInfo)
    ensures var start := |ClientIdLabel + c.clientId + ServerUrlLabel + c.serverUrl + BearerTokenLabel|;
            ToString(c)[start..start + |c.bearerToken|] == c.bearerToken
  {
    var head := ClientIdLabel + c.clientId + ServerUrlLabel + c.serverUrl + BearerTokenLabel;
    var tail := PatientIdLabel + c.patientId + (UserIdLabel + c.userId + Closing);
    var mid := BearerTokenLabel + c.bearerToken + tail;
    var s := ToString(c);
    assert s == ClientIdLabel + c.clientId + (ServerUrlLabel + c.serverUrl + mid);
    assert s == head + (c.bearerToken + tail);
    SliceOfConcat(head, c.bearerToken, tail);
  }

  lemma SliceOfConcat(a: string, b: string, t: string)
    ensures (a + (b + t))[|a|..|a| + |b|] == b
  {
  }
}
