/**
 * The wire model shared by both variants of the frp server-plugin manager:
 * the six operation kinds and their names, ASCII lower-casing, the request
 * envelope, the per-operation content records, the decision objects and the
 * audit entry that a request earns.
 *
 * JSON decoding is not modelled as a parser: the outcome of decoding the
 * body and of decoding `content` into each record type is an input.
 */
module Frp {

  datatype Option<+T> = None | Some(value: T)

  datatype Result<+T, +E> = Success(value: T) | Failure(error: E)

  /** C# `int` and `long`. */
  newtype int32 = x: int | -0x8000_0000 <= x < 0x8000_0000
  newtype int64 = x: int | -0x8000_0000_0000_0000 <= x < 0x8000_0000_0000_0000

  /** A .NET string that may be null. */
  type NullableString = Option<string>

  /** The string that C# interpolation `$"{s}"` produces for a nullable string. */
  function OrEmpty(s: NullableString): string
  {
    match s
    case None => ""
    case Some(v) => v
  }

  // ----------------------------------------------------------------------
  // Operation kinds and their lower-case names
  // ----------------------------------------------------------------------

  datatype OpKind = Login | NewProxy | CloseProxy | Ping | NewWorkConn | NewUserConn

  /** The case label of the dispatch switch for each kind. */
  function Name(k: OpKind): string
  {
    match k
    case Login => "login"
    case NewProxy => "newproxy"
    case CloseProxy => "closeproxy"
    case Ping => "ping"
    case NewWorkConn => "newworkconn"
    case NewUserConn => "newuserconn"
  }

  predicate IsUpper(c: char)
  {
    'A' <= c <= 'Z'
  }

  /** ASCII lower-casing of one character. */
  function LowerChar(c: char): (r: char)
    ensures !IsUpper(r)
    ensures !IsUpper(c) ==> r == c
    ensures IsUpper(c) ==> r as int == c as int + 32
  {
    if IsUpper(c) then (c as int + 32) as char else c
  }

  /** `ToLowerInvariant`, restricted to ASCII letters. */
  function ToLower(s: string): (r: string)
    ensures |r| == |s|
    ensures forall i :: 0 <= i < |s| ==> r[i] == LowerChar(s[i])
  {
    if s == [] then [] else [LowerChar(s[0])] + ToLower(s[1..])
  }

  predicate IsLowerCase(s: string)
  {
    forall i :: 0 <= i < |s| ==> !IsUpper(s[i])
  }

  /** Lower-casing has no effect on a string without upper-case letters. */
  lemma {:induction false} LowerCaseIsFixpoint(s: string)
    requires IsLowerCase(s)
    ensures ToLower(s) == s
  {
    if s != [] {
      assert IsLowerCase(s[1..]) by {
        forall i | 0 <= i < |s[1..]| ensures !IsUpper(s[1..][i]) {
          assert s[1..][i] == s[i + 1];
        }
      }
      LowerCaseIsFixpoint(s[1..]);
      assert ToLower(s) == [LowerChar(s[0])] + ToLower(s[1..]);
    }
  }

  /** Lower-casing twice is lower-casing once. */
  lemma ToLowerIdempotent(s: string)
    ensures IsLowerCase(ToLower(s))
    ensures ToLower(ToLower(s)) == ToLower(s)
  {
  }

  lemma NamesAreLowerCase(k: OpKind)
    ensures IsLowerCase(Name(k))
    ensures ToLower(Name(k)) == Name(k)
  {
    var n := Name(k);
    assert IsLowerCase(n) by {
      forall i | 0 <= i < |n| ensures !IsUpper(n[i]) {
        match k
        case Login => assert n == "login";
        case NewProxy => assert n == "newproxy";
        case CloseProxy => assert n == "closeproxy";
        case Ping => assert n == "ping";
        case NewWorkConn => assert n == "newworkconn";
        case NewUserConn => assert n == "newuserconn";
      }
    }
    LowerCaseIsFixpoint(n);
  }

  /** Matching an already lower-cased op against the six case labels. */
  function ParseName(lowered: string): (r: Option<OpKind>)
    ensures forall k :: r == Some(k) <==> lowered == Name(k)
  {
    if lowered == "login" then Some(Login)
    else if lowered == "newproxy" then Some(NewProxy)
    else if lowered == "closeproxy" then Some(CloseProxy)
    else if lowered == "ping" then Some(Ping)
    else if lowered == "newworkconn" then Some(NewWorkConn)
    else if lowered == "newuserconn" then Some(NewUserConn)
    else None
  }

  /**
   * `switch (rpcRequest.Op?.ToLowerInvariant())`: a null op falls through to
   * the default branch, any other op is lower-cased and matched.
   */
  function KindOf(op: NullableString): (r: Option<OpKind>)
    ensures forall k :: r == Some(k) <==> (op.Some? && ToLower(op.value) == Name(k))
    ensures op.None? ==> r.None?
  {
    match op
    case None => None
    case Some(s) => ParseName(ToLower(s))
  }

  /** Two characters that are equal, or the same ASCII letter in its two cases. */
  predicate SameLetterIgnoringCase(a: char, b: char)
  {
    a == b || (IsUpper(a) && a as int + 32 == b as int) || (IsUpper(b) && b as int + 32 == a as int)
  }

  /** Two strings of one length that differ at most in the case of their ASCII letters. */
  predicate EqualIgnoringCase(s: string, t: string)
  {
    |s| == |t| && forall i :: 0 <= i < |s| ==> SameLetterIgnoringCase(s[i], t[i])
  }

  /** Lower-casing identifies exactly the strings that differ only in letter case. */
  lemma SameLowerCaseIffEqualIgnoringCase(s: string, t: string)
    ensures ToLower(s) == ToLower(t) <==> EqualIgnoringCase(s, t)
  {
    if EqualIgnoringCase(s, t) {
      forall i | 0 <= i < |s| ensures ToLower(s)[i] == ToLower(t)[i] {
        assert SameLetterIgnoringCase(s[i], t[i]);
      }
    }
    if ToLower(s) == ToLower(t) {
      forall i | 0 <= i < |s| ensures SameLetterIgnoringCase(s[i], t[i]) {
        assert LowerChar(s[i]) == ToLower(t)[i];
      }
    }
  }

  /** An op dispatches to kind k exactly when it spells k's name in some letter case. */
  lemma KnownNameInAnyCase(s: string, k: OpKind)
    ensures KindOf(Some(s)) == Some(k) <==> EqualIgnoringCase(s, Name(k))
  {
    NamesAreLowerCase(k);
    SameLowerCaseIffEqualIgnoringCase(s, Name(k));
  }

  /** Two ops that differ only in letter case dispatch alike. */
  lemma DispatchIgnoresCase(s: string, t: string)
    requires EqualIgnoringCase(s, t)
    ensures KindOf(Some(s)) == KindOf(Some(t))
  {
    SameLowerCaseIffEqualIgnoringCase(s, t);
  }

  /** Upper-case and mixed-case spellings reach their case labels. */
  lemma MixedCaseExamples()
    ensures KindOf(Some("LOGIN")) == Some(Login)
    ensures KindOf(Some("NewProxy")) == Some(NewProxy)
    ensures KindOf(Some("pInG")) == Some(Ping)
  {
    KnownNameInAnyCase("LOGIN", Login);
    KnownNameInAnyCase("NewProxy", NewProxy);
    KnownNameInAnyCase("pInG", Ping);
  }

  // ----------------------------------------------------------------------
  // Content records (the `*Content` classes)
  // ----------------------------------------------------------------------

  type Metas = Option<map<string, string>>

  datatype FrpUser = FrpUser(user: NullableString, metas: Metas, runId: NullableString)

  datatype LoginContent = LoginContent(
    version: NullableString, hostname: NullableString, os: NullableString,
    arch: NullableString, user: NullableString, timestamp: int64,
    privilegeKey: NullableString, runId: NullableString, poolCount: int32,
    metas: Metas, clientAddress: NullableString)

  datatype NewProxyContent = NewProxyContent(
    user: Option<FrpUser>, proxyName: NullableString, proxyType: NullableString,
    useEncryption: bool, useCompression: bool,
    bandwidthLimit: NullableString, bandwidthLimitMode: NullableString,
    group: NullableString, groupKey: NullableString,
    remotePort: Option<int32>, customDomains: Option<seq<string>>,
    subdomain: NullableString, locations: NullableString,
    httpUser: NullableString, httpPwd: NullableString,
    hostHeaderRewrite: NullableString, headers: Metas, sk: NullableString,
    multiplexer: NullableString, metas: Metas)

  datatype CloseProxyContent = CloseProxyContent(user: Option<FrpUser>, proxyName: NullableString)

  datatype PingContent = PingContent(user: Option<FrpUser>, timestamp: int64, privilegeKey: NullableString)

  datatype NewWorkConnContent = NewWorkConnContent(
    user: Option<FrpUser>, runId: NullableString, timestamp: int64, privilegeKey: NullableString)

  datatype NewUserConnContent = NewUserConnContent(
    user: Option<FrpUser>, proxyName: NullableString, proxyType: NullableString,
    remoteAddr: NullableString)

  /** A decoded content record, tagged with the type it was decoded into. */
  datatype Payload =
    | LoginPayload(login: LoginContent)
    | NewProxyPayload(newProxy: NewProxyContent)
    | CloseProxyPayload(closeProxy: CloseProxyContent)
    | PingPayload(ping: PingContent)
    | NewWorkConnPayload(newWorkConn: NewWorkConnContent)
    | NewUserConnPayload(newUserConn: NewUserConnContent)
  {
    function Kind(): OpKind
    {
      match this
      case LoginPayload(_) => Login
      case NewProxyPayload(_) => NewProxy
      case CloseProxyPayload(_) => CloseProxy
      case PingPayload(_) => Ping
      case NewWorkConnPayload(_) => NewWorkConn
      case NewUserConnPayload(_) => NewUserConn
    }
  }

  /**
   * What `JsonElement.Deserialize<T>` does: returns null (the element is the
   * JSON literal `null`), throws (wrong shape, or an undefined element when
   * `content` was absent), or returns a record.
   */
  datatype ContentDecode<T> = JsonNull | Throws(message: string) | Decoded(value: T)

  function Lift<T>(d: ContentDecode<T>, wrap: T -> Payload): (r: ContentDecode<Payload>)
    ensures r.JsonNull? <==> d.JsonNull?
    ensures d.Throws? <==> r.Throws?
    ensures d.Throws? ==> r.message == d.message
    ensures d.Decoded? ==> r == Decoded(wrap(d.value))
  {
    match d
    case JsonNull => JsonNull
    case Throws(m) => Throws(m)
    case Decoded(v) => Decoded(wrap(v))
  }

  /** The envelope's `content` element, known by how it decodes into each record type. */
  datatype JsonElement = JsonElement(
    asLogin: ContentDecode<LoginContent>,
    asNewProxy: ContentDecode<NewProxyContent>,
    asCloseProxy: ContentDecode<CloseProxyContent>,
    asPing: ContentDecode<PingContent>,
    asNewWorkConn: ContentDecode<NewWorkConnContent>,
    asNewUserConn: ContentDecode<NewUserConnContent>)

  /** `rpcRequest.Content.Deserialize<T>(options)` with T the record type of kind k. */
  function DecodeAs(content: JsonElement, k: OpKind): (r: ContentDecode<Payload>)
    ensures r.Decoded? ==> r.value.Kind() == k
  {
    match k
    case Login => Lift(content.asLogin, c => LoginPayload(c))
    case NewProxy => Lift(content.asNewProxy, c => NewProxyPayload(c))
    case CloseProxy => Lift(content.asCloseProxy, c => CloseProxyPayload(c))
    case Ping => Lift(content.asPing, c => PingPayload(c))
    case NewWorkConn => Lift(content.asNewWorkConn, c => NewWorkConnPayload(c))
    case NewUserConn => Lift(content.asNewUserConn, c => NewUserConnPayload(c))
  }

  // ----------------------------------------------------------------------
  // The envelope
  // ----------------------------------------------------------------------

  /** `FrpRpcRequest {version, op, content}`. */
  datatype Envelope = Envelope(version: NullableString, op: NullableString, content: JsonElement)

  /** What `JsonSerializer.Deserialize<FrpRpcRequest>(body)` does with the body. */
  datatype EnvelopeParse = Malformed(message: string) | NullLiteral | Parsed(envelope: Envelope)

  const NULL_ENVELOPE_MESSAGE := "Deserialization returned null"

  /** The envelope decode, with a null result turned into an exception. */
  function DecodeEnvelope(p: EnvelopeParse): (r: Result<Envelope, string>)
    ensures r.Success? <==> p.Parsed?
    ensures r.Success? ==> r.value == p.envelope
    ensures p.Malformed? ==> r.error == p.message
    ensures p.NullLiteral? ==> r.error == NULL_ENVELOPE_MESSAGE
  {
    match p
    case Malformed(m) => Failure(m)
    case NullLiteral => Failure(NULL_ENVELOPE_MESSAGE)
    case Parsed(e) => Success(e)
  }

  // ----------------------------------------------------------------------
  // Decisions and HTTP outcomes
  // ----------------------------------------------------------------------

  const UNSUPPORTED_OPERATION := "Unsupported operation"

  /** The three anonymous result objects the handlers serialise. */
  datatype Decision =
    | AcceptUnchanged
    | AcceptWithContent(content: Payload)
    | Reject(reason: string)

  datatype WireValue = WireBool(b: bool) | WireString(s: string) | WireContent(p: Payload)

  /**
   * The members of a decision object as serialised, in declaration order.
   * The accept key is `unchange`, never `unchanged`.
   */
  function WireFields(d: Decision): (r: seq<(string, WireValue)>)
    ensures forall i :: 0 <= i < |r| ==> r[i].0 in {"reject", "reject_reason", "unchange", "content"}
    ensures d.Reject? <==> ("reject", WireBool(true)) in r
    ensures d.AcceptUnchanged? <==> ("unchange", WireBool(true)) in r
    ensures d.AcceptWithContent? <==> ("unchange", WireBool(false)) in r
    ensures d.AcceptWithContent? ==> ("content", WireContent(d.content)) in r
    ensures d.Reject? ==> ("reject_reason", WireString(d.reason)) in r
    ensures d.AcceptUnchanged? ==> ("reject", WireBool(false)) in r
    // each object has exactly its two members
    ensures |r| == 2
    ensures (set i | 0 <= i < |r| :: r[i].0) ==
      if d.AcceptUnchanged? then {"reject", "unchange"}
      else if d.AcceptWithContent? then {"unchange", "content"}
      else {"reject", "reject_reason"}
  {
    match d
    case AcceptUnchanged => [("reject", WireBool(false)), ("unchange", WireBool(true))]
    case AcceptWithContent(p) => [("unchange", WireBool(false)), ("content", WireContent(p))]
    case Reject(reason) => [("reject", WireBool(true)), ("reject_reason", WireString(reason))]
  }

  /** A plain-text body (no content type set) or a JSON decision. */
  datatype Body = PlainText(text: string) | JsonDecision(decision: Decision)

  /** What the client sees: a response, or an exception the handler does not catch. */
  datatype Outcome = Respond(status: int, body: Body) | Unhandled(message: string)

  /** A 200 response whose decision accepts the operation. */
  predicate Accepts(o: Outcome)
  {
    o.Respond? && o.status == 200 && o.body.JsonDecision? && !o.body.decision.Reject?
  }

  // ----------------------------------------------------------------------
  // Requests and audit entries
  // ----------------------------------------------------------------------

  datatype Endpoint = UserManager | PortManager

  /** The tag each POST route passes to `ProcessFrpRequest`. */
  function EndpointTag(e: Endpoint): (r: string)
    ensures e.UserManager? <==> r == "user-manager"
    ensures e.PortManager? <==> r == "port-manager"
  {
    match e
    case UserManager => "user-manager"
    case PortManager => "port-manager"
  }

  /** An inbound POST: endpoint, query `op`/`version`, `X-Frp-Reqid` header and body. */
  datatype Request = Request(
    endpoint: Endpoint, queryOp: NullableString, queryVersion: NullableString,
    reqId: NullableString, body: EnvelopeParse)

  /** Success or failure of the storage write (SaveChanges, WriteAllText). */
  datatype IoResult = IoOk | IoFault(message: string)

  /** One request as it arrives: with the clock reading and the storage outcome. */
  datatype Arrival = Arrival(request: Request, utcNow: int, io: IoResult)

  /** An audit entry (`*Operation` row or `FrpOperationLog<T>`), without the database Id. */
  datatype Entry = Entry(
    endpoint: string, reqId: NullableString, op: NullableString, version: NullableString,
    queryOp: NullableString, queryVersion: NullableString, timestamp: int, content: Payload)

  /**
   * The entry built for a request: the envelope's op and version, the query's
   * op and version, the request id, the endpoint tag, the clock and the content.
   */
  function NewEntry(req: Request, env: Envelope, utcNow: int, content: Payload): (e: Entry)
    ensures e.endpoint == EndpointTag(req.endpoint) && e.reqId == req.reqId
    ensures e.op == env.op && e.version == env.version
    ensures e.queryOp == req.queryOp && e.queryVersion == req.queryVersion
    ensures e.timestamp == utcNow && e.content == content
  {
    Entry(EndpointTag(req.endpoint), req.reqId, env.op, env.version,
          req.queryOp, req.queryVersion, utcNow, content)
  }

  /**
   * The audit entry a request earns, and for which kind: exactly when the
   * envelope decodes, its op names a known kind, the content decodes into that
   * kind's record and the storage write succeeds.
   */
  function AuditRecord(a: Arrival): Option<(OpKind, Entry)>
  {
    match DecodeEnvelope(a.request.body)
    case Failure(_) => None
    case Success(env) =>
      match KindOf(env.op)
      case None => None
      case Some(k) =>
        match DecodeAs(env.content, k)
        case JsonNull => None
        case Throws(_) => None
        case Decoded(p) => if a.io.IoOk? then Some((k, NewEntry(a.request, env, a.utcNow, p))) else None
  }

  /**
   * An entry is recorded exactly for a request that decodes, names a known
   * kind, carries content of that kind and is stored without fault; the entry
   * copies the endpoint tag, the request id, the envelope's op and version as
   * sent, the query op and version, the clock reading and the decoded record.
   */
  lemma AuditRecordSpec(a: Arrival)
    ensures AuditRecord(a).Some? <==>
      (&& DecodeEnvelope(a.request.body).Success?
       && KindOf(a.request.body.envelope.op).Some?
       && DecodeAs(a.request.body.envelope.content, KindOf(a.request.body.envelope.op).value).Decoded?
       && a.io.IoOk?)
    ensures AuditRecord(a).Some? ==>
      var env := a.request.body.envelope;
      var (k, e) := AuditRecord(a).value;
      && KindOf(env.op) == Some(k)
      && e.content.Kind() == k
      && e.endpoint == EndpointTag(a.request.endpoint)
      && e.reqId == a.request.reqId
      && e.op == env.op && e.version == env.version
      && e.queryOp == a.request.queryOp && e.queryVersion == a.request.queryVersion
      && e.timestamp == a.utcNow
      && DecodeAs(env.content, k) == Decoded(e.content)
  {
  }

  /** The entries a single arrival contributes to kind k's log. */
  function LoggedBy(a: Arrival, k: OpKind): seq<Entry>
  {
    match AuditRecord(a)
    case None => []
    case Some(rec) => if rec.0 == k then [rec.1] else []
  }

  /** The entries a sequence of arrivals contributes to kind k's log, in arrival order. */
  function Logged(arrivals: seq<Arrival>, k: OpKind): (r: seq<Entry>)
    ensures |r| <= |arrivals|
  {
    if arrivals == [] then [] else LoggedBy(arrivals[0], k) + Logged(arrivals[1..], k)
  }

  /**
   * N arrivals that all validate as kind k yield exactly N entries for k, the
   * i-th being the i-th arrival's, and none for any other kind.
   */
  lemma {:induction false} ValidatedArrivalsAllLogged(arrivals: seq<Arrival>, k: OpKind)
    requires forall i :: 0 <= i < |arrivals| ==>
      AuditRecord(arrivals[i]).Some? && AuditRecord(arrivals[i]).value.0 == k
    ensures |Logged(arrivals, k)| == |arrivals|
    ensures forall i :: 0 <= i < |arrivals| ==> Logged(arrivals, k)[i] == AuditRecord(arrivals[i]).value.1
    ensures forall j :: j != k ==> Logged(arrivals, j) == []
  {
    if arrivals != [] {
      var rest := arrivals[1..];
      assert forall i :: 0 <= i < |rest| ==> rest[i] == arrivals[i + 1];
      ValidatedArrivalsAllLogged(rest, k);
      assert LoggedBy(arrivals[0], k) == [AuditRecord(arrivals[0]).value.1];
      forall i | 0 <= i < |arrivals|
        ensures Logged(arrivals, k)[i] == AuditRecord(arrivals[i]).value.1
      {
        if i > 0 {
          assert Logged(arrivals, k)[i] == Logged(rest, k)[i - 1];
        }
      }
      forall j | j != k ensures Logged(arrivals, j) == [] {
        assert LoggedBy(arrivals[0], j) == [];
      }
    }
  }
}
