/**
 * The file-backed variant: `ProcessFrpRequest` decodes the envelope and looks
 * the lower-cased op up in a dispatch table giving the content type and whether
 * the content is echoed; `ProcessOperation` decodes the content, loads the
 * op's log file, adds one entry and writes the whole list back.
 */
module JsonApi {
  import opened Frp

  /** What `LoadLogs` can find under a file name. */
  datatype FileState =
    | Missing
    | Corrupt              // unreadable, or not a JSON list of log entries
    | NullList             // the JSON literal `null`
    | Valid(logs: seq<Entry>)

  /** The working directory: file name to file state; unlisted names are missing. */
  type Files = map<string, FileState>

  function FileAt(files: Files, name: string): FileState
  {
    if name in files then files[name] else Missing
  }

  /**
   * What `LoadLogs` makes of a file: the stored list; an empty list when the
   * file is missing, cannot be read or parsed, or holds `null`.
   */
  function LoadOf(f: FileState): seq<Entry>
  {
    if f.Valid? then f.logs else []
  }

  /** `LoadLogs<T>(fileName)`: the stored list, or an empty list when there is none to read. */
  function LoadLogs(files: Files, fileName: string): (logs: seq<Entry>)
    ensures FileAt(files, fileName).Valid? ==> logs == FileAt(files, fileName).logs
    ensures !FileAt(files, fileName).Valid? ==> logs == []
  {
    LoadOf(FileAt(files, fileName))
  }

  /** `SaveLogs(fileName, logs)`: the file is overwritten with the list. */
  function SaveLogs(files: Files, fileName: string, logs: seq<Entry>): (r: Files)
    ensures FileAt(r, fileName) == Valid(logs)
    ensures forall other :: other != fileName ==> FileAt(r, other) == FileAt(files, other)
  {
    files[fileName := Valid(logs)]
  }

  /** Loading what was saved gives the saved list back; other files are untouched. */
  lemma SaveThenLoad(files: Files, fileName: string, logs: seq<Entry>, other: string)
    ensures LoadLogs(SaveLogs(files, fileName, logs), fileName) == logs
    ensures other != fileName ==> FileAt(SaveLogs(files, fileName, logs), other) == FileAt(files, other)
  {
  }

  /** The file that `GET /logs/<k>` reads. */
  function LogFile(k: OpKind): (r: string)
    ensures |r| > 5 && r[..|r| - 5] == Name(k) && r[|r| - 5..] == ".json"
    // the file `ProcessOperation` writes for any spelling of k's op
    ensures forall s :: KindOf(Some(s)) == Some(k) ==> ToLower(s) + ".json" == r
  {
    Name(k) + ".json"
  }

  /** The six log files are distinct, so a write to one leaves the other five alone. */
  lemma LogFilesDistinct(j: OpKind, k: OpKind)
    ensures LogFile(j) == LogFile(k) ==> j == k
  {
    if LogFile(j) == LogFile(k) {
      assert Name(j) == LogFile(j)[..|LogFile(j)| - 5];
      assert Name(k) == LogFile(k)[..|LogFile(k)| - 5];
    }
  }

  /** One entry of the dispatch table: the content type (by kind) and `echoContent`. */
  datatype Descriptor = Descriptor(kind: OpKind, echoContent: bool)

  /** The switch of `ProcessFrpRequest`: six lower-case names, `echoContent` for newproxy only. */
  function Dispatch(op: NullableString): (r: Option<Descriptor>)
    ensures r.None? <==> KindOf(op).None?
    ensures r.Some? ==> KindOf(op) == Some(r.value.kind)
    ensures r.Some? ==> (r.value.echoContent <==> r.value.kind == NewProxy)
  {
    match KindOf(op)
    case None => None
    case Some(Login) => Some(Descriptor(Login, false))
    case Some(NewProxy) => Some(Descriptor(NewProxy, true))
    case Some(CloseProxy) => Some(Descriptor(CloseProxy, false))
    case Some(Ping) => Some(Descriptor(Ping, false))
    case Some(NewWorkConn) => Some(Descriptor(NewWorkConn, false))
    case Some(NewUserConn) => Some(Descriptor(NewUserConn, false))
  }

  /** The response object of `ProcessOperation`. */
  function Decide(echoContent: bool, content: Payload): (d: Decision)
    ensures !d.Reject?
    ensures d.AcceptWithContent? <==> echoContent
    ensures d.AcceptWithContent? ==> d.content == content
  {
    if echoContent then AcceptWithContent(content) else AcceptUnchanged
  }

  /** What one request does: the file it overwrites and with what, and what the client sees. */
  datatype Effect = Effect(write: Option<(string, seq<Entry>)>, outcome: Outcome)

  function Commit(files: Files, write: Option<(string, seq<Entry>)>): Files
  {
    match write
    case None => files
    case Some(w) => SaveLogs(files, w.0, w.1)
  }

  /**
   * The specification of `ProcessOperation<T>`, T being kind's record type.
   * Decode failures are caught here and answered with 400; the file name is
   * the lower-cased op as sent.
   */
  function Operate(files: Files, env: Envelope, kind: OpKind, echoContent: bool,
                   req: Request, utcNow: int, write: IoResult): (r: Effect)
    ensures DecodeAs(env.content, kind).JsonNull? ==>
      r == Effect(None, Respond(400, PlainText(OrEmpty(env.op) + " content is null")))
    ensures DecodeAs(env.content, kind).Throws? ==>
      r == Effect(None, Respond(400, PlainText("Error parsing " + OrEmpty(env.op) + " content: "
                                              + DecodeAs(env.content, kind).message)))
    ensures r.write.Some? <==> DecodeAs(env.content, kind).Decoded? && write.IoOk?
    // the new log is the loaded log followed by exactly one entry
    ensures r.write.Some? ==>
      var (name, logs) := r.write.value;
      && name == ToLower(OrEmpty(env.op)) + ".json"
      && |logs| == |LoadLogs(files, name)| + 1
      && logs[..|logs| - 1] == LoadLogs(files, name)
      && logs[|logs| - 1] == NewEntry(req, env, utcNow, DecodeAs(env.content, kind).value)
    ensures r.write.Some? ==>
      r.outcome == Respond(200, JsonDecision(Decide(echoContent, DecodeAs(env.content, kind).value)))
    ensures DecodeAs(env.content, kind).Decoded? && write.IoFault? ==> r.outcome == Unhandled(write.message)
  {
    match DecodeAs(env.content, kind)
    case JsonNull => Effect(None, Respond(400, PlainText(OrEmpty(env.op) + " content is null")))
    case Throws(m) => Effect(None, Respond(400, PlainText("Error parsing " + OrEmpty(env.op) + " content: " + m)))
    case Decoded(content) =>
      var logEntry := NewEntry(req, env, utcNow, content);
      var fileName := ToLower(OrEmpty(env.op)) + ".json";
      var logs := LoadLogs(files, fileName) + [logEntry];
      match write
      case IoFault(m) => Effect(None, Unhandled(m))
      case IoOk => Effect(Some((fileName, logs)), Respond(200, JsonDecision(Decide(echoContent, content))))
  }

  /** The entry written for a request, if any: its file and the list written. */
  function Expected(files: Files, a: Arrival): Option<(string, seq<Entry>)>
  {
    match AuditRecord(a)
    case None => None
    case Some(rec) => Some((LogFile(rec.0), LoadLogs(files, LogFile(rec.0)) + [rec.1]))
  }

  /** The specification of `ProcessFrpRequest`. */
  function Handle(files: Files, req: Request, utcNow: int, write: IoResult): (r: Effect)
    // a body that is not an envelope: 400 with the parser's message, nothing written
    ensures DecodeEnvelope(req.body).Failure? ==>
      r == Effect(None, Respond(400, PlainText("Error parsing JSON: " + DecodeEnvelope(req.body).error)))
    // a null or unknown op: the reject decision, nothing written
    ensures DecodeEnvelope(req.body).Success? && KindOf(req.body.envelope.op).None? ==>
      r == Effect(None, Respond(200, JsonDecision(Reject(UNSUPPORTED_OPERATION))))
    // a write happens exactly for a request that earns an audit entry, and it
    // goes to the file GET /logs/<k> reads, as the loaded log plus that entry
    ensures r.write == Expected(files, Arrival(req, utcNow, write))
    // an accepting response is given exactly when the file was written
    ensures Accepts(r.outcome) <==> r.write.Some?
  {
    match DecodeEnvelope(req.body)
    case Failure(msg) => Effect(None, Respond(400, PlainText("Error parsing JSON: " + msg)))
    case Success(env) =>
      match Dispatch(env.op)
      case None => Effect(None, Respond(200, JsonDecision(Reject(UNSUPPORTED_OPERATION))))
      case Some(d) => Operate(files, env, d.kind, d.echoContent, req, utcNow, write)
  }

  /** A known op whose content is null or does not decode: 400 naming the op as sent; nothing written. */
  lemma BadContentRejected(files: Files, req: Request, utcNow: int, write: IoResult)
    requires req.body.Parsed? && KindOf(req.body.envelope.op).Some?
    requires !DecodeAs(req.body.envelope.content, KindOf(req.body.envelope.op).value).Decoded?
    ensures Handle(files, req, utcNow, write).write.None?
    ensures Handle(files, req, utcNow, write).outcome.Respond?
    ensures Handle(files, req, utcNow, write).outcome.status == 400
    ensures Handle(files, req, utcNow, write).outcome.body ==
      var env := req.body.envelope;
      var d := DecodeAs(env.content, KindOf(env.op).value);
      if d.JsonNull? then PlainText(OrEmpty(env.op) + " content is null")
      else PlainText("Error parsing " + OrEmpty(env.op) + " content: " + d.message)
  {
  }

  /** For an unknown op the content is never looked at: any content gives the same effect. */
  lemma UnknownOpIgnoresContent(files: Files, req: Request, other: JsonElement, utcNow: int, write: IoResult)
    requires req.body.Parsed? && KindOf(req.body.envelope.op).None?
    ensures Handle(files, req.(body := Parsed(req.body.envelope.(content := other))), utcNow, write) ==
            Handle(files, req, utcNow, write)
  {
  }

  /** A successful request against an unreadable log leaves a log of that one entry. */
  lemma CorruptLogIsReplaced(files: Files, a: Arrival, k: OpKind)
    requires AuditRecord(a).Some? && AuditRecord(a).value.0 == k
    requires FileAt(files, LogFile(k)) in {Missing, Corrupt, NullList}
    ensures FileAt(Commit(files, Handle(files, a.request, a.utcNow, a.io).write), LogFile(k)) ==
            Valid([AuditRecord(a).value.1])
  {
  }

  /**
   * A newproxy envelope, in any letter case, whose content gives proxy_name
   * "web1" is logged to newproxy.json and answered with that content echoed.
   */
  lemma NewProxyEchoExample(files: Files, req: Request, op: string, content: NewProxyContent, utcNow: int)
    requires EqualIgnoringCase(op, "newproxy")
    requires req.body.Parsed? && req.body.envelope.op == Some(op)
    requires req.body.envelope.content.asNewProxy == Decoded(content)
    requires content.proxyName == Some("web1")
    ensures Handle(files, req, utcNow, IoOk).write.Some?
    ensures Handle(files, req, utcNow, IoOk).write.value.0 == "newproxy.json"
    ensures Handle(files, req, utcNow, IoOk).outcome ==
            Respond(200, JsonDecision(AcceptWithContent(NewProxyPayload(content))))
    ensures Handle(files, req, utcNow, IoOk).outcome.body.decision.content.newProxy.proxyName == Some("web1")
  {
    KnownNameInAnyCase(op, NewProxy);
    assert ToLower(op) == "newproxy";
    assert Dispatch(Some(op)) == Some(Descriptor(NewProxy, true));
    var env := req.body.envelope;
    assert DecodeAs(env.content, NewProxy) == Decoded(NewProxyPayload(content));
    assert Handle(files, req, utcNow, IoOk) == Operate(files, env, NewProxy, true, req, utcNow, IoOk);
  }

  /** The directory after a sequence of requests handled one after another. */
  function Run(files: Files, arrivals: seq<Arrival>): Files
    decreases |arrivals|
  {
    if arrivals == [] then files
    else
      var a := arrivals[0];
      Run(Commit(files, Handle(files, a.request, a.utcNow, a.io).write), arrivals[1..])
  }

  /** One request changes k's log file only by appending the entry it earns for k. */
  lemma StepLog(files: Files, a: Arrival, k: OpKind)
    ensures FileAt(Commit(files, Handle(files, a.request, a.utcNow, a.io).write), LogFile(k)) ==
      if LoggedBy(a, k) == [] then FileAt(files, LogFile(k))
      else Valid(LoadLogs(files, LogFile(k)) + LoggedBy(a, k))
  {
    var rec := AuditRecord(a);
    if rec.Some? {
      LogFilesDistinct(rec.value.0, k);
    }
  }

  /** One step followed by the rest composes into the shape RunLogs states. */
  lemma ComposeSteps(f0: FileState, f1: FileState, last: FileState, mine: seq<Entry>, later: seq<Entry>)
    requires f1 == if mine == [] then f0 else Valid(LoadOf(f0) + mine)
    requires last == if later == [] then f1 else Valid(LoadOf(f1) + later)
    ensures last == if mine + later == [] then f0 else Valid(LoadOf(f0) + (mine + later))
  {
  }

  /**
   * After any sequence of requests, k's log file is untouched if no request
   * earned a k entry; otherwise it holds what was loadable beforehand followed
   * by the earned entries in arrival order (so an unreadable file loses its
   * old contents, a valid one keeps them as a prefix).
   */
  lemma {:induction false} RunLogs(files: Files, arrivals: seq<Arrival>, k: OpKind)
    ensures FileAt(Run(files, arrivals), LogFile(k)) ==
      if Logged(arrivals, k) == [] then FileAt(files, LogFile(k))
      else Valid(LoadLogs(files, LogFile(k)) + Logged(arrivals, k))
    decreases |arrivals|
  {
    if arrivals != [] {
      var a, rest := arrivals[0], arrivals[1..];
      var files1 := Commit(files, Handle(files, a.request, a.utcNow, a.io).write);
      assert Run(files, arrivals) == Run(files1, rest);
      assert Logged(arrivals, k) == LoggedBy(a, k) + Logged(rest, k);
      StepLog(files, a, k);
      RunLogs(files1, rest, k);
      ComposeSteps(FileAt(files, LogFile(k)), FileAt(files1, LogFile(k)), FileAt(Run(files1, rest), LogFile(k)),
                   LoggedBy(a, k), Logged(rest, k));
    }
  }

  /** The working directory holding the six `<op>.json` files. */
  class LogDirectory {
    var files: Files

    constructor (initial: Files)
      ensures files == initial
    {
      files := initial;
    }

    /** `File.WriteAllText`: overwrites the file, or throws leaving it as it was. */
    method SaveLogsToFile(fileName: string, logs: seq<Entry>, write: IoResult) returns (error: Option<string>)
      modifies this
      ensures error.Some? <==> write.IoFault?
      ensures error.Some? ==> error.value == write.message && files == old(files)
      ensures error.None? ==> files == SaveLogs(old(files), fileName, logs)
    {
      if write.IoFault? {
        return Some(write.message);
      }
      files := files[fileName := Valid(logs)];
      error := None;
    }

    /** `ProcessOperation<T>(rpcRequest, ..., echoContent)`, T the record type of kind. */
    method ProcessOperation(env: Envelope, kind: OpKind, echoContent: bool,
                            req: Request, utcNow: int, write: IoResult) returns (out: Outcome)
      modifies this
      ensures var r := Operate(old(files), env, kind, echoContent, req, utcNow, write);
        out == r.outcome && files == Commit(old(files), r.write)
    {
      var decoded := DecodeAs(env.content, kind);
      if decoded.JsonNull? {
        out := Respond(400, PlainText(OrEmpty(env.op) + " content is null"));
        return;
      }
      if decoded.Throws? {
        out := Respond(400, PlainText("Error parsing " + OrEmpty(env.op) + " content: " + decoded.message));
        return;
      }
      var content := decoded.value;
      var logEntry := NewEntry(req, env, utcNow, content);
      var fileName := ToLower(OrEmpty(env.op)) + ".json";
      var logs := LoadLogs(files, fileName);
      logs := logs + [logEntry];
      var error := SaveLogsToFile(fileName, logs, write);
      if error.Some? {
        out := Unhandled(error.value);
        return;
      }
      out := Respond(200, JsonDecision(Decide(echoContent, content)));
    }

    /** `ProcessFrpRequest(request, response, endpoint)`. */
    method ProcessFrpRequest(req: Request, utcNow: int, write: IoResult) returns (out: Outcome)
      modifies this
      ensures var r := Handle(old(files), req, utcNow, write);
        out == r.outcome && files == Commit(old(files), r.write)
    {
      var parsed := DecodeEnvelope(req.body);
      if parsed.Failure? {
        out := Respond(400, PlainText("Error parsing JSON: " + parsed.error));
        return;
      }
      var rpcRequest := parsed.value;
      var descriptor := Dispatch(rpcRequest.op);
      if descriptor.None? {
        out := Respond(200, JsonDecision(Reject(UNSUPPORTED_OPERATION)));
        return;
      }
      out := ProcessOperation(rpcRequest, descriptor.value.kind, descriptor.value.echoContent,
                              req, utcNow, write);
    }

    /** `GET /logs/<k>`: loads k's file and modifies nothing. */
    method GetLogs(k: OpKind) returns (logs: seq<Entry>)
      ensures logs == LoadLogs(files, LogFile(k))
    {
      logs := LoadLogs(files, LogFile(k));
    }
  }
}
