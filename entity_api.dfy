/**
 * The database-backed variant: `ProcessFrpRequest` decodes the envelope,
 * switches on the lower-cased op, decodes the content into that op's record,
 * adds one row to that op's table and saves, then writes the decision. The
 * six tables are append-only sequences of audit entries.
 */
module EntityApi {
  import opened Frp

  /** The contents of the six DbSets. */
  datatype Tables = Tables(
    login: seq<Entry>, newProxy: seq<Entry>, closeProxy: seq<Entry>,
    ping: seq<Entry>, newWorkConn: seq<Entry>, newUserConn: seq<Entry>)
  {
    function Get(k: OpKind): seq<Entry>
    {
      match k
      case Login => login
      case NewProxy => newProxy
      case CloseProxy => closeProxy
      case Ping => ping
      case NewWorkConn => newWorkConn
      case NewUserConn => newUserConn
    }

    /** One row added to k's table; the other five tables are untouched. */
    function Append(k: OpKind, e: Entry): (r: Tables)
      ensures r.Get(k) == Get(k) + [e]
      ensures forall j :: j != k ==> r.Get(j) == Get(j)
    {
      match k
      case Login => this.(login := login + [e])
      case NewProxy => this.(newProxy := newProxy + [e])
      case CloseProxy => this.(closeProxy := closeProxy + [e])
      case Ping => this.(ping := ping + [e])
      case NewWorkConn => this.(newWorkConn := newWorkConn + [e])
      case NewUserConn => this.(newUserConn := newUserConn + [e])
    }
  }

  /** The kind name used in the "content is null" diagnostic of each case. */
  function Label(k: OpKind): (r: string)
    ensures EqualIgnoringCase(r, Name(k))
  {
    match k
    case Login => "Login"
    case NewProxy => "NewProxy"
    case CloseProxy => "CloseProxy"
    case Ping => "Ping"
    case NewWorkConn => "NewWorkConn"
    case NewUserConn => "NewUserConn"
  }

  /** The result object each case of the switch writes after saving. */
  function Reply(k: OpKind, content: Payload): (d: Decision)
    ensures !d.Reject?
    ensures d.AcceptWithContent? <==> k == NewProxy
    ensures d.AcceptWithContent? ==> d.content == content
  {
    match k
    case Login => AcceptUnchanged
    case NewProxy => AcceptWithContent(content)
    case CloseProxy => AcceptUnchanged
    case Ping => AcceptUnchanged
    case NewWorkConn => AcceptUnchanged
    case NewUserConn => AcceptUnchanged
  }

  /** What one request does: the row it adds, if any, and what the client sees. */
  datatype Effect = Effect(append: Option<(OpKind, Entry)>, outcome: Outcome)

  /**
   * The specification of `ProcessFrpRequest`. A content decode that throws is
   * not caught and surfaces as an unhandled exception, as does a failed save.
   */
  function Handle(req: Request, utcNow: int, save: IoResult): (r: Effect)
    // a body that is not an envelope: 400 with the parser's message, no row
    ensures DecodeEnvelope(req.body).Failure? ==>
      r == Effect(None, Respond(400, PlainText("Error parsing JSON: " + DecodeEnvelope(req.body).error)))
    // a null or unknown op: the reject decision, no row
    ensures DecodeEnvelope(req.body).Success? && KindOf(req.body.envelope.op).None? ==>
      r == Effect(None, Respond(200, JsonDecision(Reject(UNSUPPORTED_OPERATION))))
    // a known op whose content is JSON null: 400 naming the kind, no row
    ensures DecodeEnvelope(req.body).Success? && KindOf(req.body.envelope.op).Some? &&
            DecodeAs(req.body.envelope.content, KindOf(req.body.envelope.op).value).JsonNull? ==>
      r == Effect(None, Respond(400, PlainText(Label(KindOf(req.body.envelope.op).value) + " content is null")))
    // a known op whose content does not decode: the exception escapes, no row
    ensures DecodeEnvelope(req.body).Success? && KindOf(req.body.envelope.op).Some? &&
            DecodeAs(req.body.envelope.content, KindOf(req.body.envelope.op).value).Throws? ==>
      r == Effect(None, Unhandled(DecodeAs(req.body.envelope.content, KindOf(req.body.envelope.op).value).message))
    // a valid request whose save fails: the exception escapes, no row
    ensures DecodeEnvelope(req.body).Success? && KindOf(req.body.envelope.op).Some? &&
            DecodeAs(req.body.envelope.content, KindOf(req.body.envelope.op).value).Decoded? &&
            save.IoFault? ==>
      r == Effect(None, Unhandled(save.message))
    // the row added is the audit entry the request earns, at k's table
    ensures r.append == AuditRecord(Arrival(req, utcNow, save))
    // an accepting response is given exactly when the row was saved
    ensures Accepts(r.outcome) <==> r.append.Some?
    ensures r.append.Some? ==>
      r.outcome == Respond(200, JsonDecision(Reply(r.append.value.0, r.append.value.1.content)))
  {
    match DecodeEnvelope(req.body)
    case Failure(msg) => Effect(None, Respond(400, PlainText("Error parsing JSON: " + msg)))
    case Success(env) =>
      match KindOf(env.op)
      case None => Effect(None, Respond(200, JsonDecision(Reject(UNSUPPORTED_OPERATION))))
      case Some(k) =>
        match DecodeAs(env.content, k)
        case JsonNull => Effect(None, Respond(400, PlainText(Label(k) + " content is null")))
        case Throws(m) => Effect(None, Unhandled(m))
        case Decoded(p) =>
          match save
          case IoFault(m) => Effect(None, Unhandled(m))
          case IoOk => Effect(Some((k, NewEntry(req, env, utcNow, p))), Respond(200, JsonDecision(Reply(k, p))))
  }

  /** Dispatch reads the envelope's op only: the query `op` never changes the decision. */
  lemma QueryOpDoesNotSteerDispatch(req: Request, q: NullableString, utcNow: int, save: IoResult)
    ensures Handle(req.(queryOp := q), utcNow, save).outcome == Handle(req, utcNow, save).outcome
    ensures Handle(req.(queryOp := q), utcNow, save).append.Some? == Handle(req, utcNow, save).append.Some?
    ensures Handle(req.(queryOp := q), utcNow, save).append.Some? ==>
      Handle(req.(queryOp := q), utcNow, save).append.value.0 == Handle(req, utcNow, save).append.value.0
  {
  }

  /** For an unknown op the content is never looked at: any content gives the same effect. */
  lemma UnknownOpIgnoresContent(req: Request, other: JsonElement, utcNow: int, save: IoResult)
    requires req.body.Parsed? && KindOf(req.body.envelope.op).None?
    ensures Handle(req.(body := Parsed(req.body.envelope.(content := other))), utcNow, save) ==
            Handle(req, utcNow, save)
  {
  }

  function Commit(t: Tables, append: Option<(OpKind, Entry)>): Tables
  {
    match append
    case None => t
    case Some(row) => t.Append(row.0, row.1)
  }

  /** The tables after a sequence of requests handled one after another. */
  function Run(t: Tables, arrivals: seq<Arrival>): Tables
    decreases |arrivals|
  {
    if arrivals == [] then t
    else
      var a := arrivals[0];
      Run(Commit(t, Handle(a.request, a.utcNow, a.io).append), arrivals[1..])
  }

  /**
   * After any sequence of requests, each table is its old contents followed by
   * the entries earned by the requests of its kind, in arrival order: rows are
   * never lost, reordered or duplicated.
   */
  lemma {:induction false} RunAppends(t: Tables, arrivals: seq<Arrival>, k: OpKind)
    ensures Run(t, arrivals).Get(k) == t.Get(k) + Logged(arrivals, k)
    decreases |arrivals|
  {
    if arrivals != [] {
      var a := arrivals[0];
      var t1 := Commit(t, Handle(a.request, a.utcNow, a.io).append);
      assert t1.Get(k) == t.Get(k) + LoggedBy(a, k);
      RunAppends(t1, arrivals[1..], k);
      assert Run(t, arrivals).Get(k) == t.Get(k) + LoggedBy(a, k) + Logged(arrivals[1..], k);
    }
  }

  /** N valid pings, saved without fault, add N ping rows in order and nothing else. */
  lemma SequentialPings(t: Tables, pings: seq<Arrival>)
    requires forall i :: 0 <= i < |pings| ==>
      AuditRecord(pings[i]).Some? && AuditRecord(pings[i]).value.0 == Ping
    ensures |Run(t, pings).Get(Ping)| == |t.Get(Ping)| + |pings|
    ensures forall i :: 0 <= i < |pings| ==>
      Run(t, pings).Get(Ping)[|t.Get(Ping)| + i] == AuditRecord(pings[i]).value.1
    ensures forall j :: j != Ping ==> Run(t, pings).Get(j) == t.Get(j)
  {
    ValidatedArrivalsAllLogged(pings, Ping);
    RunAppends(t, pings, Ping);
    forall j | j != Ping ensures Run(t, pings).Get(j) == t.Get(j) {
      RunAppends(t, pings, j);
    }
  }

  /** The database context: one field per DbSet. */
  class FrpDbContext {
    var loginOperations: seq<Entry>
    var newProxyOperations: seq<Entry>
    var closeProxyOperations: seq<Entry>
    var pingOperations: seq<Entry>
    var newWorkConnOperations: seq<Entry>
    var newUserConnOperations: seq<Entry>

    function Snapshot(): Tables
      reads this
    {
      Tables(loginOperations, newProxyOperations, closeProxyOperations,
             pingOperations, newWorkConnOperations, newUserConnOperations)
    }

    constructor (initial: Tables)
      ensures Snapshot() == initial
    {
      loginOperations := initial.login;
      newProxyOperations := initial.newProxy;
      closeProxyOperations := initial.closeProxy;
      pingOperations := initial.ping;
      newWorkConnOperations := initial.newWorkConn;
      newUserConnOperations := initial.newUserConn;
    }

    /**
     * `db.<Kind>Operations.Add(entity)` followed by `SaveChangesAsync()`: on
     * success the row is at the end of k's table; a failed save leaves every
     * table as it was and reports the exception's message.
     */
    method AddAndSave(k: OpKind, entity: Entry, save: IoResult) returns (error: Option<string>)
      modifies this
      ensures error.Some? <==> save.IoFault?
      ensures error.Some? ==> error.value == save.message && Snapshot() == old(Snapshot())
      ensures error.None? ==> Snapshot() == old(Snapshot()).Append(k, entity)
    {
      if save.IoFault? {
        return Some(save.message);
      }
      match k {
        case Login => loginOperations := loginOperations + [entity];
        case NewProxy => newProxyOperations := newProxyOperations + [entity];
        case CloseProxy => closeProxyOperations := closeProxyOperations + [entity];
        case Ping => pingOperations := pingOperations + [entity];
        case NewWorkConn => newWorkConnOperations := newWorkConnOperations + [entity];
        case NewUserConn => newUserConnOperations := newUserConnOperations + [entity];
      }
      error := None;
    }

    /** `ProcessFrpRequest(request, response, endpoint)`. */
    method ProcessFrpRequest(req: Request, utcNow: int, save: IoResult) returns (out: Outcome)
      modifies this
      ensures out == Handle(req, utcNow, save).outcome
      ensures Snapshot() == Commit(old(Snapshot()), Handle(req, utcNow, save).append)
    {
      var parsed := DecodeEnvelope(req.body);
      if parsed.Failure? {
        out := Respond(400, PlainText("Error parsing JSON: " + parsed.error));
        return;
      }
      var rpcRequest := parsed.value;
      var kind := KindOf(rpcRequest.op);
      if kind.None? {
        out := Respond(200, JsonDecision(Reject(UNSUPPORTED_OPERATION)));
        return;
      }
      var k := kind.value;
      var content := DecodeAs(rpcRequest.content, k);
      if content.JsonNull? {
        out := Respond(400, PlainText(Label(k) + " content is null"));
        return;
      }
      if content.Throws? {
        out := Unhandled(content.message);
        return;
      }
      var entity := NewEntry(req, rpcRequest, utcNow, content.value);
      var error := AddAndSave(k, entity, save);
      if error.Some? {
        out := Unhandled(error.value);
        return;
      }
      out := Respond(200, JsonDecision(Reply(k, content.value)));
    }

    /** `GET /logs/<k>`: the whole table, in insertion order; nothing is modified. */
    method GetLogs(k: OpKind) returns (logs: seq<Entry>)
      ensures logs == Snapshot().Get(k)
    {
      match k {
        case Login => logs := loginOperations;
        case NewProxy => logs := newProxyOperations;
        case CloseProxy => logs := closeProxyOperations;
        case Ping => logs := pingOperations;
        case NewWorkConn => logs := newWorkConnOperations;
        case NewUserConn => logs := newUserConnOperations;
      }
    }
  }
}
