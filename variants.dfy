/**
 * The two variants side by side: they keep the same audit logs for every
 * sequence of requests, and they answer every request alike except where the
 * content is null or fails to decode.
 */
module Variants {
  import opened Frp
  import EntityApi
  import JsonApi

  /** Each table holds exactly what the matching `<op>.json` file holds. */
  predicate Mirrors(t: EntityApi.Tables, files: JsonApi.Files)
  {
    forall k :: JsonApi.FileAt(files, JsonApi.LogFile(k)) == JsonApi.Valid(t.Get(k))
  }

  /** `GET /logs/<k>` returns the same list in both variants, for every kind. */
  predicate SameGets(t: EntityApi.Tables, files: JsonApi.Files)
  {
    forall k :: JsonApi.LoadLogs(files, JsonApi.LogFile(k)) == t.Get(k)
  }

  /** The empty tables after the migration and a directory without log files. */
  lemma FreshStoresAgree()
    ensures SameGets(EntityApi.Tables([], [], [], [], [], []), map[])
    ensures !Mirrors(EntityApi.Tables([], [], [], [], [], []), map[])
  {
    assert JsonApi.FileAt(map[], JsonApi.LogFile(Login)) == JsonApi.Missing;
  }

  /** The database's result objects and the file variant's descriptor table agree. */
  lemma RepliesAgree(op: NullableString, content: Payload)
    requires KindOf(op).Some?
    ensures JsonApi.Dispatch(op).Some?
    ensures EntityApi.Reply(KindOf(op).value, content) ==
            JsonApi.Decide(JsonApi.Dispatch(op).value.echoContent, content)
  {
  }

  /**
   * Whenever the content is not at fault (the envelope fails, the op is
   * unknown, or the content decodes), both variants give the same answer.
   */
  lemma SameOutcomeUnlessContentFails(files: JsonApi.Files, a: Arrival)
    requires a.request.body.Parsed? && KindOf(a.request.body.envelope.op).Some? ==>
      DecodeAs(a.request.body.envelope.content, KindOf(a.request.body.envelope.op).value).Decoded?
    ensures EntityApi.Handle(a.request, a.utcNow, a.io).outcome ==
            JsonApi.Handle(files, a.request, a.utcNow, a.io).outcome
  {
    var body := a.request.body;
    if body.Parsed? && KindOf(body.envelope.op).Some? {
      var p := DecodeAs(body.envelope.content, KindOf(body.envelope.op).value).value;
      RepliesAgree(body.envelope.op, p);
    }
  }

  /**
   * Content that does not decode: the database variant lets the exception
   * escape, the file variant answers 400; neither records anything.
   */
  lemma ThrowingContentDiverges(files: JsonApi.Files, a: Arrival)
    requires a.request.body.Parsed? && KindOf(a.request.body.envelope.op).Some?
    requires DecodeAs(a.request.body.envelope.content, KindOf(a.request.body.envelope.op).value).Throws?
    ensures EntityApi.Handle(a.request, a.utcNow, a.io).outcome.Unhandled?
    ensures JsonApi.Handle(files, a.request, a.utcNow, a.io).outcome.Respond?
    ensures JsonApi.Handle(files, a.request, a.utcNow, a.io).outcome.status == 400
    ensures EntityApi.Handle(a.request, a.utcNow, a.io).append.None?
    ensures JsonApi.Handle(files, a.request, a.utcNow, a.io).write.None?
  {
  }

  /** Started from mirroring stores, the two variants keep mirroring stores forever. */
  lemma SameLogs(t: EntityApi.Tables, files: JsonApi.Files, arrivals: seq<Arrival>)
    requires Mirrors(t, files)
    ensures Mirrors(EntityApi.Run(t, arrivals), JsonApi.Run(files, arrivals))
  {
    forall k ensures JsonApi.FileAt(JsonApi.Run(files, arrivals), JsonApi.LogFile(k)) ==
                     JsonApi.Valid(EntityApi.Run(t, arrivals).Get(k))
    {
      EntityApi.RunAppends(t, arrivals, k);
      JsonApi.RunLogs(files, arrivals, k);
    }
  }

  /**
   * Started from stores whose logs read alike (the fresh start among them),
   * the two variants' logs read alike after any sequence of requests.
   */
  lemma SameGetsPreserved(t: EntityApi.Tables, files: JsonApi.Files, arrivals: seq<Arrival>)
    requires SameGets(t, files)
    ensures SameGets(EntityApi.Run(t, arrivals), JsonApi.Run(files, arrivals))
  {
    forall k ensures JsonApi.LoadLogs(JsonApi.Run(files, arrivals), JsonApi.LogFile(k)) ==
                     EntityApi.Run(t, arrivals).Get(k)
    {
      EntityApi.RunAppends(t, arrivals, k);
      JsonApi.RunLogs(files, arrivals, k);
    }
  }
}
