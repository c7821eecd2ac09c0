# frp server-plugin manager: the control-plane request dispatcher

This project models the control-plane dispatcher of an HTTP server-plugin manager for the
frp reverse proxy. The repository has two near-identical variants:

- The **database-backed** variant (`EntityMinimalApi`). `ProcessFrpRequest` decodes the
  envelope `{version, op, content}`. It switches on the lower-cased `op` and decodes
  `content` into that operation's record. It then adds one row to that operation's table,
  saves, and writes a decision object.
- The **file-backed** variant (`JsonMinimalApi`). It runs the same switch, but as a dispatch
  table that gives each op its record type and an `echoContent` flag. `ProcessOperation`
  loads `<op>.json`, adds one entry and writes the whole list back.

The decisions are sent over the wire as JSON objects:
- `{reject=false, unchange=true}` accepts the operation unchanged.
- `{unchange=false, content}` accepts and echoes the content. Only `newproxy` does this.
- `{reject=true, reject_reason="Unsupported operation"}` answers any other op, including a
  null op.

Modules:

- `Frp` (frp.dfy) holds what both variants share:
  - the six operation kinds and their case labels;
  - ASCII lower-casing and the case-insensitive match;
  - the envelope and the content records;
  - JSON decoding, modelled as abstract inputs. `EnvelopeParse` is what the body decoded
    to. `JsonElement` lists, for each record type, whether decoding gives `null`, throws,
    or gives a record;
  - the decision objects, with their members as serialised;
  - `AuditRecord`, a reference definition of the audit entry a request earns, and
    `Logged`, the entries a sequence of requests earns for one kind.
- `EntityApi` (entity_api.dfy) models the database variant. The class `FrpDbContext` has one
  `seq<Entry>` field per DbSet. `Handle` is the pure specification of `ProcessFrpRequest`,
  and `Run` applies a sequence of requests.
- `JsonApi` (json_api.dfy) models the file variant. The class `LogDirectory` has a
  `map<string, FileState>` field, and a file is `Missing | Corrupt | NullList | Valid(entries)`.
  `LoadLogs`, the dispatch table, `Operate` (the specification of `ProcessOperation`) and
  `Handle` are pure functions.
- `Variants` (variants.dfy) relates the two. Started from stores whose `GET /logs/<k>` answers agree,
  the fresh start (empty tables, no log files) among them, those answers agree after any
  sequence of requests. They give the same answer unless the content is
  null or fails to decode.

Inputs from outside the model are parameters:
- the clock (`utcNow`);
- whether the storage write succeeds (`IoResult`);
- the query `op`/`version`, the `X-Frp-Reqid` header and the endpoint tag (`Request`).

Three behaviours of the code are worth calling out:
- The accept key on the wire is `unchange` (`WireFields`).
- The database variant does not catch an exception thrown while decoding the content, so
  the model gives `Unhandled(message)` there. The file variant catches it and answers 400
  (`EntityApi.Handle`, `Variants.ThrowingContentDiverges`).
- In the file variant, an unreadable log file loads as empty, so the next successful
  request replaces it with a one-entry list (`JsonApi.CorruptLogIsReplaced`,
  `JsonApi.RunLogs`).

The two variants' "content is null" messages also differ:
- The database variant names the kind: `Login content is null`.
- The file variant repeats the op as it was sent: `{Op} content is null`.

## Model

| member | source | states |
|---|---|---|
| `Frp.LowerChar` | FastReverseProxy.Projects/FastReverseProxy.EntityMinimalApi/Program.cs:76 | the lower-cased character is never an upper-case ASCII letter; other characters are kept; an upper-case letter A–Z becomes the letter 32 code points later (a–z) |
| `Frp.ToLower` | FastReverseProxy.Projects/FastReverseProxy.EntityMinimalApi/Program.cs:76 | lower-casing keeps the length and lower-cases each character in place |
| `Frp.LowerCaseIsFixpoint` | FastReverseProxy.Projects/FastReverseProxy.EntityMinimalApi/Program.cs:76 | a string with no upper-case letters is unchanged by lower-casing |
| `Frp.ToLowerIdempotent` | FastReverseProxy.Projects/FastReverseProxy.EntityMinimalApi/Program.cs:76 | lower-casing yields a lower-case string, and doing it twice equals doing it once |
| `Frp.SameLowerCaseIffEqualIgnoringCase` | FastReverseProxy.Projects/FastReverseProxy.EntityMinimalApi/Program.cs:76 | two strings lower-case to the same string if and only if they have one length and each pair of characters is equal or the same letter in its two cases |
| `Frp.NamesAreLowerCase` | FastReverseProxy.Projects/FastReverseProxy.EntityMinimalApi/Program.cs:78-219 | the six case labels are lower-case, so lower-casing leaves them unchanged |
| `Frp.ParseName` | FastReverseProxy.Projects/FastReverseProxy.EntityMinimalApi/Program.cs:76-247 | a lower-cased op matches kind k exactly when it equals k's case label; anything else goes to the default branch |
| `Frp.KindOf` | FastReverseProxy.Projects/FastReverseProxy.EntityMinimalApi/Program.cs:76 | an op selects kind k exactly when it is non-null and its lower-casing equals k's label; a null op selects nothing |
| `Frp.KnownNameInAnyCase` | FastReverseProxy.Projects/FastReverseProxy.EntityMinimalApi/Program.cs:76 | an op dispatches to kind k if and only if it spells k's case label in some mixture of upper- and lower-case letters |
| `Frp.DispatchIgnoresCase` | FastReverseProxy.Projects/FastReverseProxy.JsonMinimalApi/Program.cs:52 | two ops that differ only in the case of their ASCII letters dispatch to the same kind |
| `Frp.MixedCaseExamples` | FastReverseProxy.Projects/FastReverseProxy.EntityMinimalApi/Program.cs:76-78 | "LOGIN", "NewProxy" and "pInG" reach the login, newproxy and ping cases |
| `Frp.DecodeAs` | FastReverseProxy.Projects/FastReverseProxy.JsonMinimalApi/Program.cs:94 | decoding content as kind k's record type can only give a record of kind k |
| `Frp.DecodeEnvelope` | FastReverseProxy.Projects/FastReverseProxy.EntityMinimalApi/Program.cs:55-61 | the envelope decode succeeds exactly for a parsed envelope; a parse error keeps the parser's message; a null result becomes "Deserialization returned null" |
| `Frp.WireFields` | FastReverseProxy.Projects/FastReverseProxy.EntityMinimalApi/Program.cs:100-249 | each object has exactly two members: accept-unchanged has reject=false and unchange=true, the echo has unchange=false and the content, a rejection has reject=true and its reason; the keys are only reject, reject_reason, unchange and content |
| `Frp.EndpointTag` | FastReverseProxy.Projects/FastReverseProxy.EntityMinimalApi/Program.cs:33-41 | the /user-manager route is tagged "user-manager" and the /port-manager route "port-manager", and each tag belongs to one route only |
| `Frp.NewEntry` | FastReverseProxy.Projects/FastReverseProxy.EntityMinimalApi/Program.cs:87-97 | the audit entry copies the endpoint tag, X-Frp-Reqid, the envelope's op and version, the query op and version, the clock and the decoded record |
| `Frp.AuditRecordSpec` | FastReverseProxy.Projects/FastReverseProxy.EntityMinimalApi/Program.cs:87-99 | a request earns an entry exactly when the envelope decodes, the op is known, the content decodes and the write succeeds; the entry copies the endpoint tag, X-Frp-Reqid, the envelope's original-case op and version, the query op/version, the clock and the decoded record |
| `Frp.Logged` | FastReverseProxy.Projects/FastReverseProxy.EntityMinimalApi/Program.cs:98-99 | a sequence of requests earns at most one entry per request for a kind, in arrival order |
| `Frp.ValidatedArrivalsAllLogged` | FastReverseProxy.Projects/FastReverseProxy.EntityMinimalApi/Program.cs:183-184 | N requests that all validate as kind k earn exactly N entries for k, the i-th from the i-th request, and none for the other kinds |
| `EntityApi.Tables.Append` | FastReverseProxy.Projects/FastReverseProxy.EntityMinimalApi/Program.cs:98-99 | adding a row puts it at the end of k's table and leaves the other five tables unchanged |
| `EntityApi.Reply` | FastReverseProxy.Projects/FastReverseProxy.EntityMinimalApi/Program.cs:100-243 | after saving, newproxy answers with its own decoded record echoed, the other five kinds answer accept-unchanged; never a rejection |
| `EntityApi.Label` | FastReverseProxy.Projects/FastReverseProxy.EntityMinimalApi/Program.cs:84-225 | the kind named in each "content is null" message is the case's label in mixed case |
| `EntityApi.Handle` | FastReverseProxy.Projects/FastReverseProxy.EntityMinimalApi/Program.cs:43-254 | bad envelope: 400 "Error parsing JSON: "+message, no row; null/unknown op: the Unsupported-operation rejection, no row; null content: 400 "<Kind> content is null", no row; content that throws: unhandled, no row; a failed save: the save's exception escapes unhandled, no row; otherwise the row added is exactly the earned audit entry, at k's table; an accepting answer is given exactly when the row was saved |
| `EntityApi.QueryOpDoesNotSteerDispatch` | FastReverseProxy.Projects/FastReverseProxy.EntityMinimalApi/Program.cs:46-76 | changing the query op changes neither the answer nor whether, or to which table, a row is added |
| `EntityApi.UnknownOpIgnoresContent` | FastReverseProxy.Projects/FastReverseProxy.EntityMinimalApi/Program.cs:247-253 | for a null or unknown op the result is the same whatever the content, so the content is never decoded |
| `EntityApi.RunAppends` | FastReverseProxy.Projects/FastReverseProxy.EntityMinimalApi/Program.cs:98-99 | after any sequence of requests, each table is its old contents followed by the entries earned for its kind, in arrival order |
| `EntityApi.SequentialPings` | FastReverseProxy.Projects/FastReverseProxy.EntityMinimalApi/Program.cs:183-184 | N valid pings saved without fault add exactly N ping rows, in submission order, and leave the other tables unchanged |
| `EntityApi.FrpDbContext.constructor` | FastReverseProxy.Projects/FastReverseProxy.EntityMinimalApi/Program.cs:283-293 | the context's six tables start with the given contents |
| `EntityApi.FrpDbContext.AddAndSave` | FastReverseProxy.Projects/FastReverseProxy.EntityMinimalApi/Program.cs:98-99 | a save that succeeds appends the row to k's table and nothing else; a failed save reports its message and changes no table |
| `EntityApi.FrpDbContext.ProcessFrpRequest` | FastReverseProxy.Projects/FastReverseProxy.EntityMinimalApi/Program.cs:43-255 | the answer and the new tables are exactly those `Handle` gives for the old tables |
| `EntityApi.FrpDbContext.GetLogs` | FastReverseProxy.Projects/FastReverseProxy.EntityMinimalApi/Program.cs:260-276 | GET /logs/k returns k's table and modifies nothing, so two reads with no write in between are equal |
| `JsonApi.LoadLogs` | FastReverseProxy.Projects/FastReverseProxy.JsonMinimalApi/Program.cs:178-194 | a valid file loads as its stored list; a missing, unreadable or null file loads as an empty list |
| `JsonApi.SaveLogs` | FastReverseProxy.Projects/FastReverseProxy.JsonMinimalApi/Program.cs:196-201 | after saving, the file holds exactly the saved list, and every other file is as it was |
| `JsonApi.SaveThenLoad` | FastReverseProxy.Projects/FastReverseProxy.JsonMinimalApi/Program.cs:196-201 | loading a file after saving a list to it gives that list back; other files are untouched |
| `JsonApi.LogFile` | FastReverseProxy.Projects/FastReverseProxy.JsonMinimalApi/Program.cs:144-169 | k's log file is k's lower-case name followed by ".json", and it is the file the handler writes for any spelling of k's op |
| `JsonApi.LogFilesDistinct` | FastReverseProxy.Projects/FastReverseProxy.JsonMinimalApi/Program.cs:142-171 | the six log file names are pairwise distinct |
| `JsonApi.Dispatch` | FastReverseProxy.Projects/FastReverseProxy.JsonMinimalApi/Program.cs:52-78 | the table gives a descriptor exactly for the six names; the descriptor's kind is the matched kind; echoContent is set for newproxy only |
| `JsonApi.Decide` | FastReverseProxy.Projects/FastReverseProxy.JsonMinimalApi/Program.cs:129-131 | echoContent gives the echo of the decoded content, otherwise accept-unchanged; never a rejection |
| `JsonApi.Operate` | FastReverseProxy.Projects/FastReverseProxy.JsonMinimalApi/Program.cs:88-135 | null content: 400 "{Op} content is null"; a decode exception: 400 "Error parsing {Op} content: "+message; neither writes. Otherwise the file is lower-case(op)+".json", and the new list is the loaded list with exactly one entry after it; a failed write is unhandled |
| `JsonApi.Handle` | FastReverseProxy.Projects/FastReverseProxy.JsonMinimalApi/Program.cs:25-80 | bad envelope: 400 "Error parsing JSON: "+message, nothing written; null/unknown op: the Unsupported-operation rejection, nothing written; a file is written exactly for a request that earns an entry, and it is the file GET /logs/k reads, holding the loaded list plus that entry; accepting answer exactly when written |
| `JsonApi.BadContentRejected` | FastReverseProxy.Projects/FastReverseProxy.JsonMinimalApi/Program.cs:92-107 | for a known op, content that is null or fails to decode gets 400 naming the op as sent, and no file is written |
| `JsonApi.UnknownOpIgnoresContent` | FastReverseProxy.Projects/FastReverseProxy.JsonMinimalApi/Program.cs:72-78 | for a null or unknown op the result is the same whatever the content |
| `JsonApi.CorruptLogIsReplaced` | FastReverseProxy.Projects/FastReverseProxy.JsonMinimalApi/Program.cs:124-126 | when k's file is missing, unreadable or null, one valid k request leaves exactly a one-entry log |
| `JsonApi.NewProxyEchoExample` | FastReverseProxy.Projects/FastReverseProxy.JsonMinimalApi/Program.cs:57-58 | a newproxy envelope in any letter case whose proxy_name is "web1" is logged to newproxy.json, and the answer echoes the content with proxy_name "web1" |
| `JsonApi.StepLog` | FastReverseProxy.Projects/FastReverseProxy.JsonMinimalApi/Program.cs:122-126 | one request changes k's file only by writing back the loaded list plus the entry it earns for k |
| `JsonApi.RunLogs` | FastReverseProxy.Projects/FastReverseProxy.JsonMinimalApi/Program.cs:122-126 | after any sequence of requests, k's file is untouched if no request earned a k entry; otherwise it holds the list that was loadable before, followed by the earned entries in arrival order |
| `JsonApi.LogDirectory.constructor` | FastReverseProxy.Projects/FastReverseProxy.JsonMinimalApi/Program.cs:180 | the directory starts with the given files |
| `JsonApi.LogDirectory.SaveLogsToFile` | FastReverseProxy.Projects/FastReverseProxy.JsonMinimalApi/Program.cs:196-201 | a successful write overwrites that one file with the list; a failed write reports its message and leaves every file unchanged |
| `JsonApi.LogDirectory.ProcessOperation` | FastReverseProxy.Projects/FastReverseProxy.JsonMinimalApi/Program.cs:88-135 | the answer and the new files are exactly those `Operate` gives for the old files (load, add one entry, save, then respond) |
| `JsonApi.LogDirectory.ProcessFrpRequest` | FastReverseProxy.Projects/FastReverseProxy.JsonMinimalApi/Program.cs:25-80 | the answer and the new files are exactly those `Handle` gives for the old files |
| `JsonApi.LogDirectory.GetLogs` | FastReverseProxy.Projects/FastReverseProxy.JsonMinimalApi/Program.cs:142-171 | GET /logs/k loads k's file and modifies nothing, so repeated reads are identical |
| `Variants.RepliesAgree` | FastReverseProxy.Projects/FastReverseProxy.JsonMinimalApi/Program.cs:52-71 | for every known op, the database variant's per-case result object equals the file variant's echoContent response |
| `Variants.SameOutcomeUnlessContentFails` | FastReverseProxy.Projects/FastReverseProxy.JsonMinimalApi/Program.cs:25-80 | when the envelope fails, the op is unknown, or the content decodes, both variants answer alike |
| `Variants.ThrowingContentDiverges` | FastReverseProxy.Projects/FastReverseProxy.JsonMinimalApi/Program.cs:102-107 | for content that does not decode, the database variant fails unhandled and the file variant answers 400; neither records an entry |
| `Variants.SameLogs` | FastReverseProxy.Projects/FastReverseProxy.JsonMinimalApi/Program.cs:122-126 | if each table starts equal to its file's contents, with all six files present and readable, then after any sequence of requests each table still equals its file's contents |
| `Variants.FreshStoresAgree` | FastReverseProxy.Projects/FastReverseProxy.JsonMinimalApi/Program.cs:178-194 | empty tables and a directory with no log files give the same (empty) answer to every GET /logs/k, although the files are missing rather than valid |
| `Variants.SameGetsPreserved` | FastReverseProxy.Projects/FastReverseProxy.JsonMinimalApi/Program.cs:122-126 | if every GET /logs/k gives the same list in both variants, it still does after any sequence of requests; with the fresh-start lemma, this covers runs from a fresh start |

## Left out

- ASP.NET hosting, routing, OpenAPI/Scalar setup and the startup migration: these are
  framework plumbing. The two POST routes appear only as the `Endpoint` tag.
- Reading the request body, query and header: these are HTTP plumbing, so the model takes
  them as the fields of `Request`.
- JSON parsing and serialisation by System.Text.Json: this is a foreign library. Decode
  results are inputs (`EnvelopeParse`, `JsonElement`). An absent `content` is a
  `JsonElement` whose decodes throw. The database's `ContentJson` string is modelled as the
  record it serialises. A saved log file is modelled as `Valid(entries)`, which assumes the
  serialiser round-trips the entries.
- The HTTP status that the host sends for an unhandled exception is not modelled. The
  model reports `Unhandled(message)`.
- EF Core change tracking and the auto-assigned `Id`: `Add` followed by `SaveChangesAsync`
  is modelled as one step that commits on success and changes no table on failure.
- A `File.WriteAllText` that fails partway is not modelled. A failed write leaves the
  file as it was.
- The lost-update race between concurrent load–add–save cycles in the file variant: this
  is concurrency, and the model handles requests one at a time.
- `ToLowerInvariant` outside ASCII: only `A`–`Z` are lower-cased. So an op such as "newwor\u212Aconn" (KELVIN SIGN, which invariant
  lower-casing maps to `k`) reaches the newworkconn case in the code, but the model and the
  "only if" half of `Frp.KnownNameInAnyCase` send it to the default branch.
- `DateTime.UtcNow`: the clock is the `utcNow` parameter.
- A log file holding entries of another record type is not modelled. Each file is only
  ever written with its own kind's entries. Nor is a file that deserialises only in part,
  such as `[{}]`: the case-insensitive deserialiser reads it as one entry with default
  members and a null content, which the next save keeps. The model has no such entry;
  a file is either `Valid` with well-formed entries or `Corrupt`.
- EntityApi.FrpDbContext.GetLogs: returns the rows in insertion order. The query has no
  `OrderBy`, so that order is what SQLite gives in practice, not something the query
  guarantees.
- Exceptions thrown while the response is being written are not modelled.
