# Verified models of Pi's protocol and session cores

This project models six parts of Pi in Dafny and proves what they promise:

- **Frames** (`Framing`, `FrameDecoding`): the length-prefixed framing of the wire protocol, as a parse of the whole
  byte stream and as the incremental decoder with its header buffer and payload blocks.
- **UTF-8** (`Utf8`): the incremental decoder of process output, against section 3 of RFC 3629 (UTF-8) and section 2.1
  of RFC 2781 (UTF-16).
- **Schemas** (`Schema...`): which values a schema accepts, the validator's error lists, and the converter, over schemas
  with named recursive references.
- **Session server** (`LiveSessions...`, `LiveSessionManagement`, `LiveSessionService`, `Snapshots...`,
  `SnapshotServing`): sessions that many connections share, open
  lazily and dispose of when idle, and server snapshots with their revisions.
- **Agent loop** (`Agent...`): turns of responses and tool batches, the queues of steering and follow-up messages, the
  reducer that rebuilds the transcript from events, and what a listener hears.
- **Client** (`ClientLeases...`, `SessionLeasing`, `ClientRequests`, `RequestTables`): session leases, and the table of
  pending requests with the connection's lifecycle.

## How it is organised

Where the program is one object after another updating its fields, the model has two layers. A module of datatypes and
functions describes the state and its steps, one step per stretch of code between two awaits; a run is any sequence of
steps, a step that is not possible changes nothing, and the theorems are about the state after any run. Classes with the
program's own fields and methods (`LiveSessionManager`, `SnapshotServer`, `SessionLeases`, `Client`, `FrameDecoder`,
`ChunkDecoder`, `Agent`, `LoopRun`) are then proved, method by method, to take exactly those steps; the methods
called `Serve` and `DecodeStream` drive each of these classes through any run. The invariants say what can never happen;
`LiveSessionsAnswers`, `SnapshotsAnswers`, `ClientLeasesAvailability` and `ClientRequestsOutcomes` say what a caller gets,
field by field and without the functions that define the steps, and `SchemaMeaning`, `SchemaReports` and `SchemaScopes` do
the same for what each schema builder makes. The agent loop is
imperative throughout: its contracts state the properties themselves, and what may happen at an await (messages being
queued, the run being aborted, one of several running tools being next) is an arbitrary choice in the method bodies;
`AgentOutcomes` and `AgentStories` then say what its calls answer and what its events tell.

The environment is a parameter or a choice: what the session service, transports, language model, tools and hooks do,
which regular expressions match, how numbers are parsed and printed.

Where a promise is not kept in full the project says exactly when it is, and shows runs or values for which it is not:

- `SnapshotsConvergence.Converges`: a ready client holds the server's revision unless the broadcast of it failed
  (`FailedBroadcastLeavesBehind`).
- `ClientLeasesExclusion.ResumeKeepsIffSafe` and `InvariantIffSafeRun`: a call that a disconnect interrupted keeps lease
  counts, exclusion and generations exactly if, when it goes on, it neither gives its reservation back while the session
  is reserved anew nor makes a lease of it (`LateFailureBreaksExclusion`, `LateSuccessBreaksExclusion`).
- `AgentLoop.OneMessageUnlessSteered`: a continued run's first turn gets one queued message unless it was started by a
  follow-up and is steered before it polls (`SteerWhileContinuing`).
- `AgentLoop.LoopRun.TranscriptsAgree`: the context is the transcript unless a response starts twice.
- `SchemaRecords.BuiltKeepsIffSettled` and `RecordKeepsIff`: an accepted value is left alone unless a Record converts one
  of its properties twice (`RecordAdditionalBreaks`).
- `SchemaJson.JsonSchemaAccepts`: the JSON schema accepts just the JSON values, but below keys with a line terminator
  (`JsonSchemaGap`).

`AgentRuns.ParallelRefinesSequential`, `AgentLoop.OneMessageUnlessSteered`, `AgentLoop.LoopRun.OneMessagePerTurn` and
`SnapshotsConvergence.RequestsStartReady` are corollaries that need no proof of their own: what they rest on is proved by
the methods whose contracts they put together, or by the definition of a step.

## Model

| member | source | states |
|---|---|---|
| Framing.PrefixDeclares | pi/packages/protocol/src/framing.ts:31-36 | the four bytes written for a length are read back as that length |
| Framing.DeclaresPrefix | pi/packages/protocol/src/framing.ts:88-89 | and the length read from four bytes is written as those bytes |
| Framing.PrefixesOrdered | pi/packages/protocol/src/framing.ts:31-36 | of two lengths the smaller has the smaller byte where their prefixes first differ: the most significant byte comes first |
| Framing.ParseResumes | pi/packages/protocol/src/framing.ts:73-144 | parsing a stream up to any point, and then what was left over with the rest, is parsing it in one go; an oversized frame found early stays found |
| Framing.RoundTrip | pi/packages/protocol/src/framing.ts:28-39 | any payloads within the limit, encoded one after the other, parse back to exactly those payloads with nothing left over |
| Framing.ParseInverse | pi/packages/protocol/src/framing.ts:73-144 | a stream that parses is the encoding of its frames, each within the limit, followed by the leftover |
| FrameDecoding.EncodeFrame | pi/packages/protocol/src/framing.ts:28-39 | a fresh array holding prefix and payload, refused exactly above the 32-bit length limit |
| FrameDecoding.AssertCompleteFrame | pi/packages/protocol/src/framing.ts:42-53 | accepts exactly the encodings of one payload within the limit, and says which of the three errors applies otherwise |
| FrameDecoding.FeedIsParse | pi/packages/protocol/src/framing.ts:73-144 | pushing chunks one after the other onto pending bytes comes to the one-shot parse of all of them |
| FrameDecoding.ChunkingIndependence | pi/packages/protocol/src/framing.ts:73-144 | two splits of the same stream give the same frames and leftover, or both fail |
| FrameDecoding.DecodesEncodings | pi/packages/protocol/src/framing.ts:28-39 | encoded payloads, split anyhow, come out as those payloads with nothing pending, and only for such a stream |
| FrameDecoding.FrameDecoder.constructor | pi/packages/protocol/src/framing.ts:58-71 | an open decoder with nothing pending |
| FrameDecoding.FrameDecoder.CapacityBound | pi/packages/protocol/src/framing.ts:105-123 | the blocks of an unfinished payload never exceed its declared length, nor the bytes received by a whole block |
| FrameDecoding.FrameDecoder.TakeHeader | pi/packages/protocol/src/framing.ts:82-86 | header bytes move from the chunk behind those already held, until there are four or the chunk is used up |
| FrameDecoding.FrameDecoder.OpenBlock | pi/packages/protocol/src/framing.ts:108-114 | a new block only when there is none or the last is full, within block size and declared length, with the payload so far unchanged |
| FrameDecoding.FrameDecoder.CollectPayload | pi/packages/protocol/src/framing.ts:107-123 | the payload grows by exactly the bytes consumed, until it is complete or the chunk is used up |
| FrameDecoding.FrameDecoder.CompletePayload | pi/packages/protocol/src/framing.ts:124-141 | the frame handed out is all payload bytes in order, and the decoder is back between frames |
| FrameDecoding.FrameDecoder.Push | pi/packages/protocol/src/framing.ts:73-144 | returns the frames, and keeps the leftover, of the one-shot parse of everything pending; fails and breaks exactly when that parse meets an oversized frame; refuses when ended or broken |
| FrameDecoding.FrameDecoder.End | pi/packages/protocol/src/framing.ts:146-164 | succeeds exactly when nothing is pending |
| FrameDecoding.DecodeStream | pi/packages/protocol/src/framing.ts:73-164 | a decoder that is pushed the chunks of a stream and then ended returns the frames of the one-shot parse, and fails exactly if that has bytes left over or an oversized frame |
| Utf8.ChunkDecoder.FindTail | pi/packages/tui/src/autocomplete.ts:170-183 | the backward scan over at most three bytes |
| Utf8.ChunkDecoder.DecodeChunk | pi/packages/tui/src/autocomplete.ts:168-221 | one call moves pending bytes and text on by the decoding step |
| Utf8.ChunkDecoder.DecodeComplete | pi/packages/tui/src/autocomplete.ts:188-219 | the forward loop decodes all complete bytes |
| Utf8.DecodesScalar | pi/packages/tui/src/autocomplete.ts:191-213 | the encoding of every scalar value is read back as that value and its own length, whatever follows |
| Utf8.DecodesText | pi/packages/tui/src/autocomplete.ts:188-219 | the encoding of every text decodes to its UTF-16 form |
| Utf8.TailIsUnfinished | pi/packages/tui/src/autocomplete.ts:170-183 | after an incomplete encoding the scan finds exactly its bytes |
| Utf8.TailOfText | pi/packages/tui/src/autocomplete.ts:170-183 | after a complete text the scan finds nothing |
| Utf8.StepOnText | pi/packages/tui/src/autocomplete.ts:168-221 | on any prefix of valid text one call decodes every completed scalar and keeps the rest pending |
| Utf8.DecodesAnySplit | pi/packages/tui/src/autocomplete.ts:168-221 | valid UTF-8 split at any byte positions accumulates the UTF-16 form of its text and leaves nothing pending |
| Utf8.DecodeStream | pi/packages/tui/src/autocomplete.ts:168-221 | a decoder given the chunks of valid UTF-8 one by one, cut anywhere, ends with the UTF-16 form of the text and nothing pending |
| SchemaNodes.ResolveRef | pi/packages/ai/src/schema.ts:431-443 | follows at most 64 references, stopping at a node without one or without its definition |
| SchemaNodes.ResolveRank | pi/packages/ai/src/schema.ts:431-443 | resolving leaves a node alone or lowers its rank, which is why validation and conversion terminate |
| SchemaGuard.GuardedIffCyclesDescend | pi/packages/ai/src/schema.ts:519-743 | a rank exists exactly if every cycle of references passes through an array item, a property or a record value |
| SchemaErrors.ErrorsIff | pi/packages/ai/src/schema.ts:519-743 | a node's error list is empty exactly for the values it accepts |
| SchemaErrors.BestIsShortest | pi/packages/ai/src/schema.ts:498-516 | of the failing branches of an anyOf the one reported has the fewest errors |
| SchemaValidator.Check | pi/packages/ai/src/schema.ts:745-762 | true exactly for accepted values |
| SchemaValidator.ValidateUnionBranches | pi/packages/ai/src/schema.ts:481-517 | appends the union's errors: none if satisfied, else its own and, for anyOf, those of the best branch |
| SchemaValidator.ValidateNode | pi/packages/ai/src/schema.ts:519-743 | appends exactly the node's error list |
| SchemaValidator.ValidateObject | pi/packages/ai/src/schema.ts:684-742 | appends the errors of required keys, properties, patterns and extra keys, in that order |
| SchemaRecords.CoerceKeepsIff | pi/packages/ai/src/schema.ts:774-818 | coercion to a primitive type changes exactly the values of other types that stand for a value of the type |
| SchemaConversion.CoercionUndone | pi/packages/ai/src/schema.ts:774-818 | what true, false and null become as each type, and that coercing null, a boolean or a number to another type and back gives the value there was |
| SchemaConversion.Convert | pi/packages/ai/src/schema.ts:833-902 | terminates and never deepens a value |
| SchemaConverter.ConvertNode | pi/packages/ai/src/schema.ts:833-902 | the loops that overwrite properties and elements compute the conversion |
| SchemaConverter.ConvertUnionBranches | pi/packages/ai/src/schema.ts:904-925 | the two loops over the branches, each running the validator, compute the union's conversion |
| SchemaConverter.ConvertObject | pi/packages/ai/src/schema.ts:855-886 | the loops over properties, patterns and additional keys convert every property independently of the others |
| SchemaConverter.ConvertProper | pi/packages/ai/src/schema.ts:833-902 | conversion keeps the keys of every object apart, so that its results can be validated again |
| SchemaTheorems.UnionOutcome | pi/packages/ai/src/schema.ts:904-925 | a union's conversion is accepted exactly if a branch accepts the value or its own conversion of it; otherwise the value is handed back |
| SchemaTheorems.ConvertKeepsAccepted | pi/packages/ai/src/schema.ts:833-902 | conversion leaves accepted values unchanged |
| SchemaTheorems.ConvertIdempotent | pi/packages/ai/src/schema.ts:833-902 | converting twice is converting once |
| SchemaBuilders.BuildIsShaped | pi/packages/ai/src/schema.ts:209-339 | what the builders make, and every definition it brings into scope, has the shape the conversion theorems need |
| SchemaBuilders.BuiltKeepsAccepted | pi/packages/ai/src/schema.ts:825-830 | Value.Convert on a builder-made schema leaves accepted values unchanged |
| SchemaBuilders.BuiltIdempotent | pi/packages/ai/src/schema.ts:825-830 | Value.Convert on a builder-made schema is idempotent |
| SchemaBuilders.BuiltUnion | pi/packages/ai/src/schema.ts:904-925 | a union conversion returns the value unchanged or one the union accepts |
| SchemaJson.JsonSchemaAccepts | pi/packages/protocol/src/schemas.ts:12-25 | the recursive JSON schema accepts every JSON value, and for keys without line terminators exactly the JSON values |
| SchemaJson.JsonSchemaGap | pi/packages/protocol/src/schemas.ts:12-25 | below a key with a line terminator it accepts what is not JSON |
| SchemaRecords.BuiltKeepsIffSettled | pi/packages/ai/src/schema.ts:868-886 | by any builder-made schema an accepted value is left alone exactly if no property of it, at any depth, is changed by the two schemas that a Record with one for additional properties applies to a matching key |
| SchemaRecords.TwiceSettledIff | pi/packages/ai/src/schema.ts:868-886 | where the first schema leaves it alone, such a property stays exactly if the second, of whatever kind, leaves it alone |
| SchemaRecords.BuiltKeepsIffUntouched | pi/packages/ai/src/schema.ts:833-925 | any builder-made schema leaves a value alone, accepted or not, exactly if it does not stand for a value of the schema's type, no union accepts its own conversion of it instead, and the same holds of its elements and properties |
| SchemaRecords.RecordKeepsIff | pi/packages/ai/src/schema.ts:868-886 | a Record leaves an accepted value alone exactly if no value under a matching key stands for one of the type of its schema for additional properties |
| SchemaRecords.RecordAdditionalBreaks | pi/packages/ai/src/schema.ts:868-886 | an accepted record of numbers that conversion turns into one that is not accepted |
| SchemaMeaning.NumbersConvert | pi/packages/ai/src/schema.ts:776-793 | by a number or integer schema true becomes one, false and null zero, and a string the number it reads as, if that is whole where an integer is asked for; anything else stays |
| SchemaMeaning.BooleansConvert | pi/packages/ai/src/schema.ts:794-805 | by a boolean schema "true" and one become true, "false", zero and null false; anything else stays |
| SchemaMeaning.StringsConvert | pi/packages/ai/src/schema.ts:806-810 | by a string schema booleans and numbers become what they print as and null the empty string; anything else stays |
| SchemaMeaning.NullsConvert | pi/packages/ai/src/schema.ts:811-814 | by a null schema the empty string, zero and false become null; anything else stays |
| SchemaMeaning.LiteralsConvert | pi/packages/ai/src/schema.ts:252-258 | a literal converts like the schema of its type, whether or not the result is the literal |
| SchemaMeaning.ArraysConvert | pi/packages/ai/src/schema.ts:886-899 | an array is converted element by element |
| SchemaMeaning.ObjectsConvert | pi/packages/ai/src/schema.ts:855-884 | an object keeps its keys; a property is converted by its own schema, or else by the one for additional properties, or not at all |
| SchemaMeaning.RecordsConvert | pi/packages/ai/src/schema.ts:864-884 | a Record converts the values under keys of its pattern by its value schema, then every value by the schema for additional properties if there is one |
| SchemaMeaning.UnionsConvert | pi/packages/ai/src/schema.ts:904-925 | a union leaves alone what a branch accepts; anything else becomes what the first branch that accepts its own conversion makes of it, if there is one |
| SchemaMeaning.StringsAccepted | pi/packages/ai/src/schema.ts:576-607 | strings whose length is within the bounds, both included, and that match the pattern |
| SchemaMeaning.NumbersAccepted | pi/packages/ai/src/schema.ts:609-643 | numbers, or whole numbers, within the bounds, both included, that are multiples unless the divisor is zero |
| SchemaMeaning.LiteralsAccepted | pi/packages/ai/src/schema.ts:543-551 | a literal accepts itself and nothing else |
| SchemaMeaning.ArraysAccepted | pi/packages/ai/src/schema.ts:645-678 | arrays of a size within the bounds whose elements are all accepted |
| SchemaMeaning.UnionsAccepted | pi/packages/ai/src/schema.ts:481-517 | what some branch accepts, and anything if there is no branch |
| SchemaMeaning.ReferencesFollowed | pi/packages/ai/src/schema.ts:431-443 | a reference, or the root of a cyclic schema, accepts and converts like the definition it names, if that is no reference itself |
| SchemaMeaning.ObjectsAccepted | pi/packages/ai/src/schema.ts:680-742 | objects that have every property that is not optional and whose properties are accepted by their own schemas, or are as is said of additional properties |
| SchemaMeaning.RecordsAccepted | pi/packages/ai/src/schema.ts:705-742 | objects whose values under keys of the pattern are accepted by the value schema, and others as is said of additional properties |
| SchemaScopes.NamesInScope | pi/packages/ai/src/schema.ts:388-429 | the names a reference can find are exactly those defined in a cyclic schema at any depth; one that is defined once stands for its definition |
| SchemaReports.StringsReported | pi/packages/ai/src/schema.ts:565-607 | a string is reported too short, too long or not to match, exactly if it is, and other values for their type |
| SchemaReports.NumbersReported | pi/packages/ai/src/schema.ts:565-643 | a number is reported too small, too large or not a multiple, exactly if it is, and other values, or fractions, for their type |
| SchemaReports.ArraysReported | pi/packages/ai/src/schema.ts:645-671 | an array is reported for its size, and element by element, at the element's index, for what the element schema reports; for nothing else |
| SchemaReports.ObjectsReported | pi/packages/ai/src/schema.ts:680-742 | an object is reported for missing and for forbidden properties, and property by property, at its key, for what its schema reports; for nothing else |
| SchemaReports.UnionsReported | pi/packages/ai/src/schema.ts:481-517 | a union without a passing branch reports itself and then what the first of the branches with the fewest errors reports; otherwise nothing |
| LiveSessionsRuns.InvariantRun | pi/packages/server/src/sessions.ts:36-346 | the invariants of sessions, suspended calls, connections and retained sessions hold after every run |
| LiveSessionsRuns.OneRuntimePerId | pi/packages/server/src/sessions.ts:186-246 | until the closing server empties its map, no session id has two runtimes between acquisition and settled dispose |
| LiveSessionsRuns.DisposedOnce | pi/packages/server/src/sessions.ts:152-169 | dispose is called on acquired runtimes only, at most once, and on each of them once the closing server has emptied its map |
| LiveSessionsRuns.HistoryGrows | pi/packages/server/src/sessions.ts:324-345 | acquisitions, dispose calls and settled disposes are never forgotten, and no step disposes of a runtime twice |
| LiveSessionsRuns.OperationsKeepAlive | pi/packages/server/src/sessions.ts:171-184 | operationCount is the number of running operations, and no dispose has begun while there is one, unless by the closing server |
| LiveSessionsRuns.NothingLeaks | pi/packages/server/src/sessions.ts:324-345 | a live session without connections and operations that is terminal or idle is being disposed of, or a suspended call is about to attach to it or reconsider it |
| LiveSessionsRuns.ConnectionsAreKnown | pi/packages/server/src/sessions.ts:300-307 | a session's connections have completed their hello; those of a session in the map list its id and are not disconnected |
| LiveSessionsRuns.StageForward | pi/packages/server/src/server.ts:170-250 | a connection's stage never moves backward |
| LiveSessionsAnswers.AcceptedBecomesReady | pi/packages/server/src/server.ts:185-250 | a connection that is accepted, says hello and has its handshake done can make requests and be linked, until it fails, closes or disconnects |
| LiveSessionsAnswers.AttachToLive | pi/packages/server/src/sessions.ts:186-196 | after every run, an attach of a ready connection to a live session that is neither terminal nor disposing links the connection to that very runtime, on both sides, and opens nothing |
| LiveSessionsAnswers.AttachToTerminal | pi/packages/server/src/sessions.ts:190-190 | an attach to a terminal session fails: no call is left suspended and nothing has changed |
| LiveSessionsAnswers.AttachToDisposing | pi/packages/server/src/sessions.ts:191-194 | an attach to a session that is being disposed of waits for that dispose and links nothing |
| LiveSessionsAnswers.WaitsForDispose | pi/packages/server/src/sessions.ts:191-194 | whatever else happens, it goes on waiting until that dispose has settled |
| LiveSessionsAnswers.AttachOpens | pi/packages/server/src/sessions.ts:199-201 | an attach to a session that is neither live nor opening opens it, under a runtime of its own |
| LiveSessionsAnswers.AttachJoins | pi/packages/server/src/sessions.ts:197-198 | an attach to a session that is opening waits for the same opening |
| LiveSessionsAnswers.WaitsForOpening | pi/packages/server/src/sessions.ts:197-205 | whatever else happens, it goes on waiting until the opening has succeeded or failed |
| LiveSessionsAnswers.OpeningSucceeds | pi/packages/server/src/sessions.ts:209-236 | an opening whose runtime arrives and answers with its first snapshot makes the session live under its id |
| LiveSessionsAnswers.WaiterLinks | pi/packages/server/src/sessions.ts:202-205 | a call that waited for an opening that succeeded links its connection to the runtime on both sides |
| LiveSessionsAnswers.WaitersShareTheRuntime | pi/packages/server/src/sessions.ts:197-206 | all requests that arrive while a session is opening end up linked to the one runtime that opens, in whatever order they go on, and nobody else does |
| LiveSessionsAnswers.DetachUnlinks | pi/packages/server/src/sessions.ts:75-89 | a detach unlinks both sides; a snapshot goes to those that are left, or else the session is reconsidered |
| LiveSessionsAnswers.DisconnectUnlinks | pi/packages/server/src/sessions.ts:122-132 | a connection that is gone is linked to nothing, and every session it was linked to is reconsidered |
| LiveSessionsAnswers.OperationRuns | pi/packages/server/src/sessions.ts:171-184 | an operation on a session the connection lists, live and neither terminal nor disposing, is counted, and no other is |
| LiveSessionsAnswers.EndingDisconnects | pi/packages/server/src/sessions.ts:265-274 | the connections of a session that has failed are disconnected one by one, and then it is reconsidered |
| LiveSessionsAnswers.ClosingSweeps | pi/packages/server/src/sessions.ts:152-169 | closing disposes of every session in the map that is not being disposed of yet, each once, and leaves the map empty |
| LiveSessionsLifecycle.LifecycleKept | pi/packages/server/src/sessions.ts:186-246 | every step keeps sessions, openings and the two maps consistent |
| LiveSessionsTasks.TasksNext | pi/packages/server/src/sessions.ts:171-184 | every step keeps what suspended calls rely on and the operation counts |
| LiveSessionsConnections.ConnectionsNext | pi/packages/server/src/sessions.ts:122-132 | every step keeps the connection sets consistent |
| LiveSessionsLeaks.LeakNext | pi/packages/server/src/sessions.ts:324-345 | every step keeps a reason to stay for every live session |
| LiveSessionManagement.LiveSession.MaybeDispose | pi/packages/server/src/sessions.ts:324-345 | begins a dispose exactly when open, unused and terminal or idle, and not closing |
| LiveSessionManagement.LiveSessionManager.AcquireTurn | pi/packages/server/src/sessions.ts:186-207 | one turn of the acquire loop: fail if the live session is terminal, wait if it is being disposed of, attach otherwise; join the opening, or open (`LiveSessionsAnswers`) |
| LiveSessionManagement.LiveSessionManager.Open | pi/packages/server/src/sessions.ts:200-201 | a new opening is entered under its id |
| LiveSessionManagement.LiveSessionManager.Retry | pi/packages/server/src/sessions.ts:191-194 | after a settled dispose the loop goes round again, or fails with its error |
| LiveSessionManagement.LiveSessionManager.RuntimeArrives | pi/packages/server/src/sessions.ts:209-214 | a runtime that arrives while closing is disposed of, any other is probed |
| LiveSessionManagement.LiveSessionManager.ProbeSucceeds | pi/packages/server/src/sessions.ts:217-236 | the session is subscribed to and goes live |
| LiveSessionManagement.LiveSessionManager.ProbeFails | pi/packages/server/src/sessions.ts:237-245 | a runtime that fails its probe is disposed of |
| LiveSessionManagement.LiveSessionManager.OpeningResumes | pi/packages/server/src/sessions.ts:202-206 | the opener removes its entry, waiters go on to attach or fail |
| LiveSessionManagement.LiveSessionManager.Attach | pi/packages/server/src/sessions.ts:300-307 | both sides are linked, or the session is reconsidered if the connection has gone |
| LiveSessionManagement.LiveSessionManager.StartDetach | pi/packages/server/src/sessions.ts:77-91 | the connection forgets the id, the session the connection, and a snapshot goes out or the session is reconsidered |
| LiveSessionManagement.LiveSessionManager.StartOperation | pi/packages/server/src/sessions.ts:309-318 | an operation is counted exactly if the connection lists a live session that is not ending |
| LiveSessionManagement.LiveSessionManager.OperationEnds | pi/packages/server/src/sessions.ts:180-183 | the count goes down and the session is reconsidered |
| LiveSessionManagement.LiveSessionManager.Event | pi/packages/server/src/sessions.ts:248-263 | a heard event reconsiders the session |
| LiveSessionManagement.LiveSessionManager.RuntimeError | pi/packages/server/src/sessions.ts:265-270 | an error makes the session terminal once and unsubscribes |
| LiveSessionManagement.LiveSessionManager.TerminateEnds | pi/packages/server/src/sessions.ts:271-273 | after its connections are gone a terminal session is reconsidered |
| LiveSessionManagement.LiveSessionManager.DisposeSettles | pi/packages/server/src/sessions.ts:336-342 | the map forgets a session whose dispose has settled, unless another took its place |
| LiveSessionManagement.LiveSessionManager.Disconnect | pi/packages/server/src/server.ts:282-291 | the connection leaves every session it lists, and each is reconsidered |
| LiveSessionManagement.LiveSessionManager.CloseBegins | pi/packages/server/src/sessions.ts:152-153 | closing waits for the openings there are |
| LiveSessionManagement.LiveSessionManager.CloseSweeps | pi/packages/server/src/sessions.ts:157-169 | the map is emptied and every session in it that is not disposing is disposed of |
| LiveSessionManagement.LiveSessionManager.CloseConnections | pi/packages/server/src/server.ts:330-335 | every remaining connection goes into stage closing |
| LiveSessionService.Take | pi/packages/server/src/sessions.ts:36-346 | whatever step comes next, the manager's methods take it, and the invariant of every run stays true of the manager's fields |
| LiveSessionService.Serve | pi/packages/server/src/sessions.ts:36-346 | a new manager driven by any sequence of steps is in the state of that run, and its invariant holds |
| LiveSessionService.ServedOneRuntimePerId | pi/packages/server/src/sessions.ts:186-246 | two live runtimes of one session id among the manager's records are the same |
| SnapshotsConvergence.NewestIsGreatest | pi/packages/client/src/state.ts:100-104 | the newest revision of a message log is one of its revisions and at least every one of them |
| SnapshotsConvergence.ReceiveIsNewest | pi/packages/client/src/state.ts:100-104 | the client's filter keeps the newest revision, in whatever order messages come |
| SnapshotsConvergence.InvariantRun | pi/packages/server/src/snapshots.ts:34-61 | after every run a ready connection has been sent the newest revision exactly unless it is on its way or was missed |
| SnapshotsConvergence.Converges | pi/packages/server/src/server.ts:221-250 | once quiet, a ready client holds the server's revision exactly unless the broadcast of that revision failed |
| SnapshotsConvergence.ConvergesWithoutFailures | pi/packages/server/src/snapshots.ts:44-61 | with a service that does not fail every ready client ends up with the server's revision |
| SnapshotsConvergence.HeldNeverDecreases | pi/packages/client/src/state.ts:100-104 | the held revision never decreases within a connection |
| SnapshotsConvergence.HeldIsGreatest | pi/packages/client/src/state.ts:100-104 | in every run a client holds the greatest of the revisions it has been given, in whatever order they came |
| SnapshotsConvergence.HelloComesFirst | pi/packages/server/src/server.ts:185-250 | the first message sent is a hello or a hello error, and no request runs before the handshake is complete |
| SnapshotsConvergence.HelloErrorEnds | pi/packages/server/src/server.ts:315-328 | in every run a connection that has been sent a hello error is closing or closed, and is sent no hello and no other hello error any more; what can follow is what was under way: answers, session events and server snapshots |
| SnapshotsConvergence.RequestsStartReady | pi/packages/server/src/server.ts:209-218 | a request starts only on a ready connection |
| SnapshotsConvergence.FailedBroadcastLeavesBehind | pi/packages/server/src/snapshots.ts:50-61 | a run in which a failed broadcast leaves a ready client one revision behind |
| SnapshotsConvergence.RefreshMayArriveLate | pi/packages/server/src/server.ts:242-248 | a handshake's second snapshot can reach the client after a newer broadcast, and is then dropped |
| SnapshotsAnswers.HelloIsAnswered | pi/packages/server/src/server.ts:194-230 | after every run, a supported first hello takes the revision of that moment and has the snapshot fetched |
| SnapshotsAnswers.HelloIsSent | pi/packages/server/src/server.ts:230-237 | the hello that goes back carries that revision and is the first message sent; a closing server sends none |
| SnapshotsAnswers.BecomesReady | pi/packages/server/src/server.ts:238-243 | once it has been sent the connection is ready, and a newer snapshot is fetched exactly if the revision has moved on |
| SnapshotsAnswers.WrongHelloRefused | pi/packages/server/src/server.ts:186-228 | a hello of another version, another first message, a second hello and a failing service get a hello error as the next message and end the connection |
| SnapshotsAnswers.RequestRuns | pi/packages/server/src/server.ts:209-218 | a request is executed at once on a ready connection and queued during the handshake |
| SnapshotsAnswers.QueuedRequestRuns | pi/packages/server/src/server.ts:216-218 | a queued request is executed once the connection is ready, and dropped if it never is |
| SnapshotsAnswers.EndingIgnoresMessages | pi/packages/server/src/server.ts:179-182 | nothing that arrives on a connection that is ending has any effect |
| SnapshotsAnswers.BroadcastTakesRevision | pi/packages/server/src/snapshots.ts:50-55 | a broadcast takes the next revision for exactly the connections that are ready, unless there are none or the server is closing |
| SnapshotsAnswers.BroadcastReachesAll | pi/packages/server/src/snapshots.ts:60-60 | every connection of a broadcast is sent its revision, once and in any order, unless it is gone; no other connection is sent anything |
| SnapshotsAnswers.ClientKeepsNewer | pi/packages/client/src/state.ts:100-104 | a client keeps the revision it is given unless it holds a newer one |
| SnapshotServing.SnapshotServer.DispatchMessage | pi/packages/server/src/server.ts:185-219 | hello first and only once, requests at once when ready or after the handshake |
| SnapshotServing.SnapshotServer.SendHello | pi/packages/server/src/server.ts:230-237 | the hello carries the revision taken before the snapshot was fetched |
| SnapshotServing.SnapshotServer.BecomeReady | pi/packages/server/src/server.ts:238-243 | the connection becomes ready, and fetches again exactly if the revision has moved on |
| SnapshotServing.SnapshotServer.SendRefresh | pi/packages/server/src/server.ts:243-248 | the second snapshot carries the revision at that time |
| SnapshotServing.SnapshotServer.PerformBroadcast | pi/packages/server/src/snapshots.ts:50-56 | a revision is taken exactly if a connection is ready and the server is not closing |
| SnapshotServing.SnapshotServer.SessionsListed | pi/packages/server/src/snapshots.ts:55-58 | the broadcast goes on to its sends, or is given up with its revision taken |
| SnapshotServing.SnapshotServer.SendNext | pi/packages/server/src/snapshots.ts:60-60 | the broadcast goes to each of its connections once |
| SnapshotServing.SnapshotServer.SendMessage | pi/packages/server/src/server.ts:293-306 | a message is handed over exactly if the connection is neither disconnected nor closed |
| SnapshotServing.SnapshotServer.FailProtocol | pi/packages/server/src/server.ts:315-328 | a connection that is not ending yet goes into stage closing, and a hello error is handed over, once |
| SnapshotServing.SnapshotServer.FailFetch | pi/packages/server/src/server.ts:221-250 | a handshake whose snapshot cannot be fetched fails the connection |
| SnapshotServing.SnapshotServer.RunQueued | pi/packages/server/src/server.ts:209-218 | a request that waited for the handshake runs exactly if the connection is ready |
| SnapshotServing.SnapshotServer.Deliver | pi/packages/client/src/state.ts:100-104 | the client keeps a snapshot unless it holds a newer one |
| SnapshotServing.Serve | pi/packages/server/src/snapshots.ts:34-61 | a new server driven by any sequence of steps is in the state of that run, and the run's invariant holds of it |
| AgentRuns.PendingMessageQueue.Drain | pi/packages/agent/src/agent.ts:166-179 | takes all messages or the oldest one, from the front |
| AgentRuns.AgentState.Process | pi/packages/agent/src/agent.ts:590-628 | what each event makes of the messages, the streaming message and the pending tool calls |
| AgentRuns.Agent.FailToolCallsFromTruncatedMessage | pi/packages/agent/src/agent-loop.ts:421-446 | one error result per call, in order |
| AgentRuns.Agent.PrepareToolCall | pi/packages/agent/src/agent-loop.ts:638-707 | without abort a call is prepared exactly if its tool is found, its arguments are valid and the hook lets it pass; otherwise it has its own error outcome |
| AgentRuns.Agent.ExecuteToolCall | pi/packages/agent/src/agent-loop.ts:484-512 | the call starts, passes on its partial results and ends; without abort its outcome is the call's own, which `AgentOutcomes` spells out |
| AgentRuns.Agent.ExecuteToolCallsSequential | pi/packages/agent/src/agent-loop.ts:473-527 | results of the first calls in order; of all of them, each with its own outcome, without abort; of at least one in any case |
| AgentRuns.Agent.RunToolCalls | pi/packages/agent/src/agent-loop.ts:562-582 | prepared calls that report and finish in any order come to the same outcomes in call order |
| AgentRuns.Agent.ExecuteToolCallsParallel | pi/packages/agent/src/agent-loop.ts:529-594 | the same contract as one call after the other, whatever the order of completion |
| AgentRuns.ParallelRefinesSequential | pi/packages/agent/src/agent-loop.ts:473-594 | both ways give the same results and the same decision to terminate |
| AgentRuns.AgentState.NothingPending | pi/packages/agent/src/agent.ts:605-617 | when every started call has ended no tool call is pending |
| AgentEvents.EndsOnceAndLast | pi/packages/agent/src/agent-loop.ts:186-311 | in a well-formed log the end of the run is its last event |
| AgentEvents.StartHasOneEnd | pi/packages/agent/src/agent-loop.ts:709-761 | in a well-formed log a call started once ends once, later, with all its updates in between |
| AgentEvents.StartsAndEndsMatch | pi/packages/agent/src/agent-loop.ts:709-761 | in a well-formed log, whatever ids are repeated, an id ends as often as it starts, every start and update has a later end, and every end and update an earlier start |
| AgentEvents.StaleIffRestarted | pi/packages/agent/src/agent-loop.ts:354-402 | a response leaves partial messages behind exactly if it starts more than once |
| AgentEvents.ResultsFollowResponse | pi/packages/agent/src/agent-loop.ts:248-278 | in the transcript a response stands immediately before its results |
| AgentRecords.ContextAgrees | pi/packages/agent/src/agent-loop.ts:354-402 | from any turn on, until it is replaced, the context is what it was and what the turns have added exactly if no response has started twice; it is never shorter |
| AgentLoop.LoopRun.StreamAssistantResponse | pi/packages/agent/src/agent-loop.ts:317-412 | the transcript gains the final message, the context the final message in place of the last partial one |
| AgentLoop.LoopRun.InjectPending | pi/packages/agent/src/agent-loop.ts:238-246 | pending messages enter all three transcripts in order |
| AgentLoop.LoopRun.PollSteering | pi/packages/agent/src/agent.ts:513-519 | what is drained becomes pending, except at a skipped first poll |
| AgentLoop.LoopRun.HandleToolCalls | pi/packages/agent/src/agent-loop.ts:258-278 | results pair with the calls; without abort they are the expected ones, and more turns are wanted exactly if not all results terminate |
| AgentLoop.LoopRun.EndTurn | pi/packages/agent/src/agent-loop.ts:280-280 | a turn ends only with coherent transcripts, paired results and no open call |
| AgentLoop.LoopRun.RunLoop | pi/packages/agent/src/agent-loop.ts:186-311 | every run takes its turns from the model's responses in order, notes exactly the transcripts of each turn's end, goes on only for a reason and ends only for one; no queued message and no abort is forgotten |
| AgentLoop.LoopRun.Execute | pi/packages/agent/src/agent-loop.ts:126-149 | the same of a whole run, from its prompts on |
| AgentLoop.LoopRun.QueuesConserve | pi/packages/agent/src/agent.ts:150-184 | every message ever given to a queue is still queued or was taken, in order; what was taken is, in the order it was taken, what came with the prompts, what was injected turn by turn, and what is held; that what was given only grows is in the contract of every method of the run |
| AgentLoop.LoopRun.TranscriptsAgree | pi/packages/agent/src/agent.ts:590-637 | at the end of every turn the transcript is the starting one plus the new messages, no tool call is pending, and the context, unless replaced, is the transcript exactly if none of the responses so far starts twice |
| AgentLoop.LoopRun.ReplacedContextAgrees | pi/packages/agent/src/agent-loop.ts:206-224 | a replaced context is the new one and what the turns since have added exactly if none of their responses starts twice |
| AgentLoop.LoopRun.RunEndsLikeItsLastTurn | pi/packages/agent/src/agent-loop.ts:282-311 | a finished run took at least one turn, ends with the transcripts of its last, and for a reason: a failed response, a stop, or no more tool calls with both queues empty at the turn's end |
| AgentLoop.LoopRun.NextTurnHasAReason | pi/packages/agent/src/agent-loop.ts:199-246 | a further turn follows on more tool calls or a queued message, and brings the steering messages queued at the end of the one before: all of them, or the oldest |
| AgentLoop.LoopRun.FollowUpsWait | pi/packages/agent/src/agent-loop.ts:205-304 | follow-ups that are queued when a turn ends with more tool calls, or with steering messages queued, are still queued when the next turn ends |
| AgentLoop.LoopRun.ResultsWithoutAbort | pi/packages/agent/src/agent-loop.ts:248-278 | in a run that is not aborted every turn has exactly the results that its response calls for |
| AgentLoop.LoopRun.CallsAreAnswered | pi/packages/agent/src/agent-loop.ts:248-278 | every response of the run is followed at once by its paired results |
| AgentLoop.LoopRun.OneMessagePerTurn | pi/packages/agent/src/agent-loop.ts:225-246 | with both queues one at a time no turn is injected more than one queued message |
| AgentLoop.LoopRun.EventsBracketed | pi/packages/agent/src/agent-loop.ts:473-594 | in a completed run the run's end is the last event, tool calls end as often as they start and at the right places, and a call with an id of its own ends exactly once with its updates in between |
| AgentRuns.Agent.ExecuteToolCalls | pi/packages/agent/src/agent-loop.ts:451-466 | the batch contract either way; no call of it starts while another is open if execution is sequential or one of its tools asks for that, and none after an abort unless there was one before |
| AgentOutcomes.EveryCallAnswered | pi/packages/agent/src/agent-loop.ts:828-842 | every call of a complete response that is not aborted gets one result, with its id and its tool's name, in call order |
| AgentOutcomes.NotExecuted | pi/packages/agent/src/agent-loop.ts:638-707 | a call whose tool is missing, whose arguments are invalid, or which the before hook blocks or fails, answers with an error that says which, whatever the after hook does |
| AgentOutcomes.ExecutedWithoutHook | pi/packages/agent/src/agent-loop.ts:748-757 | a tool that returns answers with what it returned, no error; one that throws with an error of what it threw |
| AgentOutcomes.ErrorIff | pi/packages/agent/src/agent-loop.ts:638-761 | without an after hook a result is an error exactly if the tool is missing or throws, the arguments are invalid, or the before hook blocks or throws |
| AgentOutcomes.HookGivesContent | pi/packages/agent/src/agent-loop.ts:789-791 | content that the after hook gives replaces the tool's or what it threw; otherwise that stays |
| AgentOutcomes.HookGivesError | pi/packages/agent/src/agent-loop.ts:796-796 | what the after hook says of its being an error decides; otherwise it is one exactly if the tool threw |
| AgentOutcomes.HookThrows | pi/packages/agent/src/agent-loop.ts:798-801 | an after hook that throws makes the result an error of what it threw |
| AgentOutcomes.EndsSayTheSame | pi/packages/agent/src/agent-loop.ts:818-842 | for every result in the transcript the log has an end of that call with the same content that is an error if and only if the result is one |
| AgentOutcomes.AbortedOrOwn | pi/packages/agent/src/agent-loop.ts:654-706 | even in a turn that is aborted every result is the call's own or the error that says it was aborted |
| AgentOutcomes.MoreUnlessAllStop | pi/packages/agent/src/agent-loop.ts:622-624 | the calls of a response ask for another turn exactly if one of them does not ask to stop, by its tool, or by the hook that had the last word |
| AgentOutcomes.TruncatedCalls | pi/packages/agent/src/agent-loop.ts:421-446 | a truncated response has each of its calls answered with the error that says so, and asks for another turn if it has calls |
| AgentOutcomes.FailedResponse | pi/packages/agent/src/agent-loop.ts:252-256 | a failed response has no results, whatever calls it holds, and the run ends with it |
| AgentStories.ListenersHaveTheTranscript | pi/packages/agent/src/agent-loop.ts:186-311 | the messages that a finished run's events end are, in order, exactly what it has added to the transcript |
| AgentStories.ListenersHearEveryTurn | pi/packages/agent/src/agent-loop.ts:186-311 | a finished run starts and ends each of its turns once, says at the end of each what its response and its results were, and at the very end what it has added |
| AgentStories.MessagesAnnounced | pi/packages/agent/src/agent-loop.ts:354-411 | no message is updated or ends in a finished run without having just been announced or updated |
| AgentStories.ResponseHeard | pi/packages/agent/src/agent-loop.ts:354-411 | a response is heard as its partial messages, the first as its start and the others as updates, and then as its final message |
| AgentStories.UpdatesPassedOn | pi/packages/agent/src/agent-loop.ts:728-747 | every partial result of a tool that is executed is passed on as an update of its call |
| AgentStories.OneCallAtATime | pi/packages/agent/src/agent-loop.ts:473-527 | in a run with sequential execution no call starts while another one is open |
| AgentLoop.OneMessageUnlessSteered | pi/packages/agent/src/agent.ts:404-418 | the first turn of a continued run gets at most one queued message exactly unless a follow-up started it and a steering message is queued at the first poll |
| AgentLoop.SteerWhileContinuing | pi/packages/agent/src/agent.ts:411-415 | a run that the follow-up branch starts and a listener steers before the first poll, in which the first turn gets two |
| AgentLoop.Prompt | pi/packages/agent/src/agent.ts:383-391 | refused while active, with nothing changed; otherwise a run from the current transcript with these prompts |
| AgentLoop.Continue | pi/packages/agent/src/agent.ts:394-421 | which of the four outcomes, and which queued messages become the prompts |
| ClientLeasesExclusion.CountsAndExclusion | pi/packages/client/src/client.ts:381-400 | in every safe run the lease count is the number of outstanding reservations, and an exclusive one is the only one |
| ClientLeasesExclusion.DetachOnlyWhenLast | pi/packages/client/src/client.ts:237-252 | in every safe run a release sends a detach exactly if no other reservation is outstanding |
| ClientLeasesExclusion.OldLeaseStaysInactive | pi/packages/client/src/client.ts:209-225 | in every safe run a lease from an older generation is never active again |
| ClientLeasesExclusion.InvariantNext | pi/packages/client/src/client.ts:151-177 | every step keeps counts, exclusion and generations exactly if it is not an interrupted call that goes on unsafely |
| ClientLeasesExclusion.ResumeKeepsIffSafe | pi/packages/client/src/client.ts:155-176 | an interrupted call that goes on keeps the invariant exactly if it is safe: it gives its reservation back only while the session has no new one, goes on to another request at any time, and never becomes a lease |
| ClientLeasesExclusion.InvariantIffSafeRun | pi/packages/client/src/client.ts:151-177 | the invariant holds all along a run exactly if every call of the run goes on when it is safe |
| ClientLeasesExclusion.LateFailureBreaksExclusion | pi/packages/client/src/client.ts:173-176 | a run in which such a failure lets in a second exclusive reservation |
| ClientLeasesExclusion.LateSuccessBreaksExclusion | pi/packages/client/src/client.ts:171-210 | a run in which an acquire whose attach was answered just before the disconnect becomes an active lease of the new connection beside an exclusive one |
| ClientLeasesAvailability.SharedUnlessExclusive | pi/packages/client/src/client.ts:381-393 | in every safe run of a client that is not disposed of, a shared acquire reserves exactly if no outstanding reservation of the session is exclusive, beside all others; refused, it changes nothing |
| ClientLeasesAvailability.ExclusiveIfFree | pi/packages/client/src/client.ts:381-393 | an exclusive acquire reserves exactly if no reservation of the session is outstanding; refused, it changes nothing |
| ClientLeasesAvailability.CreatedIfFree | pi/packages/client/src/client.ts:141-145 | so does the lease of a created session |
| ClientLeasesAvailability.DisposedRefuses | pi/packages/client/src/client.ts:152-152 | a client that has been disposed of leases nothing |
| ClientLeasesAvailability.ActiveAtOnce | pi/packages/client/src/client.ts:160-172 | a lease of a session the client is attached to, with no detach under way or failed, is active at once and without a request |
| ClientLeasesAvailability.WaitsForAttach | pi/packages/client/src/client.ts:160-167 | otherwise it waits for the attach under way, or for a new request that others can share |
| ClientLeasesAvailability.AttachSucceeds | pi/packages/client/src/client.ts:167-172 | once the attach has been answered the lease is active |
| ClientLeasesAvailability.AttachFails | pi/packages/client/src/client.ts:173-176 | once it has failed the reservation, and only that, is given back |
| ClientLeasesAvailability.WaitsForDetach | pi/packages/client/src/client.ts:155-156 | a lease reserved while a detach is under way waits for it |
| ClientLeasesAvailability.WaitsForCleanUp | pi/packages/client/src/client.ts:157-159 | a lease of a session whose detach has failed waits for the clean-up under way, or for a new request |
| ClientLeasesAvailability.AttachesAfterCleanUp | pi/packages/client/src/client.ts:160-165 | after the clean-up the session is attached to anew, even if the client takes itself to be attached |
| ClientLeasesAvailability.ReleaseOneOfSeveral | pi/packages/client/src/client.ts:250-252 | releasing one of several leases gives it back at once and sends nothing |
| ClientLeasesAvailability.ReleaseLast | pi/packages/client/src/client.ts:237-243 | releasing the last lease sends a detach, and it stays reserved until that has settled |
| ClientLeasesAvailability.DetachSucceeds | pi/packages/client/src/client.ts:243-248 | once the detach has been answered the session is neither leased nor attached to |
| ClientLeasesAvailability.DetachFails | pi/packages/client/src/client.ts:254-266 | once it has failed the lease is active again or, if it was to be given up, gone, and the session to be cleaned up |
| ClientLeasesAvailability.DisconnectTakesAll | pi/packages/client/src/client.ts:321-325 | a disconnect takes back every reservation, and no lease is active after it |
| SessionLeasing.SessionLeases.ReserveSessionLease | pi/packages/client/src/client.ts:381-393 | reserves exactly if no exclusive lease and, for an exclusive one, no lease at all is in the way (`ClientLeasesAvailability`) |
| SessionLeasing.SessionLeases.ReleaseSessionLease | pi/packages/client/src/client.ts:395-400 | gives one reservation back, and the exclusive entry only to its own token |
| SessionLeasing.SessionLeases.InvalidateAllSessionLeases | pi/packages/client/src/client.ts:402-412 | every counted session loses its reservations and enters a new generation |
| SessionLeasing.SessionLeases.AcquireSession | pi/packages/client/src/client.ts:151-166 | up to its first await: refused, waiting for a detach or a clean-up, attaching, or leased at once |
| SessionLeasing.SessionLeases.ReconcileSessionCleanup | pi/packages/client/src/client.ts:363-379 | one shared clean-up request per session |
| SessionLeasing.SessionLeases.CreateSessionLease | pi/packages/client/src/client.ts:209-213 | a lease is active in the generation it is created in |
| SessionLeasing.SessionLeases.CreateSession | pi/packages/client/src/client.ts:141-145 | a created session is leased exclusively if it can be reserved |
| SessionLeasing.SessionLeases.Resume | pi/packages/client/src/client.ts:155-176 | what each waiting call does when its promise has settled |
| SessionLeasing.SessionLeases.ReleaseLease | pi/packages/client/src/client.ts:231-252 | the last lease sends a detach, any other is given back at once, an inactive one is left alone |
| SessionLeasing.SessionLeases.DetachSettled | pi/packages/client/src/client.ts:243-266 | a failed detach reactivates, relinquishes for later clean-up, or is ignored when invalidated |
| SessionLeasing.SessionLeases.HandleDisconnected | pi/packages/client/src/client.ts:321-328 | attachments are forgotten, leases invalidated, pending requests rejected |
| SessionLeasing.SessionLeases.HandleConnected | pi/packages/client/src/connection.ts:191-196 | a new connection starts with no attached session |
| SessionLeasing.SessionLeases.HandleResponse | pi/packages/client/src/state.ts:77-86 | a response settles its request once and updates the attached sessions |
| SessionLeasing.Serve | pi/packages/client/src/client.ts:151-412 | a client's lease tables driven by any sequence of steps are in the state of that run, and keep the invariant all along exactly if the run is safe |
| ClientRequests.PendingIsUnsettled | pi/packages/client/src/client.ts:189-207 | every request is pending under one id or has settled, not both; the table is empty without a connection; a result is for the command asked |
| ClientRequests.SettlesOnce | pi/packages/client/src/connection.ts:206-231 | what a request or a handshake has settled to never changes |
| ClientRequests.InvariantRun | pi/packages/client/src/client.ts:294-353 | request ids are never reused, pending requests and outcomes stay apart, and handshakes are unsettled exactly while under way |
| ClientRequestsOutcomes.ResultResolves | pi/packages/client/src/client.ts:317-318 | after every run, a result for the command that was asked resolves its pending request, and nothing else changes |
| ClientRequestsOutcomes.ErrorRejects | pi/packages/client/src/client.ts:305-308 | an error response rejects its request as a server error, and nothing else changes |
| ClientRequestsOutcomes.MismatchRejects | pi/packages/client/src/client.ts:309-316 | a result for another command rejects its request for that and ends the connection, with every other pending request rejected as lost |
| ClientRequestsOutcomes.StrayMessageEndsConnection | pi/packages/client/src/client.ts:300-304 | a response to no pending request, undecodable bytes and another hello end the connection, with everything pending rejected as lost |
| ClientRequestsOutcomes.OutcomeHasResponse | pi/packages/client/src/client.ts:300-318 | conversely a result or a server error among the outcomes is what a response to that very request has said, on the connection it was made on |
| ClientRequestsOutcomes.RequestRefused | pi/packages/client/src/client.ts:190-191 | a request of a disposed client, or one without a connection, is refused for that reason, and nothing else changes |
| ClientRequestsOutcomes.RequestNotEncoded | pi/packages/client/src/client.ts:195-204 | a request that cannot be encoded is rejected, and nothing else changes |
| ClientRequestsOutcomes.RequestSent | pi/packages/client/src/client.ts:192-206 | a request that is sent is pending under an id that none has, and nothing else changes |
| ClientRequestsOutcomes.RequestNotSent | pi/packages/client/src/connection.ts:101-110 | a request the transport refuses ends the connection and is rejected with everything else that is pending |
| ClientRequestsOutcomes.ConnectionEnds | pi/packages/client/src/connection.ts:218-231 | a connection that is given up or fails rejects its handshake, if under way, and everything pending as lost |
| ClientRequestsOutcomes.DisposeRejects | pi/packages/client/src/client.ts:342-353 | disposing rejects what is pending as disposed and ends the connection for good |
| ClientRequestsOutcomes.ConnectStarts | pi/packages/client/src/connection.ts:66-90 | connecting starts a handshake of its own exactly if there is no connection and the client is not disposed of |
| ClientRequestsOutcomes.HelloConnects | pi/packages/client/src/connection.ts:162-196 | an open transport and a hello connect, and the handshake resolves once the listeners have heard |
| ClientRequestsOutcomes.OtherFirstMessageEnds | pi/packages/client/src/connection.ts:145-176 | any other first message, or one before the transport is open, ends the connection and rejects the handshake |
| RequestTables.Client.Connect | pi/packages/client/src/connection.ts:66-90 | starts a handshake exactly when disconnected and not disposed |
| RequestTables.Client.OpenTransport | pi/packages/client/src/connection.ts:119-140 | the transport belongs to its own connection attempt only |
| RequestTables.Client.HandleData | pi/packages/client/src/connection.ts:142-204 | each kind of message in each state of the connection |
| RequestTables.Client.HandleResponse | pi/packages/client/src/client.ts:300-318 | takes the request out of the table, resolves it with a matching result and rejects it otherwise, failing the connection on an unknown id or a command mismatch (`ClientRequestsOutcomes`) |
| RequestTables.Client.Fail | pi/packages/client/src/connection.ts:218-231 | the handshake under way and every pending request are rejected, once |
| RequestTables.Client.RejectPendingRequests | pi/packages/client/src/client.ts:336-340 | every pending request is rejected and the table emptied |
| RequestTables.Client.Request | pi/packages/client/src/client.ts:189-207 | refused when disposed or not connected, settled at once when its frame cannot be encoded or sent, pending otherwise |
| RequestTables.Client.ResolveHandshake | pi/packages/client/src/connection.ts:191-196 | the handshake resolves exactly if the listeners have left the connection alone |
| RequestTables.Client.Dispose | pi/packages/client/src/client.ts:342-353 | pending requests are rejected as disposed, then the connection ends |
| RequestTables.Client.FailTransport | pi/packages/client/src/connection.ts:218-231 | a transport that fails ends its own connection only |
| RequestTables.Serve | pi/packages/client/src/client.ts:189-353 | a new client driven by any sequence of steps is in the state of that run, and the run's invariant holds of it |

## Left out

- FrameDecoding.FrameDecoder.Push: hands frames out as values, so that a frame of one block is that very block in the program is not captured; arguments that are not byte arrays are not modelled.
- SchemaConverter.ConvertNode: overwrites a sequence of properties or elements rather than an object another part of the program may share; `structuredClone` is the identity on values.
- SchemaConversion.Convert: its own contract bounds the depth; what conversion means is stated by `UnionOutcome`, `ConvertKeepsAccepted`, `ConvertIdempotent` and `BuiltKeepsIffSettled`.
- SchemaErrors.ErrorsIff: requires objects with distinct keys; an error is its keyword and path, parameters, messages and the escaping of path segments are left out.
- SchemaConversion.Coerce: what parsing and printing a number, matching a regular expression and dividing two numbers give is a parameter; numbers are reals, without NaN and infinities.
- SchemaJson.JsonSchemaAccepts: numbers are reals here; the program's number schema also accepts NaN and the infinities, which are not JSON.
- SchemaTheorems.ConvertKeepsAccepted: does not cover `oneOf`, `allOf`, `enum`, several types at once and positional items, which the builders never produce.
- Keys found on an object's prototype chain (`name in value`, `defs[ref]`), non-plain objects, and schemas with malformed keywords.
- LiveSessionsRuns.OneRuntimePerId: the service is taken to return a fresh runtime on every acquisition.
- LiveSessionsRuns.NothingLeaks: the runtime is taken to send an event whenever it turns idle.
- Events that a runtime sends synchronously while it is being subscribed to, and what session snapshots contain.
- The order in which requests queued during a handshake run.
- Handshake timeouts and listener start-up, which only add further points at which a connection fails or the server closes.
- SnapshotsConvergence.Converges: speaks of revisions; snapshots of the same revision can differ in content.
- AgentLoop.LoopRun.RunLoop: runs as long as there are responses, since an agent can go on for ever; hooks, listeners, streams and `emit` are taken not to throw, so `handleRunFailure` is not modelled.
- AgentLoop.LoopRun.OneMessagePerTurn: queue modes do not change during a run, and queues are not cleared.
- AgentStories.ListenersHearEveryTurn: leaves out the order of tool events among the others, and when listeners run.
- AgentEvents.Outcome: what a tool and its hooks do is given per call, so effects of one call on another are not captured; usage, details, added tool names and timestamps are left out.
- Updates that a tool reports after it has settled, which the program ignores, and the model and reasoning level of the next turn.
- SchemaMeaning.ReferencesFollowed: stops at a definition that is itself a reference; chains of references end after 64 hops (`SchemaNodes.ResolveRef`).
- SchemaReports.ObjectsReported: says which errors are reported and where, the validator's contracts say in which order.
- ClientLeasesAvailability.SharedUnlessExclusive: is about safe runs, like `CountsAndExclusion`.
- ClientLeasesExclusion.CountsAndExclusion: is about safe runs; outside of them it can fail, as `LateFailureBreaksExclusion` and `LateSuccessBreaksExclusion` show.
- `session_removed` events, which the server shown never sends, and the client's session snapshots and their listeners.
- Reconnecting from inside a listener of the same connection's end.
- Sockets, processes, timers, files, the CBOR encoding of messages, model catalogues, telemetry and the user interface.
