/** Messages, events and tool outcomes of pi/packages/agent, and what a well-formed event log is. */
module AgentEvents {
  import opened Options

  type CallId = string
  type Text = string

  datatype ToolCall = ToolCall(id: CallId, name: string)

  datatype StopReason = Stop | ToolUse | Length | Error | Aborted

  /** Timestamps, usage and details are left out. */
  datatype Message =
    | User(text: Text)
    | Assistant(text: Text, toolCalls: seq<ToolCall>, stopReason: StopReason)
    | ToolResultMessage(callId: CallId, toolName: string, content: Text, isError: bool)
  {
    predicate Failed() {
      Assistant? && (stopReason == Error || stopReason == Aborted)
    }
  }

  datatype ToolResult = ToolResult(content: Text, terminate: Option<bool>)

  datatype Event =
    | AgentStart
    | TurnStart
    | MessageStart(message: Message)
    | MessageUpdate(message: Message)
    | MessageEnd(message: Message)
    | ToolStart(call: ToolCall)
    | ToolUpdate(call: ToolCall, partialResult: Text)
    | ToolEnd(call: ToolCall, result: ToolResult, isError: bool)
    | TurnEnd(message: Message, toolResults: seq<Message>)
    | AgentEnd(messages: seq<Message>)

  // ----- Event logs

  function Delta(e: Event, id: CallId): int {
    if e.ToolStart? && e.call.id == id then 1 else if e.ToolEnd? && e.call.id == id then -1 else 0
  }

  /** Starts less ends of tool call `id`. */
  function Balance(log: seq<Event>, id: CallId): int
    decreases |log|
  {
    if log == [] then 0 else Balance(log[..|log| - 1], id) + Delta(log[|log| - 1], id)
  }

  lemma BalanceAppend(log: seq<Event>, e: Event, id: CallId)
    ensures Balance(log + [e], id) == Balance(log, id) + Delta(e, id)
  {
    assert (log + [e])[..|log|] == log;
  }

  ghost predicate Settled(log: seq<Event>) {
    forall id :: Balance(log, id) == 0
  }

  predicate Over(log: seq<Event>) {
    exists i :: 0 <= i < |log| && log[i].AgentEnd?
  }

  /** An end or an update belongs to a call that has started and not ended; no call is open when a turn or the run
      ends; nothing follows the end of the run. */
  ghost predicate Allowed(log: seq<Event>, e: Event) {
    && !Over(log)
    && (e.ToolUpdate? || e.ToolEnd? ==> Balance(log, e.call.id) > 0)
    && (e.TurnEnd? || e.AgentEnd? ==> Settled(log))
  }

  ghost predicate Bracketed(log: seq<Event>)
    decreases |log|
  {
    log == [] || (Bracketed(log[..|log| - 1]) && Allowed(log[..|log| - 1], log[|log| - 1]))
  }

  lemma BracketedAppend(log: seq<Event>, e: Event)
    requires Bracketed(log) && Allowed(log, e)
    ensures Bracketed(log + [e])
  {
    assert (log + [e])[..|log|] == log;
  }

  lemma {:induction false} BalanceNotNegative(log: seq<Event>, id: CallId)
    requires Bracketed(log)
    ensures Balance(log, id) >= 0
    decreases |log|
  {
    if log != [] {
      BalanceNotNegative(log[..|log| - 1], id);
    }
  }

  lemma {:induction false} BracketedPrefix(log: seq<Event>, n: nat)
    requires Bracketed(log) && n <= |log|
    ensures Bracketed(log[..n])
    decreases |log|
  {
    if n < |log| {
      BracketedPrefix(log[..|log| - 1], n);
      assert log[..|log| - 1][..n] == log[..n];
    } else {
      assert log[..n] == log;
    }
  }

  lemma AllowedAt(log: seq<Event>, i: nat)
    requires Bracketed(log) && i < |log|
    ensures Allowed(log[..i], log[i])
  {
    BracketedPrefix(log, i + 1);
    assert log[..i + 1][..i] == log[..i];
  }

  lemma NothingAfterEnd(log: seq<Event>, i: nat, j: nat)
    requires Bracketed(log) && i < j < |log|
    ensures !log[i].AgentEnd?
  {
    AllowedAt(log, j);
    assert log[..j][i] == log[i];
  }

  /** The run ends once and last. */
  lemma EndsOnceAndLast(log: seq<Event>, i: nat)
    requires Bracketed(log) && i < |log| && log[i].AgentEnd?
    ensures i == |log| - 1
  {
    if i < |log| - 1 {
      NothingAfterEnd(log, i, i + 1);
    }
  }

  predicate Starts(log: seq<Event>, i: int, id: CallId) {
    0 <= i < |log| && log[i].ToolStart? && log[i].call.id == id
  }

  predicate Ends(log: seq<Event>, i: int, id: CallId) {
    0 <= i < |log| && log[i].ToolEnd? && log[i].call.id == id
  }

  function StartsOf(log: seq<Event>, id: CallId): nat
    decreases |log|
  {
    if log == [] then 0 else StartsOf(log[..|log| - 1], id) + (if Starts(log, |log| - 1, id) then 1 else 0)
  }

  function EndsOf(log: seq<Event>, id: CallId): nat
    decreases |log|
  {
    if log == [] then 0 else EndsOf(log[..|log| - 1], id) + (if Ends(log, |log| - 1, id) then 1 else 0)
  }

  lemma {:induction false} BalanceIsDifference(log: seq<Event>, id: CallId)
    ensures Balance(log, id) == StartsOf(log, id) - EndsOf(log, id)
    decreases |log|
  {
    if log != [] {
      BalanceIsDifference(log[..|log| - 1], id);
    }
  }

  /** A call that is open before event `k` ends at `k` or later, if none is open at the end. */
  lemma {:induction false} OpenEndsLater(log: seq<Event>, k: nat, id: CallId) returns (j: nat)
    requires Settled(log) && k <= |log| && Balance(log[..k], id) > 0
    ensures k <= j && Ends(log, j, id)
    decreases |log| - k
  {
    assert log[..|log|] == log;
    if Ends(log, k, id) {
      return k;
    }
    assert log[..k + 1][..k] == log[..k];
    j := OpenEndsLater(log, k + 1, id);
  }

  /** A call that is open before event `k` has started. */
  lemma {:induction false} OpenHasStarted(log: seq<Event>, k: nat, id: CallId) returns (i: nat)
    requires k <= |log| && Balance(log[..k], id) > 0
    ensures i < k && Starts(log, i, id)
    decreases k
  {
    if Starts(log, k - 1, id) {
      return k - 1;
    }
    assert log[..k][..k - 1] == log[..k - 1];
    i := OpenHasStarted(log, k - 1, id);
  }

  /** Event `i` is an update of the call. */
  predicate Updates(log: seq<Event>, i: int, id: CallId) {
    0 <= i < |log| && log[i].ToolUpdate? && log[i].call.id == id
  }

  /** In a log without open calls, even if calls share an id: it ends as often as it starts, every start and update has
      a later end, every end and update an earlier start. */
  lemma StartsAndEndsMatch(log: seq<Event>, i: nat, id: CallId)
    requires Bracketed(log) && Settled(log)
    ensures StartsOf(log, id) == EndsOf(log, id)
    ensures Starts(log, i, id) || Updates(log, i, id) ==> exists j :: i < j && Ends(log, j, id)
    ensures Ends(log, i, id) || Updates(log, i, id) ==> exists j :: j < i && Starts(log, j, id)
  {
    BalanceIsDifference(log, id);
    if Starts(log, i, id) || Updates(log, i, id) || Ends(log, i, id) {
      AllowedAt(log, i);
      BracketedPrefix(log, i);
      BalanceNotNegative(log[..i], id);
      assert log[..i + 1][..i] == log[..i];
      if Ends(log, i, id) || Updates(log, i, id) {
        var j := OpenHasStarted(log, i, id);
      }
      if Starts(log, i, id) || Updates(log, i, id) {
        var j := OpenEndsLater(log, i + 1, id);
      }
    }
  }

  /** Between two points without a start or end of `id`, its balance stays. */
  lemma {:induction false} BalanceStays(log: seq<Event>, i: nat, j: nat, id: CallId)
    requires i <= j <= |log|
    requires forall k :: i <= k < j ==> !Starts(log, k, id) && !Ends(log, k, id)
    ensures Balance(log[..i], id) == Balance(log[..j], id)
    decreases j
  {
    if i < j {
      BalanceStays(log, i, j - 1, id);
      assert log[..j][..j - 1] == log[..j - 1];
      assert !Starts(log, j - 1, id) && !Ends(log, j - 1, id);
    }
  }

  /** A call that starts once in a log without open calls ends exactly once, after its start, and every update of it
      lies between the two. */
  lemma StartHasOneEnd(log: seq<Event>, i: nat, id: CallId) returns (j: nat)
    requires Bracketed(log) && Settled(log)
    requires Starts(log, i, id) && forall k :: Starts(log, k, id) ==> k == i
    ensures i < j && Ends(log, j, id) && forall k :: Ends(log, k, id) ==> k == j
    ensures forall k :: Updates(log, k, id) ==> i < k < j
  {
    forall k | Ends(log, k, id) || Updates(log, k, id) ensures i < k {
      StartsAndEndsMatch(log, k, id);
    }
    assert log[..0] == [];
    BalanceStays(log, 0, i, id);
    assert log[..i + 1][..i] == log[..i];
    assert Balance(log[..i + 1], id) == 1;
    assert log[..|log|] == log;
    if forall k :: !Ends(log, k, id) {
      BalanceStays(log, i + 1, |log|, id);
    }
    j := FirstEnd(log, id);
    BalanceStays(log, i + 1, j, id);
    assert log[..j + 1][..j] == log[..j];
    assert Balance(log[..j + 1], id) == 0;
    forall k | k > j && (Ends(log, k, id) || Updates(log, k, id))
      ensures false
    {
      NoneAfter(log, i, j, k, id);
    }
  }

  lemma FirstEnd(log: seq<Event>, id: CallId) returns (j: nat)
    requires exists k :: Ends(log, k, id)
    ensures Ends(log, j, id) && forall k :: Ends(log, k, id) ==> j <= k
  {
    j := 0;
    while !Ends(log, j, id)
      invariant j <= |log| && forall k :: Ends(log, k, id) ==> j <= k
      decreases |log| - j
    {
      j := j + 1;
    }
  }

  /** Once balanced again after its only start, a call has no further end or update. */
  lemma {:induction false} NoneAfter(log: seq<Event>, i: nat, j: nat, k: nat, id: CallId)
    requires Bracketed(log) && i < j < k < |log| && forall m :: Starts(log, m, id) ==> m == i
    requires Balance(log[..j + 1], id) == 0
    requires Ends(log, k, id) || Updates(log, k, id)
    ensures false
    decreases k
  {
    AllowedAt(log, k);
    if exists m :: j < m < k && Ends(log, m, id) {
      var m :| j < m < k && Ends(log, m, id);
      NoneAfter(log, i, j, m, id);
    } else {
      BalanceStays(log, j + 1, k, id);
    }
  }

  // ----- What becomes of a tool call

  datatype Before = NoBefore | Passes | Blocks(reason: Text, stop: bool) | BeforeThrows(error: Text)

  datatype After =
    | NoAfter
    | Overrides(content: Option<Text>, terminate: Option<bool>, isError: Option<bool>)
    | AfterThrows(error: Text)

  /** What the tool and the hooks do with one call. `invalid` is the error of preparing or validating the arguments,
      `updates` are the partial results reported before the tool settles; what it reports later is ignored. */
  datatype Oracle = Oracle(
    found: bool,
    sequential: bool,
    invalid: Option<Text>,
    before: Before,
    updates: seq<Text>,
    executed: ToolResult,
    throws: Option<Text>,
    after: After)

  datatype Finalized = Finalized(call: ToolCall, result: ToolResult, isError: bool)

  function ErrorResult(text: Text): ToolResult {
    ToolResult(text, None)
  }

  function Failure(call: ToolCall, text: Text): Finalized {
    Finalized(call, ErrorResult(text), true)
  }

  const ABORTED: Text := "Operation aborted"

  function NotFound(call: ToolCall): Text {
    "Tool " + call.name + " not found"
  }

  function Truncated(call: ToolCall): Text {
    "Tool call \"" + call.name + "\" was not executed: the response hit the output token limit, so its arguments may be"
    + " truncated. Re-issue the tool call with complete arguments."
  }

  /** finalizeExecutedToolCall. */
  function AfterHook(call: ToolCall, result: ToolResult, isError: bool, after: After): Finalized {
    match after
    case NoAfter => Finalized(call, result, isError)
    case AfterThrows(error) => Failure(call, error)
    case Overrides(content, terminate, error) =>
      Finalized(call,
                ToolResult(if content.Some? then content.value else result.content,
                           if terminate.Some? then terminate else result.terminate),
                if error.Some? then error.value else isError)
  }

  /** The outcome of a call whose tool is executed. */
  function Executed(call: ToolCall, o: Oracle): Finalized {
    if o.throws.Some? then AfterHook(call, ErrorResult(o.throws.value), true, o.after)
    else AfterHook(call, o.executed, false, o.after)
  }

  /** Whether the tool gets executed, if nothing is aborted. */
  predicate Passed(o: Oracle) {
    o.found && o.invalid.None? && (o.before.NoBefore? || o.before.Passes?)
  }

  /** The outcome of a call, if nothing is aborted. */
  function Outcome(call: ToolCall, o: Oracle): Finalized {
    if !o.found then Failure(call, NotFound(call))
    else if o.invalid.Some? then Failure(call, o.invalid.value)
    else
      match o.before
      case BeforeThrows(error) => Failure(call, error)
      case Blocks(reason, stop) => Finalized(call, ToolResult(reason, if stop then Some(true) else None), true)
      case _ => Executed(call, o)
  }

  /** What a call can come to even if the run is aborted: its own outcome, or an error that says so, for a call that has got
      past its arguments and hook. */
  predicate OwnOrAborted(f: Finalized, call: ToolCall, o: Oracle) {
    f == Outcome(call, o) || (f == Failure(call, ABORTED) && o.found && o.invalid.None? && !o.before.BeforeThrows?)
  }

  /** createToolResultMessage. */
  function ResultMessage(f: Finalized): Message {
    ToolResultMessage(f.call.id, f.call.name, f.result.content, f.isError)
  }

  function ResultMessages(fs: seq<Finalized>): (ms: seq<Message>)
    ensures |ms| == |fs| && forall i :: 0 <= i < |fs| ==> ms[i] == ResultMessage(fs[i])
  {
    seq(|fs|, i requires 0 <= i < |fs| => ResultMessage(fs[i]))
  }

  function TruncatedFailures(calls: seq<ToolCall>): (fs: seq<Finalized>)
    ensures |fs| == |calls| && forall i :: 0 <= i < |calls| ==> fs[i] == Failure(calls[i], Truncated(calls[i]))
  {
    seq(|calls|, i requires 0 <= i < |calls| => Failure(calls[i], Truncated(calls[i])))
  }

  /** shouldTerminateToolBatch. */
  predicate Terminates(fs: seq<Finalized>) {
    fs != [] && forall f :: f in fs ==> f.result.terminate == Some(true)
  }

  /** The outcomes of a batch, call by call: what executing it one call after the other, or all at once, comes to. */
  function Outcomes(calls: seq<ToolCall>, oracle: nat -> Oracle): (fs: seq<Finalized>)
    ensures |fs| == |calls| && forall i :: 0 <= i < |calls| ==> fs[i] == Outcome(calls[i], oracle(i))
  {
    seq(|calls|, i requires 0 <= i < |calls| => Outcome(calls[i], oracle(i)))
  }

  /** The tool results of a response, if nothing is aborted. */
  function ExpectedResults(response: Message, oracle: nat -> Oracle): seq<Message>
    requires response.Assistant?
  {
    if response.Failed() then []
    else if response.stopReason == Length then ResultMessages(TruncatedFailures(response.toolCalls))
    else ResultMessages(Outcomes(response.toolCalls, oracle))
  }

  /** Whether the tool calls of a response ask for another turn, if nothing is aborted. */
  predicate ExpectsMore(response: Message, oracle: nat -> Oracle)
    requires response.Assistant?
  {
    !response.Failed() && response.toolCalls != []
    && (response.stopReason == Length || !Terminates(Outcomes(response.toolCalls, oracle)))
  }

  /** The outcomes of the first calls of `calls`, in order. */
  predicate OfCalls(fs: seq<Finalized>, calls: seq<ToolCall>) {
    |fs| <= |calls| && forall i :: 0 <= i < |fs| ==> fs[i].call == calls[i]
  }

  /** A partial result that a tool call has reported. */
  datatype Progress = Progress(call: ToolCall, text: Text)

  /** These partial results of a call have been passed on. */
  ghost predicate Relayed(call: ToolCall, updates: seq<Text>, progress: set<Progress>) {
    forall u :: u in updates ==> Progress(call, u) in progress
  }

  /** So have those of every call among the first `n` whose tool is executed. */
  ghost predicate AllRelayed(calls: seq<ToolCall>, oracle: nat -> Oracle, n: nat, progress: set<Progress>) {
    n <= |calls| && forall k :: 0 <= k < n && Passed(oracle(k)) ==> Relayed(calls[k], oracle(k).updates, progress)
  }

  // ----- Streams

  datatype StreamEvent = Partial(first: bool, partialMessage: Message) | Finish

  /** The events of a response up to its finish. */
  function Processed(events: seq<StreamEvent>): seq<StreamEvent> {
    if events == [] || events[0].Finish? then [] else [events[0]] + Processed(events[1..])
  }

  lemma {:induction false} ProcessedIs(events: seq<StreamEvent>, n: nat)
    requires n <= |events| && forall k :: 0 <= k < n ==> events[k].Partial?
    requires n < |events| ==> events[n].Finish?
    ensures Processed(events) == events[..n]
    decreases n
  {
    if n > 0 {
      ProcessedIs(events[1..], n - 1);
      assert events[..n] == [events[0]] + events[1..][..n - 1];
    }
  }

  /** The partial messages in the context after `events`: a start adds one, an update replaces the last. */
  function Parts(events: seq<StreamEvent>): seq<Message>
    decreases |events|
  {
    if events == [] then []
    else
      var (before, e) := (Parts(events[..|events| - 1]), events[|events| - 1]);
      if e.Finish? then before
      else if e.first then before + [e.partialMessage]
      else if before == [] then before
      else before[..|before| - 1] + [e.partialMessage]
  }

  /** The partial messages a response leaves behind in the context: all but the last, which its final message replaces. */
  function Stale(events: seq<StreamEvent>): seq<Message> {
    LeftBehind(Parts(Processed(events)))
  }

  function LeftBehind(parts: seq<Message>): seq<Message> {
    if parts == [] then [] else parts[..|parts| - 1]
  }

  function StartCount(events: seq<StreamEvent>): nat
    decreases |events|
  {
    if events == [] then 0
    else StartCount(events[..|events| - 1]) + (if events[|events| - 1].Partial? && events[|events| - 1].first then 1 else 0)
  }

  lemma {:induction false} PartsAreStarts(events: seq<StreamEvent>)
    ensures |Parts(events)| == StartCount(events)
    decreases |events|
  {
    if events != [] {
      PartsAreStarts(events[..|events| - 1]);
    }
  }

  /** A response leaves something behind exactly if it starts more than once. */
  lemma StaleIffRestarted(events: seq<StreamEvent>)
    ensures Stale(events) == [] <==> StartCount(Processed(events)) <= 1
  {
    PartsAreStarts(Processed(events));
  }

  // ----- What a listener is told besides what becomes of tool calls

  predicate OfToolCall(e: Event) {
    e.ToolStart? || e.ToolUpdate? || e.ToolEnd?
  }

  function Told(log: seq<Event>): seq<Event>
    decreases |log|
  {
    if log == [] then []
    else
      var (before, e) := (Told(log[..|log| - 1]), log[|log| - 1]);
      if OfToolCall(e) then before else before + [e]
  }

  lemma ToldAppend(log: seq<Event>, e: Event)
    ensures Told(log + [e]) == Told(log) + (if OfToolCall(e) then [] else [e])
  {
    assert (log + [e])[..|log|] == log && Told(log) + [] == Told(log);
  }

  /** Messages that are complete from the start: each is announced and ended. */
  function Announced(ms: seq<Message>): seq<Event>
    decreases |ms|
  {
    if ms == [] then [] else Announced(ms[..|ms| - 1]) + [MessageStart(ms[|ms| - 1]), MessageEnd(ms[|ms| - 1])]
  }

  lemma AnnouncedNothing()
    ensures Announced([]) == []
  {
  }

  lemma AnnouncedMore(ms: seq<Message>, m: Message)
    ensures Announced(ms + [m]) == Announced(ms) + [MessageStart(m), MessageEnd(m)]
  {
    assert (ms + [m])[..|ms|] == ms;
  }

  /** The events of a response before it ends: a start announces it, and what comes before is not shown. */
  function Shown(events: seq<StreamEvent>): seq<Event>
    decreases |events|
  {
    if events == [] then []
    else
      Shown(events[..|events| - 1]) + ShownNext(events[..|events| - 1], events[|events| - 1])
  }

  /** What the next event adds. */
  function ShownNext(before: seq<StreamEvent>, e: StreamEvent): seq<Event> {
    if e.Finish? || (!e.first && Parts(before) == []) then []
    else [if e.first then MessageStart(e.partialMessage) else MessageUpdate(e.partialMessage)]
  }

  /** The events of a whole response. */
  function Streamed(events: seq<StreamEvent>, final: Message): seq<Event> {
    ShownToEnd(Processed(events), final)
  }

  function ShownToEnd(processed: seq<StreamEvent>, final: Message): seq<Event> {
    Shown(processed) + (if Parts(processed) == [] then [MessageStart(final)] else []) + [MessageEnd(final)]
  }

  // ----- Turns

  datatype Source = Steering | FollowUp

  /** A message drained from one of the queues. */
  datatype Taken = Taken(source: Source, message: Message)

  /** A turn that has ended: the messages injected before it, the response, the results of its tool calls, what these calls
      have ended with and reported, whether the run had been aborted by its end, and whether its tool calls ask for another
      turn. */
  datatype Turn = Turn(injected: seq<Message>, response: Message, results: seq<Message>, finals: seq<Finalized>,
                       progress: set<Progress>, aborted: bool, more: bool)

  function TurnMessages(t: Turn): seq<Message> {
    t.injected + [t.response] + t.results
  }

  /** What the loop adds to the transcript. */
  function Flatten(turns: seq<Turn>): seq<Message>
    decreases |turns|
  {
    if turns == [] then [] else Flatten(turns[..|turns| - 1]) + TurnMessages(turns[|turns| - 1])
  }

  function Injected(turns: seq<Turn>): seq<Message>
    decreases |turns|
  {
    if turns == [] then [] else Injected(turns[..|turns| - 1]) + turns[|turns| - 1].injected
  }

  /** The messages taken from one queue, in the order they were taken. */
  function From(taken: seq<Taken>, source: Source): seq<Message>
    decreases |taken|
  {
    if taken == [] then []
    else
      var (before, t) := (From(taken[..|taken| - 1], source), taken[|taken| - 1]);
      if t.source == source then before + [t.message] else before
  }

  function Messages(taken: seq<Taken>): (ms: seq<Message>)
    ensures |ms| == |taken|
  {
    seq(|taken|, i requires 0 <= i < |taken| => taken[i].message)
  }

  function Tagged(source: Source, ms: seq<Message>): (ts: seq<Taken>)
    ensures |ts| == |ms|
  {
    seq(|ms|, i requires 0 <= i < |ms| => Taken(source, ms[i]))
  }

  lemma FromOne(taken: seq<Taken>, t: Taken, source: Source)
    ensures From(taken + [t], source) == if t.source == source then From(taken, source) + [t.message] else From(taken, source)
    ensures Messages(taken + [t]) == Messages(taken) + [t.message]
  {
    assert (taken + [t])[..|taken|] == taken;
  }

  lemma TaggedOne(source: Source, ms: seq<Message>)
    requires ms != []
    ensures Tagged(source, ms) == [Taken(source, ms[0])] + Tagged(source, ms[1..])
  {
  }

  lemma Shift<T>(a: seq<T>, b: seq<T>)
    requires b != []
    ensures a + b == a + [b[0]] + b[1..]
  {
  }

  lemma {:induction false} TakenMore(taken: seq<Taken>, source: Source, ms: seq<Message>)
    ensures Messages(taken + Tagged(source, ms)) == Messages(taken) + ms
    ensures From(taken + Tagged(source, ms), source) == From(taken, source) + ms
    ensures forall other :: other != source ==> From(taken + Tagged(source, ms), other) == From(taken, other)
    decreases |ms|
  {
    hide From, Messages;
    if ms == [] {
      assert taken + Tagged(source, ms) == taken;
      assert From(taken, source) + ms == From(taken, source) && Messages(taken) + ms == Messages(taken);
    } else {
      var t := Taken(source, ms[0]);
      TaggedOne(source, ms);
      assert taken + Tagged(source, ms) == taken + [t] + Tagged(source, ms[1..]);
      hide Tagged;
      TakenMore(taken + [t], source, ms[1..]);
      forall other: Source
        ensures From(taken + [t], other) == if other == source then From(taken, other) + [ms[0]] else From(taken, other)
      {
        FromOne(taken, t, other);
      }
      FromOne(taken, t, source);
      Shift(From(taken, source), ms);
      Shift(Messages(taken), ms);
    }
  }

  /** Every message taken comes from one of the two queues. */
  lemma {:induction false} TakenSplits(taken: seq<Taken>)
    ensures multiset(Messages(taken)) == multiset(From(taken, Steering)) + multiset(From(taken, FollowUp))
    decreases |taken|
  {
    if taken != [] {
      var n := |taken| - 1;
      TakenSplits(taken[..n]);
      assert Messages(taken) == Messages(taken[..n]) + [taken[n].message];
    }
  }

  lemma TurnAppend(turns: seq<Turn>, t: Turn)
    ensures Flatten(turns + [t]) == Flatten(turns) + TurnMessages(t)
    ensures Injected(turns + [t]) == Injected(turns) + t.injected
  {
    assert (turns + [t])[..|turns|] == turns;
  }

  predicate Answers(result: Message, call: ToolCall) {
    result.ToolResultMessage? && result.callId == call.id && result.toolName == call.name
  }

  /** Tool results answer the response's calls, in order and one each: none for a failed response, all of them unless
      the run is aborted, and at least one in any case. */
  predicate Paired(t: Turn) {
    t.response.Assistant? && t.results == ResultMessages(t.finals)
    && if t.response.Failed() then t.results == []
       else
         && |t.results| <= |t.response.toolCalls|
         && (forall i :: 0 <= i < |t.results| ==> Answers(t.results[i], t.response.toolCalls[i]))
         && (|t.results| < |t.response.toolCalls| ==> t.aborted && t.response.stopReason != Length && t.results != [])
  }

  /** In the transcript, a response stands immediately before the results of its calls. */
  lemma {:induction false} ResultsFollowResponse(turns: seq<Turn>, k: nat)
    requires k < |turns|
    ensures var (ms, at, t) := (Flatten(turns), |Flatten(turns[..k])| + |turns[k].injected|, turns[k]);
            && at + 1 + |t.results| <= |ms|
            && ms[at] == t.response && ms[at + 1..at + 1 + |t.results|] == t.results
    decreases |turns|
  {
    hide TurnMessages, Flatten;
    var (n, t) := (|turns| - 1, turns[k]);
    var at := |Flatten(turns[..k])| + |t.injected|;
    assert turns == turns[..n] + [turns[n]];
    TurnAppend(turns[..n], turns[n]);
    if k < n {
      ResultsFollowResponse(turns[..n], k);
      assert turns[..n][..k] == turns[..k];
      StillThere(Flatten(turns[..n]), TurnMessages(turns[n]), at + 1, |t.results|);
    } else {
      InLastTurn(Flatten(turns[..n]), t);
    }
  }

  lemma StillThere(ms: seq<Message>, more: seq<Message>, at: nat, n: nat)
    requires at + n <= |ms|
    ensures (ms + more)[at..at + n] == ms[at..at + n]
  {
  }

  lemma InLastTurn(ms: seq<Message>, t: Turn)
    ensures var (all, at) := (ms + TurnMessages(t), |ms| + |t.injected|);
            && at + 1 + |t.results| <= |all| && all[at] == t.response && all[at + 1..at + 1 + |t.results|] == t.results
  {
  }
}
