/** The agent of pi/packages/agent: its queues, its event reducer and the loop that runs its turns. */
module AgentRuns {
  import opened Options
  import opened AgentEvents

  datatype QueueMode = All | OneAtATime

  /** PendingMessageQueue; `given` and `drained` record everything that ever went in and came out. */
  class PendingMessageQueue {
    const mode: QueueMode
    var messages: seq<Message>
    ghost var given: seq<Message>
    ghost var drained: seq<Message>

    /** First in, first out, nothing lost and nothing twice. */
    ghost predicate Valid()
      reads this
    {
      given == drained + messages
    }

    constructor (mode: QueueMode)
      ensures Valid() && messages == [] && this.mode == mode && given == []
    {
      this.mode := mode;
      messages, given, drained := [], [], [];
    }

    method Enqueue(message: Message)
      requires Valid()
      modifies this
      ensures Valid()
      ensures messages == old(messages) + [message] && given == old(given) + [message] && drained == old(drained)
    {
      messages := messages + [message];
      given := given + [message];
    }

    method Drain() returns (taken: seq<Message>)
      requires Valid()
      modifies this`messages, this`drained
      ensures Valid() && taken == Drained(mode, old(messages))
      ensures taken + messages == old(messages) && drained == old(drained) + taken
    {
      if mode == All {
        taken := messages;
        messages := [];
      } else if messages == [] {
        taken := [];
      } else {
        taken := [messages[0]];
        messages := messages[1..];
      }
      drained := drained + taken;
    }
  }

  /** What a drain takes. */
  function Drained(mode: QueueMode, queued: seq<Message>): (taken: seq<Message>)
    ensures taken <= queued
    ensures mode == OneAtATime ==> |taken| <= 1
    ensures taken == [] <==> queued == []
  {
    if mode == All || queued == [] then queued else queued[..1]
  }

  /** One more event: the pending calls are among those that have started and not ended. */
  lemma LogGrows(log: seq<Event>, e: Event, pending: set<CallId>)
    requires Bracketed(log) && Allowed(log, e) && forall id :: id in pending ==> Balance(log, id) > 0
    ensures Bracketed(log + [e]) && (Over(log + [e]) <==> e.AgentEnd?)
    ensures forall id :: Balance(log + [e], id) == Balance(log, id) + Delta(e, id)
    ensures forall id :: id in pending && !(e.ToolEnd? && e.call.id == id) ==> Balance(log + [e], id) > 0
    ensures e.ToolStart? ==> Balance(log + [e], e.call.id) > 0
  {
    BracketedAppend(log, e);
    forall id ensures Balance(log + [e], id) == Balance(log, id) + Delta(e, id) {
      BalanceAppend(log, e, id);
    }
    if e.ToolStart? {
      BalanceNotNegative(log, e.call.id);
    }
    assert (log + [e])[|log|] == e;
  }

  /** Event `i` starts a tool call while another one is open. */
  ghost predicate Overlaps(log: seq<Event>, i: int) {
    0 <= i < |log| && log[i].ToolStart? && !Settled(log[..i])
  }

  lemma OverlapAppend(log: seq<Event>, e: Event)
    ensures (exists i :: Overlaps(log + [e], i)) <==> (exists i :: Overlaps(log, i)) || (e.ToolStart? && !Settled(log))
  {
    var more := log + [e];
    assert more[..|log|] == log;
    forall i ensures Overlaps(more, i) <==> Overlaps(log, i) || (i == |log| && e.ToolStart? && !Settled(log)) {
      if 0 <= i < |log| {
        assert more[..i] == log[..i];
      }
    }
    if e.ToolStart? && !Settled(log) {
      assert Overlaps(more, |log|);
    }
  }

  /** The agent's state, as far as its events determine it, with the run's abort signal and the log of its events. */
  class AgentState {
    var messages: seq<Message>
    var streamingMessage: Option<Message>
    var pendingToolCalls: set<CallId>
    var aborted: bool
    ghost var log: seq<Event>
    /** What the ends of tool calls in the log have said, what their updates have said, and the other events. */
    ghost var reported: set<Finalized>
    ghost var progress: set<Progress>
    ghost var told: seq<Event>
    /** A tool call has started while another one was open. */
    ghost var overlapped: bool
    /** How many tool calls have started after the run was aborted. */
    ghost var startedLate: nat

    /** The notes are what the log says. */
    ghost predicate Noted()
      reads this`log, this`reported, this`progress, this`told, this`overlapped
    {
      && (forall f: Finalized :: f in reported <==> ToolEnd(f.call, f.result, f.isError) in log)
      && (forall p: Progress :: p in progress <==> ToolUpdate(p.call, p.text) in log)
      && told == Told(log) && (overlapped <==> exists i :: Overlaps(log, i))
    }

    ghost predicate Valid()
      reads this
    {
      Bracketed(log) && Noted() && forall id :: id in pendingToolCalls ==> Balance(log, id) > 0
    }

    ghost function Notes(): Account
      reads this
    {
      Account(messages, reported, told, overlapped)
    }

    constructor (messages: seq<Message>)
      ensures Valid() && this.messages == messages && log == [] && pendingToolCalls == {}
    {
      this.messages, streamingMessage, pendingToolCalls, aborted := messages, None, {}, false;
      log, reported, progress, told, overlapped, startedLate := [], {}, {}, [], false, 0;
    }

    /** The event is logged, and what it says noted. */
    ghost method Log(e: Event)
      requires Valid() && Allowed(log, e)
      modifies this`log, this`reported, this`progress, this`told, this`overlapped
      ensures log == old(log) + [e] && Bracketed(log) && (Over(log) <==> e.AgentEnd?) && Noted()
      ensures reported == if e.ToolEnd? then old(reported) + {Finalized(e.call, e.result, e.isError)} else old(reported)
      ensures progress == if e.ToolUpdate? then old(progress) + {Progress(e.call, e.partialResult)} else old(progress)
      ensures told == old(told) + (if OfToolCall(e) then [] else [e])
      ensures overlapped == (old(overlapped) || (e.ToolStart? && !Settled(old(log))))
      ensures forall id :: Balance(log, id) == Balance(old(log), id) + Delta(e, id)
      ensures forall id :: id in pendingToolCalls && !(e.ToolEnd? && e.call.id == id) ==> Balance(log, id) > 0
      ensures e.ToolStart? ==> Balance(log, e.call.id) > 0
    {
      hide Bracketed, Balance, Over, Told, Overlaps, Settled, Allowed;
      LogGrows(log, e, pendingToolCalls);
      ToldAppend(log, e);
      OverlapAppend(log, e);
      told, overlapped := Told(log + [e]), overlapped || (e.ToolStart? && !Settled(log));
      if e.ToolEnd? {
        reported := reported + {Finalized(e.call, e.result, e.isError)};
      }
      if e.ToolUpdate? {
        progress := progress + {Progress(e.call, e.partialResult)};
      }
      log := log + [e];
    }

    /** processEvents, before it awaits the listeners. */
    method Process(e: Event)
      requires Valid() && Allowed(log, e)
      modifies this
      ensures Valid() && log == old(log) + [e] && aborted == old(aborted)
      ensures messages == if e.MessageEnd? then old(messages) + [e.message] else old(messages)
      ensures streamingMessage == if e.MessageStart? || e.MessageUpdate? then Some(e.message)
                                  else if e.MessageEnd? || e.AgentEnd? then None else old(streamingMessage)
      ensures pendingToolCalls == if e.ToolStart? then old(pendingToolCalls) + {e.call.id}
                                  else if e.ToolEnd? then old(pendingToolCalls) - {e.call.id} else old(pendingToolCalls)
      ensures reported == if e.ToolEnd? then old(reported) + {Finalized(e.call, e.result, e.isError)} else old(reported)
      ensures progress == if e.ToolUpdate? then old(progress) + {Progress(e.call, e.partialResult)} else old(progress)
      ensures told == old(told) + (if OfToolCall(e) then [] else [e])
      ensures overlapped == (old(overlapped) || (e.ToolStart? && !Settled(old(log))))
      ensures startedLate == old(startedLate) + (if e.ToolStart? && old(aborted) then 1 else 0)
      ensures Over(log) <==> e.AgentEnd?
      ensures forall id :: Balance(log, id) == Balance(old(log), id) + Delta(e, id)
    {
      hide Bracketed, Balance, Over, Allowed, Settled, Noted;
      Log(e);
      startedLate := startedLate + (if e.ToolStart? && aborted then 1 else 0);
      match e {
        case MessageStart(message) => streamingMessage := Some(message);
        case MessageUpdate(message) => streamingMessage := Some(message);
        case MessageEnd(message) =>
          streamingMessage := None;
          messages := messages + [message];
        case ToolStart(call) => pendingToolCalls := pendingToolCalls + {call.id};
        case ToolEnd(call, _, _) => pendingToolCalls := pendingToolCalls - {call.id};
        case AgentEnd(_) => streamingMessage := None;
        case _ =>
      }
    }

    /** runWithLifecycle: the run has its own abort signal and its own events. */
    method BeginRun()
      requires Valid() && pendingToolCalls == {}
      modifies this
      ensures Valid() && messages == old(messages) && log == [] && !aborted && told == [] && !overlapped
    {
      streamingMessage, aborted := None, false;
      log, reported, progress, told, overlapped, startedLate := [], {}, {}, [], false, 0;
    }

    method FinishRun()
      requires Valid()
      modifies this`streamingMessage, this`pendingToolCalls
      ensures Valid() && streamingMessage == None && pendingToolCalls == {}
    {
      streamingMessage, pendingToolCalls := None, {};
    }

    /** No tool call is pending once every call that started has ended. */
    lemma NothingPending()
      requires Valid() && Settled(log)
      ensures pendingToolCalls == {}
    {
    }
  }

  /** What the ends of these calls say. */
  ghost function Said(finals: seq<Finalized>): set<Finalized> {
    set f | f in finals
  }

  lemma SaidNothing()
    ensures Said([]) == {}
  {
  }

  lemma SaidAppend(finals: seq<Finalized>, f: Finalized)
    ensures Said(finals + [f]) == Said(finals) + {f}
  {
  }

  lemma SaidMore(finals: seq<Finalized>, i: nat)
    requires i < |finals|
    ensures Said(finals[..i + 1]) == Said(finals[..i]) + {finals[i]}
  {
    assert finals[..i + 1] == finals[..i] + [finals[i]];
  }

  /** The transcript and what has been noted of the events. */
  datatype Account = Account(messages: seq<Message>, reported: set<Finalized>, told: seq<Event>, overlapped: bool)

  /** Results have been entered, after calls that ended with `finals` one after the other. */
  ghost predicate Entered(was: Account, now: Account, results: seq<Message>, finals: seq<Finalized>) {
    now == Account(was.messages + results, was.reported + Said(finals), was.told + Announced(results), was.overlapped)
  }

  lemma NothingEntered(was: Account)
    ensures Entered(was, was, [], [])
  {
    SaidNothing();
    AnnouncedNothing();
    hide Said, Announced;
    assert was.messages + [] == was.messages && was.told + [] == was.told && was.reported + {} == was.reported;
  }

  lemma EntersOneMore(was: Account, mid: Account, now: Account, results: seq<Message>, finals: seq<Finalized>, f: Finalized)
    requires Entered(was, mid, results, finals) && Entered(mid, now, [ResultMessage(f)], [f])
    ensures Entered(was, now, results + [ResultMessage(f)], finals + [f])
  {
    var m := ResultMessage(f);
    SaidAppend(finals, f);
    SaidNothing();
    SaidAppend([], f);
    AnnouncedNothing();
    AnnouncedMore(results, m);
    AnnouncedMore([], m);
    hide Said, Announced, ResultMessage;
    assert [] + [f] == [f] && [] + [m] == [m];
    Shift3(was.messages, results, [m]);
    Shift3(was.told, Announced(results), [MessageStart(m), MessageEnd(m)]);
  }

  lemma Shift3<T>(a: seq<T>, b: seq<T>, c: seq<T>)
    ensures a + b + c == a + (b + c)
  {
  }

  /** Each of these calls has come to its own outcome, or says that it was aborted. */
  ghost predicate AllOwnOrAborted(finals: seq<Finalized>, calls: seq<ToolCall>, oracle: nat -> Oracle) {
    |finals| <= |calls| && forall i :: 0 <= i < |finals| ==> OwnOrAborted(finals[i], calls[i], oracle(i))
  }

  /** The results of the first calls of a batch, each of its own outcome and with its partial results passed on, unless the
      run is aborted. */
  ghost predicate AnsweredSoFar(calls: seq<ToolCall>, oracle: nat -> Oracle, results: seq<Message>, finals: seq<Finalized>,
                                aborted: bool, progress: set<Progress>) {
    && OfCalls(finals, calls) && results == ResultMessages(finals) && AllOwnOrAborted(finals, calls, oracle)
    && (!aborted ==> finals == Outcomes(calls, oracle)[..|finals|] && AllRelayed(calls, oracle, |finals|, progress))
  }

  lemma NothingAnswered(calls: seq<ToolCall>, oracle: nat -> Oracle, aborted: bool, progress: set<Progress>)
    ensures AnsweredSoFar(calls, oracle, [], [], aborted, progress)
  {
    AllRelayedNone(calls, oracle, progress);
  }

  lemma AnswersOneMore(calls: seq<ToolCall>, oracle: nat -> Oracle, results: seq<Message>, finals: seq<Finalized>, f: Finalized,
                       aborted: bool, nowAborted: bool, before: set<Progress>, progress: set<Progress>)
    requires AnsweredSoFar(calls, oracle, results, finals, aborted, before) && |finals| < |calls| && f.call == calls[|finals|]
    requires (aborted ==> nowAborted) && before <= progress
    requires OwnOrAborted(f, calls[|finals|], oracle(|finals|)) && (!nowAborted ==> f == Outcome(calls[|finals|], oracle(|finals|)))
    requires !nowAborted && Passed(oracle(|finals|)) ==> Relayed(calls[|finals|], oracle(|finals|).updates, progress)
    ensures AnsweredSoFar(calls, oracle, results + [ResultMessage(f)], finals + [f], nowAborted, progress)
  {
    hide Outcome, Passed, Relayed, ResultMessage, AllRelayed, OwnOrAborted;
    if !nowAborted {
      AllRelayedMore(calls, oracle, |finals|, before, progress);
    }
  }

  lemma AnswersAreBatch(calls: seq<ToolCall>, oracle: nat -> Oracle, results: seq<Message>, terminate: bool, finals: seq<Finalized>,
                        aborted: bool, progress: set<Progress>)
    requires AnsweredSoFar(calls, oracle, results, finals, aborted, progress) && (terminate <==> Terminates(finals))
    requires (|finals| < |calls| ==> aborted) && (calls != [] ==> finals != [])
    ensures Batch(calls, oracle, results, terminate, finals, aborted)
    ensures !aborted ==> AllRelayed(calls, oracle, |calls|, progress)
  {
    hide Outcome, Passed, Relayed, ResultMessage, AllRelayed, Terminates;
  }

  datatype Preparation = Immediate(finalized: Finalized) | Prepared

  datatype Entry = Done(finalized: Finalized) | Running(updates: seq<Text>)

  /** Of a running call, those that it does not hold any more. */
  ghost predicate RelayedSoFar(call: ToolCall, updates: seq<Text>, entry: Entry, progress: set<Progress>) {
    if entry.Done? then Relayed(call, updates, progress)
    else exists before :: updates == before + entry.updates && Relayed(call, before, progress)
  }

  lemma RelayedNothing(call: ToolCall, updates: seq<Text>, progress: set<Progress>)
    ensures RelayedSoFar(call, updates, Running(updates), progress) && Relayed(call, [], progress)
  {
    assert updates == [] + updates;
  }

  lemma RelayedOneMore(call: ToolCall, updates: seq<Text>, rest: seq<Text>, progress: set<Progress>)
    requires RelayedSoFar(call, updates, Running(rest), progress) && rest != []
    ensures RelayedSoFar(call, updates, Running(rest[1..]), progress + {Progress(call, rest[0])})
  {
    var before :| updates == before + rest && Relayed(call, before, progress);
    assert updates == before + [rest[0]] + rest[1..];
    assert Relayed(call, before + [rest[0]], progress + {Progress(call, rest[0])});
  }

  lemma RelayedToEnd(call: ToolCall, updates: seq<Text>, finalized: Finalized, progress: set<Progress>)
    requires RelayedSoFar(call, updates, Running([]), progress)
    ensures RelayedSoFar(call, updates, Done(finalized), progress)
  {
    var before :| updates == before + [] && Relayed(call, before, progress);
    assert updates == before;
  }

  /** What has been said stays said. */
  lemma RelayedStays(call: ToolCall, updates: seq<Text>, entry: Entry, progress: set<Progress>, more: set<Progress>)
    requires RelayedSoFar(call, updates, entry, progress) && progress <= more
    ensures RelayedSoFar(call, updates, entry, more)
  {
    if entry.Running? {
      var before :| updates == before + entry.updates && Relayed(call, before, progress);
      assert Relayed(call, before, more);
    }
  }

  lemma AllRelayedMore(calls: seq<ToolCall>, oracle: nat -> Oracle, n: nat, progress: set<Progress>, more: set<Progress>)
    requires AllRelayed(calls, oracle, n, progress) && progress <= more && n < |calls|
    requires Passed(oracle(n)) ==> Relayed(calls[n], oracle(n).updates, more)
    ensures AllRelayed(calls, oracle, n + 1, more)
  {
    hide Passed;
  }

  lemma ExecutedIsOfCall(call: ToolCall, o: Oracle)
    ensures Executed(call, o).call == call
  {
  }

  lemma OutcomeIfPassed(call: ToolCall, o: Oracle)
    requires Passed(o)
    ensures Outcome(call, o) == Executed(call, o)
  {
    hide Executed;
  }

  lemma AllRelayedNone(calls: seq<ToolCall>, oracle: nat -> Oracle, progress: set<Progress>)
    ensures AllRelayed(calls, oracle, 0, progress)
  {
  }

  lemma AllRelayedStays(calls: seq<ToolCall>, oracle: nat -> Oracle, n: nat, progress: set<Progress>, more: set<Progress>)
    requires AllRelayed(calls, oracle, n, progress) && progress <= more
    ensures AllRelayed(calls, oracle, n, more)
  {
    hide Passed;
  }

  /** Of every call of the batch that is executed, what it does not hold any more has been passed on. */
  ghost predicate AllSoFar(calls: seq<ToolCall>, oracle: nat -> Oracle, entries: seq<Entry>, progress: set<Progress>)
    requires |entries| <= |calls|
  {
    forall k :: 0 <= k < |entries| && Passed(oracle(k)) ==> RelayedSoFar(calls[k], oracle(k).updates, entries[k], progress)
  }

  lemma SoFarStays(calls: seq<ToolCall>, oracle: nat -> Oracle, entries: seq<Entry>, progress: set<Progress>, more: set<Progress>)
    requires |entries| <= |calls| && AllSoFar(calls, oracle, entries, progress) && progress <= more
    ensures AllSoFar(calls, oracle, entries, more)
  {
    hide Passed, RelayedSoFar;
    forall k | 0 <= k < |entries| && Passed(oracle(k))
      ensures RelayedSoFar(calls[k], oracle(k).updates, entries[k], more)
    {
      RelayedStays(calls[k], oracle(k).updates, entries[k], progress, more);
    }
  }

  lemma SoFarNone(calls: seq<ToolCall>, oracle: nat -> Oracle, progress: set<Progress>)
    ensures AllSoFar(calls, oracle, [], progress)
  {
  }

  /** One more entry, or another one, as long as it has passed on what it should. */
  lemma SoFarAppend(calls: seq<ToolCall>, oracle: nat -> Oracle, entries: seq<Entry>, entry: Entry, progress: set<Progress>,
                    more: set<Progress>)
    requires |entries| < |calls| && AllSoFar(calls, oracle, entries, progress) && progress <= more
    requires Passed(oracle(|entries|)) ==> RelayedSoFar(calls[|entries|], oracle(|entries|).updates, entry, more)
    ensures AllSoFar(calls, oracle, entries + [entry], more)
  {
    hide Passed, RelayedSoFar;
    SoFarStays(calls, oracle, entries, progress, more);
  }

  lemma SoFarUpdate(calls: seq<ToolCall>, oracle: nat -> Oracle, entries: seq<Entry>, i: nat, entry: Entry, progress: set<Progress>,
                    more: set<Progress>)
    requires i < |entries| <= |calls| && AllSoFar(calls, oracle, entries, progress) && progress <= more
    requires Passed(oracle(i)) ==> RelayedSoFar(calls[i], oracle(i).updates, entry, more)
    ensures AllSoFar(calls, oracle, entries[i := entry], more)
  {
    hide Passed, RelayedSoFar;
    SoFarStays(calls, oracle, entries, progress, more);
  }

  lemma SoFarToEnd(calls: seq<ToolCall>, oracle: nat -> Oracle, entries: seq<Entry>, progress: set<Progress>)
    requires |entries| <= |calls| && AllSoFar(calls, oracle, entries, progress) && forall e :: e in entries ==> e.Done?
    ensures AllRelayed(calls, oracle, |entries|, progress)
  {
    hide Passed, Relayed;
    forall k | 0 <= k < |entries| && Passed(oracle(k)) ensures Relayed(calls[k], oracle(k).updates, progress) {
      assert entries[k] in entries;
    }
  }

  ghost function FinishedOne(entry: Entry): set<Finalized> {
    if entry.Done? then {entry.finalized} else {}
  }

  /** The calls of a batch that have ended. */
  ghost function Finished(entries: seq<Entry>): set<Finalized> {
    set e | e in entries && e.Done? :: e.finalized
  }

  lemma FinishedAppend(entries: seq<Entry>, entry: Entry)
    ensures Finished(entries + [entry]) == Finished(entries) + FinishedOne(entry)
  {
    var more := entries + [entry];
    assert entry in more;
    forall f ensures f in Finished(more) <==> f in Finished(entries) + FinishedOne(entry) {
      if f in Finished(entries) {
        var e :| e in entries && e.Done? && e.finalized == f;
        assert e in more;
      }
    }
  }

  lemma FinishedUpdate(entries: seq<Entry>, i: nat, entry: Entry)
    requires i < |entries| && entries[i].Running?
    ensures Finished(entries[i := entry]) == Finished(entries) + FinishedOne(entry)
  {
    var more := entries[i := entry];
    assert more[i] in more;
    forall f ensures f in Finished(more) <==> f in Finished(entries) + FinishedOne(entry) {
      if f in Finished(entries) {
        var k :| 0 <= k < |entries| && entries[k].Done? && entries[k].finalized == f;
        assert more[k] in more;
      }
      if f in Finished(more) {
        var k :| 0 <= k < |more| && more[k].Done? && more[k].finalized == f;
        assert k != i ==> entries[k] in entries;
      }
    }
  }

  lemma FinishedAll(entries: seq<Entry>, finals: seq<Finalized>)
    requires |finals| == |entries| && forall k :: 0 <= k < |entries| ==> entries[k].Done? && entries[k].finalized == finals[k]
    ensures Finished(entries) == Said(finals)
  {
    forall f ensures f in Finished(entries) <==> f in Said(finals) {
      if f in Said(finals) {
        var k :| 0 <= k < |finals| && finals[k] == f;
        assert entries[k] in entries;
      }
    }
  }

  /** The calls with this id that are still running. */
  function Open(calls: seq<ToolCall>, entries: seq<Entry>, id: CallId): nat
    requires |entries| <= |calls|
    decreases |entries|
  {
    if entries == [] then 0
    else
      var n := |entries| - 1;
      Open(calls, entries[..n], id) + (if entries[n].Running? && calls[n].id == id then 1 else 0)
  }

  function Work(entries: seq<Entry>): nat
    decreases |entries|
  {
    if entries == [] then 0
    else
      var n := |entries| - 1;
      Work(entries[..n]) + (if entries[n].Running? then |entries[n].updates| + 1 else 0)
  }

  lemma {:induction false} EntryChanges(calls: seq<ToolCall>, entries: seq<Entry>, i: nat, e: Entry, id: CallId)
    requires i < |entries| <= |calls| && entries[i].Running?
    ensures Open(calls, entries[i := e], id) ==
            Open(calls, entries, id) + (if !e.Running? && calls[i].id == id then -1 else 0)
    ensures calls[i].id == id ==> Open(calls, entries, id) > 0
    ensures Work(entries[i := e]) == Work(entries) + (if e.Running? then |e.updates| - |entries[i].updates| else -|entries[i].updates| - 1)
    decreases |entries|
  {
    var n := |entries| - 1;
    if i < n {
      EntryChanges(calls, entries[..n], i, e, id);
      assert entries[i := e][..n] == entries[..n][i := e];
    } else {
      assert entries[i := e][..n] == entries[..n];
    }
  }

  lemma EntryAppend(calls: seq<ToolCall>, entries: seq<Entry>, e: Entry, id: CallId)
    requires |entries| < |calls|
    ensures Open(calls, entries + [e], id) ==
            Open(calls, entries, id) + (if e.Running? && calls[|entries|].id == id then 1 else 0)
  {
    assert (entries + [e])[..|entries|] == entries;
  }

  lemma {:induction false} NoneOpen(calls: seq<ToolCall>, entries: seq<Entry>, id: CallId)
    requires |entries| <= |calls| && forall e :: e in entries ==> e.Done?
    ensures Open(calls, entries, id) == 0
    decreases |entries|
  {
    if entries != [] {
      NoneOpen(calls, entries[..|entries| - 1], id);
      assert entries[|entries| - 1] in entries;
    }
  }

  lemma Cancels<T>(a: seq<T>, b: seq<T>, c: seq<T>)
    requires a + b <= a + c
    ensures b <= c
  {
    assert b == (a + b)[|a|..] && c == (a + c)[|a|..];
  }

  /** A longer queue is drained of at least as much. */
  lemma DrainedGrows(mode: QueueMode, before: seq<Message>, after: seq<Message>)
    requires before <= after
    ensures Drained(mode, before) <= Drained(mode, after)
  {
  }

  class Agent {
    const state: AgentState
    const steeringQueue: PendingMessageQueue
    const followUpQueue: PendingMessageQueue
    var activeRun: bool

    ghost predicate Sound()
      reads state, steeringQueue, followUpQueue
    {
      state.Valid() && steeringQueue.Valid() && followUpQueue.Valid() && steeringQueue != followUpQueue
    }

    /** No call is open and the run has not ended. */
    ghost predicate Quiet()
      reads state
    {
      Settled(state.log) && !Over(state.log)
    }

    /** Messages given to a queue are not forgotten. */
    twostate predicate QueuesGrow()
      reads steeringQueue, followUpQueue
    {
      old(steeringQueue.given) <= steeringQueue.given && old(followUpQueue.given) <= followUpQueue.given
    }

    /** Nor is an abort. */
    twostate predicate Remembers()
      reads state, steeringQueue, followUpQueue
    {
      && (old(state.aborted) ==> state.aborted) && QueuesGrow()
      && old(state.reported) <= state.reported && old(state.progress) <= state.progress
    }

    /** Only new messages have been queued, and at most the run has been aborted. */
    twostate predicate Listened()
      reads state, steeringQueue, followUpQueue
    {
      && Remembers()
      && steeringQueue.drained == old(steeringQueue.drained) && followUpQueue.drained == old(followUpQueue.drained)
    }

    /** What is in a queue stays in it as long as nothing is drained. */
    twostate lemma StillQueued()
      requires old(Sound()) && Sound() && Listened()
      ensures old(steeringQueue.messages) <= steeringQueue.messages && old(followUpQueue.messages) <= followUpQueue.messages
    {
      Cancels(steeringQueue.drained, old(steeringQueue.messages), steeringQueue.messages);
      Cancels(followUpQueue.drained, old(followUpQueue.messages), followUpQueue.messages);
    }

    constructor (messages: seq<Message>, steeringMode: QueueMode, followUpMode: QueueMode)
      ensures Sound() && !activeRun && fresh(state) && fresh(steeringQueue) && fresh(followUpQueue)
      ensures state.messages == messages && state.log == []
    {
      state := new AgentState(messages);
      steeringQueue := new PendingMessageQueue(steeringMode);
      followUpQueue := new PendingMessageQueue(followUpMode);
      activeRun := false;
    }

    /** An await: anything may be queued meanwhile, and the run may be aborted. */
    method Await()
      requires Sound()
      modifies state`aborted, steeringQueue, followUpQueue
      ensures Sound() && Listened()
    {
      var steers: seq<Message>, followUps: seq<Message>, abort: bool := *, *, *;
      for i := 0 to |steers|
        invariant Sound() && Listened()
      {
        steeringQueue.Enqueue(steers[i]);
      }
      for i := 0 to |followUps|
        invariant Sound() && Listened()
      {
        followUpQueue.Enqueue(followUps[i]);
      }
      state.aborted := state.aborted || abort;
    }

    /** processEvents, with its listeners awaited. */
    method Emit(e: Event)
      requires Sound() && Allowed(state.log, e)
      modifies state, steeringQueue, followUpQueue
      ensures Sound() && Listened() && state.log == old(state.log) + [e] && (Over(state.log) <==> e.AgentEnd?)
      ensures state.messages == if e.MessageEnd? then old(state.messages) + [e.message] else old(state.messages)
      ensures state.reported == old(state.reported) + (if e.ToolEnd? then {Finalized(e.call, e.result, e.isError)} else {})
      ensures state.progress == old(state.progress) + (if e.ToolUpdate? then {Progress(e.call, e.partialResult)} else {})
      ensures state.told == old(state.told) + (if OfToolCall(e) then [] else [e])
      ensures state.overlapped == (old(state.overlapped) || (e.ToolStart? && !Settled(old(state.log))))
      ensures state.startedLate == old(state.startedLate) + (if e.ToolStart? && old(state.aborted) then 1 else 0)
      ensures forall id :: Balance(state.log, id) == Balance(old(state.log), id) + Delta(e, id)
    {
      hide AgentState.Valid;
      state.Process(e);
      Await();
    }

    method EmitMessage(message: Message)
      requires Sound() && Quiet()
      modifies state, steeringQueue, followUpQueue
      ensures Sound() && Listened() && Quiet()
      ensures state.messages == old(state.messages) + [message] && state.reported == old(state.reported)
      ensures state.told == old(state.told) + [MessageStart(message), MessageEnd(message)]
      ensures state.progress == old(state.progress) && state.overlapped == old(state.overlapped)
      ensures state.startedLate == old(state.startedLate)
    {
      hide AgentState.Valid;
      Emit(MessageStart(message));
      Emit(MessageEnd(message));
    }

    // ----- Tool calls

    method FailToolCallsFromTruncatedMessage(calls: seq<ToolCall>) returns (results: seq<Message>)
      requires Sound() && Quiet()
      modifies state, steeringQueue, followUpQueue
      ensures Sound() && Listened() && Quiet()
      ensures results == ResultMessages(TruncatedFailures(calls))
      ensures state.messages == old(state.messages) + results
      ensures state.reported == old(state.reported) + Said(TruncatedFailures(calls))
      ensures state.told == old(state.told) + Announced(results) && state.overlapped == old(state.overlapped)
    {
      hide AgentState.Valid;
      hide Truncated, Announced, ResultMessage;
      results := [];
      AnnouncedNothing();
      for i := 0 to |calls|
        invariant Sound() && Listened() && Quiet()
        invariant results == ResultMessages(TruncatedFailures(calls))[..i]
        invariant state.messages == old(state.messages) + results
        invariant state.reported == old(state.reported) + Said(TruncatedFailures(calls)[..i])
        invariant state.told == old(state.told) + Announced(results) && state.overlapped == old(state.overlapped)
      {
        FailToolCall(calls[i]);
        SaidMore(TruncatedFailures(calls), i);
        AnnouncedMore(results, ResultMessage(Failure(calls[i], Truncated(calls[i]))));
        results := results + [ResultMessage(Failure(calls[i], Truncated(calls[i])))];
      }
      assert TruncatedFailures(calls)[..|calls|] == TruncatedFailures(calls);
    }

    method FailToolCall(call: ToolCall)
      requires Sound() && Quiet()
      modifies state, steeringQueue, followUpQueue
      ensures Sound() && Listened() && Quiet()
      ensures state.messages == old(state.messages) + [ResultMessage(Failure(call, Truncated(call)))]
      ensures state.reported == old(state.reported) + {Failure(call, Truncated(call))} && state.overlapped == old(state.overlapped)
      ensures var m := ResultMessage(Failure(call, Truncated(call)));
              state.told == old(state.told) + [MessageStart(m), MessageEnd(m)]
    {
      hide AgentState.Valid;
      hide Truncated;
      Emit(ToolStart(call));
      var finalized := Failure(call, Truncated(call));
      Emit(ToolEnd(call, finalized.result, finalized.isError));
      EmitMessage(ResultMessage(finalized));
    }

    method PrepareToolCall(call: ToolCall, o: Oracle) returns (p: Preparation)
      requires Sound()
      modifies state`aborted, steeringQueue, followUpQueue
      ensures Sound() && Listened()
      ensures p.Immediate? ==> p.finalized.call == call
      ensures p.Prepared? <==> Passed(o) && !state.aborted
      ensures p.Immediate? ==> OwnOrAborted(p.finalized, call, o) && (!state.aborted ==> p.finalized == Outcome(call, o))
    {
      hide AgentState.Valid;
      if !o.found {
        return Immediate(Failure(call, NotFound(call)));
      }
      if o.invalid.Some? {
        return Immediate(Failure(call, o.invalid.value));
      }
      if !o.before.NoBefore? {
        Await();
        if o.before.BeforeThrows? {
          return Immediate(Failure(call, o.before.error));
        }
        if state.aborted {
          return Immediate(Failure(call, ABORTED));
        }
        if o.before.Blocks? {
          var result := ErrorResult(o.before.reason);
          if o.before.stop {
            result := result.(terminate := Some(true));
          }
          return Immediate(Finalized(call, result, true));
        }
      }
      if state.aborted {
        return Immediate(Failure(call, ABORTED));
      }
      return Prepared;
    }

    /** finalizeExecutedToolCall, then the end of the call. */
    method FinishToolCall(call: ToolCall, o: Oracle) returns (finalized: Finalized)
      requires Sound() && !Over(state.log) && Balance(state.log, call.id) > 0
      modifies state, steeringQueue, followUpQueue
      ensures Sound() && Listened() && !Over(state.log) && state.messages == old(state.messages)
      ensures finalized == Executed(call, o) && state.reported == old(state.reported) + {finalized}
      ensures state.told == old(state.told) && state.overlapped == old(state.overlapped)
      ensures forall id :: Balance(state.log, id) == Balance(old(state.log), id) - (if call.id == id then 1 else 0)
      ensures state.startedLate == old(state.startedLate)
    {
      hide AgentState.Valid;
      var result, isError := o.executed, false;
      if o.throws.Some? {
        result, isError := ErrorResult(o.throws.value), true;
      }
      if !o.after.NoAfter? {
        Await();
        if o.after.AfterThrows? {
          result, isError := ErrorResult(o.after.error), true;
        } else {
          result := ToolResult(if o.after.content.Some? then o.after.content.value else result.content,
                               if o.after.terminate.Some? then o.after.terminate else result.terminate);
          isError := if o.after.isError.Some? then o.after.isError.value else isError;
        }
      }
      finalized := Finalized(call, result, isError);
      Emit(ToolEnd(call, result, isError));
    }

    method ExecuteToolCall(call: ToolCall, o: Oracle) returns (finalized: Finalized)
      requires Sound() && Quiet()
      modifies state, steeringQueue, followUpQueue
      ensures Sound() && Listened() && Quiet() && state.messages == old(state.messages)
      ensures finalized.call == call && (!state.aborted ==> finalized == Outcome(call, o))
      ensures state.reported == old(state.reported) + {finalized}
      ensures !state.aborted && Passed(o) ==> Relayed(call, o.updates, state.progress)
      ensures state.told == old(state.told) && state.overlapped == old(state.overlapped)
      ensures OwnOrAborted(finalized, call, o)
      ensures state.startedLate == old(state.startedLate) + (if old(state.aborted) then 1 else 0)
    {
      hide AgentState.Valid;
      hide Relayed, Outcome, Executed, Passed;
      Emit(ToolStart(call));
      var preparation := PrepareToolCall(call, o);
      if preparation.Immediate? {
        finalized := preparation.finalized;
        Emit(ToolEnd(call, finalized.result, finalized.isError));
      } else {
        finalized := RunPrepared(call, o);
        ExecutedIsOfCall(call, o);
        OutcomeIfPassed(call, o);
      }
    }

    /** executePreparedToolCall and what follows it, for the one call that is open. */
    method RunPrepared(call: ToolCall, o: Oracle) returns (finalized: Finalized)
      requires Sound() && !Over(state.log) && forall id :: Balance(state.log, id) == if id == call.id then 1 else 0
      modifies state, steeringQueue, followUpQueue
      ensures Sound() && Listened() && Quiet() && state.messages == old(state.messages)
      ensures finalized == Executed(call, o) && state.reported == old(state.reported) + {finalized}
      ensures Relayed(call, o.updates, state.progress) && state.told == old(state.told) && state.overlapped == old(state.overlapped)
      ensures state.startedLate == old(state.startedLate)
    {
      hide AgentState.Valid;
      hide Executed;
      for i := 0 to |o.updates|
        invariant state.reported == old(state.reported) && Relayed(call, o.updates[..i], state.progress)
        invariant state.told == old(state.told) && state.overlapped == old(state.overlapped)
        invariant state.startedLate == old(state.startedLate)
        invariant Sound() && Listened() && !Over(state.log) && state.messages == old(state.messages)
        invariant forall id :: Balance(state.log, id) == if id == call.id then 1 else 0
      {
        Emit(ToolUpdate(call, o.updates[i]));
      }
      finalized := FinishToolCall(call, o);
    }

    /** A call is executed and its result entered. */
    method AnswerToolCall(call: ToolCall, o: Oracle) returns (finalized: Finalized)
      requires Sound() && Quiet()
      modifies state, steeringQueue, followUpQueue
      ensures Sound() && Listened() && Quiet()
      ensures Entered(old(state.Notes()), state.Notes(), [ResultMessage(finalized)], [finalized])
      ensures finalized.call == call && (!state.aborted ==> finalized == Outcome(call, o))
      ensures !state.aborted && Passed(o) ==> Relayed(call, o.updates, state.progress)
      ensures OwnOrAborted(finalized, call, o)
      ensures state.startedLate == old(state.startedLate) + (if old(state.aborted) then 1 else 0)
    {
      hide AgentState.Valid, Outcome, Passed, ResultMessage, Relayed, Agent.Quiet;
      finalized := ExecuteToolCall(call, o);
      EmitMessage(ResultMessage(finalized));
      SaidNothing();
      SaidAppend([], finalized);
      AnnouncedNothing();
      AnnouncedMore([], ResultMessage(finalized));
      hide Said, Announced;
      assert [] + [finalized] == [finalized] && [] + [ResultMessage(finalized)] == [ResultMessage(finalized)];
    }

    method ExecuteToolCallsSequential(calls: seq<ToolCall>, oracle: nat -> Oracle)
      returns (results: seq<Message>, terminate: bool, finals: seq<Finalized>)
      requires Sound() && Quiet()
      modifies state, steeringQueue, followUpQueue
      ensures Sound() && Listened() && Quiet() && state.messages == old(state.messages) + results
      ensures Batch(calls, oracle, results, terminate, finals, state.aborted)
      ensures state.reported == old(state.reported) + Said(finals) && state.told == old(state.told) + Announced(results)
      ensures (!state.aborted ==> AllRelayed(calls, oracle, |calls|, state.progress)) && state.overlapped == old(state.overlapped)
      ensures !old(state.aborted) ==> state.startedLate == old(state.startedLate)
    {
      hide AgentState.Valid, Agent.Quiet, AnsweredSoFar, Entered, Batch, Outcome, Relayed, Passed, ResultMessage;
      hide Said, Announced, AllRelayed, Terminates, PendingMessageQueue.Valid;
      results, finals := [], [];
      NothingAnswered(calls, oracle, state.aborted, state.progress);
      NothingEntered(state.Notes());
      while |finals| < |calls|
        invariant Sound() && Listened() && Quiet() && Entered(old(state.Notes()), state.Notes(), results, finals)
        invariant |finals| <= |calls| && AnsweredSoFar(calls, oracle, results, finals, state.aborted, state.progress)
        invariant (state.aborted ==> old(state.aborted)) && (!old(state.aborted) ==> state.startedLate == old(state.startedLate))
      {
        ghost var (notes, aborted, before) := (state.Notes(), state.aborted, state.progress);
        var finalized := AnswerToolCall(calls[|finals|], oracle(|finals|));
        AnswersOneMore(calls, oracle, results, finals, finalized, aborted, state.aborted, before, state.progress);
        EntersOneMore(old(state.Notes()), notes, state.Notes(), results, finals, finalized);
        finals := finals + [finalized];
        results := results + [ResultMessage(finalized)];
        if state.aborted {
          break;
        }
      }
      terminate := Terminates(finals);
      AnswersAreBatch(calls, oracle, results, terminate, finals, state.aborted, state.progress);
      EnteredIs(old(state.Notes()), results, finals);
    }

    /** What has been entered, spelled out. */
    lemma EnteredIs(was: Account, results: seq<Message>, finals: seq<Finalized>)
      requires Entered(was, state.Notes(), results, finals)
      ensures state.messages == was.messages + results && state.reported == was.reported + Said(finals)
      ensures state.told == was.told + Announced(results) && state.overlapped == was.overlapped
    {
    }

    /** The running calls are those that have started and not ended; finished ones have their own outcome. */
    ghost predicate InFlight(calls: seq<ToolCall>, oracle: nat -> Oracle, entries: seq<Entry>)
      reads state
    {
      && |entries| <= |calls| && !Over(state.log)
      && (forall id :: Balance(state.log, id) == Open(calls, entries, id))
      && (forall k :: 0 <= k < |entries| ==>
            if entries[k].Done? then
              && entries[k].finalized.call == calls[k] && OwnOrAborted(entries[k].finalized, calls[k], oracle(k))
              && (!state.aborted ==> entries[k].finalized == Outcome(calls[k], oracle(k)))
            else Passed(oracle(k)))
      && (!state.aborted ==> AllSoFar(calls, oracle, entries, state.progress))
    }

    /** The calls of a batch are started and prepared one after the other. */
    method StartToolCalls(calls: seq<ToolCall>, oracle: nat -> Oracle) returns (entries: seq<Entry>)
      requires Sound() && Quiet()
      modifies state, steeringQueue, followUpQueue
      ensures Sound() && Listened() && state.messages == old(state.messages)
      ensures state.told == old(state.told)
      ensures InFlight(calls, oracle, entries) && state.reported == old(state.reported) + Finished(entries)
      ensures (|entries| < |calls| ==> state.aborted) && (calls != [] ==> entries != [])
      ensures !old(state.aborted) ==> state.startedLate == old(state.startedLate)
    {
      hide AgentState.Valid;
      SoFarNone(calls, oracle, state.progress);
      hide AllSoFar;
      entries := [];
      while |entries| < |calls|
        invariant Sound() && Listened() && state.messages == old(state.messages) && state.told == old(state.told)
        invariant (state.aborted ==> old(state.aborted)) && (!old(state.aborted) ==> state.startedLate == old(state.startedLate))
        invariant InFlight(calls, oracle, entries) && state.reported == old(state.reported) + Finished(entries)
      {
        var entry := StartToolCall(calls, oracle, entries);
        FinishedAppend(entries, entry);
        entries := entries + [entry];
        if state.aborted {
          break;
        }
      }
    }

    method StartToolCall(calls: seq<ToolCall>, oracle: nat -> Oracle, entries: seq<Entry>) returns (entry: Entry)
      requires Sound() && InFlight(calls, oracle, entries) && |entries| < |calls|
      modifies state, steeringQueue, followUpQueue
      ensures Sound() && Listened() && state.messages == old(state.messages)
      ensures state.told == old(state.told)
      ensures InFlight(calls, oracle, entries + [entry])
      ensures state.reported == old(state.reported) + FinishedOne(entry)
      ensures state.startedLate == old(state.startedLate) + (if old(state.aborted) then 1 else 0)
    {
      hide AgentState.Valid;
      hide Open, Outcome, Passed, AllSoFar, RelayedSoFar;
      var (call, o) := (calls[|entries|], oracle(|entries|));
      ghost var before := state.progress;
      Emit(ToolStart(call));
      entry := EnterToolCall(call, o);
      if !state.aborted {
        SoFarAppend(calls, oracle, entries, entry, before, state.progress);
      }
      forall id ensures Balance(state.log, id) == Open(calls, entries + [entry], id) {
        EntryAppend(calls, entries, entry, id);
      }
    }

    /** A call that has started is ended at once, or is to run. */
    method EnterToolCall(call: ToolCall, o: Oracle) returns (entry: Entry)
      requires Sound() && !Over(state.log) && Balance(state.log, call.id) > 0
      modifies state, steeringQueue, followUpQueue
      ensures Sound() && Listened() && !Over(state.log) && state.messages == old(state.messages)
      ensures if entry.Done? then
                && entry.finalized.call == call && OwnOrAborted(entry.finalized, call, o)
                && (!state.aborted ==> entry.finalized == Outcome(call, o))
              else Passed(o)
      ensures state.startedLate == old(state.startedLate)
      ensures state.reported == old(state.reported) + FinishedOne(entry)
      ensures state.told == old(state.told)
      ensures !state.aborted && Passed(o) ==> RelayedSoFar(call, o.updates, entry, state.progress)
      ensures forall id :: Balance(state.log, id) == Balance(old(state.log), id) - (if entry.Done? && call.id == id then 1 else 0)
    {
      hide AgentState.Valid;
      hide Outcome, Relayed, RelayedSoFar;
      var preparation := PrepareToolCall(call, o);
      if preparation.Immediate? {
        entry := Done(preparation.finalized);
        Emit(ToolEnd(call, preparation.finalized.result, preparation.finalized.isError));
      } else {
        entry := Running(o.updates);
        RelayedNothing(call, o.updates, state.progress);
      }
    }

    /** One of the running calls reports a partial result or finishes. */
    method AdvanceToolCall(calls: seq<ToolCall>, oracle: nat -> Oracle, entries: seq<Entry>, i: nat) returns (entry: Entry)
      requires Sound() && InFlight(calls, oracle, entries) && i < |entries| && entries[i].Running?
      modifies state, steeringQueue, followUpQueue
      ensures Sound() && Listened() && state.messages == old(state.messages)
      ensures state.told == old(state.told)
      ensures InFlight(calls, oracle, entries[i := entry])
      ensures entry.Running? ==> |entry.updates| < |entries[i].updates|
      ensures state.reported == old(state.reported) + FinishedOne(entry)
      ensures state.startedLate == old(state.startedLate)
    {
      hide AgentState.Valid;
      hide Open, Outcome, Executed, Passed, AllSoFar, RelayedSoFar;
      EntryChanges(calls, entries, i, entries[i], calls[i].id);
      ghost var before := state.progress;
      if entries[i].updates != [] {
        Emit(ToolUpdate(calls[i], entries[i].updates[0]));
        entry := Running(entries[i].updates[1..]);
      } else {
        var finalized := FinishToolCall(calls[i], oracle(i));
        entry := Done(finalized);
        ExecutedIsOfCall(calls[i], oracle(i));
        OutcomeIfPassed(calls[i], oracle(i));
      }
      forall id ensures Balance(state.log, id) == Open(calls, entries[i := entry], id) {
        EntryChanges(calls, entries, i, entry, id);
      }
      if !state.aborted {
        EntryAdvances(calls, oracle, entries, i, entry, before, state.progress);
      }
    }

    /** The entry of a running call after it has passed on its next partial result, or has finished. */
    lemma EntryAdvances(calls: seq<ToolCall>, oracle: nat -> Oracle, entries: seq<Entry>, i: nat, entry: Entry, before: set<Progress>,
                        after: set<Progress>)
      requires i < |entries| <= |calls| && entries[i].Running? && Passed(oracle(i)) && AllSoFar(calls, oracle, entries, before)
      requires before <= after
      requires if entries[i].updates == [] then entry.Done?
               else entry == Running(entries[i].updates[1..]) && Progress(calls[i], entries[i].updates[0]) in after
      ensures AllSoFar(calls, oracle, entries[i := entry], after)
    {
      hide Passed, RelayedSoFar;
      var (call, updates, rest) := (calls[i], oracle(i).updates, entries[i].updates);
      SoFarStays(calls, oracle, entries, before, after);
      assert RelayedSoFar(call, updates, entries[i], after);
      if rest == [] {
        RelayedToEnd(call, updates, entry.finalized, after);
      } else {
        RelayedOneMore(call, updates, rest, after);
        assert after + {Progress(call, rest[0])} == after;
      }
      SoFarUpdate(calls, oracle, entries, i, entry, before, after);
    }

    /** The prepared calls run at once: whichever is next to report or to finish does so, in any order. */
    method RunToolCalls(calls: seq<ToolCall>, oracle: nat -> Oracle, started: seq<Entry>) returns (finals: seq<Finalized>)
      requires Sound() && InFlight(calls, oracle, started) && Finished(started) <= state.reported
      modifies state, steeringQueue, followUpQueue
      ensures Sound() && Listened() && Quiet() && state.messages == old(state.messages)
      ensures state.told == old(state.told)
      ensures |finals| == |started| && OfCalls(finals, calls)
      ensures state.reported == old(state.reported) + Said(finals) && Finished(started) <= Said(finals)
      ensures !state.aborted ==> AllRelayed(calls, oracle, |finals|, state.progress)
      ensures !state.aborted ==> finals == Outcomes(calls, oracle)[..|finals|]
      ensures AllOwnOrAborted(finals, calls, oracle) && state.startedLate == old(state.startedLate)
    {
      hide AgentState.Valid;
      hide AllSoFar, AllRelayed, Outcome, OwnOrAborted, Passed, Open, Work, Finished, Said;
      var entries := started;
      while exists i :: 0 <= i < |entries| && entries[i].Running?
        invariant |entries| == |started| && Sound() && Listened() && state.messages == old(state.messages)
        invariant state.told == old(state.told) && state.startedLate == old(state.startedLate)
        invariant InFlight(calls, oracle, entries) && Finished(started) <= Finished(entries)
        invariant state.reported == old(state.reported) + Finished(entries)
        decreases Work(entries)
      {
        var i :| 0 <= i < |entries| && entries[i].Running?;
        var entry := AdvanceToolCall(calls, oracle, entries, i);
        EntryChanges(calls, entries, i, entry, "");
        FinishedUpdate(entries, i, entry);
        entries := entries[i := entry];
      }
      forall id ensures Balance(state.log, id) == 0 {
        NoneOpen(calls, entries, id);
      }
      finals := seq(|entries|, i requires 0 <= i < |entries| => entries[i].finalized);
      FinishedAll(entries, finals);
      if !state.aborted {
        SoFarToEnd(calls, oracle, entries, state.progress);
      }
    }

    method ExecuteToolCallsParallel(calls: seq<ToolCall>, oracle: nat -> Oracle)
      returns (results: seq<Message>, terminate: bool, finals: seq<Finalized>)
      requires Sound() && Quiet()
      modifies state, steeringQueue, followUpQueue
      ensures Sound() && Listened() && Quiet() && state.messages == old(state.messages) + results
      ensures Batch(calls, oracle, results, terminate, finals, state.aborted)
      ensures state.reported == old(state.reported) + Said(finals) && state.told == old(state.told) + Announced(results)
      ensures !state.aborted ==> AllRelayed(calls, oracle, |calls|, state.progress)
      ensures !old(state.aborted) ==> state.startedLate == old(state.startedLate)
    {
      hide Said, Terminates, AllRelayed, Relayed, AllSoFar, ResultMessage, Outcome, Finished, Agent.Quiet, OwnOrAborted, AllOwnOrAborted;
      hide AgentState.Valid, Announced;
      var entries := StartToolCalls(calls, oracle);
      finals := RunToolCalls(calls, oracle, entries);
      ghost var before := state.progress;
      results := EnterResults(finals);
      if !state.aborted {
        AllRelayedStays(calls, oracle, |calls|, before, state.progress);
      }
      terminate := Terminates(finals);
    }

    /** The results of calls that have ended, in call order. */
    method EnterResults(finals: seq<Finalized>) returns (results: seq<Message>)
      requires Sound() && Quiet()
      modifies state, steeringQueue, followUpQueue
      ensures Sound() && Listened() && Quiet() && state.messages == old(state.messages) + results
      ensures results == ResultMessages(finals) && state.told == old(state.told) + Announced(results)
      ensures state.reported == old(state.reported) && state.startedLate == old(state.startedLate)
    {
      hide AgentState.Valid, ResultMessage, Agent.Quiet, Announced;
      results := [];
      AnnouncedNothing();
      for i := 0 to |finals|
        invariant Sound() && Listened() && Quiet() && state.messages == old(state.messages) + results
        invariant results == ResultMessages(finals)[..i] && state.told == old(state.told) + Announced(results)
        invariant state.reported == old(state.reported) && state.startedLate == old(state.startedLate)
      {
        EmitMessage(ResultMessage(finals[i]));
        AnnouncedMore(results, ResultMessage(finals[i]));
        results := results + [ResultMessage(finals[i])];
      }
    }

    method ExecuteToolCalls(calls: seq<ToolCall>, oracle: nat -> Oracle, sequential: bool)
      returns (results: seq<Message>, terminate: bool, finals: seq<Finalized>)
      requires Sound() && Quiet()
      modifies state, steeringQueue, followUpQueue
      ensures Sound() && Listened() && Quiet() && state.messages == old(state.messages) + results
      ensures Batch(calls, oracle, results, terminate, finals, state.aborted)
      ensures state.reported == old(state.reported) + Said(finals) && state.told == old(state.told) + Announced(results)
      ensures !state.aborted ==> AllRelayed(calls, oracle, |calls|, state.progress)
      ensures sequential || (exists i :: 0 <= i < |calls| && oracle(i).found && oracle(i).sequential) ==>
                state.overlapped == old(state.overlapped)
      ensures !old(state.aborted) ==> state.startedLate == old(state.startedLate)
    {
      hide AgentState.Valid;
      if sequential || exists i :: 0 <= i < |calls| && oracle(i).found && oracle(i).sequential {
        results, terminate, finals := ExecuteToolCallsSequential(calls, oracle);
      } else {
        results, terminate, finals := ExecuteToolCallsParallel(calls, oracle);
      }
    }
  }

  /** What a batch of calls comes to: results of the first calls, in order; of all calls, each with its own outcome,
      unless the run is aborted; and of at least one, if there are any. */
  ghost predicate Batch(calls: seq<ToolCall>, oracle: nat -> Oracle, results: seq<Message>, terminate: bool,
                        finals: seq<Finalized>, aborted: bool) {
    && OfCalls(finals, calls) && results == ResultMessages(finals) && (terminate <==> Terminates(finals))
    && (calls != [] ==> finals != []) && AllOwnOrAborted(finals, calls, oracle)
    && (!aborted ==> finals == Outcomes(calls, oracle))
  }

  /** Executing a batch all at once, in whatever order its calls finish, comes to the same results and the same
      decision to go on as executing it one call after the other, unless the run is aborted. */
  lemma ParallelRefinesSequential(calls: seq<ToolCall>, oracle: nat -> Oracle,
                                  one: seq<Message>, oneTerminates: bool, oneFinals: seq<Finalized>,
                                  all: seq<Message>, allTerminates: bool, allFinals: seq<Finalized>)
    requires Batch(calls, oracle, one, oneTerminates, oneFinals, false)
    requires Batch(calls, oracle, all, allTerminates, allFinals, false)
    ensures one == all && oneTerminates == allTerminates && |one| == |calls|
  {
  }
}
