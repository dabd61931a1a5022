/** One run of the agent loop: turns of responses, tool batches and injected messages. */
module AgentLoop {
  import opened Options
  import opened AgentEvents
  import opened AgentRecords
  import opened AgentRuns

  /** `j` is the one end of call `id`, and its updates lie between `i` and `j`. */
  ghost predicate OnlyEnd(log: seq<Event>, i: int, j: int, id: CallId) {
    && Ends(log, j, id) && (forall k :: Ends(log, k, id) ==> k == j)
    && forall k :: Updates(log, k, id) ==> i < k < j
  }

  /** How the inner loop is left. */
  datatype Outcome = Over | OutOfResponses | Idle

  lemma TurnEntered(prompts: seq<Message>, drawn: seq<Message>, turns: seq<Turn>, t: Turn)
    ensures prompts + Flatten(turns) + (t.injected + [t.response] + t.results) == prompts + Flatten(turns + [t]) + []
    ensures drawn + Injected(turns) + t.injected == drawn + Injected(turns + [t]) + []
  {
    TurnAppend(turns, t);
  }

  class LoopRun {
    const agent: Agent
    const sequential: bool
    var context: seq<Message>
    var newMessages: seq<Message>
    var pendingMessages: seq<Message>
    var skipInitialSteeringPoll: bool
    ghost const start: seq<Message>
    const prompts: seq<Message>
    /** The prompts, if they came out of a queue, and what had come out of the queues before them. */
    ghost const drawn: seq<Message>
    ghost const steeredBefore: seq<Message>
    ghost const followedBefore: seq<Message>
    ghost var taken: seq<Taken>
    ghost var turns: seq<Turn>
    ghost var endings: seq<Ending>
    /** The steering messages queued when the loop polls for the first time. */
    ghost var queuedAtStart: seq<Message>

    /** Everything drained from a queue has been taken from its front; `held` of it is not in an ended turn yet. */
    ghost predicate QueuesOk(held: seq<Message>)
      reads this, agent.steeringQueue, agent.followUpQueue
    {
      && agent.steeringQueue.drained == steeredBefore + From(taken, Steering)
      && agent.followUpQueue.drained == followedBefore + From(taken, FollowUp)
      && Messages(taken) == drawn + Injected(turns) + held
    }

    ghost predicate OneAtATimeOk(held: seq<Message>)
      reads this, agent.steeringQueue, agent.followUpQueue
    {
      agent.steeringQueue.mode == OneAtATime && agent.followUpQueue.mode == OneAtATime ==>
        |held| <= 1 && forall t :: t in turns ==> |t.injected| <= 1
    }

    ghost predicate History()
      reads this, agent.state
    {
      && (sequential ==> !agent.state.overlapped)
      && forall t :: t in turns ==>
           && Paired(t) && (t.aborted ==> agent.state.aborted)
           && Said(t.finals) <= agent.state.reported && t.progress <= agent.state.progress
    }

    /** The state of the run when `extra` has been added to the transcript since the last turn ended. */
    ghost predicate Coherent(extra: seq<Message>, held: seq<Message>)
      reads this, agent.state, agent.steeringQueue, agent.followUpQueue
    {
      && agent.Sound() && agent.state.messages == start + newMessages && newMessages == prompts + Flatten(turns) + extra
      && QueuesOk(held) && OneAtATimeOk(held) && History()
    }

    ghost predicate BetweenTurns()
      reads this, agent.state, agent.steeringQueue, agent.followUpQueue
    {
      Coherent([], pendingMessages) && agent.Quiet()
    }

    /** A run is set up from the agent's transcript; `taken` is what its prompts were drained from, if anything. */
    constructor (agent: Agent, sequential: bool, prompts: seq<Message>, skipInitialSteeringPoll: bool, ghost taken: seq<Taken>,
                 ghost steeredBefore: seq<Message>, ghost followedBefore: seq<Message>)
      requires agent.Sound()
      requires agent.steeringQueue.drained == steeredBefore + From(taken, Steering)
      requires agent.followUpQueue.drained == followedBefore + From(taken, FollowUp)
      requires taken == [] || Messages(taken) == prompts
      requires !agent.state.overlapped
      ensures this.agent == agent && this.sequential == sequential && this.prompts == prompts && start == agent.state.messages
      ensures this.steeredBefore == steeredBefore && this.followedBefore == followedBefore && drawn == Messages(taken)
      ensures context == start + prompts && newMessages == prompts && pendingMessages == [] && turns == [] && endings == []
      ensures this.skipInitialSteeringPoll == skipInitialSteeringPoll && this.taken == taken
      ensures QueuesOk([]) && History()
    {
      this.agent, this.sequential, this.prompts := agent, sequential, prompts;
      this.start := agent.state.messages;
      this.context := agent.state.messages + prompts;
      this.newMessages, this.pendingMessages, this.skipInitialSteeringPoll := prompts, [], skipInitialSteeringPoll;
      this.drawn, this.steeredBefore, this.followedBefore, this.taken := Messages(taken), steeredBefore, followedBefore, taken;
      this.turns, this.endings := [], [];
    }

    // ----- Queues

    method PollSteering()
      requires BetweenTurns() && pendingMessages == []
      modifies this`pendingMessages, this`skipInitialSteeringPoll, this`taken
      modifies agent.state`aborted, agent.steeringQueue, agent.followUpQueue
      ensures BetweenTurns() && agent.Remembers() && !skipInitialSteeringPoll
      ensures var queued := pendingMessages + agent.steeringQueue.messages;
              && old(agent.steeringQueue.messages) <= queued
              && pendingMessages == if old(skipInitialSteeringPoll) then [] else Drained(agent.steeringQueue.mode, queued)
      ensures old(agent.followUpQueue.messages) <= agent.followUpQueue.messages
    {
      hide AgentState.Valid;
      hide From, Messages, Flatten, Injected, Paired;
      agent.Await();
      agent.StillQueued();
      if skipInitialSteeringPoll {
        skipInitialSteeringPoll := false;
        assert pendingMessages + agent.steeringQueue.messages == agent.steeringQueue.messages;
        return;
      }
      ghost var before := agent.steeringQueue.drained;
      pendingMessages := agent.steeringQueue.Drain();
      TakenMore(taken, Steering, pendingMessages);
      assert before + pendingMessages == steeredBefore + (From(taken, Steering) + pendingMessages);
      assert Messages(taken) + pendingMessages == drawn + Injected(turns) + pendingMessages;
      hide Drained, Tagged, Balance, Bracketed;
      taken := taken + Tagged(Steering, pendingMessages);
    }

    method PollFollowUps()
      requires BetweenTurns() && pendingMessages == []
      modifies this`pendingMessages, this`taken, agent.state`aborted, agent.steeringQueue, agent.followUpQueue
      ensures BetweenTurns() && agent.Remembers()
      ensures var queued := pendingMessages + agent.followUpQueue.messages;
              && old(agent.followUpQueue.messages) <= queued
              && pendingMessages == Drained(agent.followUpQueue.mode, queued)
    {
      hide AgentState.Valid, Drained, Tagged;
      hide From, Messages, Flatten, Injected, Paired;
      agent.Await();
      agent.StillQueued();
      pendingMessages := agent.followUpQueue.Drain();
      TakenMore(taken, FollowUp, pendingMessages);
      taken := taken + Tagged(FollowUp, pendingMessages);
    }

    // ----- Parts of a turn

    method InjectPending() returns (ghost injected: seq<Message>)
      requires BetweenTurns()
      modifies this`context, this`newMessages, this`pendingMessages, agent.state, agent.steeringQueue, agent.followUpQueue
      ensures Coherent(injected, injected) && agent.Quiet() && pendingMessages == [] && injected == old(pendingMessages)
      ensures context == old(context) + injected && agent.Listened()
      ensures agent.state.told == old(agent.state.told) + Announced(injected)
    {
      hide From, Messages, Flatten, Injected, Balance, AgentState.Valid, Announced;
      injected := pendingMessages;
      AnnouncedNothing();
      for i := 0 to |pendingMessages|
        invariant pendingMessages == injected && Coherent(injected[..i], injected) && agent.Quiet()
        invariant context == old(context) + injected[..i] && agent.Listened()
        invariant agent.state.told == old(agent.state.told) + Announced(injected[..i])
      {
        agent.EmitMessage(pendingMessages[i]);
        AnnouncedMore(injected[..i], injected[i]);
        context := context + [pendingMessages[i]];
        newMessages := newMessages + [pendingMessages[i]];
        assert injected[..i + 1] == injected[..i] + [injected[i]];
      }
      pendingMessages := [];
      assert injected[..|injected|] == injected;
    }

    /** One streamed event; `base` is the context before the response, `before` are the events so far. */
    method StreamOne(e: StreamEvent, addedPartial: bool, ghost base: seq<Message>, ghost before: seq<StreamEvent>)
      requires agent.Sound() && agent.Quiet() && e.Partial?
      requires context == base + Parts(before) && (addedPartial <==> Parts(before) != [])
      modifies this`context, agent.state, agent.steeringQueue, agent.followUpQueue
      ensures agent.Sound() && agent.Quiet() && agent.Listened() && agent.state.messages == old(agent.state.messages)
      ensures context == base + Parts(before + [e]) && (addedPartial || e.first <==> Parts(before + [e]) != [])
      ensures Shown(before + [e]) == Shown(before) + ShownNext(before, e)
      ensures agent.state.told == old(agent.state.told) + ShownNext(before, e) && agent.state.overlapped == old(agent.state.overlapped)
    {
      hide AgentState.Valid;
      assert (before + [e])[..|before|] == before;
      if e.first {
        context := context + [e.partialMessage];
        agent.Emit(MessageStart(e.partialMessage));
      } else if addedPartial {
        context := context[|context| - 1 := e.partialMessage];
        agent.Emit(MessageUpdate(e.partialMessage));
      }
    }

    /** The streamed events up to the finish of the response. */
    method StreamPartials(events: seq<StreamEvent>) returns (addedPartial: bool, ghost processed: seq<StreamEvent>)
      requires agent.Sound() && agent.Quiet()
      modifies this`context, agent.state, agent.steeringQueue, agent.followUpQueue
      ensures agent.Sound() && agent.Quiet() && agent.Listened() && agent.state.messages == old(agent.state.messages)
      ensures processed == Processed(events)
      ensures context == old(context) + Parts(processed) && (addedPartial <==> Parts(processed) != [])
      ensures agent.state.told == old(agent.state.told) + Shown(processed) && agent.state.overlapped == old(agent.state.overlapped)
    {
      hide AgentState.Valid;
      addedPartial, processed := false, [];
      var i := 0;
      while i < |events| && !events[i].Finish?
        invariant i <= |events| && processed == events[..i] && forall k :: 0 <= k < i ==> events[k].Partial?
        invariant agent.Sound() && agent.Quiet() && agent.Listened() && agent.state.messages == old(agent.state.messages)
        invariant context == old(context) + Parts(processed) && (addedPartial <==> Parts(processed) != [])
        invariant agent.state.told == old(agent.state.told) + Shown(processed) && agent.state.overlapped == old(agent.state.overlapped)
      {
        StreamOne(events[i], addedPartial, old(context), processed);
        addedPartial := addedPartial || events[i].first;
        processed := processed + [events[i]];
        i := i + 1;
      }
      ProcessedIs(events, i);
    }

    /** streamAssistantResponse: the final message takes the place of the last partial one. */
    method StreamAssistantResponse(events: seq<StreamEvent>, final: Message)
      requires agent.Sound() && agent.Quiet()
      modifies this`context, agent.state, agent.steeringQueue, agent.followUpQueue
      ensures agent.Sound() && agent.Quiet() && agent.Listened()
      ensures agent.state.messages == old(agent.state.messages) + [final]
      ensures context == old(context) + Stale(events) + [final]
      ensures agent.state.told == old(agent.state.told) + Streamed(events, final) && agent.state.overlapped == old(agent.state.overlapped)
    {
      hide AgentState.Valid, Parts, Shown;
      var addedPartial;
      ghost var processed;
      addedPartial, processed := StreamPartials(events);
      FinishStream(final, addedPartial, old(context), processed);
    }

    method FinishStream(final: Message, addedPartial: bool, ghost base: seq<Message>, ghost processed: seq<StreamEvent>)
      requires agent.Sound() && agent.Quiet()
      requires context == base + Parts(processed) && (addedPartial <==> Parts(processed) != [])
      modifies this`context, agent.state, agent.steeringQueue, agent.followUpQueue
      ensures agent.Sound() && agent.Quiet() && agent.Listened()
      ensures agent.state.messages == old(agent.state.messages) + [final]
      ensures context == base + LeftBehind(Parts(processed)) + [final]
      ensures agent.state.overlapped == old(agent.state.overlapped)
      ensures agent.state.told == old(agent.state.told) + (if addedPartial then [] else [MessageStart(final)]) + [MessageEnd(final)]
    {
      hide AgentState.Valid, Parts;
      if addedPartial {
        context := context[|context| - 1 := final];
      } else {
        context := context + [final];
        agent.Emit(MessageStart(final));
      }
      agent.Emit(MessageEnd(final));
    }

    ghost function Now(): Ending
      reads this, agent.state, agent.steeringQueue, agent.followUpQueue
    {
      Ending(agent.state.messages, newMessages, context, agent.state.pendingToolCalls,
             agent.steeringQueue.messages, agent.followUpQueue.messages)
    }

    /** The transcripts of an ending are those of now, and what was queued then is still queued. */
    ghost predicate StillAt(e: Ending)
      reads this, agent.steeringQueue, agent.followUpQueue
    {
      && e == Ending(start + newMessages, newMessages, context, {}, e.steering, e.followUps)
      && e.steering <= agent.steeringQueue.messages && e.followUps <= agent.followUpQueue.messages
    }

    /** The end of a turn: the one place where the turn is entered in the record. */
    method EndTurn(ghost injected: seq<Message>, message: Message, results: seq<Message>, ghost finals: seq<Finalized>,
                   ghost more: bool)
      requires pendingMessages == [] && Coherent(injected + [message] + results, injected) && agent.Quiet()
      requires Paired(Turn(injected, message, results, finals, agent.state.progress, agent.state.aborted, more))
      requires Said(finals) <= agent.state.reported
      modifies this`turns, this`endings, agent.state, agent.steeringQueue, agent.followUpQueue
      ensures BetweenTurns() && agent.Remembers()
      ensures turns == old(turns) + [Turn(injected, message, results, finals, old(agent.state.progress), old(agent.state.aborted), more)]
      ensures endings != [] && endings == old(endings) + [endings[|endings| - 1]] && StillAt(endings[|endings| - 1])
      ensures endings[|endings| - 1].followUps == old(agent.followUpQueue.messages)
      ensures agent.state.told == old(agent.state.told) + [TurnEnd(message, results)]
    {
      RecordTurn(injected, message, results, finals, more);
      label Noted:
      agent.Emit(TurnEnd(message, results));
      agent.StillQueued@Noted();
    }

    ghost method RecordTurn(injected: seq<Message>, message: Message, results: seq<Message>, finals: seq<Finalized>, more: bool)
      requires pendingMessages == [] && Coherent(injected + [message] + results, injected) && agent.Quiet()
      requires Paired(Turn(injected, message, results, finals, agent.state.progress, agent.state.aborted, more))
      requires Said(finals) <= agent.state.reported
      modifies this`turns, this`endings
      ensures BetweenTurns()
      ensures turns == old(turns) + [Turn(injected, message, results, finals, agent.state.progress, agent.state.aborted, more)]
      ensures endings == old(endings) + [Now()] && Now().pendingToolCalls == {}
    {
      hide Flatten, Injected, Messages, From, Balance, Bracketed, Paired;
      var t := Turn(injected, message, results, finals, agent.state.progress, agent.state.aborted, more);
      agent.state.NothingPending();
      TurnEntered(prompts, drawn, turns, t);
      turns := turns + [t];
      endings := endings + [Now()];
    }

    /** Streams the response and enters it in the loop's own list. */
    method TakeResponse(ghost injected: seq<Message>, response: Response)
      requires Coherent(injected, injected) && agent.Quiet()
      modifies this`context, this`newMessages, agent.state, agent.steeringQueue, agent.followUpQueue
      ensures Coherent(injected + [response.final], injected) && agent.Quiet() && agent.Listened()
      ensures context == old(context) + Stale(response.events) + [response.final]
      ensures agent.state.told == old(agent.state.told) + Streamed(response.events, response.final)
    {
      hide AgentState.Valid, Streamed, Stale;
      StreamAssistantResponse(response.events, response.final);
      newMessages := newMessages + [response.final];
      assert prompts + Flatten(turns) + injected + [response.final] == prompts + Flatten(turns) + (injected + [response.final]);
    }

    /** The tool calls of a response, executed or failed, with their results entered in both lists. */
    method HandleToolCalls(ghost injected: seq<Message>, response: Response)
      returns (results: seq<Message>, finals: seq<Finalized>, more: bool)
      requires Coherent(injected + [response.final], injected) && agent.Quiet()
      requires response.final.Assistant? && !response.final.Failed()
      modifies this`context, this`newMessages, agent.state, agent.steeringQueue, agent.followUpQueue
      ensures Coherent(injected + [response.final] + results, injected) && agent.Quiet() && agent.Listened()
      ensures Paired(Turn(injected, response.final, results, finals, agent.state.progress, agent.state.aborted, more))
      ensures Follows(Turn(injected, response.final, results, finals, agent.state.progress, agent.state.aborted, more), response)
      ensures Said(finals) <= agent.state.reported && context == old(context) + results
      ensures agent.state.told == old(agent.state.told) + Announced(results)
    {
      hide Truncated, AgentState.Valid, Announced, Relayed, Passed;
      AnnouncedNothing();
      var calls := response.final.toolCalls;
      results, finals, more := [], [], false;
      if calls == [] {
        assert injected + [response.final] + [] == injected + [response.final] && context + [] == context;
        return;
      }
      var terminate := false;
      if response.final.stopReason == Length {
        results := agent.FailToolCallsFromTruncatedMessage(calls);
        finals := TruncatedFailures(calls);
      } else {
        results, terminate, finals := agent.ExecuteToolCalls(calls, response.oracle, sequential);
      }
      more := !terminate;
      AddResults(injected + [response.final], injected, results);
    }

    method AddResults(ghost extra: seq<Message>, ghost held: seq<Message>, results: seq<Message>)
      requires agent.Sound() && agent.state.messages == start + newMessages + results
      requires newMessages == prompts + Flatten(turns) + extra && QueuesOk(held) && OneAtATimeOk(held) && History()
      modifies this`context, this`newMessages
      ensures Coherent(extra + results, held) && context == old(context) + results
    {
      for i := 0 to |results|
        invariant context == old(context) + results[..i] && newMessages == old(newMessages) + results[..i]
      {
        context := context + [results[i]];
        newMessages := newMessages + [results[i]];
      }
      assert results[..|results|] == results;
      assert start + old(newMessages) + results == start + newMessages;
      assert prompts + Flatten(turns) + extra + results == prompts + Flatten(turns) + (extra + results);
    }

    /** A turn, from the messages waiting to be injected to its end. */
    method RunTurn(response: Response) returns (failed: bool, more: bool)
      requires BetweenTurns() && response.final.Assistant?
      modifies this`context, this`newMessages, this`pendingMessages, this`turns, this`endings
      modifies agent.state, agent.steeringQueue, agent.followUpQueue
      ensures BetweenTurns() && agent.Remembers() && pendingMessages == [] && (failed <==> response.final.Failed())
      ensures turns != [] && var t := turns[|turns| - 1];
              && turns == old(turns) + [t] && t.injected == old(pendingMessages) && t.more == more && Follows(t, response)
              && context == old(context) + t.injected + Stale(response.events) + [t.response] + t.results
      ensures endings != [] && endings == old(endings) + [endings[|endings| - 1]] && StillAt(endings[|endings| - 1])
      ensures old(agent.followUpQueue.messages) <= endings[|endings| - 1].followUps
      ensures agent.state.told == old(agent.state.told) + TurnStory(turns[|turns| - 1], response)
    {
      hide Flatten, Injected, Messages, From, Balance, Bracketed, Stale, Follows, Announced, Streamed, Paired, AgentState.Valid;
      hide LoopRun.QueuesOk, LoopRun.OneAtATimeOk, LoopRun.History, Agent.Quiet;
      ghost var injected := InjectPending();
      TakeResponse(injected, response);
      failed := response.final.Failed();
      agent.StillQueued();
      more := CompleteTurn(injected, response);
    }

    /** What follows the response: its tool calls, unless it has failed, and the end of the turn. */
    method CompleteTurn(ghost injected: seq<Message>, response: Response) returns (more: bool)
      requires pendingMessages == [] && Coherent(injected + [response.final], injected) && agent.Quiet()
      requires response.final.Assistant?
      modifies this`context, this`newMessages, this`turns, this`endings, agent.state, agent.steeringQueue, agent.followUpQueue
      ensures BetweenTurns() && agent.Remembers()
      ensures turns != [] && var t := turns[|turns| - 1];
              && turns == old(turns) + [t] && t.injected == injected && t.response == response.final && t.more == more
              && Follows(t, response) && context == old(context) + t.results
              && agent.state.told == old(agent.state.told) + Announced(t.results) + [TurnEnd(t.response, t.results)]
      ensures endings != [] && endings == old(endings) + [endings[|endings| - 1]] && StillAt(endings[|endings| - 1])
      ensures old(agent.followUpQueue.messages) <= endings[|endings| - 1].followUps
    {
      hide Flatten, Injected, Messages, From, Balance, Bracketed, Follows, Paired, Said, AgentState.Valid, Announced;
      hide LoopRun.QueuesOk, LoopRun.OneAtATimeOk, LoopRun.History, Agent.Quiet;
      if response.final.Failed() {
        AnnouncedNothing();
        EndFailedTurn(injected, response);
        return false;
      }
      var results, finals;
      results, finals, more := HandleToolCalls(injected, response);
      agent.StillQueued();
      EndTurn(injected, response.final, results, finals, more);
    }

    /** The end of a turn whose response has failed. */
    method EndFailedTurn(ghost injected: seq<Message>, response: Response)
      requires pendingMessages == [] && Coherent(injected + [response.final], injected) && agent.Quiet()
      requires response.final.Failed()
      modifies this`turns, this`endings, agent.state, agent.steeringQueue, agent.followUpQueue
      ensures BetweenTurns() && agent.Remembers()
      ensures turns != [] && var t := turns[|turns| - 1];
              && turns == old(turns) + [t] && t.injected == injected && t.response == response.final && t.results == []
              && !t.more && Follows(t, response)
      ensures endings != [] && endings == old(endings) + [endings[|endings| - 1]] && StillAt(endings[|endings| - 1])
      ensures endings[|endings| - 1].followUps == old(agent.followUpQueue.messages)
      ensures agent.state.told == old(agent.state.told) + [TurnEnd(response.final, [])]
    {
      hide Flatten, Injected, Messages, From, Balance, Bracketed, AgentState.Valid, Said;
      assert injected + [response.final] + [] == injected + [response.final];
      SaidNothing();
      EndTurn(injected, response.final, [], [], false);
    }

    // ----- The loop

    /** The poll before the first turn. */
    method PollInitially()
      requires BetweenTurns() && pendingMessages == []
      modifies this`pendingMessages, this`skipInitialSteeringPoll, this`taken, this`queuedAtStart
      modifies agent.state`aborted, agent.steeringQueue, agent.followUpQueue
      ensures BetweenTurns() && agent.Remembers() && !skipInitialSteeringPoll
      ensures pendingMessages == if old(skipInitialSteeringPoll) then [] else Drained(agent.steeringQueue.mode, queuedAtStart)
      ensures old(agent.steeringQueue.messages) <= queuedAtStart
    {
      PollSteering();
      queuedAtStart := pendingMessages + agent.steeringQueue.messages;
    }

    /** prepareNextTurn, with the second chance to pick up a steering message, and the start of the turn. */
    method PrepareNextTurn(nextContext: Option<seq<Message>>)
      requires BetweenTurns() && !skipInitialSteeringPoll
      modifies this`context, this`pendingMessages, this`skipInitialSteeringPoll, this`taken
      modifies agent.state, agent.steeringQueue, agent.followUpQueue
      ensures BetweenTurns() && agent.Remembers() && !skipInitialSteeringPoll
      ensures context == if nextContext.Some? then nextContext.value else old(context)
      ensures if old(pendingMessages) != [] then pendingMessages == old(pendingMessages)
              else Drained(agent.steeringQueue.mode, old(agent.steeringQueue.messages)) <= pendingMessages
      ensures old(agent.followUpQueue.messages) <= agent.followUpQueue.messages
      ensures agent.state.told == old(agent.state.told) + [TurnStart]
    {
      hide Flatten, Injected, Messages, From, Paired, Balance, Bracketed, Drained, AgentState.Valid;
      if nextContext.Some? {
        context := nextContext.value;
      }
      agent.Await();
      agent.StillQueued();
      if pendingMessages == [] {
        PollAgain(old(agent.steeringQueue.messages));
      }
      label Polled:
      agent.Emit(TurnStart);
      agent.StillQueued@Polled();
    }

    /** The steering queue is polled; `queued` has been in it for a while. */
    method PollAgain(ghost queued: seq<Message>)
      requires BetweenTurns() && !skipInitialSteeringPoll && pendingMessages == [] && queued <= agent.steeringQueue.messages
      modifies this`pendingMessages, this`skipInitialSteeringPoll, this`taken
      modifies agent.state`aborted, agent.steeringQueue, agent.followUpQueue
      ensures BetweenTurns() && agent.Remembers() && !skipInitialSteeringPoll
      ensures Drained(agent.steeringQueue.mode, queued) <= pendingMessages
      ensures old(agent.followUpQueue.messages) <= agent.followUpQueue.messages
    {
      hide Flatten, Injected, Messages, From, Paired, Balance, Bracketed, Drained;
      PollSteering();
      DrainedGrows(agent.steeringQueue.mode, queued, pendingMessages + agent.steeringQueue.messages);
    }

    /** No turn is to come, and the run is over: its last event says what it added. */
    ghost predicate Completed()
      reads this, agent.state, agent.steeringQueue, agent.followUpQueue
    {
      && Coherent([], []) && pendingMessages == [] && Settled(agent.state.log)
      && agent.state.log != [] && agent.state.log[|agent.state.log| - 1] == AgentEnd(newMessages)
    }

    method EndRun()
      requires BetweenTurns() && pendingMessages == []
      modifies this`endings, agent.state, agent.steeringQueue, agent.followUpQueue
      ensures Completed() && agent.Remembers()
      ensures endings == old(endings) + [old(Now())] && old(Now()).pendingToolCalls == {}
      ensures agent.state.told == old(agent.state.told) + [AgentEnd(newMessages)]
    {
      hide Balance, Bracketed, Flatten, Injected, From, Messages;
      agent.state.NothingPending();
      endings := endings + [Now()];
      agent.Emit(AgentEnd(newMessages));
      assert agent.state.log[|agent.state.log| - 1] == AgentEnd(newMessages);
    }

    /** The record of the turns so far, with the context they have left. */
    ghost predicate Recorded(responses: seq<Response>)
      reads this
    {
      && |turns| <= |responses| && |turns| <= |endings|
      && Record(agent.steeringQueue.mode, start, prompts, responses, turns, endings)
      && context == ContextAfter(start + prompts, turns, responses)
    }

    /** What was in the steering queue at the end of the last turn is among the pending messages, as far as a drain of
        it would have gone. */
    ghost predicate Served()
      reads this
    {
      0 < |turns| <= |endings| ==> Drained(agent.steeringQueue.mode, endings[|turns| - 1].steering) <= pendingMessages
    }

    /** A listener has been told of the turns so far. */
    ghost predicate Narrated(responses: seq<Response>)
      reads this, agent.state`told
    {
      |turns| <= |responses| && agent.state.told == Story(prompts, turns, responses)
    }

    /** Follow-ups that were queued at the end of the last turn are still queued, if it is followed by another one anyway. */
    ghost predicate Deferred()
      reads this, agent.followUpQueue
    {
      0 < |turns| <= |endings| ==>
        var n := |turns| - 1;
        turns[n].more || endings[n].steering != [] ==> endings[n].followUps <= agent.followUpQueue.messages
    }

    /** The run is to go on: nothing has ended it, and there are more tool calls or messages. */
    ghost predicate Wanted(responses: seq<Response>)
      reads this
    {
      |turns| <= |responses| && (turns != [] ==> GoesOn(turns[|turns| - 1], responses[|turns| - 1], pendingMessages))
    }

    /** Why the run has ended: its last response, or no more tool calls and nothing in the queues when it came. */
    ghost predicate Ended(responses: seq<Response>)
      reads this
    {
      0 < |turns| <= |responses| && |turns| <= |endings| && var n := |turns| - 1;
      EndsRun(responses[n]) || (!turns[n].more && endings[n].steering == [] && endings[n].followUps == [])
    }

    /** A run that is over: at least one turn, an ending noted for each and for the run, and a reason for its end. */
    ghost predicate Finished(responses: seq<Response>)
      reads this, agent.state, agent.steeringQueue, agent.followUpQueue
    {
      && Completed() && Recorded(responses) && Ended(responses)
      && |endings| == |turns| + 1 && Notes(endings[|turns|], start, prompts, turns, responses)
      && agent.state.told == Story(prompts, turns, responses) + [AgentEnd(newMessages)]
    }

    /** A run that has used up all responses and asks for another one. */
    ghost predicate Unfinished(responses: seq<Response>)
      reads this, agent.state, agent.steeringQueue, agent.followUpQueue
    {
      && BetweenTurns() && Recorded(responses) && Narrated(responses) && Wanted(responses) && Served()
      && |endings| == |turns| == |responses|
    }

    lemma TurnRecorded(responses: seq<Response>, before: seq<Turn>, noted: seq<Ending>, t: Turn, e: Ending)
      requires |before| < |responses| && |noted| == |before|
      requires Record(agent.steeringQueue.mode, start, prompts, responses, before, noted)
      requires before != [] ==> GoesOn(before[|before| - 1], responses[|before| - 1], t.injected)
      requires before != [] ==> Drained(agent.steeringQueue.mode, noted[|before| - 1].steering) <= t.injected
      requires before != [] ==> Waits(before[|before| - 1], noted[|before| - 1], e)
      requires Follows(t, responses[|before|]) && turns == before + [t]
      requires context == ContextBefore(start + prompts, before, responses)
                          + t.injected + Stale(responses[|before|].events) + [t.response] + t.results
      requires newMessages == prompts + Flatten(turns) && endings == noted + [e]
      requires e == Ending(start + newMessages, newMessages, context, {}, e.steering, e.followUps)
      ensures Recorded(responses)
    {
      ContextOfTurn(start + prompts, before, responses, t);
      RecordGrows(agent.steeringQueue.mode, start, prompts, responses, before, noted, t, e);
    }

    lemma NothingRecorded(responses: seq<Response>)
      requires turns == [] && endings == [] && context == start + prompts
      ensures Recorded(responses) && Wanted(responses)
    {
    }

    /** A turn with the model's next response. */
    method FollowResponse(responses: seq<Response>, i: nat) returns (failed: bool, more: bool)
      requires BetweenTurns() && i == |turns| == |endings| < |responses| && responses[i].final.Assistant?
      requires Record(agent.steeringQueue.mode, start, prompts, responses, turns, endings) && Wanted(responses) && Served()
      requires Deferred()
      requires agent.state.told == Story(prompts, turns, responses) + (if turns == [] then [] else [TurnStart])
      requires context == ContextBefore(start + prompts, turns, responses)
      modifies this`context, this`newMessages, this`pendingMessages, this`turns, this`endings
      modifies agent.state, agent.steeringQueue, agent.followUpQueue
      ensures BetweenTurns() && agent.Remembers() && pendingMessages == [] && Recorded(responses)
      ensures |turns| == |endings| == i + 1 && turns[..i] == old(turns) && turns[i].injected == old(pendingMessages)
      ensures more == turns[i].more && failed == responses[i].final.Failed() && StillAt(endings[i]) && Narrated(responses)
    {
      hide TurnStory, Story, Follows, Record, GoesOn, Notes, ContextAfter, ContextBefore, Flatten, Injected, Messages, From, Stale, Drained;
      failed, more := RunTurn(responses[i]);
      assert prompts + Flatten(turns) + [] == prompts + Flatten(turns);
      TurnRecorded(responses, old(turns), old(endings), turns[i], endings[i]);
      StoryMore(prompts, old(turns), responses, turns[i]);
    }

    /** One pass through the inner loop. */
    method NextTurn(responses: seq<Response>, i: nat) returns (ended: bool, more: bool)
      requires BetweenTurns() && i == |turns| == |endings| < |responses| && responses[i].final.Assistant?
      requires Recorded(responses) && Wanted(responses) && Served() && Deferred() && !skipInitialSteeringPoll && Narrated(responses)
      modifies this, agent.state, agent.steeringQueue, agent.followUpQueue
      ensures if ended then Finished(responses) else BetweenTurns() && !skipInitialSteeringPoll && Narrated(responses)
      ensures agent.Remembers() && Recorded(responses) && |turns| == i + 1
      ensures !ended ==> |endings| == |turns| && Served() && endings[i].followUps <= agent.followUpQueue.messages
      ensures turns[..i] == old(turns) && (i == 0 ==> turns[0].injected == old(pendingMessages))
      ensures more == turns[i].more && (ended <==> EndsRun(responses[i])) && queuedAtStart == old(queuedAtStart)
    {
      hide LoopRun.QueuesOk, LoopRun.OneAtATimeOk, LoopRun.History;
      hide Flatten, Injected, Messages, From, Paired, Balance, Bracketed, Record, ContextAfter, Notes, Drained, Story, AgentState.Valid;
      if i > 0 {
        PrepareNextTurn(responses[i - 1].nextContext);
      }
      ended, more := FollowResponse(responses, i);
      ended := AfterTurn(responses, ended, responses[i].stop);
    }

    /** What follows the end of a turn: the end of the run, or the poll for steering messages. */
    method AfterTurn(responses: seq<Response>, failed: bool, stop: bool) returns (ended: bool)
      requires BetweenTurns() && pendingMessages == [] && !skipInitialSteeringPoll
      requires Recorded(responses) && 0 < |turns| == |endings| && (failed || stop <==> EndsRun(responses[|turns| - 1]))
      requires StillAt(endings[|turns| - 1]) && Narrated(responses)
      modifies this`pendingMessages, this`skipInitialSteeringPoll, this`taken, this`endings
      modifies agent.state, agent.steeringQueue, agent.followUpQueue
      ensures if ended then Finished(responses)
              else BetweenTurns() && endings == old(endings) && !skipInitialSteeringPoll && Narrated(responses)
      ensures !ended ==> Served() && endings[|turns| - 1].followUps <= agent.followUpQueue.messages
      ensures agent.Remembers() && Recorded(responses) && (ended <==> failed || stop)
    {
      hide Flatten, Injected, Messages, From, Paired, Balance, Bracketed, Drained, Record, ContextAfter;
      ended := failed;
      if !failed {
        agent.Await();
        agent.StillQueued();
        ended := stop;
      }
      if ended {
        Finish(responses);
      } else {
        PollAgain(endings[|turns| - 1].steering);
      }
    }

    method Finish(responses: seq<Response>)
      requires BetweenTurns() && pendingMessages == [] && Recorded(responses) && Ended(responses) && |endings| == |turns|
      requires Narrated(responses)
      modifies this`endings, agent.state, agent.steeringQueue, agent.followUpQueue
      ensures Finished(responses) && agent.Remembers()
    {
      hide Injected, Messages, From, Paired, Balance, Bracketed, ContextAfter, Flatten, Story, Record, AgentState.Valid;
      RecordLasts(agent.steeringQueue.mode, start, prompts, responses, turns, endings, Now());
      EndRun();
      assert prompts + Flatten(turns) + [] == prompts + Flatten(turns);
    }

    /** The first turn's injection is what the first poll found. */
    ghost predicate FirstIs(first: seq<Message>, queued: seq<Message>)
      reads this
    {
      queuedAtStart == queued && if turns == [] then pendingMessages == first else turns[0].injected == first
    }

    /** The run between two turns, with nothing that has ended it. */
    ghost predicate Running(responses: seq<Response>)
      reads this, agent.state, agent.steeringQueue, agent.followUpQueue
    {
      && BetweenTurns() && Recorded(responses) && Narrated(responses) && |endings| == |turns| && !skipInitialSteeringPoll
      && Served() && Deferred()
      && (turns != [] ==> !EndsRun(responses[|turns| - 1]))
    }

    /** The inner loop: turns until there are no more tool calls and no steering messages. */
    method RunTurns(responses: seq<Response>, from: nat, ghost first: seq<Message>, ghost queued: seq<Message>)
      returns (i: nat, outcome: Outcome)
      requires Running(responses) && Wanted(responses) && from == |turns| && FirstIs(first, queued)
      requires Complete(responses)
      modifies this, agent.state, agent.steeringQueue, agent.followUpQueue
      ensures agent.Remembers() && FirstIs(first, queued)
      ensures outcome == Over ==> Finished(responses)
      ensures outcome == OutOfResponses ==> Unfinished(responses)
      ensures outcome == Idle ==>
                && Running(responses) && from < i == |turns| <= |responses| && pendingMessages == []
                && |endings| == |turns| && !turns[i - 1].more && endings[i - 1].followUps <= agent.followUpQueue.messages
    {
      hide Story, AgentState.Valid, LoopRun.QueuesOk, LoopRun.OneAtATimeOk, LoopRun.History, LoopRun.Finished;
      hide Flatten, Injected, Messages, From, Paired, Balance, Bracketed, Record, ContextAfter, Notes, Drained;
      i := from;
      var hasMoreToolCalls := true;
      while hasMoreToolCalls || pendingMessages != []
        invariant Running(responses) && agent.Remembers() && from <= i == |turns| && FirstIs(first, queued)
        invariant if from == i then hasMoreToolCalls && Wanted(responses)
                  else hasMoreToolCalls == turns[i - 1].more && endings[i - 1].followUps <= agent.followUpQueue.messages
        decreases |responses| - i
      {
        if i == |responses| {
          return i, OutOfResponses;
        }
        var ended;
        ended, hasMoreToolCalls := NextTurn(responses, i);
        assert i > 0 ==> turns[0] == turns[..i][0];
        i := i + 1;
        if ended {
          return i, Over;
        }
      }
      outcome := Idle;
    }

    /** The agent would stop here: the run ends unless there is a follow-up message. */
    method FollowUpOrEnd(responses: seq<Response>) returns (ended: bool)
      requires Running(responses) && pendingMessages == [] && turns != [] && !turns[|turns| - 1].more
      requires |endings| == |turns| && endings[|turns| - 1].followUps <= agent.followUpQueue.messages
      modifies this`pendingMessages, this`taken, this`endings
      modifies agent.state, agent.steeringQueue, agent.followUpQueue
      ensures agent.Remembers() && if ended then Finished(responses) else Running(responses) && Wanted(responses)
    {
      hide Story, AgentState.Valid;
      hide Flatten, Injected, Messages, From, Paired, Balance, Bracketed, Record, ContextAfter, Notes;
      PollFollowUps();
      ended := pendingMessages == [];
      if ended {
        Finish(responses);
      }
    }

    method Begin(responses: seq<Response>)
      requires BetweenTurns() && pendingMessages == [] && turns == [] && endings == [] && context == start + prompts
      requires Narrated(responses)
      modifies this`pendingMessages, this`skipInitialSteeringPoll, this`taken, this`queuedAtStart
      modifies agent.state`aborted, agent.steeringQueue, agent.followUpQueue
      ensures Running(responses) && Wanted(responses) && agent.Remembers() && turns == []
      ensures pendingMessages == if old(skipInitialSteeringPoll) then [] else Drained(agent.steeringQueue.mode, queuedAtStart)
      ensures old(agent.steeringQueue.messages) <= queuedAtStart
    {
      NothingRecorded(responses);
      PollInitially();
    }

    /** The loop, for as long as there are responses; `finished` is false if it asks for more than there are. */
    method RunLoop(responses: seq<Response>) returns (finished: bool)
      requires BetweenTurns() && pendingMessages == [] && turns == [] && endings == [] && context == start + prompts
      requires Complete(responses) && Narrated(responses)
      modifies this, agent.state, agent.steeringQueue, agent.followUpQueue
      ensures if finished then Finished(responses) else Unfinished(responses)
      ensures agent.Remembers() && old(agent.steeringQueue.messages) <= queuedAtStart
      ensures turns != [] ==>
                turns[0].injected == if old(skipInitialSteeringPoll) then [] else Drained(agent.steeringQueue.mode, queuedAtStart)
    {
      hide AgentState.Valid, LoopRun.QueuesOk, LoopRun.OneAtATimeOk, LoopRun.History, LoopRun.Recorded, LoopRun.Narrated;
      hide Running, Wanted, Finished, Unfinished;
      var i := 0;
      Begin(responses);
      ghost var first := pendingMessages;
      ghost var queued := queuedAtStart;
      while true
        invariant Running(responses) && Wanted(responses) && i == |turns| <= |responses|
        invariant FirstIs(first, queued) && agent.Remembers()
        decreases |responses| - i
      {
        var outcome;
        i, outcome := RunTurns(responses, i, first, queued);
        if outcome != Idle {
          return outcome == Over;
        }
        var ended := FollowUpOrEnd(responses);
        if ended {
          return true;
        }
      }
    }

    // ----- A whole run

    ghost predicate Fresh()
      reads this, agent.state, agent.steeringQueue, agent.followUpQueue
    {
      && agent.Sound() && agent.state.log == [] && agent.state.told == [] && !agent.state.overlapped
      && agent.state.messages == start
      && context == start + prompts && newMessages == prompts && pendingMessages == [] && turns == [] && endings == []
      && QueuesOk([])
    }

    /** runAgentLoop: the prompts enter the transcript, then the loop runs. */
    method Execute(responses: seq<Response>) returns (finished: bool)
      requires Fresh() && Complete(responses)
      modifies this, agent.state, agent.steeringQueue, agent.followUpQueue
      ensures (if finished then Finished(responses) else Unfinished(responses)) && agent.Remembers()
      ensures turns != [] ==>
                turns[0].injected == if old(skipInitialSteeringPoll) then [] else Drained(agent.steeringQueue.mode, queuedAtStart)
    {
      Introduce();
      finished := RunLoop(responses);
    }

    method Introduce()
      requires Fresh()
      modifies agent.state, agent.steeringQueue, agent.followUpQueue
      ensures BetweenTurns() && agent.Remembers() && agent.state.told == Story(prompts, [], [])
    {
      hide AgentState.Valid, Announced;
      agent.Emit(AgentStart);
      agent.Emit(TurnStart);
      EmitPrompts();
      assert prompts + Flatten([]) + [] == prompts;
      assert drawn + Injected([]) + [] == drawn + [];
    }

    method EmitPrompts()
      requires agent.Sound() && agent.Quiet()
      modifies agent.state, agent.steeringQueue, agent.followUpQueue
      ensures agent.Sound() && agent.Quiet() && agent.Listened()
      ensures agent.state.messages == old(agent.state.messages) + prompts && agent.state.overlapped == old(agent.state.overlapped)
      ensures agent.state.told == old(agent.state.told) + Announced(prompts)
    {
      hide AgentState.Valid, Announced;
      AnnouncedNothing();
      for i := 0 to |prompts|
        invariant agent.Sound() && agent.Quiet() && agent.Listened() && agent.state.overlapped == old(agent.state.overlapped)
        invariant agent.state.told == old(agent.state.told) + Announced(prompts[..i])
        invariant agent.state.messages == old(agent.state.messages) + prompts[..i]
      {
        agent.EmitMessage(prompts[i]);
        AnnouncedMore(prompts[..i], prompts[i]);
        assert prompts[..i + 1] == prompts[..i] + [prompts[i]];
      }
      assert prompts[..|prompts|] == prompts;
    }

    // ----- What the record says

    /** Every message given to a queue is still queued, or held for the next turn, or in the transcript, each once and
        those of one queue in the order they were given: what was taken from the two queues, in the order it was taken, is
        what came with the prompts, with one turn after the other, and what is held. */
    lemma QueuesConserve(extra: seq<Message>, held: seq<Message>)
      requires Coherent(extra, held)
      ensures agent.steeringQueue.given == steeredBefore + From(taken, Steering) + agent.steeringQueue.messages
      ensures agent.followUpQueue.given == followedBefore + From(taken, FollowUp) + agent.followUpQueue.messages
      ensures Messages(taken) == drawn + Injected(turns) + held
      ensures multiset(From(taken, Steering)) + multiset(From(taken, FollowUp)) == multiset(drawn + Injected(turns) + held)
    {
      TakenSplits(taken);
    }

    /** At the end of every turn the agent's transcript is the starting one and what the loop has added, no tool call is
        pending, and the context is the same transcript exactly if no response so far has started twice, as long as the
        context has not been replaced. */
    lemma TranscriptsAgree(responses: seq<Response>, k: nat)
      requires Recorded(responses) && k < |turns|
      ensures var e := endings[k];
              && e.newMessages == prompts + Flatten(turns[..k + 1]) && e.messages == start + e.newMessages
              && e.pendingToolCalls == {}
              && (Unreplaced(responses, 0, k + 1) ==> (e.context == e.messages <==> StartOnce(responses, 0, k + 1)))
    {
      InRecord(agent.steeringQueue.mode, start, prompts, responses, turns, endings, k);
      NotesAgree(endings[k], start, prompts, turns[..k + 1], responses);
    }

    /** Once replaced, the context is the new one and what the turns have added since, exactly if no response since has
        started twice. */
    lemma ReplacedContextAgrees(responses: seq<Response>, r: nat, k: nat)
      requires Recorded(responses) && 0 < r <= k < |turns| && responses[r - 1].nextContext.Some?
      requires Unreplaced(responses, r, k + 1)
      ensures endings[k].context == responses[r - 1].nextContext.value + Flatten(turns[r..k + 1])
              <==> StartOnce(responses, r, k + 1)
    {
      hide ContextBefore, ContextAfter, Flatten, StartOnce, Follows, GoesOn, Drained;
      InRecord(agent.steeringQueue.mode, start, prompts, responses, turns, endings, k);
      var some := turns[..k + 1];
      assert some[r..] == turns[r..k + 1] && some[..r] == turns[..r];
      ReplacedBefore(start + prompts, turns[..r], responses);
      ContextAgrees(start + prompts, some, responses, r);
    }

    /** A run that has ended took turns, ends as its last turn did, and for a reason: its last response, or no more tool
        calls with both queues empty. */
    lemma RunEndsLikeItsLastTurn(responses: seq<Response>)
      requires Finished(responses)
      ensures turns != [] && var (last, end) := (endings[|turns| - 1], endings[|turns|]);
              && end.newMessages == last.newMessages == newMessages && end.messages == last.messages == start + newMessages
              && end.context == last.context == context && end.pendingToolCalls == {}
      ensures var n := |turns| - 1;
              responses[n].final.Failed() || responses[n].stop
              || (!turns[n].more && endings[n].steering == [] && endings[n].followUps == [])
    {
      InRecord(agent.steeringQueue.mode, start, prompts, responses, turns, endings, |turns| - 1);
      assert turns[..|turns|] == turns;
      assert prompts + Flatten(turns) + [] == prompts + Flatten(turns);
    }

    /** A further turn has a reason, and brings the steering messages that were queued at the end of the one before: all
        of them, or the oldest. */
    lemma NextTurnHasAReason(responses: seq<Response>, k: nat)
      requires Recorded(responses) && k + 1 < |turns|
      ensures !responses[k].final.Failed() && !responses[k].stop && (turns[k].more || turns[k + 1].injected != [])
      ensures var queued := endings[k].steering;
              queued != [] ==>
                && turns[k + 1].injected != [] && turns[k + 1].injected[0] == queued[0]
                && (agent.steeringQueue.mode == All ==> queued <= turns[k + 1].injected)
    {
      InRecord(agent.steeringQueue.mode, start, prompts, responses, turns, endings, k + 1);
      var next := turns[k + 1];
      assert GoesOn(turns[k + 1 - 1], responses[k + 1 - 1], next.injected);
      assert Drained(agent.steeringQueue.mode, endings[k + 1 - 1].steering) <= next.injected;
    }

    /** Follow-ups wait: when a turn ends with tool calls to go on with, or with steering messages queued, those that are
        queued then are still queued, in order, when the next turn ends. */
    lemma FollowUpsWait(responses: seq<Response>, k: nat)
      requires Recorded(responses) && k + 1 < |turns|
      ensures turns[k].more || endings[k].steering != [] ==> endings[k].followUps <= endings[k + 1].followUps
    {
      InRecord(agent.steeringQueue.mode, start, prompts, responses, turns, endings, k + 1);
    }

    /** In a run that has not been aborted every turn has exactly the results its response calls for. */
    lemma ResultsWithoutAbort(responses: seq<Response>, k: nat)
      requires Recorded(responses) && History() && !agent.state.aborted && k < |turns|
      ensures responses[k].final.Assistant? && turns[k].results == ExpectedResults(responses[k].final, responses[k].oracle)
    {
      InRecord(agent.steeringQueue.mode, start, prompts, responses, turns, endings, k);
      assert turns[k] in turns;
    }

    /** With both queues one at a time, no turn gets more than one queued message. */
    lemma OneMessagePerTurn(extra: seq<Message>, held: seq<Message>, t: Turn)
      requires Coherent(extra, held) && t in turns
      requires agent.steeringQueue.mode == OneAtATime && agent.followUpQueue.mode == OneAtATime
      ensures |t.injected| <= 1
    {
    }

    /** In a completed run the run's end occurs once and last; tool calls end as often as they start, with an end after
        each start and update and a start before each end and update; and a call with an id of its own ends exactly
        once, after its start, with all its updates in between. */
    lemma EventsBracketed(i: nat, id: CallId)
      requires Completed() && i < |agent.state.log|
      ensures var log := agent.state.log;
              && (log[i].AgentEnd? <==> i == |log| - 1)
              && StartsOf(log, id) == EndsOf(log, id)
              && (Starts(log, i, id) || Updates(log, i, id) ==> exists j :: i < j && Ends(log, j, id))
              && (Ends(log, i, id) || Updates(log, i, id) ==> exists j :: j < i && Starts(log, j, id))
              && (Starts(log, i, id) && (forall k :: Starts(log, k, id) ==> k == i) ==>
                    exists j :: i < j && OnlyEnd(log, i, j, id))
    {
      var log := agent.state.log;
      if log[i].AgentEnd? {
        EndsOnceAndLast(log, i);
      }
      StartsAndEndsMatch(log, i, id);
      if Starts(log, i, id) && forall k :: Starts(log, k, id) ==> k == i {
        var j := StartHasOneEnd(log, i, id);
        assert OnlyEnd(log, i, j, id);
      }
    }

    /** In what the loop has added, each response is followed at once by the results of its calls. */
    lemma CallsAreAnswered(extra: seq<Message>, held: seq<Message>, k: nat)
      requires Coherent(extra, held) && k < |turns|
      ensures Paired(turns[k])
      ensures var at := |prompts| + |Flatten(turns[..k])| + |turns[k].injected|;
              && at + 1 + |turns[k].results| <= |newMessages|
              && newMessages[at] == turns[k].response && newMessages[at + 1..at + 1 + |turns[k].results|] == turns[k].results
    {
      hide LoopRun.QueuesOk, LoopRun.OneAtATimeOk, AgentState.Valid, Flatten;
      ResultsFollowResponse(turns, k);
      var at := |Flatten(turns[..k])| + |turns[k].injected|;
      assert newMessages[|prompts| + at + 1..|prompts| + at + 1 + |turns[k].results|]
          == Flatten(turns)[at + 1..at + 1 + |turns[k].results|];
    }
  }

  // ----- prompt and continue

  ghost predicate Resting(agent: Agent)
    reads agent, agent.state, agent.steeringQueue, agent.followUpQueue
  {
    agent.Sound() && !agent.activeRun && agent.state.pendingToolCalls == {}
  }

  /** What a run from transcript `start` has come to, finished or out of responses. */
  ghost predicate Ran(agent: Agent, run: LoopRun, start: seq<Message>, prompts: seq<Message>, responses: seq<Response>, finished: bool)
    reads agent, agent.state, agent.steeringQueue, agent.followUpQueue, run
  {
    && run.agent == agent && run.start == start && run.prompts == prompts
    && if finished then Resting(agent) && run.Finished(responses) else run.Unfinished(responses)
  }

  /** The first turn's injection: nothing, or what the first poll drained. */
  ghost predicate FirstPoll(agent: Agent, run: LoopRun, skipped: bool)
    reads run
  {
    run.turns != [] ==> run.turns[0].injected == if skipped then [] else Drained(agent.steeringQueue.mode, run.queuedAtStart)
  }

  ghost predicate Complete(responses: seq<Response>) {
    forall k :: 0 <= k < |responses| ==> responses[k].final.Assistant?
  }

  /** runWithLifecycle, up to the run. */
  method Launch(agent: Agent, sequential: bool, prompts: seq<Message>, skipInitialSteeringPoll: bool, ghost taken: seq<Taken>,
                ghost steeredBefore: seq<Message>, ghost followedBefore: seq<Message>) returns (run: LoopRun)
    requires Resting(agent)
    requires agent.steeringQueue.drained == steeredBefore + From(taken, Steering)
    requires agent.followUpQueue.drained == followedBefore + From(taken, FollowUp)
    requires taken == [] || Messages(taken) == prompts
    modifies agent`activeRun, agent.state
    ensures fresh(run) && run.agent == agent && run.Fresh() && run.start == old(agent.state.messages) && run.prompts == prompts
    ensures run.skipInitialSteeringPoll == skipInitialSteeringPoll && run.drawn == Messages(taken)
    ensures run.steeredBefore == steeredBefore && run.followedBefore == followedBefore
  {
    agent.activeRun := true;
    agent.state.BeginRun();
    run := new LoopRun(agent, sequential, prompts, skipInitialSteeringPoll, taken, steeredBefore, followedBefore);
  }

  /** runWithLifecycle around a run. */
  method RunWithLifecycle(agent: Agent, sequential: bool, prompts: seq<Message>, skipInitialSteeringPoll: bool,
                          ghost taken: seq<Taken>, ghost steeredBefore: seq<Message>, ghost followedBefore: seq<Message>,
                          responses: seq<Response>) returns (run: LoopRun, finished: bool)
    requires Resting(agent) && Complete(responses)
    requires agent.steeringQueue.drained == steeredBefore + From(taken, Steering)
    requires agent.followUpQueue.drained == followedBefore + From(taken, FollowUp)
    requires taken == [] || Messages(taken) == prompts
    modifies agent`activeRun, agent.state, agent.steeringQueue, agent.followUpQueue
    ensures fresh(run) && Ran(agent, run, old(agent.state.messages), prompts, responses, finished) && agent.QueuesGrow()
    ensures FirstPoll(agent, run, skipInitialSteeringPoll)
    ensures run.drawn == Messages(taken) && run.steeredBefore == steeredBefore && run.followedBefore == followedBefore
  {
    hide Flatten, Injected, Messages, From, Paired, Balance, Bracketed, Record, ContextAfter, Notes, Story, AgentState.Valid;
    hide LoopRun.QueuesOk, LoopRun.OneAtATimeOk, LoopRun.Wanted, LoopRun.Served, LoopRun.Ended;
    run := Launch(agent, sequential, prompts, skipInitialSteeringPoll, taken, steeredBefore, followedBefore);
    finished := run.Execute(responses);
    if finished {
      agent.state.FinishRun();
      agent.activeRun := false;
    }
  }

  lemma TakenOnly(source: Source, ms: seq<Message>)
    ensures Messages(Tagged(source, ms)) == ms && From(Tagged(source, ms), source) == ms
    ensures forall other :: other != source ==> From(Tagged(source, ms), other) == []
  {
    TakenMore([], source, ms);
    assert [] + Tagged(source, ms) == Tagged(source, ms) && [] + ms == ms;
  }

  /** A run whose prompts come out of one of the queues. */
  method RunDrained(agent: Agent, sequential: bool, source: Source, prompts: seq<Message>,
                    ghost steeredBefore: seq<Message>, ghost followedBefore: seq<Message>, responses: seq<Response>)
    returns (run: LoopRun, finished: bool)
    requires Resting(agent) && Complete(responses)
    requires agent.steeringQueue.drained == steeredBefore + (if source == Steering then prompts else [])
    requires agent.followUpQueue.drained == followedBefore + (if source == FollowUp then prompts else [])
    modifies agent`activeRun, agent.state, agent.steeringQueue, agent.followUpQueue
    ensures fresh(run) && Ran(agent, run, old(agent.state.messages), prompts, responses, finished) && agent.QueuesGrow()
    ensures FirstPoll(agent, run, source == Steering) && run.drawn == prompts
    ensures run.steeredBefore == steeredBefore && run.followedBefore == followedBefore
  {
    ghost var taken := Tagged(source, prompts);
    TakenOnly(source, prompts);
    run, finished := RunWithLifecycle(agent, sequential, prompts, source == Steering, taken, steeredBefore, followedBefore,
                                      responses);
  }

  predicate EndsInAssistant(messages: seq<Message>) {
    messages != [] && messages[|messages| - 1].Assistant?
  }

  datatype Start = Started | AlreadyActive | NothingToContinue | EndsInResponse

  /** What the first turn of a continued run adds before its response. */
  function FirstInjection(steeringMode: QueueMode, followUpMode: QueueMode, steering: seq<Message>, followUps: seq<Message>,
                          queuedAtPoll: seq<Message>): seq<Message> {
    if steering != [] then Drained(steeringMode, steering)
    else Drained(followUpMode, followUps) + Drained(steeringMode, queuedAtPoll)
  }

  /** With both queues one at a time, the first turn of a continued run gets at most one queued message unless the run
      was started by a follow-up and a steering message arrives before the loop polls for the first time. */
  lemma OneMessageUnlessSteered(steering: seq<Message>, followUps: seq<Message>, queuedAtPoll: seq<Message>)
    ensures |FirstInjection(OneAtATime, OneAtATime, steering, followUps, queuedAtPoll)| <= 1
            <==> steering != [] || followUps == [] || queuedAtPoll == []
  {
  }

  /** Agent.prompt. */
  method Prompt(agent: Agent, sequential: bool, messages: seq<Message>, responses: seq<Response>)
    returns (start: Start, run: LoopRun?, finished: bool)
    requires agent.Sound() && (!agent.activeRun ==> Resting(agent)) && Complete(responses)
    modifies agent`activeRun, agent.state, agent.steeringQueue, agent.followUpQueue
    ensures start == if old(agent.activeRun) then AlreadyActive else Started
    ensures start == AlreadyActive ==> unchanged(agent) && unchanged(agent.state)
    ensures start == AlreadyActive ==> unchanged(agent.steeringQueue) && unchanged(agent.followUpQueue)
    ensures start == Started ==>
              run != null && Ran(agent, run, old(agent.state.messages), messages, responses, finished) && run.drawn == []
    ensures agent.QueuesGrow()
  {
    if agent.activeRun {
      return AlreadyActive, null, false;
    }
    start := Started;
    run, finished := RunWithLifecycle(agent, sequential, messages, false, [], agent.steeringQueue.drained,
                                      agent.followUpQueue.drained, responses);
  }

  /** Agent.continue, with nothing to say: what is queued becomes the prompts. */
  method ContinueFromQueues(agent: Agent, sequential: bool, responses: seq<Response>)
    returns (start: Start, run: LoopRun?, finished: bool)
    requires Resting(agent) && Complete(responses)
    modifies agent`activeRun, agent.state, agent.steeringQueue, agent.followUpQueue
    ensures start == if old(agent.steeringQueue.messages) == [] && old(agent.followUpQueue.messages) == [] then EndsInResponse
                     else Started
    ensures start == EndsInResponse ==> unchanged(agent) && unchanged(agent.state)
    ensures agent.QueuesGrow()
    ensures start == Started ==>
              && run != null && Ran(agent, run, old(agent.state.messages), run.drawn, responses, finished)
              && (run.turns != [] ==>
                    run.drawn + run.turns[0].injected
                    == FirstInjection(agent.steeringQueue.mode, agent.followUpQueue.mode, old(agent.steeringQueue.messages),
                                      old(agent.followUpQueue.messages), run.queuedAtStart))
  {
    hide AgentState.Valid;
    ghost var steered, followed := agent.steeringQueue.drained, agent.followUpQueue.drained;
    var queuedSteering := agent.steeringQueue.Drain();
    if queuedSteering != [] {
      start := Started;
      run, finished := RunDrained(agent, sequential, Steering, queuedSteering, steered, followed, responses);
      return;
    }
    var queuedFollowUps := agent.followUpQueue.Drain();
    if queuedFollowUps != [] {
      start := Started;
      run, finished := RunDrained(agent, sequential, FollowUp, queuedFollowUps, steered, followed, responses);
      return;
    }
    return EndsInResponse, null, false;
  }

  /** Agent.continue. */
  method Continue(agent: Agent, sequential: bool, responses: seq<Response>) returns (start: Start, run: LoopRun?, finished: bool)
    requires agent.Sound() && (!agent.activeRun ==> Resting(agent)) && Complete(responses)
    modifies agent`activeRun, agent.state, agent.steeringQueue, agent.followUpQueue
    ensures start == var ms := old(agent.state.messages);
                     if old(agent.activeRun) then AlreadyActive
                     else if ms == [] then NothingToContinue
                     else if EndsInAssistant(ms) && old(agent.steeringQueue.messages) == []
                             && old(agent.followUpQueue.messages) == [] then EndsInResponse
                     else Started
    ensures start != Started ==> unchanged(agent) && unchanged(agent.state)
    ensures agent.QueuesGrow()
    ensures start == Started ==>
              run != null && Ran(agent, run, old(agent.state.messages), run.drawn, responses, finished)
    ensures start == Started && run.turns != [] && EndsInAssistant(old(agent.state.messages)) ==>
              run.drawn + run.turns[0].injected
              == FirstInjection(agent.steeringQueue.mode, agent.followUpQueue.mode, old(agent.steeringQueue.messages),
                                old(agent.followUpQueue.messages), run.queuedAtStart)
    ensures start == Started && !EndsInAssistant(old(agent.state.messages)) ==> run.drawn == []
  {
    if agent.activeRun {
      return AlreadyActive, null, false;
    }
    if agent.state.messages == [] {
      return NothingToContinue, null, false;
    }
    if EndsInAssistant(agent.state.messages) {
      start, run, finished := ContinueFromQueues(agent, sequential, responses);
    } else {
      start := Started;
      run, finished := RunWithLifecycle(agent, sequential, [], false, [], agent.steeringQueue.drained,
                                        agent.followUpQueue.drained, responses);
    }
  }

  /** Agent.continue, by its branch for follow-ups, up to the loop. */
  method BeginFollowUp(agent: Agent) returns (run: LoopRun)
    requires Resting(agent) && EndsInAssistant(agent.state.messages)
    requires agent.steeringQueue.messages == [] && agent.followUpQueue.messages != []
    modifies agent`activeRun, agent.state, agent.steeringQueue, agent.followUpQueue
    ensures fresh(run) && run.agent == agent && run.BetweenTurns()
    ensures run.prompts == run.drawn == Drained(agent.followUpQueue.mode, old(agent.followUpQueue.messages))
    ensures run.pendingMessages == [] && run.turns == [] && run.endings == [] && run.context == run.start + run.prompts
    ensures !run.skipInitialSteeringPoll && agent.state.told == Story(run.prompts, [], [])
  {
    hide Balance, Bracketed, Drained, Flatten, Injected;
    ghost var steered, followed := agent.steeringQueue.drained, agent.followUpQueue.drained;
    var queuedSteering := agent.steeringQueue.Drain();
    var queuedFollowUps := agent.followUpQueue.Drain();
    ghost var taken := Tagged(FollowUp, queuedFollowUps);
    TakenOnly(FollowUp, queuedFollowUps);
    hide From, Messages, Tagged;
    assert steered + [] == steered;
    run := Launch(agent, false, queuedFollowUps, false, taken, steered, followed);
    run.Introduce();
  }

  /** The case in which a continued run's first turn gets two: a follow-up starts the run, and a listener of its first
      events steers. */
  method SteerWhileContinuing(agent: Agent, response: Response) returns (run: LoopRun, finished: bool)
    requires Resting(agent) && response.final.Assistant?
    requires agent.steeringQueue.mode == OneAtATime && agent.followUpQueue.mode == OneAtATime
    requires EndsInAssistant(agent.state.messages)
    requires agent.steeringQueue.messages == [] && agent.followUpQueue.messages != []
    modifies agent`activeRun, agent.state, agent.steeringQueue, agent.followUpQueue
    ensures run.prompts == run.drawn == [old(agent.followUpQueue.messages[0])]
    ensures run.turns != [] && |run.turns[0].injected| == 1 && run.turns[0].injected[0] in run.queuedAtStart
  {
    hide AgentState.Valid;
    hide Flatten, Injected, Messages, From, Paired, Balance, Bracketed;
    run := BeginFollowUp(agent);
    agent.steeringQueue.Enqueue(User("steer"));
    finished := run.RunLoop([response]);
  }
}
