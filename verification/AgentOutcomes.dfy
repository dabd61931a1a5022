/** What the tool calls of a run answer, by what their tools and hooks have done. */
module AgentOutcomes {
  import opened Options
  import opened AgentEvents
  import opened AgentRecords
  import opened AgentRuns
  import opened AgentLoop

  /** Turn `k` has ended without an abort. */
  ghost predicate Undisturbed(run: LoopRun, responses: seq<Response>, k: nat)
    reads run
  {
    run.Recorded(responses) && k < |run.turns| <= |responses| && !run.turns[k].aborted && responses[k].final.Assistant?
  }

  /** Call `i` of turn `k` has been attempted: the response was complete. */
  ghost predicate Attempted(run: LoopRun, responses: seq<Response>, k: nat, i: nat)
    reads run
  {
    && Undisturbed(run, responses, k) && !responses[k].final.Failed() && responses[k].final.stopReason != Length
    && i < |responses[k].final.toolCalls|
  }

  /** The tool of call `i` of turn `k` has been executed. */
  ghost predicate ToolRan(run: LoopRun, responses: seq<Response>, k: nat, i: nat)
    reads run
  {
    && Attempted(run, responses, k, i)
    && var o := responses[k].oracle(i);
       o.found && o.invalid == None && !o.before.Blocks? && !o.before.BeforeThrows?
  }

  lemma TurnFollows(run: LoopRun, responses: seq<Response>, k: nat)
    requires Undisturbed(run, responses, k)
    ensures Follows(run.turns[k], responses[k])
  {
    hide Notes, Follows, GoesOn, Drained, Record;
    InRecord(run.agent.steeringQueue.mode, run.start, run.prompts, responses, run.turns, run.endings, k);
  }

  lemma ResultOf(run: LoopRun, responses: seq<Response>, k: nat, i: nat)
    requires Attempted(run, responses, k, i)
    ensures |run.turns[k].results| == |responses[k].final.toolCalls|
    ensures run.turns[k].results[i] == ResultMessage(AgentEvents.Outcome(responses[k].final.toolCalls[i], responses[k].oracle(i)))
  {
    hide LoopRun.Recorded, AgentEvents.Outcome;
    TurnFollows(run, responses, k);
  }

  lemma RanOutcome(run: LoopRun, responses: seq<Response>, k: nat, i: nat)
    requires ToolRan(run, responses, k, i)
    ensures |run.turns[k].results| == |responses[k].final.toolCalls|
    ensures run.turns[k].results[i] == ResultMessage(Executed(responses[k].final.toolCalls[i], responses[k].oracle(i)))
  {
    hide Executed, LoopRun.Recorded;
    ResultOf(run, responses, k, i);
    var o := responses[k].oracle(i);
    assert o.before.NoBefore? || o.before.Passes?;
  }

  /** Every call gets a result of its own, with its id and its tool's name. */
  lemma EveryCallAnswered(run: LoopRun, responses: seq<Response>, k: nat, i: nat)
    requires Attempted(run, responses, k, i)
    ensures |run.turns[k].results| == |responses[k].final.toolCalls|
    ensures var (m, call) := (run.turns[k].results[i], responses[k].final.toolCalls[i]);
            m.ToolResultMessage? && m.callId == call.id && m.toolName == call.name
  {
    hide LoopRun.Recorded;
    ResultOf(run, responses, k, i);
  }

  /** A call whose tool is not executed answers with an error that says why, whatever the after hook is. */
  lemma NotExecuted(run: LoopRun, responses: seq<Response>, k: nat, i: nat)
    requires Attempted(run, responses, k, i) && !ToolRan(run, responses, k, i)
    ensures i < |run.turns[k].results| && run.turns[k].results[i].ToolResultMessage?
    ensures var (m, o) := (run.turns[k].results[i], responses[k].oracle(i));
            && m.isError
            && m.content == if !o.found then "Tool " + responses[k].final.toolCalls[i].name + " not found"
                            else if o.invalid.Some? then o.invalid.value
                            else if o.before.Blocks? then o.before.reason
                            else o.before.error
  {
    hide LoopRun.Recorded;
    ResultOf(run, responses, k, i);
  }

  /** A tool that returns answers with what it returned, one that throws with an error that says what it threw. */
  lemma ExecutedWithoutHook(run: LoopRun, responses: seq<Response>, k: nat, i: nat)
    requires ToolRan(run, responses, k, i) && responses[k].oracle(i).after.NoAfter?
    ensures i < |run.turns[k].results| && run.turns[k].results[i].ToolResultMessage?
    ensures var (m, o) := (run.turns[k].results[i], responses[k].oracle(i));
            && (m.isError <==> o.throws.Some?)
            && m.content == if o.throws.Some? then o.throws.value else o.executed.content
  {
    hide LoopRun.Recorded;
    RanOutcome(run, responses, k, i);
  }

  /** Without an after hook a result is an error exactly if the tool is not found, the arguments are invalid, the before
      hook blocks or throws, or the tool throws. */
  lemma ErrorIff(run: LoopRun, responses: seq<Response>, k: nat, i: nat)
    requires Attempted(run, responses, k, i) && responses[k].oracle(i).after.NoAfter?
    ensures i < |run.turns[k].results| && run.turns[k].results[i].ToolResultMessage?
    ensures var o := responses[k].oracle(i);
            run.turns[k].results[i].isError
            <==> !o.found || o.invalid.Some? || o.before.Blocks? || o.before.BeforeThrows? || o.throws.Some?
  {
    hide LoopRun.Recorded;
    if ToolRan(run, responses, k, i) {
      RanOutcome(run, responses, k, i);
    } else {
      NotExecuted(run, responses, k, i);
    }
  }

  /** Content that the after hook gives replaces the tool's. */
  lemma HookGivesContent(run: LoopRun, responses: seq<Response>, k: nat, i: nat)
    requires ToolRan(run, responses, k, i) && responses[k].oracle(i).after.Overrides?
    ensures i < |run.turns[k].results| && run.turns[k].results[i].ToolResultMessage?
    ensures var (m, o) := (run.turns[k].results[i], responses[k].oracle(i));
            m.content == if o.after.content.Some? then o.after.content.value
                         else if o.throws.Some? then o.throws.value else o.executed.content
  {
    hide LoopRun.Recorded;
    RanOutcome(run, responses, k, i);
  }

  /** So does the hook's word on whether it is an error. */
  lemma HookGivesError(run: LoopRun, responses: seq<Response>, k: nat, i: nat)
    requires ToolRan(run, responses, k, i) && responses[k].oracle(i).after.Overrides?
    ensures i < |run.turns[k].results| && run.turns[k].results[i].ToolResultMessage?
    ensures var (m, o) := (run.turns[k].results[i], responses[k].oracle(i));
            m.isError <==> if o.after.isError.Some? then o.after.isError.value else o.throws.Some?
  {
    hide LoopRun.Recorded;
    RanOutcome(run, responses, k, i);
  }

  /** An after hook that throws makes the result an error with what it threw. */
  lemma HookThrows(run: LoopRun, responses: seq<Response>, k: nat, i: nat)
    requires ToolRan(run, responses, k, i) && responses[k].oracle(i).after.AfterThrows?
    ensures i < |run.turns[k].results| && run.turns[k].results[i].ToolResultMessage?
    ensures run.turns[k].results[i].isError && run.turns[k].results[i].content == responses[k].oracle(i).after.error
  {
    hide LoopRun.Recorded;
    RanOutcome(run, responses, k, i);
  }

  /** The end of a call that has this result is in the log. */
  ghost predicate EndLogged(log: seq<Event>, m: Message) {
    m.ToolResultMessage?
    && exists j :: 0 <= j < |log| && log[j].ToolEnd? && log[j].call == ToolCall(m.callId, m.toolName)
                   && log[j].result.content == m.content && log[j].isError == m.isError
  }

  /** The end of each call, as the events have it, says what the result in the transcript says. */
  lemma EndsSayTheSame(run: LoopRun, extra: seq<Message>, held: seq<Message>, k: nat, i: nat)
    requires run.Coherent(extra, held) && k < |run.turns| && i < |run.turns[k].results|
    ensures EndLogged(run.agent.state.log, run.turns[k].results[i])
  {
    hide LoopRun.QueuesOk, LoopRun.OneAtATimeOk, Flatten, Injected, Balance, Bracketed;
    var t := run.turns[k];
    assert t in run.turns;
    var f := t.finals[i];
    assert f in Said(t.finals);
    var j :| 0 <= j < |run.agent.state.log| && run.agent.state.log[j] == ToolEnd(f.call, f.result, f.isError);
  }

  /** The call asks for the run to end: its result says so, or the hook that had the last word on it. */
  predicate AsksToStop(o: Oracle) {
    && o.found && o.invalid == None
    && match o.before
       case Blocks(_, stop) => stop
       case BeforeThrows(_) => false
       case _ =>
         if o.after.Overrides? && o.after.terminate.Some? then o.after.terminate.value
         else !o.after.AfterThrows? && o.throws == None && o.executed.terminate == Some(true)
  }

  lemma StopIff(call: ToolCall, o: Oracle)
    ensures AgentEvents.Outcome(call, o).result.terminate == Some(true) <==> AsksToStop(o)
  {
    hide NotFound;
  }

  /** The calls of a response ask for another turn exactly if one of them does not ask to stop. */
  lemma MoreUnlessAllStop(run: LoopRun, responses: seq<Response>, k: nat)
    requires Undisturbed(run, responses, k) && !responses[k].final.Failed() && responses[k].final.stopReason != Length
    ensures run.turns[k].more <==> exists i :: 0 <= i < |responses[k].final.toolCalls| && !AsksToStop(responses[k].oracle(i))
  {
    hide LoopRun.Recorded, AgentEvents.Outcome, AsksToStop;
    TurnFollows(run, responses, k);
    var calls, oracle := responses[k].final.toolCalls, responses[k].oracle;
    var fs := Outcomes(calls, oracle);
    forall i | 0 <= i < |calls| ensures fs[i].result.terminate == Some(true) <==> AsksToStop(oracle(i)) {
      StopIff(calls[i], oracle(i));
    }
    if i :| 0 <= i < |calls| && !AsksToStop(oracle(i)) {
      assert fs[i] in fs;
    }
  }

  /** Even in a turn that has been aborted, every result is the call's own, or an error that says that it was aborted. */
  lemma AbortedOrOwn(run: LoopRun, extra: seq<Message>, held: seq<Message>, responses: seq<Response>, k: nat, i: nat)
    requires run.Coherent(extra, held) && run.Recorded(responses) && k < |run.turns| && i < |run.turns[k].results|
    requires k < |responses| && responses[k].final.Assistant? && !responses[k].final.Failed()
    requires responses[k].final.stopReason != Length
    ensures i < |responses[k].final.toolCalls| && run.turns[k].results[i].ToolResultMessage?
    ensures var (m, o) := (run.turns[k].results[i], responses[k].oracle(i));
            if !o.found || o.invalid.Some? || o.before.BeforeThrows? then
              m.isError && m.content == if !o.found then "Tool " + responses[k].final.toolCalls[i].name + " not found"
                                        else if o.invalid.Some? then o.invalid.value else o.before.error
            else
              || (m.isError && m.content == "Operation aborted")
              || (o.before.Blocks? && m.isError && m.content == o.before.reason)
              || (!o.before.Blocks? && o.after.NoAfter? && (m.isError <==> o.throws.Some?)
                  && m.content == if o.throws.Some? then o.throws.value else o.executed.content)
              || (!o.before.Blocks? && !o.after.NoAfter?)
  {
    hide LoopRun.QueuesOk, LoopRun.OneAtATimeOk, LoopRun.Recorded, Flatten, Injected, Balance, Bracketed, AgentState.Valid;
    OwnResult(run, extra, held, responses, k, i);
    var (call, o) := (responses[k].final.toolCalls[i], responses[k].oracle(i));
    var f := run.turns[k].finals[i];
    if f == AgentEvents.Outcome(call, o) && Passed(o) {
      OutcomeIfPassed(call, o);
    }
  }

  lemma OwnResult(run: LoopRun, extra: seq<Message>, held: seq<Message>, responses: seq<Response>, k: nat, i: nat)
    requires run.Coherent(extra, held) && run.Recorded(responses) && k < |run.turns| && i < |run.turns[k].results|
    requires k < |responses| && responses[k].final.Assistant? && !responses[k].final.Failed()
    requires responses[k].final.stopReason != Length
    ensures var t := run.turns[k];
            && |t.finals| == |t.results| <= |responses[k].final.toolCalls| && t.results[i] == ResultMessage(t.finals[i])
            && OwnOrAborted(t.finals[i], responses[k].final.toolCalls[i], responses[k].oracle(i))
  {
    hide LoopRun.QueuesOk, LoopRun.OneAtATimeOk, Flatten, Injected, Balance, Bracketed, AgentState.Valid, OwnOrAborted, Record;
    InRecord(run.agent.steeringQueue.mode, run.start, run.prompts, responses, run.turns, run.endings, k);
    assert run.turns[k] in run.turns;
  }

  /** A truncated response has none of its tools executed: each call answers with an error that says so, and another turn
      follows. */
  lemma TruncatedCalls(run: LoopRun, responses: seq<Response>, k: nat)
    requires Undisturbed(run, responses, k) && responses[k].final.stopReason == Length
    ensures |run.turns[k].results| == |responses[k].final.toolCalls|
    ensures forall i :: 0 <= i < |run.turns[k].results| ==>
              && run.turns[k].results[i].ToolResultMessage? && run.turns[k].results[i].isError
              && run.turns[k].results[i].content == Truncated(responses[k].final.toolCalls[i])
              && run.turns[k].results[i].callId == responses[k].final.toolCalls[i].id
    ensures run.turns[k].more <==> responses[k].final.toolCalls != []
  {
    hide LoopRun.Recorded, Truncated;
    TurnFollows(run, responses, k);
  }

  /** A response that failed has no results and asks for nothing, whatever calls it holds, and ends the run. */
  lemma FailedResponse(run: LoopRun, responses: seq<Response>, k: nat)
    requires Undisturbed(run, responses, k) && responses[k].final.Failed()
    ensures run.turns[k].results == [] && !run.turns[k].more && k + 1 == |run.turns|
  {
    hide LoopRun.Recorded;
    TurnFollows(run, responses, k);
    if k + 1 < |run.turns| {
      run.NextTurnHasAReason(responses, k);
    }
  }
}
