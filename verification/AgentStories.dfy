/** What a listener hears of a run: every message once and announced first, every turn, every partial result. */
module AgentStories {
  import opened Options
  import opened AgentEvents
  import opened AgentRecords
  import opened AgentRuns
  import opened AgentLoop
  import opened AgentOutcomes

  // ----- Messages

  /** The messages that have ended, in order. */
  function MessagesEnded(log: seq<Event>): seq<Message>
    decreases |log|
  {
    if log == [] then []
    else
      var (before, e) := (MessagesEnded(log[..|log| - 1]), log[|log| - 1]);
      if e.MessageEnd? then before + [e.message] else before
  }

  lemma {:induction false} EndedTogether(a: seq<Event>, b: seq<Event>)
    ensures MessagesEnded(a + b) == MessagesEnded(a) + MessagesEnded(b)
    decreases |b|
  {
    if b == [] {
      assert a + b == a;
    } else {
      var init := b[..|b| - 1];
      assert (a + b)[..|a + b| - 1] == a + init && (a + b)[|a + b| - 1] == b[|b| - 1];
      EndedTogether(a, init);
    }
  }

  /** Tool events end no message. */
  lemma {:induction false} EndedAsTold(log: seq<Event>)
    ensures MessagesEnded(Told(log)) == MessagesEnded(log)
    decreases |log|
  {
    if log != [] {
      var (init, e) := (log[..|log| - 1], log[|log| - 1]);
      EndedAsTold(init);
      assert (Told(init) + [e])[..|Told(init)|] == Told(init);
    }
  }

  lemma {:induction false} AnnouncedEnd(ms: seq<Message>)
    ensures MessagesEnded(Announced(ms)) == ms
    decreases |ms|
  {
    if ms != [] {
      var (init, m) := (ms[..|ms| - 1], ms[|ms| - 1]);
      AnnouncedEnd(init);
      EndedOfPair(m);
      EndedTogether(Announced(init), [MessageStart(m), MessageEnd(m)]);
    }
  }

  lemma EndedOfPair(m: Message)
    ensures MessagesEnded([MessageStart(m), MessageEnd(m)]) == [m]
  {
    var pair := [MessageStart(m), MessageEnd(m)];
    assert pair[..1] == [MessageStart(m)] && pair[..1][..0] == [];
    assert MessagesEnded(pair[..1]) == [] && [] + [m] == [m];
  }

  lemma EndedOfOne(e: Event)
    ensures MessagesEnded([e]) == if e.MessageEnd? then [e.message] else []
  {
    assert [e][..0] == [] && MessagesEnded([]) == [];
  }

  lemma {:induction false} ShownEndsNothing(events: seq<StreamEvent>)
    ensures MessagesEnded(Shown(events)) == []
    decreases |events|
  {
    if events != [] {
      var (init, e) := (events[..|events| - 1], events[|events| - 1]);
      ShownEndsNothing(init);
      EndedTogether(Shown(init), ShownNext(init, e));
      if ShownNext(init, e) != [] {
        EndedOfOne(ShownNext(init, e)[0]);
        assert ShownNext(init, e) == [ShownNext(init, e)[0]];
      }
    }
  }

  lemma StreamEndsFinal(events: seq<StreamEvent>, final: Message)
    ensures MessagesEnded(Streamed(events, final)) == [final]
  {
    var p := Processed(events);
    var start := if Parts(p) == [] then [MessageStart(final)] else [];
    hide Processed, Parts, Shown, MessagesEnded;
    ShownEndsNothing(p);
    EndedOfOne(MessageStart(final));
    EndedOfOne(MessageEnd(final));
    EndedOfNothing();
    EndedTogether(Shown(p), start);
    EndedTogether(Shown(p) + start, [MessageEnd(final)]);
  }

  lemma EndedOfNothing()
    ensures MessagesEnded([]) == []
  {
  }

  lemma TurnStoryEnds(t: Turn, r: Response)
    requires t.response == r.final
    ensures MessagesEnded(TurnStory(t, r)) == TurnMessages(t)
  {
    var (a, b, c, d) := (Announced(t.injected), Streamed(r.events, r.final), Announced(t.results), [TurnEnd(t.response, t.results)]);
    hide Announced, Streamed, MessagesEnded;
    AnnouncedEnd(t.injected);
    StreamEndsFinal(r.events, r.final);
    AnnouncedEnd(t.results);
    EndedOfOne(TurnEnd(t.response, t.results));
    EndedTogether(a, b);
    EndedTogether(a + b, c);
    EndedTogether(a + b + c, d);
  }

  lemma {:induction false} StoryEnds(prompts: seq<Message>, turns: seq<Turn>, responses: seq<Response>)
    requires |turns| <= |responses| && forall k :: 0 <= k < |turns| ==> turns[k].response == responses[k].final
    ensures MessagesEnded(Story(prompts, turns, responses)) == prompts + Flatten(turns)
    decreases |turns|
  {
    hide MessagesEnded, Announced, TurnStory, TurnMessages;
    EndedOfNothing();
    EndedOfOne(TurnStart);
    if turns == [] {
      EndedOfOne(AgentStart);
      EndedTogether([AgentStart], [TurnStart]);
      AnnouncedEnd(prompts);
      EndedTogether([AgentStart] + [TurnStart], Announced(prompts));
      assert [AgentStart] + [TurnStart] == [AgentStart, TurnStart] && [] + prompts == prompts == prompts + [];
    } else {
      var n := |turns| - 1;
      var (before, next) := (Story(prompts, turns[..n], responses), if n > 0 then [TurnStart] else []);
      StoryEnds(prompts, turns[..n], responses);
      EndedTogether(before, next);
      TurnStoryEnds(turns[n], responses[n]);
      EndedTogether(before + next, TurnStory(turns[n], responses[n]));
      assert prompts + Flatten(turns[..n]) + [] + TurnMessages(turns[n]) == prompts + (Flatten(turns[..n]) + TurnMessages(turns[n]));
    }
  }

  lemma ResponsesAreFinal(run: LoopRun, responses: seq<Response>)
    requires run.Recorded(responses)
    ensures forall k :: 0 <= k < |run.turns| ==> run.turns[k].response == responses[k].final
  {
    hide Notes, GoesOn, Drained, Waits, Record;
    forall k | 0 <= k < |run.turns| ensures run.turns[k].response == responses[k].final {
      InRecord(run.agent.steeringQueue.mode, run.start, run.prompts, responses, run.turns, run.endings, k);
    }
  }

  /** A listener that collects the messages that end has, at the end of a run, what the run has added to the transcript. */
  lemma ListenersHaveTheTranscript(run: LoopRun, responses: seq<Response>)
    requires run.Finished(responses)
    ensures MessagesEnded(run.agent.state.log) == run.newMessages
    ensures run.agent.state.messages == run.start + MessagesEnded(run.agent.state.log)
  {
    hide LoopRun.Recorded, Notes, Story, LoopRun.QueuesOk, LoopRun.OneAtATimeOk, LoopRun.History, Balance, Bracketed;
    hide MessagesEnded, Flatten;
    var story := Story(run.prompts, run.turns, responses);
    ResponsesAreFinal(run, responses);
    StoryEnds(run.prompts, run.turns, responses);
    EndedOfOne(AgentEnd(run.newMessages));
    EndedTogether(story, [AgentEnd(run.newMessages)]);
    EndedAsTold(run.agent.state.log);
    assert run.prompts + Flatten(run.turns) + [] == run.prompts + Flatten(run.turns);
    assert MessagesEnded(story) + [] == MessagesEnded(story);
  }

  // ----- Turns

  /** What the ends of turns have said, in order. */
  function TurnsEnded(log: seq<Event>): seq<(Message, seq<Message>)>
    decreases |log|
  {
    if log == [] then []
    else
      var (before, e) := (TurnsEnded(log[..|log| - 1]), log[|log| - 1]);
      if e.TurnEnd? then before + [(e.message, e.toolResults)] else before
  }

  function TurnsStarted(log: seq<Event>): nat
    decreases |log|
  {
    if log == [] then 0 else TurnsStarted(log[..|log| - 1]) + (if log[|log| - 1].TurnStart? then 1 else 0)
  }

  lemma {:induction false} TurnsTogether(a: seq<Event>, b: seq<Event>)
    ensures TurnsEnded(a + b) == TurnsEnded(a) + TurnsEnded(b) && TurnsStarted(a + b) == TurnsStarted(a) + TurnsStarted(b)
    decreases |b|
  {
    if b == [] {
      assert a + b == a;
    } else {
      var init := b[..|b| - 1];
      assert (a + b)[..|a + b| - 1] == a + init && (a + b)[|a + b| - 1] == b[|b| - 1];
      TurnsTogether(a, init);
    }
  }

  lemma {:induction false} TurnsAsTold(log: seq<Event>)
    ensures TurnsEnded(Told(log)) == TurnsEnded(log) && TurnsStarted(Told(log)) == TurnsStarted(log)
    decreases |log|
  {
    if log != [] {
      var (init, e) := (log[..|log| - 1], log[|log| - 1]);
      TurnsAsTold(init);
      assert (Told(init) + [e])[..|Told(init)|] == Told(init);
    }
  }

  lemma {:induction false} NoTurns(log: seq<Event>)
    requires forall e :: e in log ==> !e.TurnStart? && !e.TurnEnd?
    ensures TurnsEnded(log) == [] && TurnsStarted(log) == 0
    decreases |log|
  {
    if log != [] {
      NoTurns(log[..|log| - 1]);
      assert log[|log| - 1] in log;
    }
  }

  lemma TurnsOfOne(e: Event)
    ensures TurnsEnded([e]) == if e.TurnEnd? then [(e.message, e.toolResults)] else []
    ensures TurnsStarted([e]) == if e.TurnStart? then 1 else 0
  {
    assert [e][..0] == [] && TurnsEnded([]) == [] && TurnsStarted([]) == 0;
  }

  lemma {:induction false} AnnouncedIsMessages(ms: seq<Message>)
    ensures forall e :: e in Announced(ms) ==> e.MessageStart? || e.MessageEnd?
    decreases |ms|
  {
    if ms != [] {
      AnnouncedIsMessages(ms[..|ms| - 1]);
    }
  }

  lemma {:induction false} ShownIsMessages(events: seq<StreamEvent>)
    ensures forall e :: e in Shown(events) ==> e.MessageStart? || e.MessageUpdate?
    decreases |events|
  {
    if events != [] {
      ShownIsMessages(events[..|events| - 1]);
    }
  }

  lemma TurnStoryIsOneTurn(t: Turn, r: Response)
    ensures TurnsEnded(TurnStory(t, r)) == [(t.response, t.results)] && TurnsStarted(TurnStory(t, r)) == 0
  {
    var (messages, end) := (Announced(t.injected) + Streamed(r.events, r.final) + Announced(t.results), TurnEnd(t.response, t.results));
    AnnouncedIsMessages(t.injected);
    ShownIsMessages(Processed(r.events));
    AnnouncedIsMessages(t.results);
    hide Announced, Processed, Parts, Shown, TurnsEnded, TurnsStarted;
    NoTurns(messages);
    TurnsOfOne(end);
    TurnsTogether(messages, [end]);
    assert TurnStory(t, r) == messages + [end] && [] + [(t.response, t.results)] == [(t.response, t.results)];
  }

  lemma {:induction false} StoryTurns(prompts: seq<Message>, turns: seq<Turn>, responses: seq<Response>)
    requires |turns| <= |responses|
    ensures var ended := TurnsEnded(Story(prompts, turns, responses));
            |ended| == |turns| && forall k :: 0 <= k < |turns| ==> ended[k] == (turns[k].response, turns[k].results)
    ensures TurnsStarted(Story(prompts, turns, responses)) == if turns == [] then 1 else |turns|
    decreases |turns|
  {
    hide TurnsEnded, TurnsStarted, Announced, TurnStory;
    TurnsOfOne(TurnStart);
    if turns == [] {
      TurnsOfOne(AgentStart);
      TurnsTogether([AgentStart], [TurnStart]);
      AnnouncedIsMessages(prompts);
      NoTurns(Announced(prompts));
      TurnsTogether([AgentStart] + [TurnStart], Announced(prompts));
      assert [AgentStart] + [TurnStart] == [AgentStart, TurnStart];
    } else {
      var n := |turns| - 1;
      var (before, next) := (Story(prompts, turns[..n], responses), if n > 0 then [TurnStart] else []);
      StoryTurns(prompts, turns[..n], responses);
      TurnsTogether(before, next);
      NoTurns([]);
      TurnStoryIsOneTurn(turns[n], responses[n]);
      TurnsTogether(before + next, TurnStory(turns[n], responses[n]));
    }
  }

  /** A run starts and ends each of its turns once, in order, and says at the end of each what its response and its results
      were; what it tells at the very end is what it has added. */
  lemma ListenersHearEveryTurn(run: LoopRun, responses: seq<Response>)
    requires run.Finished(responses)
    ensures var log := run.agent.state.log;
            && TurnsStarted(log) == |TurnsEnded(log)| == |run.turns|
            && (forall k :: 0 <= k < |run.turns| ==> TurnsEnded(log)[k] == (run.turns[k].response, run.turns[k].results))
            && log != [] && log[|log| - 1] == AgentEnd(run.newMessages)
  {
    hide LoopRun.Recorded, Notes, Story, LoopRun.QueuesOk, LoopRun.OneAtATimeOk, LoopRun.History, Balance, Bracketed;
    hide TurnsEnded, TurnsStarted;
    var story := Story(run.prompts, run.turns, responses);
    StoryTurns(run.prompts, run.turns, responses);
    TurnsOfOne(AgentEnd(run.newMessages));
    TurnsTogether(story, [AgentEnd(run.newMessages)]);
    TurnsAsTold(run.agent.state.log);
  }

  // ----- Responses as they are streamed

  /** Besides tool events, a message that is updated or ends has just been announced or updated. */
  predicate InOrder(told: seq<Event>) {
    forall i :: 0 <= i < |told| && (told[i].MessageUpdate? || told[i].MessageEnd?) ==>
      i > 0 && (told[i - 1].MessageStart? || told[i - 1].MessageUpdate?)
  }

  lemma InOrderTogether(a: seq<Event>, b: seq<Event>)
    requires InOrder(a) && InOrder(b)
    ensures InOrder(a + b)
  {
    var c := a + b;
    forall i | 0 <= i < |c| && (c[i].MessageUpdate? || c[i].MessageEnd?)
      ensures i > 0 && (c[i - 1].MessageStart? || c[i - 1].MessageUpdate?)
    {
      if i >= |a| {
        assert b[i - |a|] == c[i];
      }
    }
  }

  lemma {:induction false} AnnouncedInOrder(ms: seq<Message>)
    ensures InOrder(Announced(ms))
    decreases |ms|
  {
    if ms != [] {
      AnnouncedInOrder(ms[..|ms| - 1]);
    }
  }

  lemma {:induction false} ShownInOrder(events: seq<StreamEvent>)
    ensures InOrder(Shown(events)) && (Shown(events) != [] <==> Parts(events) != [])
    decreases |events|
  {
    if events != [] {
      var init := events[..|events| - 1];
      ShownInOrder(init);
      ShownIsMessages(init);
      if Shown(init) != [] {
        assert Shown(init)[|Shown(init)| - 1] in Shown(init);
      }
    }
  }

  lemma StreamedInOrder(events: seq<StreamEvent>, final: Message)
    ensures InOrder(Streamed(events, final))
  {
    var p := Processed(events);
    ShownInOrder(p);
    ShownIsMessages(p);
    hide Processed, Parts, Shown;
    if Shown(p) != [] {
      assert Shown(p)[|Shown(p)| - 1] in Shown(p);
    }
  }

  lemma {:induction false} StoryInOrder(prompts: seq<Message>, turns: seq<Turn>, responses: seq<Response>)
    requires |turns| <= |responses|
    ensures InOrder(Story(prompts, turns, responses))
    decreases |turns|
  {
    hide InOrder, Announced, Streamed;
    if turns == [] {
      AnnouncedInOrder(prompts);
      Plainly([AgentStart, TurnStart]);
      InOrderTogether([AgentStart, TurnStart], Announced(prompts));
    } else {
      var n := |turns| - 1;
      var (before, next, t, r) := (Story(prompts, turns[..n], responses), if n > 0 then [TurnStart] else [], turns[n], responses[n]);
      StoryInOrder(prompts, turns[..n], responses);
      Plainly(next);
      Plainly([TurnEnd(t.response, t.results)]);
      AnnouncedInOrder(t.injected);
      StreamedInOrder(r.events, r.final);
      AnnouncedInOrder(t.results);
      InOrderTogether(before, next);
      InOrderTogether(Announced(t.injected), Streamed(r.events, r.final));
      InOrderTogether(Announced(t.injected) + Streamed(r.events, r.final), Announced(t.results));
      InOrderTogether(Announced(t.injected) + Streamed(r.events, r.final) + Announced(t.results), [TurnEnd(t.response, t.results)]);
      InOrderTogether(before + next, TurnStory(t, r));
    }
  }

  lemma Plainly(told: seq<Event>)
    requires forall e :: e in told ==> !e.MessageUpdate? && !e.MessageEnd?
    ensures InOrder(told)
  {
    forall i | 0 <= i < |told| ensures !told[i].MessageUpdate? && !told[i].MessageEnd? {
      assert told[i] in told;
    }
  }

  /** In a finished run no message is updated or ends without having been announced. */
  lemma MessagesAnnounced(run: LoopRun, responses: seq<Response>)
    requires run.Finished(responses)
    ensures InOrder(Told(run.agent.state.log))
  {
    hide LoopRun.Recorded, Notes, Story, LoopRun.QueuesOk, LoopRun.OneAtATimeOk, LoopRun.History, Balance, Bracketed, InOrder, Told;
    StoryInOrder(run.prompts, run.turns, responses);
    Plainly([AgentEnd(run.newMessages)]);
    InOrderTogether(Story(run.prompts, run.turns, responses), [AgentEnd(run.newMessages)]);
  }

  lemma {:induction false} ShownOnce(events: seq<StreamEvent>)
    requires events != [] && forall i :: 0 <= i < |events| ==> events[i].Partial? && (events[i].first <==> i == 0)
    ensures Parts(events) != [] && |Shown(events)| == |events| && Shown(events)[0] == MessageStart(events[0].partialMessage)
    ensures forall i :: 0 < i < |events| ==> Shown(events)[i] == MessageUpdate(events[i].partialMessage)
    decreases |events|
  {
    var init := events[..|events| - 1];
    if init != [] {
      ShownOnce(init);
    } else {
      assert Shown(init) == [] && Parts(init) == [];
    }
  }

  /** A response of `n` partial messages, of which the first starts it, is heard as just these, and then as its final
      message; one without a start is heard as its final message only. */
  lemma ResponseHeard(events: seq<StreamEvent>, final: Message, n: nat)
    requires n <= |events| && (forall i :: 0 <= i < n ==> events[i].Partial? && (events[i].first <==> i == 0))
    requires n < |events| ==> events[n].Finish?
    ensures var told := Streamed(events, final);
            if n == 0 then told == [MessageStart(final), MessageEnd(final)]
            else
              && |told| == n + 1 && told[0] == MessageStart(events[0].partialMessage) && told[n] == MessageEnd(final)
              && forall i :: 0 < i < n ==> told[i] == MessageUpdate(events[i].partialMessage)
  {
    ProcessedIs(events, n);
    hide Processed;
    var p := events[..n];
    if n > 0 {
      ShownOnce(p);
    } else {
      assert p == [] && Shown(p) == [] && Parts(p) == [];
    }
  }

  // ----- Tool calls

  /** Every partial result of a tool that is executed is passed on. */
  lemma UpdatesPassedOn(run: LoopRun, responses: seq<Response>, extra: seq<Message>, held: seq<Message>, k: nat, i: nat, u: Text)
    requires run.Coherent(extra, held) && ToolRan(run, responses, k, i) && u in responses[k].oracle(i).updates
    ensures ToolUpdate(responses[k].final.toolCalls[i], u) in run.agent.state.log
  {
    hide LoopRun.Recorded, LoopRun.QueuesOk, LoopRun.OneAtATimeOk, Flatten, Injected, Balance, Bracketed, Outcomes;
    TurnFollows(run, responses, k);
    assert run.turns[k] in run.turns;
    var call := responses[k].final.toolCalls[i];
    assert Relayed(call, responses[k].oracle(i).updates, run.turns[k].progress);
    assert Progress(call, u) in run.agent.state.progress;
  }

  /** In a run that executes one call at a time, no call starts while another is open. */
  lemma OneCallAtATime(run: LoopRun, extra: seq<Message>, held: seq<Message>, i: nat, id: CallId)
    requires run.Coherent(extra, held) && run.sequential
    requires i < |run.agent.state.log| && run.agent.state.log[i].ToolStart?
    ensures Balance(run.agent.state.log[..i], id) == 0
  {
    hide LoopRun.QueuesOk, LoopRun.OneAtATimeOk, Flatten, Injected, Bracketed;
    assert !Overlaps(run.agent.state.log, i);
  }
}
