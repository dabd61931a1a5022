/** What the record of a run says: the turns it took, and the transcripts at the end of each. */
module AgentRecords {
  import opened Options
  import opened AgentEvents
  import opened AgentRuns

  /** What the language model streams in a turn, what the tools do with its calls, whether the run is to stop after
      the turn, and the context that replaces the current one before the next turn, if any. */
  datatype Response = Response(
    events: seq<StreamEvent>,
    final: Message,
    oracle: nat -> Oracle,
    stop: bool,
    nextContext: Option<seq<Message>>)

  /** The three transcripts, the pending tool calls and the two queues when a turn or the run ends. */
  datatype Ending = Ending(
    messages: seq<Message>,
    newMessages: seq<Message>,
    context: seq<Message>,
    pendingToolCalls: set<CallId>,
    steering: seq<Message>,
    followUps: seq<Message>)

  /** The context after `turns`, in which the responses have left their stale partial messages. */
  function ContextAfter(base: seq<Message>, turns: seq<Turn>, responses: seq<Response>): seq<Message>
    requires |turns| <= |responses|
    decreases |turns|, 0
  {
    if turns == [] then base
    else
      var n := |turns| - 1;
      ContextBefore(base, turns[..n], responses)
      + turns[n].injected + Stale(responses[n].events) + [turns[n].response] + turns[n].results
  }

  /** The context in which the turn after `turns` begins. */
  function ContextBefore(base: seq<Message>, turns: seq<Turn>, responses: seq<Response>): seq<Message>
    requires |turns| <= |responses|
    decreases |turns|, 1
  {
    if turns != [] && responses[|turns| - 1].nextContext.Some? then responses[|turns| - 1].nextContext.value
    else ContextAfter(base, turns, responses)
  }

  /** What ending `e` says of a run that started from transcript `start` and has taken `turns`. */
  ghost predicate Notes(e: Ending, start: seq<Message>, prompts: seq<Message>, turns: seq<Turn>, responses: seq<Response>)
    requires |turns| <= |responses|
  {
    && e.messages == start + e.newMessages && e.newMessages == prompts + Flatten(turns)
    && e.context == ContextAfter(start + prompts, turns, responses) && e.pendingToolCalls == {}
  }

  /** The turn has the response of the model and, without abort, the results and the decision to go on that it calls for. */
  ghost predicate Follows(t: Turn, r: Response) {
    && r.final.Assistant? && t.response == r.final && (t.more ==> !r.final.Failed() && r.final.toolCalls != [])
    && (!t.aborted ==> t.results == ExpectedResults(r.final, r.oracle) && (t.more <==> ExpectsMore(r.final, r.oracle)))
    && (!r.final.Failed() && r.final.stopReason != Length ==> AllOwnOrAborted(t.finals, r.final.toolCalls, r.oracle))
    && (!t.aborted && !r.final.Failed() && r.final.stopReason != Length ==>
          AllRelayed(r.final.toolCalls, r.oracle, |r.final.toolCalls|, t.progress))
  }

  /** The run is over after a turn with this response, whatever is queued. */
  predicate EndsRun(r: Response) {
    r.final.Failed() || r.stop
  }

  /** The run goes on after turn `t` with messages `pending`. */
  predicate GoesOn(t: Turn, r: Response, pending: seq<Message>) {
    !EndsRun(r) && (t.more || pending != [])
  }

  /** As long as a turn is to be followed by another one anyway, the follow-up messages that are queued stay queued. */
  predicate Waits(t: Turn, before: Ending, after: Ending) {
    t.more || before.steering != [] ==> before.followUps <= after.followUps
  }

  /** Every turn follows the model, what is noted at its end is how the run then stood, there was a reason for it, and
      it begins with what a drain of the steering queue at the end of the turn before would have given, and follow-ups
      have waited for their time. */
  ghost predicate Record(mode: QueueMode, start: seq<Message>, prompts: seq<Message>, responses: seq<Response>,
                         turns: seq<Turn>, endings: seq<Ending>) {
    |turns| <= |responses| && |turns| <= |endings|
    && forall k: nat :: k < |turns| ==> TurnNoted(mode, start, prompts, responses, turns, endings, k)
  }

  ghost predicate TurnNoted(mode: QueueMode, start: seq<Message>, prompts: seq<Message>, responses: seq<Response>,
                            turns: seq<Turn>, endings: seq<Ending>, k: nat)
    requires k < |turns| <= |responses| && |turns| <= |endings|
  {
    && Follows(turns[k], responses[k])
    && Notes(endings[k], start, prompts, turns[..k + 1], responses)
    && (k > 0 ==> GoesOn(turns[k - 1], responses[k - 1], turns[k].injected))
    && (k > 0 ==> Drained(mode, endings[k - 1].steering) <= turns[k].injected)
    && (k > 0 ==> Waits(turns[k - 1], endings[k - 1], endings[k]))
  }

  lemma TurnStaysNoted(mode: QueueMode, start: seq<Message>, prompts: seq<Message>, responses: seq<Response>,
                       turns: seq<Turn>, endings: seq<Ending>, more: seq<Turn>, noted: seq<Ending>, k: nat)
    requires k < |turns| && turns <= more && endings <= noted && |more| <= |responses| && |turns| <= |endings| && |more| <= |noted|
    requires TurnNoted(mode, start, prompts, responses, turns, endings, k)
    ensures TurnNoted(mode, start, prompts, responses, more, noted, k)
  {
    hide Follows, Notes, GoesOn, Drained, Waits;
    assert more[..k + 1] == turns[..k + 1];
  }

  lemma RecordGrows(mode: QueueMode, start: seq<Message>, prompts: seq<Message>, responses: seq<Response>,
                    turns: seq<Turn>, endings: seq<Ending>, t: Turn, e: Ending)
    requires Record(mode, start, prompts, responses, turns, endings) && |endings| == |turns| < |responses|
    requires Follows(t, responses[|turns|]) && Notes(e, start, prompts, turns + [t], responses)
    requires turns != [] ==> GoesOn(turns[|turns| - 1], responses[|turns| - 1], t.injected)
    requires turns != [] ==> Drained(mode, endings[|turns| - 1].steering) <= t.injected
    requires turns != [] ==> Waits(turns[|turns| - 1], endings[|turns| - 1], e)
    ensures Record(mode, start, prompts, responses, turns + [t], endings + [e])
  {
    hide Follows, Notes, GoesOn, Drained, Waits, TurnNoted;
    var (more, noted) := (turns + [t], endings + [e]);
    forall k: nat | k < |turns| ensures TurnNoted(mode, start, prompts, responses, more, noted, k) {
      TurnStaysNoted(mode, start, prompts, responses, turns, endings, more, noted, k);
    }
    LastTurnNoted(mode, start, prompts, responses, turns, endings, t, e);
  }

  lemma LastTurnNoted(mode: QueueMode, start: seq<Message>, prompts: seq<Message>, responses: seq<Response>,
                      turns: seq<Turn>, endings: seq<Ending>, t: Turn, e: Ending)
    requires |endings| == |turns| < |responses|
    requires Follows(t, responses[|turns|]) && Notes(e, start, prompts, turns + [t], responses)
    requires turns != [] ==> GoesOn(turns[|turns| - 1], responses[|turns| - 1], t.injected)
    requires turns != [] ==> Drained(mode, endings[|turns| - 1].steering) <= t.injected
    requires turns != [] ==> Waits(turns[|turns| - 1], endings[|turns| - 1], e)
    ensures TurnNoted(mode, start, prompts, responses, turns + [t], endings + [e], |turns|)
  {
    hide Follows, Notes, GoesOn, Drained, Waits;
    assert (turns + [t])[..|turns| + 1] == turns + [t];
  }

  /** The record stays one when the end of the run is noted as well. */
  lemma RecordLasts(mode: QueueMode, start: seq<Message>, prompts: seq<Message>, responses: seq<Response>,
                    turns: seq<Turn>, endings: seq<Ending>, e: Ending)
    requires Record(mode, start, prompts, responses, turns, endings)
    ensures Record(mode, start, prompts, responses, turns, endings + [e])
  {
    hide TurnNoted;
    forall k: nat | k < |turns| ensures TurnNoted(mode, start, prompts, responses, turns, endings + [e], k) {
      TurnStaysNoted(mode, start, prompts, responses, turns, endings, turns, endings + [e], k);
    }
  }

  /** What a record says of one of its turns. */
  lemma InRecord(mode: QueueMode, start: seq<Message>, prompts: seq<Message>, responses: seq<Response>,
                 turns: seq<Turn>, endings: seq<Ending>, k: nat)
    requires Record(mode, start, prompts, responses, turns, endings) && k < |turns|
    ensures TurnNoted(mode, start, prompts, responses, turns, endings, k)
  {
    hide TurnNoted;
  }

  lemma ContextOfTurn(base: seq<Message>, turns: seq<Turn>, responses: seq<Response>, t: Turn)
    requires |turns| < |responses|
    ensures ContextAfter(base, turns + [t], responses)
            == ContextBefore(base, turns, responses) + t.injected + Stale(responses[|turns|].events) + [t.response] + t.results
  {
    assert (turns + [t])[..|turns|] == turns;
  }

  // ----- What a listener is told

  /** What a listener is told of a turn, besides what becomes of its tool calls. */
  function TurnStory(t: Turn, r: Response): seq<Event> {
    Announced(t.injected) + Streamed(r.events, r.final) + Announced(t.results) + [TurnEnd(t.response, t.results)]
  }

  /** And of a run that has taken these turns. */
  function Story(prompts: seq<Message>, turns: seq<Turn>, responses: seq<Response>): seq<Event>
    requires |turns| <= |responses|
    decreases |turns|
  {
    if turns == [] then [AgentStart, TurnStart] + Announced(prompts)
    else
      var n := |turns| - 1;
      Story(prompts, turns[..n], responses) + (if n > 0 then [TurnStart] else []) + TurnStory(turns[n], responses[n])
  }

  lemma StoryMore(prompts: seq<Message>, turns: seq<Turn>, responses: seq<Response>, t: Turn)
    requires |turns| < |responses|
    ensures Story(prompts, turns + [t], responses)
            == Story(prompts, turns, responses) + (if turns != [] then [TurnStart] else []) + TurnStory(t, responses[|turns|])
  {
    assert (turns + [t])[..|turns|] == turns;
  }

  // ----- The context and the transcript

  /** The context is not replaced between turn `r` and the last of the turns. */
  predicate Unreplaced(responses: seq<Response>, r: nat, n: nat)
    requires r < n <= |responses|
  {
    forall j :: r <= j < n - 1 ==> responses[j].nextContext.None?
  }

  predicate StartOnce(responses: seq<Response>, r: nat, n: nat)
    requires n <= |responses|
  {
    forall j :: r <= j < n ==> StartCount(Processed(responses[j].events)) <= 1
  }

  lemma FlattenFrom(turns: seq<Turn>, r: nat)
    requires r < |turns|
    ensures Flatten(turns[r..]) == Flatten(turns[r..|turns| - 1]) + TurnMessages(turns[|turns| - 1])
  {
    assert turns[r..][..|turns| - 1 - r] == turns[r..|turns| - 1];
  }

  /** A context that has fallen behind by nothing stays so exactly if nothing stale is left in it. */
  lemma TurnAgrees(c: seq<Message>, d: seq<Message>, t: Turn, stale: seq<Message>)
    requires |c| >= |d|
    ensures c + t.injected + stale + [t.response] + t.results == d + TurnMessages(t) <==> c == d && stale == []
    ensures |c + t.injected + stale + [t.response] + t.results| >= |d + TurnMessages(t)|
  {
    var (x, y) := (c + t.injected + stale + [t.response] + t.results, d + TurnMessages(t));
    if x == y {
      assert |x| == |c| + |t.injected| + |stale| + 1 + |t.results| && |y| == |d| + |t.injected| + 1 + |t.results|;
      assert x[..|c|] == c && y[..|d|] == d;
    }
    if c == d && stale == [] {
      assert x == y;
    }
  }

  lemma StartOnceMore(responses: seq<Response>, r: nat, n: nat)
    requires r <= n < |responses|
    ensures StartOnce(responses, r, n + 1) <==> StartOnce(responses, r, n) && StartCount(Processed(responses[n].events)) <= 1
  {
    hide StartCount, Processed;
  }

  /** One more turn; `c` is the context in which turn `r` began. */
  lemma ContextStep(base: seq<Message>, turns: seq<Turn>, responses: seq<Response>, r: nat, c: seq<Message>)
    requires r < |turns| <= |responses|
    requires var (before, d) := (ContextBefore(base, turns[..|turns| - 1], responses), c + Flatten(turns[r..|turns| - 1]));
             |before| >= |d| && (before == d <==> StartOnce(responses, r, |turns| - 1))
    ensures var d := c + Flatten(turns[r..]);
            && |ContextAfter(base, turns, responses)| >= |d|
            && (ContextAfter(base, turns, responses) == d <==> StartOnce(responses, r, |turns|))
  {
    var n := |turns| - 1;
    var (before, d) := (ContextBefore(base, turns[..n], responses), c + Flatten(turns[r..n]));
    assert ContextAfter(base, turns, responses)
        == before + turns[n].injected + Stale(responses[n].events) + [turns[n].response] + turns[n].results;
    hide ContextAfter, ContextBefore, Flatten, TurnMessages, Stale, StartOnce, StartCount, Processed;
    FlattenFrom(turns, r);
    assert c + Flatten(turns[r..]) == d + TurnMessages(turns[n]);
    StaleIffRestarted(responses[n].events);
    StartOnceMore(responses, r, n);
    TurnAgrees(before, d, turns[n], Stale(responses[n].events));
  }

  /** From turn `r` on, as long as it is not replaced, the context is what it was and what the turns have added, exactly
      if none of their responses has started twice. */
  lemma {:induction false} ContextAgrees(base: seq<Message>, turns: seq<Turn>, responses: seq<Response>, r: nat)
    requires r < |turns| <= |responses| && Unreplaced(responses, r, |turns|)
    ensures var d := ContextBefore(base, turns[..r], responses) + Flatten(turns[r..]);
            && |ContextAfter(base, turns, responses)| >= |d|
            && (ContextAfter(base, turns, responses) == d <==> StartOnce(responses, r, |turns|))
    decreases |turns|
  {
    var n := |turns| - 1;
    var c := ContextBefore(base, turns[..r], responses);
    if r < n {
      assert responses[n - 1].nextContext.None?;
      assert ContextBefore(base, turns[..n], responses) == ContextAfter(base, turns[..n], responses);
      hide ContextAfter, ContextBefore, Flatten, StartOnce;
      ContextAgrees(base, turns[..n], responses, r);
      assert turns[..n][..r] == turns[..r] && turns[..n][r..] == turns[r..n];
    } else {
      assert turns[r..n] == [] && Flatten([]) == [] && c + [] == c;
    }
    hide ContextAfter, ContextBefore, Flatten, StartOnce;
    ContextStep(base, turns, responses, r, c);
  }

  lemma ContextAtStart(base: seq<Message>, responses: seq<Response>)
    ensures ContextBefore(base, [], responses) == base
  {
  }

  lemma ReplacedBefore(base: seq<Message>, turns: seq<Turn>, responses: seq<Response>)
    requires 0 < |turns| <= |responses| && responses[|turns| - 1].nextContext.Some?
    ensures ContextBefore(base, turns, responses) == responses[|turns| - 1].nextContext.value
  {
  }

  /** What is noted when turns end: the transcript is the starting one and what the turns have added, and the context is
      the same exactly if no response has started twice, as long as it has not been replaced. */
  lemma NotesAgree(e: Ending, start: seq<Message>, prompts: seq<Message>, turns: seq<Turn>, responses: seq<Response>)
    requires 0 < |turns| <= |responses| && Notes(e, start, prompts, turns, responses)
    ensures e.newMessages == prompts + Flatten(turns) && e.messages == start + e.newMessages && e.pendingToolCalls == {}
    ensures Unreplaced(responses, 0, |turns|) ==> (e.context == e.messages <==> StartOnce(responses, 0, |turns|))
  {
    hide ContextBefore, ContextAfter, Flatten, StartOnce, Unreplaced;
    if Unreplaced(responses, 0, |turns|) {
      ContextAgrees(start + prompts, turns, responses, 0);
      ContextAtStart(start + prompts, responses);
      assert turns[..0] == [] && turns[0..] == turns;
      assert start + prompts + Flatten(turns) == start + (prompts + Flatten(turns));
    }
  }
}
