/** One run of an agent: state moves, the bounded model/tool loop, and the transcript fed back to the model. */
module Runner {
  import opened Wrappers
  import opened Trace
  import H = History
  import C = Compaction
  import opened Strings

  datatype ToolCall = ToolCall(id: string, kind: string, name: string, arguments: string)

  /** A chat message for the model. */
  datatype Chat = Chat(role: string, content: string, toolCalls: seq<ToolCall>, toolCallId: string, name: string)

  /** One event of a provider's stream. */
  datatype ModelEvent = ModelEvent(token: string, toolCalls: seq<ToolCall>, done: bool, err: Option<string>)

  /** A provider refuses a request or answers with a finite stream. */
  datatype Answer = Refused(message: string) | Stream(events: seq<ModelEvent>)

  datatype ToolResult = ToolResult(content: string, isError: bool, errorCode: string, errorMsg: string)
  datatype ToolOutcome = ToolBroke(message: string) | ToolAnswered(result: ToolResult)

  /** The published events of one run id. */
  class Topic {
    var trace: seq<Event>

    constructor ()
      ensures trace == []
    {
      trace := [];
    }

    method Publish(e: Event)
      modifies this
      ensures trace == old(trace) + [e]
    {
      trace := trace + [e];
    }

    method PublishState(from: State, to: State) returns (ok: bool)
      modifies this
      ensures ok <==> CanTransit(from, to)
      ensures trace == old(trace) + if ok then [StateEvent(from, to)] else []
    {
      ok := CanTransit(from, to);
      if ok {
        Publish(StateEvent(from, to));
      }
    }

    method Fail(from: State, code: string, message: string)
      modifies this
      ensures trace == old(trace) + (if CanTransit(from, Failed) then [StateEvent(from, Failed)] else []) + [ErrorEvent(code, message)]
    {
      var ok := PublishState(from, Failed);
      Publish(ErrorEvent(code, message));
    }
  }

  /** A model provider that behaves in any way whatever, call by call, and remembers what it was sent. */
  class Provider {
    const answer: (nat, seq<Chat>) -> Answer
    var requests: seq<seq<Chat>>

    constructor (answer: (nat, seq<Chat>) -> Answer)
      ensures this.answer == answer && requests == []
    {
      this.answer := answer;
      requests := [];
    }

    method Ask(msgs: seq<Chat>) returns (a: Answer)
      modifies this
      ensures requests == old(requests) + [msgs]
      ensures a == answer(|old(requests)|, msgs)
    {
      a := answer(|requests|, msgs);
      requests := requests + [msgs];
    }
  }

  // ---- one provider call ----

  /** The nonempty tokens of some stream events. */
  function Tokens(events: seq<ModelEvent>): seq<string> {
    if events == [] then []
    else
      var e := events[|events| - 1];
      Tokens(events[..|events| - 1]) + if e.token != "" then [e.token] else []
  }

  function Calls(events: seq<ModelEvent>): seq<ToolCall> {
    if events == [] then [] else Calls(events[..|events| - 1]) + events[|events| - 1].toolCalls
  }

  /** Where reading stops: before the first error, after the first `done`, or at the end. */
  function Stop(events: seq<ModelEvent>, i: nat): (n: nat)
    requires i <= |events|
    ensures i <= n <= |events|
    ensures forall j | i <= j < n :: events[j].err == None && (events[j].done ==> j + 1 == n)
    ensures n < |events| ==> events[n].err.Some? || (n > i && events[n - 1].done)
    decreases |events| - i
  {
    if i == |events| || events[i].err.Some? then i
    else if events[i].done then i + 1
    else Stop(events, i + 1)
  }

  /** The events acted on. */
  function Heard(a: Answer): seq<ModelEvent> {
    match a
    case Refused(_) => []
    case Stream(events) => events[..Stop(events, 0)]
  }

  /** The answer ends in an error: it was refused, or an error event comes before any `done`. */
  predicate Errs(a: Answer) {
    match a
    case Refused(_) => true
    case Stream(events) =>
      var n := Stop(events, 0);
      n < |events| && events[n].err.Some? && (n == 0 || !events[n - 1].done)
  }

  /** The tokens are exactly those of the events that have one, in order. */
  lemma {:induction false} TokensPick(events: seq<ModelEvent>) returns (at: seq<nat>)
    ensures Picks(at, |events|, i => 0 <= i < |events| && events[i].token != "")
    ensures |Tokens(events)| == |at| && forall k | 0 <= k < |at| :: Tokens(events)[k] == events[at[k]].token
  {
    hide *;
    LastToken(events);
    at := [];
    if events == [] {
      NoPicks(i => 0 <= i < |events| && events[i].token != "");
    } else {
      var n := |events| - 1;
      at := TokensPick(events[..n]);
      PicksWithin(at, n, i => 0 <= i < n && events[..n][i].token != "");
      PicksNext(at, n, i => 0 <= i < n && events[..n][i].token != "", i => 0 <= i < |events| && events[i].token != "");
      if events[n].token != "" {
        at := at + [n];
      }
    }
  }

  lemma LastToken(events: seq<ModelEvent>)
    ensures events == [] ==> Tokens(events) == []
    ensures events != [] ==>
              var n := |events| - 1;
              Tokens(events) == Tokens(events[..n]) + if events[n].token != "" then [events[n].token] else []
  {
  }

  /** Calls add up in the order of the events. */
  lemma {:induction false} CallsAddUp(a: seq<ModelEvent>, b: seq<ModelEvent>)
    ensures Calls(a + b) == Calls(a) + Calls(b)
    ensures |a| == 1 ==> Calls(a) == a[0].toolCalls
  {
    if b == [] {
      assert a + b == a;
    } else {
      assert (a + b)[..|a + b| - 1] == a + b[..|b| - 1];
      CallsAddUp(a, b[..|b| - 1]);
    }
  }

  function TokenEvents(ts: seq<string>, first: nat): seq<Event> {
    seq(|ts|, i requires 0 <= i < |ts| => TokenEvent(ts[i], first + i))
  }

  /** The provider's own message. */
  function ErrMessage(a: Answer): string
    requires Errs(a)
  {
    match a
    case Refused(message) => message
    case Stream(events) => events[Stop(events, 0)].err.value
  }

  /** What reading an answer comes to: an error exactly if the answer ends in one, with its message; otherwise its calls. */
  ghost predicate IsReading(answer: Answer, r: Streamed) {
    && (r.StreamFailed? <==> Errs(answer))
    && (r.StreamFailed? ==> r.message == ErrMessage(answer))
    && (r.StreamOk? ==> r.calls == Calls(Heard(answer)))
  }

  datatype Streamed = StreamFailed(message: string) | StreamOk(text: string, calls: seq<ToolCall>)

  /** The reading loop over the events of one stream. */
  method Drain(topic: Topic, events: seq<ModelEvent>, idx: nat) returns (r: Streamed, emitted: nat)
    modifies topic
    ensures var heard := Heard(Stream(events));
            && topic.trace == old(topic.trace) + TokenEvents(Tokens(heard), idx)
            && emitted == |Tokens(heard)|
            && IsReading(Stream(events), r)
            && (r.StreamOk? ==> r.text == Concat(Tokens(heard)) && r.calls == Calls(heard))
  {
    hide Concat, Tokens, Calls, TokenEvents, IsReading;
    var text, calls := "", [];
    emitted := 0;
    NothingHeard(idx);
    for i := 0 to |events|
      invariant Stop(events, 0) == Stop(events, i)
      invariant i > 0 ==> !events[i - 1].done
      invariant text == Concat(Tokens(events[..i])) && calls == Calls(events[..i])
      invariant emitted == |Tokens(events[..i])|
      invariant topic.trace == old(topic.trace) + TokenEvents(Tokens(events[..i]), idx)
    {
      var ev := events[i];
      if ev.err.Some? {
        ReadingFails(events, i, ev.err.value);
        return StreamFailed(ev.err.value), emitted;
      }
      HeardOneMore(events, i, idx);
      calls := calls + ev.toolCalls;
      if ev.token != "" {
        emitted := emitted + 1;
        text := text + ev.token;
        topic.Publish(TokenEvent(ev.token, idx + emitted - 1));
      }
      if ev.done {
        ReadingSucceeds(events, i + 1, text);
        return StreamOk(text, calls), emitted;
      }
    }
    assert events[..|events|] == events;
    ReadingSucceeds(events, |events|, text);
    return StreamOk(text, calls), emitted;
  }

  lemma ReadingFails(events: seq<ModelEvent>, i: nat, message: string)
    requires i < |events| && Stop(events, 0) == Stop(events, i) && events[i].err == Some(message)
    requires i > 0 ==> !events[i - 1].done
    ensures IsReading(Stream(events), StreamFailed(message))
  {
    hide Calls;
  }

  lemma ReadingSucceeds(events: seq<ModelEvent>, n: nat, text: string)
    requires n <= |events| && Stop(events, 0) == n && (n < |events| ==> n > 0 && events[n - 1].done)
    ensures IsReading(Stream(events), StreamOk(text, Calls(events[..n])))
  {
    hide Calls;
  }

  method StreamOnce(provider: Provider, topic: Topic, msgs: seq<Chat>, idx: nat)
    returns (r: Streamed, emitted: nat, ghost answer: Answer)
    modifies provider, topic
    ensures provider.requests == old(provider.requests) + [msgs]
    ensures answer == provider.answer(|old(provider.requests)|, msgs)
    ensures topic.trace == old(topic.trace) + TokenEvents(Tokens(Heard(answer)), idx)
    ensures emitted == |Tokens(Heard(answer))|
    ensures IsReading(answer, r)
    ensures r.StreamOk? ==> r.text == Concat(Tokens(Heard(answer))) && r.calls == Calls(Heard(answer))
  {
    var a := provider.Ask(msgs);
    answer := a;
    if a.Refused? {
      NothingHeard(idx);
      return StreamFailed(a.message), 0, a;
    }
    r, emitted := Drain(topic, a.events, idx);
  }

  lemma NothingHeard(idx: nat)
    ensures Tokens([]) == [] && Calls([]) == [] && Concat([]) == "" && TokenEvents([], idx) == []
  {
  }

  /** One more event heard. */
  lemma HeardOneMore(events: seq<ModelEvent>, i: nat, idx: nat)
    requires i < |events|
    ensures var before, after, e := Tokens(events[..i]), Tokens(events[..i + 1]), events[i];
            && Calls(events[..i + 1]) == Calls(events[..i]) + e.toolCalls
            && |after| == |before| + (if e.token == "" then 0 else 1)
            && Concat(after) == Concat(before) + e.token
            && TokenEvents(after, idx) == TokenEvents(before, idx) + if e.token == "" then [] else [TokenEvent(e.token, idx + |before|)]
  {
    assert events[..i + 1][..i] == events[..i];
    ConcatSnoc(Tokens(events[..i]), events[i].token);
    assert Tokens(events[..i]) + [] == Tokens(events[..i]);
  }

  // ---- the monitor along a run ----

  /** Between two steps of a run: the monitor agrees on the state, except right after an announced compaction
      whose closing move was skipped, which breaks the chain. */
  ghost predicate At(trace: seq<Event>, cur: State, idx: nat, broken: bool) {
    && Watch(trace).Some?
    && var m := Watch(trace).value;
    && m.tokens == idx && m.open == None && !m.ended
    && cur != Done && cur != Failed && m.state != Done && m.state != Failed
    && if m.state == cur then m.chained == !broken else cur == Running && m.state == Compacting && m.chained && broken
  }

  /** The run is over: Done with its total, or Failed. */
  ghost predicate Over(trace: seq<Event>, last: State, idx: nat, broken: bool) {
    && IsCompleteRun(trace)
    && Watch(trace).value.state == last
    && Watch(trace).value.tokens == idx
    && Watch(trace).value.chained == !broken
  }

  /** What readers of a finished run can rely on. */
  lemma FinishedRunReads(trace: seq<Event>, last: State, total: nat, broken: bool)
    requires Over(trace, last, total, broken) && (last == Done || last == Failed)
    ensures trace != [] && IsTerminal(trace[|trace| - 1])
    ensures forall n | 0 <= n < |trace| - 1 :: !IsTerminal(trace[n])
    ensures total == CountTokens(trace)
    ensures if last == Done then trace[|trace| - 1] == DoneEvent(total) else trace[|trace| - 1].ErrorEvent?
    ensures Moves(trace) != [] && Moves(trace)[|Moves(trace)| - 1].1 == last
    ensures Contiguous(Moves(trace)) <==> !broken
  {
    CompleteRunEndsOnce(trace);
    TokensAreCounted(trace);
    ChainedMeansContiguous(trace);
    var n := |trace| - 1;
    WatchStep(trace, n);
    assert trace[..n + 1] == trace;
  }

  lemma WatchSnoc(trace: seq<Event>, e: Event)
    ensures Watch(trace + [e]) == match Watch(trace) case None => None case Some(m) => Observe(m, e)
  {
    assert (trace + [e])[..|trace|] == trace;
  }

  lemma AfterMove(trace: seq<Event>, cur: State, to: State, idx: nat, broken: bool)
    requires At(trace, cur, idx, broken) && CanTransit(cur, to) && to != Done && to != Failed
    ensures At(trace + [StateEvent(cur, to)], to, idx, broken)
  {
    WatchSnoc(trace, StateEvent(cur, to));
  }

  /** COMPACTING announced: the run may close it properly, or go on as if it were still running. */
  lemma AfterAnnouncement(trace: seq<Event>, idx: nat)
    requires At(trace, Running, idx, false)
    ensures At(trace + [StateEvent(Running, Compacting)], Compacting, idx, false)
    ensures At(trace + [StateEvent(Running, Compacting)], Running, idx, true)
  {
    WatchSnoc(trace, StateEvent(Running, Compacting));
  }

  lemma {:induction false} AfterToken(trace: seq<Event>, cur: State, text: string, idx: nat, broken: bool)
    requires At(trace, cur, idx, broken)
    ensures At(trace + [TokenEvent(text, idx)], cur, idx + 1, broken)
  {
    WatchSnoc(trace, TokenEvent(text, idx));
  }

  lemma {:induction false} AfterTokens(trace: seq<Event>, cur: State, ts: seq<string>, idx: nat, broken: bool)
    requires At(trace, cur, idx, broken)
    ensures At(trace + TokenEvents(ts, idx), cur, idx + |ts|, broken)
  {
    hide At;
    if ts == [] {
      assert trace + TokenEvents(ts, idx) == trace;
    } else {
      var n := |ts| - 1;
      AfterTokens(trace, cur, ts[..n], idx, broken);
      AfterToken(trace + TokenEvents(ts[..n], idx), cur, ts[n], idx + n, broken);
      assert trace + TokenEvents(ts, idx) == trace + TokenEvents(ts[..n], idx) + [TokenEvent(ts[n], idx + n)];
    }
  }

  /** A call's two events. */
  lemma AfterCall(trace: seq<Event>, idx: nat, broken: bool, started: Event, closed: Event)
    requires At(trace, WaitingTool, idx, broken)
    requires started.ToolEvent? && started.phase == Started && closed.ToolEvent? && closed.phase != Started
    requires started.callId == closed.callId && started.name == closed.name
    ensures At(trace + [started] + [closed], WaitingTool, idx, broken)
  {
    WatchSnoc(trace, started);
    WatchSnoc(trace + [started], closed);
  }

  lemma AfterFailure(trace: seq<Event>, cur: State, idx: nat, broken: bool, code: string, message: string)
    requires At(trace, cur, idx, broken)
    ensures CanTransit(cur, Failed)
    ensures Over(trace + [StateEvent(cur, Failed)] + [ErrorEvent(code, message)], Failed, idx, broken)
  {
    WatchSnoc(trace, StateEvent(cur, Failed));
    WatchSnoc(trace + [StateEvent(cur, Failed)], ErrorEvent(code, message));
  }

  lemma AfterCompletion(trace: seq<Event>, idx: nat, broken: bool)
    requires At(trace, Running, idx, broken)
    ensures Over(trace + [StateEvent(Running, Done)] + [DoneEvent(idx)], Done, idx, broken)
  {
    WatchSnoc(trace, StateEvent(Running, Done));
    WatchSnoc(trace + [StateEvent(Running, Done)], DoneEvent(idx));
  }

  // ---- the transcript ----

  /** One turn of the tool loop: what the assistant said and asked for, and the replies. */
  datatype Round = Round(tokens: seq<string>, text: string, calls: seq<ToolCall>, replies: seq<Chat>)

  /** What executing a call comes to, `run` being the number of executions before it. */
  function Executed(env: Env, run: nat, callId: string, tc: ToolCall): ToolOutcome {
    if tc.name == "dispatch_subagent" && env.multiAgent then ToolAnswered(env.dispatch(run, callId, tc))
    else if !env.toolsEnabled then ToolBroke("tool runtime is disabled")
    else env.tool(run, callId, tc)
  }

  /** The reply to a call: a tool message with its name, its id if it has one, and what its execution returned. */
  predicate Answers(env: Env, run: nat, reply: Chat, call: ToolCall) {
    && (call.id != "" ==> reply.toolCallId == call.id)
    && var o := Executed(env, run, reply.toolCallId, call);
    && o.ToolAnswered?
    && reply == Chat("tool", o.result.content, [], reply.toolCallId, call.name)
  }

  /** Exactly one reply per call, in the order of the calls, executed in that order. */
  ghost predicate Replied(env: Env, run: nat, calls: seq<ToolCall>, replies: seq<Chat>) {
    && |replies| == |calls|
    && forall i | 0 <= i < |calls| :: Answers(env, run + i, replies[i], calls[i])
  }

  /** How many calls some rounds executed. */
  function Runs(rounds: seq<Round>): nat {
    if rounds == [] then 0 else Runs(rounds[..|rounds| - 1]) + |rounds[|rounds| - 1].calls|
  }

  /** A round is what the provider asked for in its `k`-th answer, with one reply per call. */
  ghost predicate IsRound(provider: Provider, env: Env, k: nat, run: nat, request: seq<Chat>, r: Round) {
    && r.calls != []
    && Replied(env, run, r.calls, r.replies)
    && r.tokens == Tokens(Heard(provider.answer(k, request))) && r.text == Concat(r.tokens)
    && r.calls == Calls(Heard(provider.answer(k, request)))
  }

  /** The request after a round: the one before it, what the assistant said and asked for, and the replies. */
  ghost predicate Extends(request: seq<Chat>, r: Round, next: seq<Chat>) {
    next == request + [Chat("assistant", r.text, r.calls, "", "")] + r.replies
  }

  ghost predicate RoundAt(provider: Provider, env: Env, first: nat, run: nat, rounds: seq<Round>, requests: seq<seq<Chat>>, k: nat)
    requires k < |rounds| && k < |requests|
  {
    && IsRound(provider, env, first + k, run + Runs(rounds[..k]), requests[k], rounds[k])
    && (k + 1 < |requests| ==> Extends(requests[k], rounds[k], requests[k + 1]))
  }

  /** Each round answers its request, and the next request goes on from there. */
  ghost predicate Conversed(provider: Provider, env: Env, first: nat, run: nat, rounds: seq<Round>, requests: seq<seq<Chat>>) {
    && |rounds| <= |requests| <= |rounds| + 1
    && forall k | 0 <= k < |rounds| :: RoundAt(provider, env, first, run, rounds, requests, k)
  }

  lemma FirstRequest(provider: Provider, env: Env, first: nat, run: nat, request: seq<Chat>)
    ensures Conversed(provider, env, first, run, [], [] + [request]) && ([] + [request])[0] == request && Runs([]) == 0
  {
  }

  lemma {:induction false} RoundDone(provider: Provider, env: Env, first: nat, run: nat, rounds: seq<Round>,
                                     requests: seq<seq<Chat>>, r: Round, next: seq<Chat>)
    requires Conversed(provider, env, first, run, rounds, requests) && |requests| == |rounds| + 1
    requires IsRound(provider, env, first + |rounds|, run + Runs(rounds), requests[|rounds|], r)
    requires Extends(requests[|rounds|], r, next)
    ensures Conversed(provider, env, first, run, rounds + [r], requests + [next])
    ensures Runs(rounds + [r]) == Runs(rounds) + |r.calls|
    ensures (requests + [next])[0] == requests[0]
  {
    RunsSnoc(rounds, r);
    hide IsRound, Extends, Runs;
    var longer, all := rounds + [r], requests + [next];
    forall k | 0 <= k < |longer| ensures RoundAt(provider, env, first, run, longer, all, k) {
      assert longer[..k] == rounds[..k];
      if k < |rounds| {
        assert RoundAt(provider, env, first, run, rounds, requests, k);
      } else {
        assert rounds[..k] == rounds;
      }
    }
  }

  lemma {:induction false} RunsSnoc(rounds: seq<Round>, r: Round)
    ensures Runs(rounds + [r]) == Runs(rounds) + |r.calls|
  {
    assert (rounds + [r])[..|rounds|] == rounds;
  }

  lemma NoCallsTraced(env: Env, run: nat, calls: seq<ToolCall>)
    ensures CallsTrace(env, run, calls, []) == [] && Replied(env, run, calls[..0], [])
  {
  }

  lemma RepliedNext(env: Env, run: nat, calls: seq<ToolCall>, replies: seq<Chat>, reply: Chat)
    requires |replies| < |calls| && Replied(env, run, calls[..|replies|], replies)
    requires Answers(env, run + |replies|, reply, calls[|replies|])
    ensures |replies| + 1 <= |calls| && Replied(env, run, calls[..|replies| + 1], replies + [reply])
  {
    hide Answers;
  }

  /** What a broken call leaves. */
  lemma {:induction false} CallBroke(env: Env, run: nat, calls: seq<ToolCall>, replies: seq<Chat>, callId: string,
                                     before: seq<Event>, traced: seq<Event>, trace: seq<Event>)
    requires |replies| < |calls| && Replied(env, run, calls[..|replies|], replies)
    requires traced == before + CallsTrace(env, run, calls, replies)
    requires var tc := calls[|replies|];
             var o := Executed(env, run + |replies|, callId, tc);
             o.ToolBroke? && trace == traced + [StartEvent(callId, tc)] + [CloseEvent(callId, tc, o)]
                                      + Failure(WaitingTool, "tool_execute", o.message)
    ensures before <= trace && Breaks(env, run, calls, trace[|before|..])
  {
    hide CallsTrace, Replied, Executed, StartEvent, CloseEvent, Failure;
    var tail := BrokenTail(env, run, calls, replies, callId);
    assert trace == before + tail;
    assert trace[|before|..] == tail;
    assert IsBrokenTail(env, run, calls, replies, callId, tail);
  }

  lemma ItIsRound(provider: Provider, env: Env, k: nat, run: nat, request: seq<Chat>, r: Round)
    requires r.calls != [] && Replied(env, run, r.calls, r.replies)
    requires r.tokens == Tokens(Heard(provider.answer(k, request))) && r.text == Concat(r.tokens)
    requires r.calls == Calls(Heard(provider.answer(k, request)))
    ensures IsRound(provider, env, k, run, request, r)
  {
  }

  lemma ItExtends(request: seq<Chat>, r: Round, next: seq<Chat>)
    requires next == request + [Chat("assistant", r.text, r.calls, "", "")] + r.replies
    ensures Extends(request, r, next)
  {
  }

  lemma ItEnds(env: Env, answer: Answer, done: nat, r: Streamed, ok: bool, last: Event)
    requires IsReading(answer, r)
    requires if r.StreamFailed? then !ok && last == ErrorEvent("llm_chunk", r.message)
             else if r.calls == [] then ok && last.DoneEvent?
             else if !env.toolsEnabled && !(env.multiAgent && OnlySubagents(r.calls)) then !ok && EndedBy(last, "tool_unavailable")
             else if done >= env.MaxSteps() then !ok && EndedBy(last, "tool_loop_limit")
             else !ok && EndedBy(last, "tool_execute")
    ensures EndsFor(env, answer, done, ok, last)
  {
  }

  /** One request more than rounds, no more rounds than configured (5 if not), and exactly that many if that is the error. */
  ghost predicate StaysWithin(env: Env, rounds: seq<Round>, asked: seq<seq<Chat>>, trace: seq<Event>) {
    var limit := if env.toolMaxSteps > 0 then env.toolMaxSteps else 5;
    && |asked| == |rounds| + 1 <= limit + 1
    && trace != []
    && (EndedBy(trace[|trace| - 1], "tool_loop_limit") ==> |rounds| == limit)
  }

  /** A conversation with the model, `first` being the requests and `run` the executions before it: its rounds, its end, and
      its part of the trace, which follows `before`. */
  ghost predicate Converses(provider: Provider, env: Env, first: nat, run: nat, rounds: seq<Round>, asked: seq<seq<Chat>>, ok: bool,
                            total: nat, before: seq<Event>, trace: seq<Event>)
  {
    && StaysWithin(env, rounds, asked, trace)
    && Conversed(provider, env, first, run, rounds, asked)
    && var answer := provider.answer(first + |rounds|, asked[|rounds|]);
    && EndsFor(env, answer, |rounds|, ok, trace[|trace| - 1])
    && before <= trace && LoopTrace(env, run, rounds, answer, ok, total, trace[|before|..])
  }

  lemma ItConverses(provider: Provider, env: Env, first: nat, run: nat, rounds: seq<Round>, asked: seq<seq<Chat>>, ok: bool,
                    total: nat, before: seq<Event>, trace: seq<Event>)
    requires |asked| == |rounds| + 1 <= env.MaxSteps() + 1 && trace != []
    requires EndedBy(trace[|trace| - 1], "tool_loop_limit") ==> |rounds| == env.MaxSteps()
    requires Conversed(provider, env, first, run, rounds, asked)
    requires EndsFor(env, provider.answer(first + |rounds|, asked[|rounds|]), |rounds|, ok, trace[|trace| - 1])
    requires before <= trace
    requires LoopTrace(env, run, rounds, provider.answer(first + |rounds|, asked[|rounds|]), ok, total, trace[|before|..])
    ensures Converses(provider, env, first, run, rounds, asked, ok, total, before, trace)
  {
    hide Conversed, EndsFor, LoopTrace;
  }

  lemma LimitIsReached(env: Env, answer: Answer, done: nat, ok: bool, last: Event)
    requires EndsFor(env, answer, done, ok, last) && done <= env.MaxSteps()
    ensures EndedBy(last, "tool_loop_limit") ==> done == env.MaxSteps()
  {
    hide Errs, Calls, Heard, OnlySubagents;
  }

  lemma {:induction false} FailureTail(env: Env, run: nat, total: nat, answer: Answer, done: nat, r: Streamed, code: string,
                                       message: string, before: seq<Event>, trace: seq<Event>)
    requires IsReading(answer, r)
    requires trace == before + Failure(Running, code, message)
    requires if r.StreamFailed? then code == "llm_chunk" && message == r.message
             else r.calls != [] && if !env.toolsEnabled && !(env.multiAgent && OnlySubagents(r.calls)) then code == "tool_unavailable"
                                   else done >= env.MaxSteps() && code == "tool_loop_limit"
    ensures before <= trace && TailFor(env, run, total, answer, done, false, trace[|before|..])
  {
    hide Errs, Calls, Heard, OnlySubagents;
    assert trace[|before|..] == Failure(Running, code, message);
  }

  lemma {:induction false} DoneTail(env: Env, run: nat, total: nat, answer: Answer, done: nat, r: Streamed,
                                    before: seq<Event>, trace: seq<Event>)
    requires IsReading(answer, r) && r.StreamOk? && r.calls == []
    requires trace == before + [StateEvent(Running, Done), DoneEvent(total)]
    ensures before <= trace && TailFor(env, run, total, answer, done, true, trace[|before|..])
  {
    hide Errs, Calls, Heard, OnlySubagents;
    assert trace[|before|..] == [StateEvent(Running, Done), DoneEvent(total)];
  }

  lemma {:induction false} BrokenRoundTail(env: Env, run: nat, total: nat, answer: Answer, done: nat, r: Streamed,
                                           tail: seq<Event>)
    requires IsReading(answer, r) && r.StreamOk? && r.calls != []
    requires (env.toolsEnabled || (env.multiAgent && OnlySubagents(r.calls))) && done < env.MaxSteps()
    requires tail != [] && tail[0] == StateEvent(Running, WaitingTool) && Breaks(env, run, r.calls, tail[1..])
    ensures TailFor(env, run, total, answer, done, false, tail)
  {
  }

  lemma NoRoundsTraced(env: Env, run: nat)
    ensures RoundsTrace(env, run, []) == [] && TokensIn([]) == 0
  {
  }

  lemma {:induction false} RoundTraced(env: Env, run: nat, rounds: seq<Round>, r: Round, before: seq<Event>,
                                       answered: seq<Event>, trace: seq<Event>)
    requires answered == before + RoundsTrace(env, run, rounds) + TokenEvents(r.tokens, TokensIn(rounds))
    requires trace == answered + [StateEvent(Running, WaitingTool)] + CallsTrace(env, run + Runs(rounds), r.calls, r.replies)
                      + [StateEvent(WaitingTool, Running)]
    ensures trace == before + RoundsTrace(env, run, rounds + [r])
    ensures TokensIn(rounds + [r]) == TokensIn(rounds) + |r.tokens|
  {
    RoundsTraceSnoc(env, run, rounds, r);
    hide RoundsTrace, TokenEvents, CallsTrace, Runs, TokensIn;
  }

  lemma LoopMoves()
    ensures CanTransit(Running, WaitingTool) && CanTransit(WaitingTool, Running)
  {
  }

  // ---- the run ----

  datatype Task = Task(runId: string, prompt: string, systemPrompt: string)

  datatype HookAnswer = NoHook | HookBroke(message: string) | HookSaid(allowed: bool, append: seq<string>)

  /** Everything the run depends on and cannot see into; indices count the uses within the run. */
  datatype Env = Env(
    policy: C.CompactPolicy,
    toolsEnabled: bool, multiAgent: bool, toolMaxSteps: int,
    skills: Option<string>, rag: Option<string>,
    hook: HookAnswer, hookFailClosed: bool,
    historyFails: nat -> bool,
    tool: (nat, string, ToolCall) -> ToolOutcome,
    dispatch: (nat, string, ToolCall) -> ToolResult,
    newId: nat -> string)
  {
    function MaxSteps(): nat {
      if toolMaxSteps <= 0 then 5 else toolMaxSteps
    }
  }

  const DEFAULT_PROMPT := "You are AgentForge runtime, a helpful assistant. Answer concisely."

  /** What an allowing hook appends, in order, blank lines left out. */
  ghost predicate IsSaid(env: Env, said: seq<Chat>) {
    var lines := if env.hook.HookSaid? && env.hook.allowed then env.hook.append else [];
    exists at: seq<nat> :: SaidAt(lines, at) && said == HookLines(lines, at)
  }

  /** The positions of the lines that are not blank. */
  ghost predicate SaidAt(lines: seq<string>, at: seq<nat>) {
    Picks(at, |lines|, i => 0 <= i < |lines| && !Blank(lines[i]))
  }

  function HookLines(lines: seq<string>, at: seq<nat>): seq<Chat>
    requires forall k | 0 <= k < |at| :: at[k] < |lines|
  {
    seq(|at|, k requires 0 <= k < |at| => Chat("system", lines[at[k]], [], "", ""))
  }

  /** The lines between the system prompt and the history: skills and retrieved context unless empty, then the hook's. */
  ghost predicate AreExtras(env: Env, extras: seq<Chat>) {
    exists said ::
      && IsSaid(env, said)
      && extras == (if env.skills.None? || env.skills.value == "" then [] else [Chat("system", env.skills.value, [], "", "")])
                   + (if env.rag.None? || env.rag.value == "" then [] else [Chat("system", env.rag.value, [], "", "")])
                   + said
  }

  /** A first request: the system prompt or its default, the extra system lines, and every message shown, in order. */
  ghost predicate Opens(env: Env, t: Task, prior: seq<H.Message>, first: seq<Chat>) {
    var n := |first| - |prior|;
    && n >= 1
    && first[0] == Chat("system", if Blank(t.systemPrompt) then DEFAULT_PROMPT else t.systemPrompt, [], "", "")
    && AreExtras(env, first[1..n])
    && forall i | 0 <= i < |prior| :: first[n + i] == Chat(prior[i].role, prior[i].content, [], "", "")
  }

  lemma {:induction false} ItOpens(env: Env, t: Task, prior: seq<H.Message>, extras: seq<Chat>, first: seq<Chat>)
    requires AreExtras(env, extras)
    requires first == [Chat("system", if Blank(t.systemPrompt) then DEFAULT_PROMPT else t.systemPrompt, [], "", "")] + extras
                      + seq(|prior|, i requires 0 <= i < |prior| => Chat(prior[i].role, prior[i].content, [], "", ""))
    ensures Opens(env, t, prior, first)
  {
    hide AreExtras;
    assert first[1..|first| - |prior|] == extras;
  }

  function StartEvent(callId: string, tc: ToolCall): Event {
    ToolEvent(callId, tc.name, Started, "", "", false)
  }

  /** How a call is closed on the timeline: completed, or failed with the error it reports or, failing that, its content. */
  function CloseEvent(callId: string, tc: ToolCall, o: ToolOutcome): Event {
    match o
    case ToolBroke(message) => ToolEvent(callId, tc.name, CallFailed, "", message, true)
    case ToolAnswered(r) =>
      ToolEvent(callId, tc.name, if r.isError then CallFailed else Completed, TimelineText(r.content),
                TimelineText(if r.errorMsg != "" then r.errorMsg else if r.isError then r.content else ""), r.isError)
  }

  /** The end of a failed run. */
  function Failure(from: State, code: string, message: string): seq<Event> {
    [StateEvent(from, Failed), ErrorEvent(code, message)]
  }

  predicate EndedBy(last: Event, code: string) {
    last.ErrorEvent? && last.code == code
  }

  // ---- the trace ----

  /** The timeline of executed calls: for each a started and a closing event, from what its execution returned. */
  function CallsTrace(env: Env, run: nat, calls: seq<ToolCall>, replies: seq<Chat>): seq<Event> {
    if replies == [] || |replies| > |calls| then []
    else
      var n := |replies| - 1;
      CallsTrace(env, run, calls, replies[..n]) + [StartEvent(replies[n].toolCallId, calls[n])] +
      [CloseEvent(replies[n].toolCallId, calls[n], Executed(env, run + n, replies[n].toolCallId, calls[n]))]
  }

  lemma {:induction false} CallsTraceSnoc(env: Env, run: nat, calls: seq<ToolCall>, replies: seq<Chat>, reply: Chat)
    requires |replies| < |calls|
    ensures CallsTrace(env, run, calls, replies + [reply]) ==
            CallsTrace(env, run, calls, replies) + [StartEvent(reply.toolCallId, calls[|replies|])] +
            [CloseEvent(reply.toolCallId, calls[|replies|], Executed(env, run + |replies|, reply.toolCallId, calls[|replies|]))]
  {
    assert (replies + [reply])[..|replies|] == replies;
  }

  /** A round's part of the trace: its tokens, numbered on, and its calls between the two moves. */
  function RoundTrace(env: Env, run: nat, idx: nat, r: Round): seq<Event> {
    TokenEvents(r.tokens, idx) + [StateEvent(Running, WaitingTool)] + CallsTrace(env, run, r.calls, r.replies) +
    [StateEvent(WaitingTool, Running)]
  }

  function TokensIn(rounds: seq<Round>): nat {
    if rounds == [] then 0 else TokensIn(rounds[..|rounds| - 1]) + |rounds[|rounds| - 1].tokens|
  }

  function RoundsTrace(env: Env, run: nat, rounds: seq<Round>): seq<Event> {
    if rounds == [] then []
    else
      var front := rounds[..|rounds| - 1];
      RoundsTrace(env, run, front) + RoundTrace(env, run + Runs(front), TokensIn(front), rounds[|rounds| - 1])
  }

  lemma {:induction false} RoundsTraceSnoc(env: Env, run: nat, rounds: seq<Round>, r: Round)
    ensures RoundsTrace(env, run, rounds + [r]) == RoundsTrace(env, run, rounds) + RoundTrace(env, run + Runs(rounds), TokensIn(rounds), r)
    ensures TokensIn(rounds + [r]) == TokensIn(rounds) + |r.tokens|
  {
    assert (rounds + [r])[..|rounds|] == rounds;
  }

  /** The end of a run whose tool broke: the calls that were answered, then the one that broke. */
  function BrokenTail(env: Env, run: nat, calls: seq<ToolCall>, replies: seq<Chat>, callId: string): seq<Event>
    requires |replies| < |calls|
  {
    var tc := calls[|replies|];
    var o := Executed(env, run + |replies|, callId, tc);
    CallsTrace(env, run, calls, replies) + [StartEvent(callId, tc)] + [CloseEvent(callId, tc, o)] +
    Failure(WaitingTool, "tool_execute", if o.ToolBroke? then o.message else "")
  }

  ghost predicate IsBrokenTail(env: Env, run: nat, calls: seq<ToolCall>, replies: seq<Chat>, callId: string, tail: seq<Event>) {
    && |replies| < |calls|
    && Replied(env, run, calls[..|replies|], replies)
    && Executed(env, run + |replies|, callId, calls[|replies|]).ToolBroke?
    && tail == BrokenTail(env, run, calls, replies, callId)
  }

  ghost predicate Breaks(env: Env, run: nat, calls: seq<ToolCall>, tail: seq<Event>) {
    exists replies, callId :: IsBrokenTail(env, run, calls, replies, callId, tail)
  }

  predicate IsFailure(tail: seq<Event>, code: string) {
    |tail| == 2 && tail[1].ErrorEvent? && tail == Failure(Running, code, tail[1].message)
  }

  /** What follows the last answer's tokens, `total` being all tokens. */
  ghost predicate TailFor(env: Env, run: nat, total: nat, answer: Answer, done: nat, ok: bool, tail: seq<Event>) {
    var calls := Calls(Heard(answer));
    if Errs(answer) then !ok && tail == Failure(Running, "llm_chunk", ErrMessage(answer))
    else if calls == [] then ok && tail == [StateEvent(Running, Done), DoneEvent(total)]
    else if !env.toolsEnabled && !(env.multiAgent && OnlySubagents(calls)) then !ok && IsFailure(tail, "tool_unavailable")
    else if done >= env.MaxSteps() then !ok && IsFailure(tail, "tool_loop_limit")
    else !ok && tail != [] && tail[0] == StateEvent(Running, WaitingTool) && Breaks(env, run, calls, tail[1..])
  }

  /** The whole loop's trace: the rounds, the last answer's tokens, and an end that fits it. */
  ghost predicate LoopTrace(env: Env, run: nat, rounds: seq<Round>, answer: Answer, ok: bool, total: nat, trace: seq<Event>) {
    var tokens := Tokens(Heard(answer));
    var before := RoundsTrace(env, run, rounds) + TokenEvents(tokens, TokensIn(rounds));
    && total == TokensIn(rounds) + |tokens|
    && before <= trace
    && TailFor(env, run + Runs(rounds), total, answer, |rounds|, ok, trace[|before|..])
  }

  lemma {:induction false} LoopTraceEnds(env: Env, run: nat, rounds: seq<Round>, answer: Answer, ok: bool, total: nat,
                                         before: seq<Event>, answered: seq<Event>, trace: seq<Event>)
    requires total == TokensIn(rounds) + |Tokens(Heard(answer))|
    requires answered == before + RoundsTrace(env, run, rounds) + TokenEvents(Tokens(Heard(answer)), TokensIn(rounds))
    requires answered <= trace && TailFor(env, run + Runs(rounds), total, answer, |rounds|, ok, trace[|answered|..])
    ensures before <= trace && LoopTrace(env, run, rounds, answer, ok, total, trace[|before|..])
  {
    hide TailFor, RoundsTrace, TokenEvents, Tokens, Heard, Runs, TokensIn;
    var rest := RoundsTrace(env, run, rounds) + TokenEvents(Tokens(Heard(answer)), TokensIn(rounds));
    var tail := trace[|answered|..];
    assert trace == before + (rest + tail);
    assert trace[|before|..] == rest + tail && (rest + tail)[|rest|..] == tail;
  }

  /** The moves between the start of a run and its first request: compaction shows if the policy folds. */
  function Opening(folds: bool, foldFails: bool): seq<Event> {
    if !folds then []
    else if foldFails then [StateEvent(Running, Compacting)]
    else [StateEvent(Running, Compacting), StateEvent(Compacting, Running)]
  }

  /** How the loop ends after `done` rounds, decided by the last answer and, for a broken tool, by the tool. */
  ghost predicate EndsFor(env: Env, answer: Answer, done: nat, ok: bool, last: Event) {
    var calls := Calls(Heard(answer));
    if Errs(answer) then !ok && last == ErrorEvent("llm_chunk", ErrMessage(answer))
    else if calls == [] then ok && last.DoneEvent?
    else if !env.toolsEnabled && !(env.multiAgent && OnlySubagents(calls)) then
      !ok && EndedBy(last, "tool_unavailable")
    else if done >= env.MaxSteps() then !ok && EndedBy(last, "tool_loop_limit")
    else !ok && EndedBy(last, "tool_execute")
  }

  ghost predicate OnlySubagents(calls: seq<ToolCall>) {
    calls != [] && forall c | c in calls :: c.name == "dispatch_subagent"
  }

  method HasOnlySubagents(calls: seq<ToolCall>) returns (only: bool)
    ensures only <==> OnlySubagents(calls)
  {
    if |calls| == 0 {
      return false;
    }
    for i := 0 to |calls|
      invariant forall k | 0 <= k < i :: calls[k].name == "dispatch_subagent"
    {
      if calls[i].name != "dispatch_subagent" {
        assert calls[i] in calls;
        return false;
      }
    }
    only := true;
  }

  function TimelineText(value: string): string {
    if |value| <= 4096 then value else value[..4096] + "\n… output truncated for the timeline"
  }

  /** Short texts are shown whole, longer ones cut after 4096 characters, with a note. */
  lemma TimelineTextIsCut(value: string)
    ensures |value| <= 4096 ==> TimelineText(value) == value
    ensures |value| > 4096 ==> value[..4096] < TimelineText(value) && TimelineText(value)[4096..] == "\n… output truncated for the timeline"
  {
  }

  function UserMessage(id: H.Id, prompt: string): H.Message {
    H.Message(id, "user", prompt, true, 1, 0, map[])
  }

  /** The history the model sees: the rendered one, or its head, its tail and a summary once it has been folded. */
  ghost predicate IsShown(policy: C.CompactPolicy, first: seq<H.Message>, prior: seq<H.Message>, foldFails: bool) {
    if policy.WillFold(first) && !foldFails then
      && prior != [] && |prior| < |first|
      && prior == first[..policy.KeepHead()] + first[|first| - policy.KeepTail()..] + [prior[|prior| - 1]]
      && prior[|prior| - 1].content == C.Summarize(first[policy.KeepHead()..|first| - policy.KeepTail()])
    else prior == first
  }

  /** Whether folded or not, what is shown holds the newest message. */
  lemma NewestIsShown(policy: C.CompactPolicy, first: seq<H.Message>, prior: seq<H.Message>, foldFails: bool)
    requires IsShown(policy, first, prior, foldFails) && first != []
    ensures first[|first| - 1] in prior
  {
    hide C.TotalChars, C.Summarize;
    if policy.WillFold(first) && !foldFails {
      var tail := first[|first| - policy.KeepTail()..];
      assert tail[|tail| - 1] == first[|first| - 1] && tail[|tail| - 1] in tail;
    }
  }

  lemma PromptIsAsked(env: Env, t: Task, prior: seq<H.Message>, request: seq<Chat>, m: H.Message)
    requires Opens(env, t, prior, request) && m in prior
    ensures Chat(m.role, m.content, [], "", "") in request
  {
    hide AreExtras;
    var i :| 0 <= i < |prior| && prior[i] == m;
    assert request[|request| - |prior| + i] == Chat(m.role, m.content, [], "", "");
  }

  class AgentRunner {
    const env: Env
    const provider: Provider
    const store: H.RunHistory
    var toolRuns: nat
    var issued: nat
    var historyOps: nat

    constructor (env: Env, provider: Provider, store: H.RunHistory)
      ensures this.env == env && this.provider == provider && this.store == store
    {
      this.env, this.provider, this.store := env, provider, store;
      toolRuns, issued, historyOps := 0, 0, 0;
    }

    /** Whether the next history operation fails. */
    method NextFails() returns (fails: bool)
      modifies this`historyOps
      ensures fails == env.historyFails(old(historyOps)) && historyOps == old(historyOps) + 1
    {
      fails := env.historyFails(historyOps);
      historyOps := historyOps + 1;
    }

    /** A history append whose failure is only logged. */
    method Remember(role: string, content: string)
      requires store.Valid()
      modifies store, this`historyOps
      ensures store.Valid() && historyOps == old(historyOps) + 1
      ensures store.Rendered() == old(store.Rendered()) +
                                  if env.historyFails(old(historyOps)) then [] else [H.Message(old(store.nextId), role, content, true, 1, 0, map[])]
    {
      var fails := NextFails();
      if !fails {
        var id := store.Append(H.Message(0, role, content, true, 0, 0, map[]));
      }
    }

    method ExecuteToolCall(callId: string, tc: ToolCall) returns (o: ToolOutcome)
      modifies this`toolRuns
      ensures o == Executed(env, old(toolRuns), callId, tc) && toolRuns == old(toolRuns) + 1
      ensures tc.name == "dispatch_subagent" && env.multiAgent ==> o == ToolAnswered(env.dispatch(old(toolRuns), callId, tc))
      ensures !(tc.name == "dispatch_subagent" && env.multiAgent) && env.toolsEnabled ==> o == env.tool(old(toolRuns), callId, tc)
      ensures !(tc.name == "dispatch_subagent" && env.multiAgent) && !env.toolsEnabled ==> o.ToolBroke?
    {
      if tc.name == "dispatch_subagent" && env.multiAgent {
        o := ToolAnswered(env.dispatch(toolRuns, callId, tc));
      } else if !env.toolsEnabled {
        o := ToolBroke("tool runtime is disabled");
      } else {
        o := env.tool(toolRuns, callId, tc);
      }
      toolRuns := toolRuns + 1;
    }

    /** One requested call: a started event, the execution, a closing event; a broken tool ends the run. The closing event
        says what came of it: completed exactly if the tool answered without an error, and if it failed, why. */
    method RunCall(topic: Topic, tc: ToolCall, ghost idx: nat, ghost broken: bool) returns (ok: bool, reply: Chat)
      requires store.Valid() && At(topic.trace, WaitingTool, idx, broken)
      modifies topic, store, this`toolRuns, this`issued, this`historyOps
      ensures store.Valid() && toolRuns == old(toolRuns) + 1
      ensures ok ==> Answers(env, old(toolRuns), reply, tc) && At(topic.trace, WaitingTool, idx, broken)
      ensures !ok ==> Over(topic.trace, Failed, idx, broken) && topic.trace != []
                      && EndedBy(topic.trace[|topic.trace| - 1], "tool_execute")
      ensures var callId := if tc.id == "" then env.newId(old(issued)) else tc.id;
              var o := Executed(env, old(toolRuns), callId, tc);
              && issued == old(issued) + (if tc.id == "" then 1 else 0)
              && (ok <==> o.ToolAnswered?) && (ok ==> reply.toolCallId == callId)
              && topic.trace == old(topic.trace) + [StartEvent(callId, tc)] + [CloseEvent(callId, tc, o)] +
                                (if ok then [] else Failure(WaitingTool, "tool_execute", o.message))
              && (ok ==> store.Rendered() == old(store.Rendered()) +
                                             (if env.historyFails(old(historyOps)) then []
                                              else [H.Message(old(store.nextId), "tool", o.result.content, true, 1, 0, map[])]))
      ensures var callId := if tc.id == "" then env.newId(old(issued)) else tc.id;
              var o := Executed(env, old(toolRuns), callId, tc);
              && |topic.trace| >= |old(topic.trace)| + 2
              && topic.trace[|old(topic.trace)|] == ToolEvent(callId, tc.name, Started, "", "", false)
              && var closed := topic.trace[|old(topic.trace)| + 1];
              && closed.ToolEvent? && closed.callId == callId && closed.name == tc.name && closed.phase != Started
              && (closed.phase == Completed <==> o.ToolAnswered? && !o.result.isError) && (closed.isError <==> closed.phase == CallFailed)
              && (o.ToolBroke? ==> closed.result == "" && closed.message == o.message)
              && (o.ToolAnswered? ==>
                    && closed.result == TimelineText(o.result.content)
                    && (o.result.errorMsg != "" ==> closed.message == TimelineText(o.result.errorMsg))
                    && (o.result.errorMsg == "" && o.result.isError ==> closed.message == closed.result)
                    && (o.result.errorMsg == "" && !o.result.isError ==> closed.message == ""))
    {
      hide At, Over, H.WellKept, H.RenderOf, TimelineText;
      var callId := tc.id;
      if callId == "" {
        callId := env.newId(issued);
        issued := issued + 1;
      }
      ghost var before := topic.trace;
      var started := ToolEvent(callId, tc.name, Started, "", "", false);
      topic.Publish(started);
      var o := ExecuteToolCall(callId, tc);
      hide Executed;
      if o.ToolBroke? {
        var closed := ToolEvent(callId, tc.name, CallFailed, "", o.message, true);
        topic.Publish(closed);
        AfterCall(before, idx, broken, started, closed);
        GiveUp(topic, WaitingTool, "tool_execute", o.message, idx, broken);
        return false, Chat("", "", [], "", "");
      }
      var ev := o.result;
      var toolError := if ev.errorMsg == "" && ev.isError then ev.content else ev.errorMsg;
      var closed := ToolEvent(callId, tc.name, if ev.isError then CallFailed else Completed,
                              TimelineText(ev.content), TimelineText(toolError), ev.isError);
      topic.Publish(closed);
      AfterCall(before, idx, broken, started, closed);
      TimelineTextIsCut("");
      Remember("tool", ev.content);
      return true, Chat("tool", ev.content, [], callId, tc.name);
    }

    method RunCalls(topic: Topic, calls: seq<ToolCall>, ghost idx: nat, ghost broken: bool)
      returns (ok: bool, replies: seq<Chat>)
      requires store.Valid() && At(topic.trace, WaitingTool, idx, broken)
      modifies topic, store, this`toolRuns, this`issued, this`historyOps
      ensures store.Valid()
      ensures ok ==> Replied(env, old(toolRuns), calls, replies) && At(topic.trace, WaitingTool, idx, broken)
      ensures ok ==> toolRuns == old(toolRuns) + |calls|
      ensures !ok ==> Over(topic.trace, Failed, idx, broken)
      ensures !ok ==> topic.trace != [] && EndedBy(topic.trace[|topic.trace| - 1], "tool_execute")
      ensures ok ==> topic.trace == old(topic.trace) + CallsTrace(env, old(toolRuns), calls, replies)
      ensures !ok ==> old(topic.trace) <= topic.trace && Breaks(env, old(toolRuns), calls, topic.trace[|old(topic.trace)|..])
    {
      hide *;
      ghost var run, before := toolRuns, topic.trace;
      replies := [];
      NoCallsTraced(env, run, calls);
      for i := 0 to |calls|
        invariant store.Valid() && At(topic.trace, WaitingTool, idx, broken)
        invariant toolRuns == run + i
        invariant |replies| == i && Replied(env, run, calls[..i], replies)
        invariant topic.trace == before + CallsTrace(env, run, calls, replies)
      {
        ghost var callId := if calls[i].id == "" then env.newId(issued) else calls[i].id;
        ghost var traced := topic.trace;
        var done, reply := RunCall(topic, calls[i], idx, broken);
        if !done {
          CallBroke(env, run, calls, replies, callId, before, traced, topic.trace);
          return false, replies;
        }
        CallsTraceSnoc(env, run, calls, replies, reply);
        RepliedNext(env, run, calls, replies, reply);
        replies := replies + [reply];
      }
      assert calls[..|calls|] == calls;
      ok := true;
    }

    method Move(topic: Topic, from: State, to: State, ghost idx: nat, ghost broken: bool)
      requires At(topic.trace, from, idx, broken) && CanTransit(from, to) && to != Done && to != Failed
      modifies topic
      ensures At(topic.trace, to, idx, broken) && topic.trace == old(topic.trace) + [StateEvent(from, to)]
    {
      AfterMove(topic.trace, from, to, idx, broken);
      var moved := topic.PublishState(from, to);
    }

    method GiveUp(topic: Topic, from: State, code: string, message: string, ghost idx: nat, ghost broken: bool)
      requires At(topic.trace, from, idx, broken)
      modifies topic
      ensures Over(topic.trace, Failed, idx, broken) && topic.trace == old(topic.trace) + Failure(from, code, message)
      ensures topic.trace != [] && EndedBy(topic.trace[|topic.trace| - 1], code)
      ensures topic.trace[|topic.trace| - 1] == ErrorEvent(code, message)
    {
      AfterFailure(topic.trace, from, idx, broken, code, message);
      topic.Fail(from, code, message);
    }

    method Complete(topic: Topic, total: nat, ghost broken: bool)
      requires At(topic.trace, Running, total, broken)
      modifies topic
      ensures Over(topic.trace, Done, total, broken)
      ensures topic.trace == old(topic.trace) + [StateEvent(Running, Done), DoneEvent(total)]
    {
      AfterCompletion(topic.trace, total, broken);
      var moved := topic.PublishState(Running, Done);
      topic.Publish(DoneEvent(total));
    }

    method AskModel(topic: Topic, msgs: seq<Chat>, idx: nat, ghost broken: bool) returns (r: Streamed, emitted: nat)
      requires At(topic.trace, Running, idx, broken)
      modifies topic, provider
      ensures At(topic.trace, Running, idx + emitted, broken)
      ensures var tokens := Tokens(Heard(provider.answer(|old(provider.requests)|, msgs)));
              emitted == |tokens| && topic.trace == old(topic.trace) + TokenEvents(tokens, idx)
      ensures provider.requests == old(provider.requests) + [msgs]
      ensures var answer := provider.answer(|old(provider.requests)|, msgs);
              && IsReading(answer, r)
              && (r.StreamOk? ==> r.text == Concat(Tokens(Heard(answer))) && r.calls == Calls(Heard(answer)))
              && (r.StreamFailed? <==> Errs(answer))
    {
      ghost var before, answer := topic.trace, provider.answer(|provider.requests|, msgs);
      AfterTokens(before, Running, Tokens(Heard(answer)), idx, broken);
      ghost var answered;
      r, emitted, answered := StreamOnce(provider, topic, msgs, idx);
    }

    method RememberAnswer(r: Streamed)
      requires store.Valid() && r.StreamOk?
      modifies store, this`historyOps
      ensures store.Valid()
      ensures store.Rendered() == old(store.Rendered()) +
                                  (if (r.text == "" && r.calls == []) || env.historyFails(old(historyOps)) then []
                                   else [H.Message(old(store.nextId), "assistant", r.text, true, 1, 0, map[])])
    {
      hide *;
      if r.text != "" || |r.calls| > 0 {
        Remember("assistant", r.text);
      }
    }

    /** The run fails after an answer, for the reason the answer gives. */
    method FailAfter(topic: Topic, r: Streamed, code: string, message: string, ghost total: nat, ghost toolRounds: nat,
                     ghost answer: Answer, ghost broken: bool)
      requires At(topic.trace, Running, total, broken)
      requires IsReading(answer, r)
      requires if r.StreamFailed? then code == "llm_chunk" && message == r.message
               else r.calls != [] &&
                    if !env.toolsEnabled && !(env.multiAgent && OnlySubagents(r.calls)) then code == "tool_unavailable"
                    else toolRounds >= env.MaxSteps() && code == "tool_loop_limit"
      modifies topic
      ensures Over(topic.trace, Failed, total, broken)
      ensures topic.trace == old(topic.trace) + Failure(Running, code, message) && topic.trace != []
      ensures EndsFor(env, answer, toolRounds, false, topic.trace[|topic.trace| - 1])
      ensures old(topic.trace) <= topic.trace
      ensures TailFor(env, toolRuns, total, answer, toolRounds, false, topic.trace[|old(topic.trace)|..])
    {
      hide *;
      ghost var before := topic.trace;
      GiveUp(topic, Running, code, message, total, broken);
      FailureTail(env, toolRuns, total, answer, toolRounds, r, code, message, before, topic.trace);
      ItEnds(env, answer, toolRounds, r, false, topic.trace[|topic.trace| - 1]);
    }

    /** Whether the run ends with an answer, and how, or may go on to its calls. */
    method Decide(topic: Topic, r: Streamed, total: nat, toolRounds: nat, ghost answer: Answer, ghost broken: bool)
      returns (ended: bool, ok: bool)
      requires At(topic.trace, Running, total, broken)
      requires IsReading(answer, r)
      modifies topic
      ensures ended ==>
                && Over(topic.trace, if ok then Done else Failed, total, broken)
                && topic.trace != [] && EndsFor(env, answer, toolRounds, ok, topic.trace[|topic.trace| - 1])
                && old(topic.trace) <= topic.trace
                && TailFor(env, toolRuns, total, answer, toolRounds, ok, topic.trace[|old(topic.trace)|..])
      ensures !ended ==>
                && At(topic.trace, Running, total, broken) && topic.trace == old(topic.trace)
                && r.StreamOk? && r.calls != [] && toolRounds < env.MaxSteps()
                && (env.toolsEnabled || (env.multiAgent && OnlySubagents(r.calls)))
    {
      hide *;
      if r.StreamFailed? {
        FailAfter(topic, r, "llm_chunk", r.message, total, toolRounds, answer, broken);
        return true, false;
      }
      if |r.calls| == 0 {
        ghost var before := topic.trace;
        Complete(topic, total, broken);
        DoneTail(env, toolRuns, total, answer, toolRounds, r, before, topic.trace);
        ItEnds(env, answer, toolRounds, r, true, topic.trace[|topic.trace| - 1]);
        return true, true;
      }
      var only := HasOnlySubagents(r.calls);
      if !env.toolsEnabled && !(env.multiAgent && only) {
        FailAfter(topic, r, "tool_unavailable", "model requested tool calls but tool runtime is disabled", total, toolRounds,
                  answer, broken);
        return true, false;
      }
      if toolRounds >= env.MaxSteps() {
        FailAfter(topic, r, "tool_loop_limit", "tool call loop exceeded max steps", total, toolRounds, answer, broken);
        return true, false;
      }
      ended, ok := false, false;
    }

    /** What follows an answer before any tool runs: it is stored, unless it is empty or an error, and decided on. */
    method Settle(topic: Topic, r: Streamed, total: nat, toolRounds: nat, ghost answer: Answer, ghost broken: bool)
      returns (ended: bool, ok: bool)
      requires store.Valid() && At(topic.trace, Running, total, broken)
      requires IsReading(answer, r)
      modifies topic, store, this`historyOps
      ensures store.Valid()
      ensures ended ==>
                && Over(topic.trace, if ok then Done else Failed, total, broken)
                && topic.trace != [] && EndsFor(env, answer, toolRounds, ok, topic.trace[|topic.trace| - 1])
                && old(topic.trace) <= topic.trace
                && TailFor(env, toolRuns, total, answer, toolRounds, ok, topic.trace[|old(topic.trace)|..])
      ensures !ended ==>
                && At(topic.trace, Running, total, broken) && topic.trace == old(topic.trace)
                && r.StreamOk? && r.calls != [] && toolRounds < env.MaxSteps()
                && (env.toolsEnabled || (env.multiAgent && OnlySubagents(r.calls)))
      ensures r.StreamFailed? ==> store.Rendered() == old(store.Rendered())
      ensures r.StreamOk? ==>
                store.Rendered() == old(store.Rendered()) +
                                    (if (r.text == "" && r.calls == []) || env.historyFails(old(historyOps)) then []
                                     else [H.Message(old(store.nextId), "assistant", r.text, true, 1, 0, map[])])
    {
      hide *;
      if r.StreamOk? {
        RememberAnswer(r);
      }
      ended, ok := Decide(topic, r, total, toolRounds, answer, broken);
    }

    /** Runs the calls of one answer between the two state moves. */
    method ToolRound(topic: Topic, calls: seq<ToolCall>, ghost total: nat, ghost broken: bool)
      returns (ok: bool, replies: seq<Chat>)
      requires store.Valid() && At(topic.trace, Running, total, broken)
      modifies topic, store, this`toolRuns, this`issued, this`historyOps
      ensures store.Valid()
      ensures ok ==> Replied(env, old(toolRuns), calls, replies) && At(topic.trace, Running, total, broken)
      ensures ok ==> toolRuns == old(toolRuns) + |calls|
      ensures !ok ==> Over(topic.trace, Failed, total, broken)
      ensures !ok ==> topic.trace != [] && EndedBy(topic.trace[|topic.trace| - 1], "tool_execute")
      ensures ok ==> topic.trace == old(topic.trace) + [StateEvent(Running, WaitingTool)]
                                    + CallsTrace(env, old(toolRuns), calls, replies) + [StateEvent(WaitingTool, Running)]
      ensures !ok ==> old(topic.trace) < topic.trace && topic.trace[|old(topic.trace)|] == StateEvent(Running, WaitingTool)
                      && Breaks(env, old(toolRuns), calls, topic.trace[|old(topic.trace)|..][1..])
    {
      LoopMoves();
      hide *;
      Move(topic, Running, WaitingTool, total, broken);
      ghost var moved := topic.trace;
      ok, replies := RunCalls(topic, calls, total, broken);
      if ok {
        Move(topic, WaitingTool, Running, total, broken);
      } else {
        assert topic.trace[|old(topic.trace)|..][1..] == topic.trace[|moved|..];
      }
    }

    /** The messages of the first request, built up one after another. */
    method Compose(t: Task, shown: seq<H.Message>) returns (msgs: seq<Chat>)
      ensures Opens(env, t, shown, msgs)
    {
      hide Opens, AreExtras;
      var prompt := t.systemPrompt;
      var i0, j0 := TrimSpaceKeepsWindow(prompt);
      if TrimSpace(prompt) == "" {
        prompt := DEFAULT_PROMPT;
      }
      msgs := [Chat("system", prompt, [], "", "")];
      var extras := ComposeExtras();
      msgs := msgs + extras;
      ghost var lead := msgs;
      for i := 0 to |shown|
        invariant msgs == lead + seq(i, k requires 0 <= k < i => Chat(shown[k].role, shown[k].content, [], "", ""))
      {
        msgs := msgs + [Chat(shown[i].role, shown[i].content, [], "", "")];
      }
      ItOpens(env, t, shown, extras, msgs);
    }

    method ComposeExtras() returns (extras: seq<Chat>)
      ensures AreExtras(env, extras)
    {
      hide IsSaid;
      extras := [];
      if env.skills.Some? && env.skills.value != "" {
        extras := extras + [Chat("system", env.skills.value, [], "", "")];
      }
      if env.rag.Some? && env.rag.value != "" {
        extras := extras + [Chat("system", env.rag.value, [], "", "")];
      }
      var said := HookSays();
      extras := extras + said;
    }

    method HookSays() returns (said: seq<Chat>)
      ensures IsSaid(env, said)
    {
      said := [];
      ghost var lines := if env.hook.HookSaid? && env.hook.allowed then env.hook.append else [];
      ghost var at: seq<nat> := [];
      if env.hook.HookSaid? && env.hook.allowed {
        for k := 0 to |env.hook.append|
          invariant Picks(at, k, i => 0 <= i < |lines| && !Blank(lines[i]))
          invariant forall j | 0 <= j < |at| :: at[j] < |lines|
          invariant said == HookLines(lines, at)
        {
          var i, j := TrimSpaceKeepsWindow(lines[k]);
          if TrimSpace(env.hook.append[k]) != "" {
            said := said + [Chat("system", env.hook.append[k], [], "", "")];
            at := at + [k];
          }
        }
      }
      assert SaidAt(lines, at) && said == HookLines(lines, at);
    }

    /** The model/tool loop, from the first request to the terminal event. */
    method Loop(topic: Topic, base: seq<Chat>, ghost broken: bool)
      returns (ok: bool, total: nat, ghost rounds: seq<Round>, ghost asked: seq<seq<Chat>>)
      requires store.Valid() && At(topic.trace, Running, 0, broken)
      modifies topic, provider, store, this`toolRuns, this`issued, this`historyOps
      ensures store.Valid()
      ensures Over(topic.trace, if ok then Done else Failed, total, broken)
      ensures provider.requests == old(provider.requests) + asked
      ensures Conversed(provider, env, |old(provider.requests)|, old(toolRuns), rounds, asked)
      ensures |asked| == |rounds| + 1 <= env.MaxSteps() + 1 && asked[0] == base
      ensures topic.trace != []
      ensures EndedBy(topic.trace[|topic.trace| - 1], "tool_loop_limit") ==> |rounds| == env.MaxSteps()
      ensures EndsFor(env, provider.answer(|old(provider.requests)| + |rounds|, asked[|rounds|]), |rounds|, ok,
                      topic.trace[|topic.trace| - 1])
      ensures old(topic.trace) <= topic.trace
      ensures LoopTrace(env, old(toolRuns), rounds, provider.answer(|old(provider.requests)| + |rounds|, asked[|rounds|]), ok, total,
                        topic.trace[|old(topic.trace)|..])
    {
      hide *;
      var msgs := base;
      var toolRounds := 0;
      ghost var first, run, before := |provider.requests|, toolRuns, topic.trace;
      NoRoundsTraced(env, run);
      total := 0;
      FirstRequest(provider, env, first, run, base);
      rounds, asked := [], [];
      while true
        invariant store.Valid() && At(topic.trace, Running, total, broken)
        invariant provider.requests == old(provider.requests) + asked
        invariant |asked| == |rounds| == toolRounds <= env.MaxSteps()
        invariant Conversed(provider, env, first, run, rounds, asked + [msgs]) && (asked + [msgs])[0] == base
        invariant toolRuns == run + Runs(rounds)
        invariant total == TokensIn(rounds) && topic.trace == before + RoundsTrace(env, run, rounds)
        decreases env.MaxSteps() - toolRounds
      {
        ghost var request := msgs;
        ghost var answer := provider.answer(first + toolRounds, msgs);
        var r, emitted := AskModel(topic, msgs, total, broken);
        asked := asked + [msgs];
        total := total + emitted;
        ghost var answered := topic.trace;
        var ended;
        ended, ok := Settle(topic, r, total, toolRounds, answer, broken);
        if ended {
          LoopTraceEnds(env, run, rounds, answer, ok, total, before, answered, topic.trace);
          LimitIsReached(env, answer, toolRounds, ok, topic.trace[|topic.trace| - 1]);
          return ok, total, rounds, asked;
        }
        msgs := msgs + [Chat("assistant", r.text, r.calls, "", "")];
        toolRounds := toolRounds + 1;
        var ran, replies := ToolRound(topic, r.calls, total, broken);
        if !ran {
          BrokenRoundTail(env, run + Runs(rounds), total, answer, |rounds|, r, topic.trace[|answered|..]);
          LoopTraceEnds(env, run, rounds, answer, false, total, before, answered, topic.trace);
          ItEnds(env, answer, toolRounds - 1, r, false, topic.trace[|topic.trace| - 1]);
          LimitIsReached(env, answer, toolRounds - 1, false, topic.trace[|topic.trace| - 1]);
          return false, total, rounds, asked;
        }
        msgs := msgs + replies;
        ghost var round := Round(Tokens(Heard(answer)), r.text, r.calls, replies);
        RoundTraced(env, run, rounds, round, before, answered, topic.trace);
        ItIsRound(provider, env, first + |rounds|, run + Runs(rounds), request, round);
        ItExtends(request, round, msgs);
        RoundDone(provider, env, first, run, rounds, asked, round, msgs);
        rounds := rounds + [round];
      }
    }

    /** Announces COMPACTING and folds, if the policy says so. */
    method CompactHistory(topic: Topic, prior: seq<H.Message>) returns (compacted: bool, failed: bool)
      requires store.Valid() && prior == store.Rendered()
      requires At(topic.trace, Running, 0, false)
      modifies topic, store, this`historyOps
      ensures store.Valid()
      ensures historyOps == old(historyOps) + if env.policy.WillFold(prior) then 1 else 0
      ensures topic.trace == old(topic.trace) + if env.policy.WillFold(prior) then [StateEvent(Running, Compacting)] else []
      ensures compacted ==> At(topic.trace, Compacting, 0, false)
      ensures At(topic.trace, Running, 0, compacted || failed)
      ensures compacted <==> env.policy.WillFold(prior) && !env.historyFails(old(historyOps))
      ensures failed <==> env.policy.WillFold(prior) && env.historyFails(old(historyOps))
      ensures compacted ==> C.IsCompacted(env.policy, prior, store.Rendered(), old(store.msgs), store.msgs)
      ensures !compacted ==> store.Rendered() == prior
    {
      hide H.WellKept, H.RenderOf, C.IsCompacted, C.TotalChars;
      if !env.policy.enabled {
        return false, false;
      }
      var total := C.CountChars(prior);
      if total <= env.policy.MaxChars() || |prior| <= env.policy.KeepHead() + env.policy.KeepTail() + 1 {
        return false, false;
      }
      AfterAnnouncement(topic.trace, 0);
      var moved := topic.PublishState(Running, Compacting);
      var fails := NextFails();
      if fails {
        return false, true;
      }
      compacted, failed := C.CompactIfNeeded(env.policy, store, prior);
    }

    /** What is rendered once the prompt is in the history. */
    ghost function FirstRender(prompt: string): seq<H.Message>
      reads store
    {
      store.Rendered() + [UserMessage(store.nextId, prompt)]
    }

    /** The run reaches compaction, the policy folds, and folding or the render after it fails. */
    ghost predicate SkipsClosingMove(prompt: string)
      reads store
    {
      && !env.historyFails(0) && !env.historyFails(1)
      && env.policy.WillFold(FirstRender(prompt))
      && (env.historyFails(2) || env.historyFails(3))
    }

    /** Shows the rendered history, compacted and rendered again if the policy folds. */
    method CompactAndRender(topic: Topic) returns (ready: bool, shown: seq<H.Message>)
      requires store.Valid() && historyOps == 2 && At(topic.trace, Running, 0, false)
      modifies topic, store, this`historyOps
      ensures store.Valid()
      ensures var folds := env.policy.WillFold(old(store.Rendered()));
              var broken := folds && (env.historyFails(2) || env.historyFails(3));
              && (ready <==> !folds || env.historyFails(2) || !env.historyFails(3))
              && (ready ==>
                    && At(topic.trace, Running, 0, broken)
                    && IsShown(env.policy, old(store.Rendered()), shown, env.historyFails(2))
                    && topic.trace == old(topic.trace) + Opening(folds, env.historyFails(2)))
              && (!ready ==>
                    && Over(topic.trace, Failed, 0, broken) && topic.trace != []
                    && EndedBy(topic.trace[|topic.trace| - 1], "history_render_after_compact")
                    && topic.trace == old(topic.trace) + [StateEvent(Running, Compacting)] +
                                      Failure(Running, "history_render_after_compact", "render"))
    {
      hide At, Over, H.WellKept, H.RenderOf, C.TotalChars, H.AddId, C.Summarize;
      shown := store.Rendered();
      var compacted, foldFailed := CompactHistory(topic, shown);
      if compacted {
        var fails := NextFails();
        if fails {
          GiveUp(topic, Running, "history_render_after_compact", "render", 0, true);
          return false, shown;
        }
        shown := store.Rendered();
        Move(topic, Compacting, Running, 0, false);
      }
      ready := true;
    }

    /** Stores the prompt, renders the history and compacts it if needed. */
    method LoadHistory(topic: Topic, prompt: string) returns (ready: bool, shown: seq<H.Message>)
      requires store.Valid() && historyOps == 0 && At(topic.trace, Running, 0, false)
      modifies topic, store, this`historyOps
      ensures store.Valid()
      ensures ready <==> !env.historyFails(0) && !env.historyFails(1) &&
                         (!env.policy.WillFold(old(FirstRender(prompt))) || env.historyFails(2) || !env.historyFails(3))
      ensures ready ==> At(topic.trace, Running, 0, old(SkipsClosingMove(prompt)))
      ensures !ready ==> topic.trace != [] &&
                         EndedBy(topic.trace[|topic.trace| - 1],
                                 if env.historyFails(0) then "history_user" else if env.historyFails(1) then "history_render"
                                 else "history_render_after_compact")
      ensures ready ==> IsShown(env.policy, old(FirstRender(prompt)), shown, env.historyFails(2))
      ensures !ready ==> Over(topic.trace, Failed, 0, old(SkipsClosingMove(prompt)))
      ensures var folds := env.policy.WillFold(old(FirstRender(prompt)));
              topic.trace == old(topic.trace) +
                             if ready then Opening(folds, env.historyFails(2))
                             else if env.historyFails(0) then Failure(Running, "history_user", "append")
                             else if env.historyFails(1) then Failure(Running, "history_render", "render")
                             else [StateEvent(Running, Compacting)] + Failure(Running, "history_render_after_compact", "render")
    {
      hide At, Over, H.WellKept, H.RenderOf, C.TotalChars, H.AddId, IsShown, Opening, Failure;
      shown := [];
      ghost var first := FirstRender(prompt);
      var fails := NextFails();
      if fails {
        GiveUp(topic, Running, "history_user", "append", 0, false);
        return false, shown;
      }
      var id := store.Append(H.Message(0, "user", prompt, true, 0, 0, map[]));
      fails := NextFails();
      if fails {
        GiveUp(topic, Running, "history_render", "render", 0, false);
        return false, shown;
      }
      assert store.Rendered() == first;
      ready, shown := CompactAndRender(topic);
    }

    /** Asks the model, beginning with the messages shown, and goes on as `Loop` does; a broken hook may end the run first. */
    method Converse(t: Task, shown: seq<H.Message>, topic: Topic, ghost broken: bool)
      returns (ok: bool, ghost total: nat, ghost rounds: seq<Round>, ghost asked: seq<seq<Chat>>)
      requires store.Valid() && At(topic.trace, Running, 0, broken)
      modifies topic, provider, store, this`toolRuns, this`issued, this`historyOps
      ensures store.Valid()
      ensures Over(topic.trace, if ok then Done else Failed, total, broken) && topic.trace != []
      ensures provider.requests == old(provider.requests) + asked
      ensures asked == [] <==> env.hook.HookBroke? && env.hookFailClosed
      ensures asked == [] ==> !ok && EndedBy(topic.trace[|topic.trace| - 1], "hook_pre_llm")
      ensures asked != [] ==> Opens(env, t, shown, asked[0]) && forall m | m in shown :: Chat(m.role, m.content, [], "", "") in asked[0]
      ensures asked != [] ==> Converses(provider, env, |old(provider.requests)|, old(toolRuns), rounds, asked, ok, total,
                                        old(topic.trace), topic.trace)
    {
      hide *;
      total, rounds, asked := 0, [], [];
      if env.hook.HookBroke? && env.hookFailClosed {
        GiveUp(topic, Running, "hook_pre_llm", env.hook.message, 0, broken);
        return false, total, rounds, asked;
      }
      var msgs := Compose(t, shown);
      forall m | m in shown ensures Chat(m.role, m.content, [], "", "") in msgs {
        PromptIsAsked(env, t, shown, msgs, m);
      }
      var count;
      ok, count, rounds, asked := Loop(topic, msgs, broken);
      total := count;
      ItConverses(provider, env, |old(provider.requests)|, old(toolRuns), rounds, asked, ok, total, old(topic.trace), topic.trace);
    }

    lemma PromptIsNewest(prompt: string)
      ensures var first := FirstRender(prompt);
              first != [] && first[|first| - 1].role == "user" && first[|first| - 1].content == prompt
    {
    }

    /** Executes one task. `prior` is the history the model is shown. */
    method Run(t: Task, topic: Topic)
      returns (ok: bool, ghost total: nat, ghost prior: seq<H.Message>, ghost rounds: seq<Round>, ghost asked: seq<seq<Chat>>)
      requires store.Valid() && topic.trace == []
      modifies topic, provider, store, this`toolRuns, this`issued, this`historyOps
      ensures store.Valid()
      ensures provider.requests == old(provider.requests) + asked
      ensures t.runId == "" ==> !ok && topic.trace == [] && asked == []
      ensures t.runId != "" ==> Over(topic.trace, if ok then Done else Failed, total, old(SkipsClosingMove(t.prompt)))
      ensures var folds := env.policy.WillFold(old(FirstRender(t.prompt)));
              asked != [] <==> t.runId != "" && !env.historyFails(0) && !env.historyFails(1)
                               && (!folds || env.historyFails(2) || !env.historyFails(3))
                               && !(env.hook.HookBroke? && env.hookFailClosed)
      ensures t.runId != "" && asked == [] ==>
                !ok && topic.trace != [] &&
                EndedBy(topic.trace[|topic.trace| - 1],
                        if env.historyFails(0) then "history_user" else if env.historyFails(1) then "history_render"
                        else if env.policy.WillFold(old(FirstRender(t.prompt))) && !env.historyFails(2) && env.historyFails(3)
                        then "history_render_after_compact" else "hook_pre_llm")
      ensures asked != [] ==> Chat("user", t.prompt, [], "", "") in asked[0]
      ensures asked != [] ==>
                && Opens(env, t, prior, asked[0])
                && IsShown(env.policy, old(FirstRender(t.prompt)), prior, env.historyFails(2))
                && Converses(provider, env, |old(provider.requests)|, old(toolRuns), rounds, asked, ok, total,
                             [StateEvent(Pending, Running)] +
                             Opening(env.policy.WillFold(old(FirstRender(t.prompt))), env.historyFails(2)),
                             topic.trace)
    {
      hide *;
      ghost var broken, first := SkipsClosingMove(t.prompt), FirstRender(t.prompt);
      PromptIsNewest(t.prompt);
      total, prior, rounds, asked := 0, [], [], [];
      if t.runId == "" {
        return false, total, prior, rounds, asked;
      }
      historyOps := 0;
      NewRunIsPending();
      Move(topic, Pending, Running, 0, false);
      var ready, shown := LoadHistory(topic, t.prompt);
      if !ready {
        return false, total, prior, rounds, asked;
      }
      prior := shown;
      NewestIsShown(env.policy, first, shown, env.historyFails(2));
      assert topic.trace == [StateEvent(Pending, Running)] + Opening(env.policy.WillFold(first), env.historyFails(2));
      ok, total, rounds, asked := Converse(t, shown, topic, broken);
    }

    /** A child run on its own topic: one provider call, no tools, and the answer kept as the child's last message. */
    method RunChild(role: string, task: string, topic: Topic) returns (ok: bool, summary: string, ghost total: nat)
      requires store.Valid() && topic.trace == []
      modifies topic, provider, store, this`historyOps
      ensures store.Valid()
      ensures Over(topic.trace, if ok then Done else Failed, total, false)
      ensures var prompt := if role == "" then TrimSpace(task)
                            else "You are a subagent with role: " + role + ".\n\nTask:\n" + TrimSpace(task);
              var asks := [Chat("system", CHILD_PROMPT, [], "", ""), Chat("user", prompt, [], "", "")];
              var answer := provider.answer(|old(provider.requests)|, asks);
              && provider.requests == old(provider.requests) + (if env.historyFails(old(historyOps)) then [] else [asks])
              && (ok <==> !env.historyFails(old(historyOps)) && !Errs(answer) && !env.historyFails(old(historyOps) + 1))
              && (!ok ==> topic.trace != [] &&
                          EndedBy(topic.trace[|topic.trace| - 1],
                                  if env.historyFails(old(historyOps)) then "child_history_user"
                                  else if Errs(answer) then "child_llm_chunk" else "child_history_assistant"))
              && (ok ==>
                    && summary == TrimSpace(Concat(Tokens(Heard(answer))))
                    && total == |Tokens(Heard(answer))|
                    && store.Rendered() == old(store.Rendered()) +
                                           [H.Message(old(store.nextId), "user", prompt, true, 1, 0, map[])] +
                                           [H.Message(old(store.nextId) + 1, "assistant", Concat(Tokens(Heard(answer))), true, 1, 0, map[])])
    {
      hide *;
      total, summary := 0, "";
      NewRunIsPending();
      Move(topic, Pending, Running, 0, false);
      var fails := NextFails();
      if fails {
        GiveUp(topic, Running, "child_history_user", "append", 0, false);
        return false, summary, total;
      }
      var prompt := TrimSpace(task);
      if role != "" {
        prompt := "You are a subagent with role: " + role + ".\n\nTask:\n" + prompt;
      }
      var id := store.Append(H.Message(0, "user", prompt, true, 0, 0, map[]));
      var asks := [Chat("system", CHILD_PROMPT, [], "", ""), Chat("user", prompt, [], "", "")];
      var r, emitted := AskModel(topic, asks, 0, false);
      total := emitted;
      if r.StreamFailed? {
        GiveUp(topic, Running, "child_llm_chunk", r.message, total, false);
        return false, summary, total;
      }
      fails := NextFails();
      if fails {
        GiveUp(topic, Running, "child_history_assistant", "append", total, false);
        return false, summary, total;
      }
      id := store.Append(H.Message(0, "assistant", r.text, true, 0, 0, map[]));
      Complete(topic, emitted, false);
      return true, TrimSpace(r.text), total;
    }
  }

  /** A run whose fold fails: COMPACTING is announced and never left, so the next move does not start where it ended. */
  method FailedFoldBreaksChain() returns (trace: seq<Event>)
    ensures IsCompleteRun(trace) && !Contiguous(Moves(trace))
  {
    var store := new H.RunHistory();
    var m := H.Message(0, "user", "aa", true, 0, 0, map[]);
    var first := store.Append(m);
    var second := store.Append(m);
    assert |store.Rendered()| == 2 && store.Rendered()[0].content == "aa";
    var policy := C.CompactPolicy(true, 1, 0, 1);
    var env := Env(policy, false, false, 0, None, None, NoHook, false, k => k == 2,
                   (k, id, tc) => ToolBroke(""), (k, id, tc) => ToolResult("", true, "", ""), k => "");
    var provider := new Provider((k, msgs) => Refused("no model"));
    var runner := new AgentRunner(env, provider, store);
    ThreeMessagesFold(policy, runner.FirstRender("aa"));
    hide C.TotalChars, H.RenderOf, H.WellKept, Over, Converses, IsShown, Opens;
    assert runner.SkipsClosingMove("aa");
    var topic := new Topic();
    ghost var total, prior, rounds, asked;
    var ok;
    ok, total, prior, rounds, asked := runner.Run(Task("r", "aa", ""), topic);
    trace := topic.trace;
    FinishedRunReads(trace, if ok then Done else Failed, total, true);
  }

  lemma ThreeMessagesFold(policy: C.CompactPolicy, ms: seq<H.Message>)
    requires policy == C.CompactPolicy(true, 1, 0, 1) && |ms| == 3 && ms[0].content == "aa"
    ensures policy.WillFold(ms)
  {
    assert ms[..2][..1] == ms[..1] && ms[..2][1] == ms[1];
    assert C.TotalChars(ms[..1]) >= 2;
    assert C.TotalChars(ms[..2]) >= 2;
  }

  const CHILD_PROMPT :=
    "You are an AgentForge subagent. Complete the delegated task and answer with a concise structured summary."

  lemma NewRunIsPending()
    ensures At([], Pending, 0, false)
  {
  }
}
