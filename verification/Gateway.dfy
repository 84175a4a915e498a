/** The gateway: subscribes to a run's events, queues the task, and forwards what the worker publishes until the run ends. */
module Gateway {
  import opened Wrappers
  import opened Trace
  import opened Strings
  import opened PipelineGraph
  import PipelineOrder
  import Runner
  import O = Orchestrator

  /** Index of the first terminal event, or the length. */
  function FirstTerminal(trace: seq<Event>): (n: nat)
    ensures n <= |trace|
    ensures forall i | 0 <= i < n :: !IsTerminal(trace[i])
    ensures n < |trace| ==> IsTerminal(trace[n])
  {
    if trace == [] || IsTerminal(trace[0]) then 0 else 1 + FirstTerminal(trace[1..])
  }

  /** A trace up to and including its first terminal event. */
  function Cut(trace: seq<Event>): seq<Event> {
    if FirstTerminal(trace) < |trace| then trace[..FirstTerminal(trace) + 1] else trace
  }

  /** What a client is shown: everything over gRPC, everything but tool events over ACP. */
  function Shown(trace: seq<Event>, acp: bool): seq<Event> {
    if trace == [] then []
    else
      var e := trace[|trace| - 1];
      Shown(trace[..|trace| - 1], acp) + if acp && e.ToolEvent? then [] else [e]
  }

  const TIMEOUT := ErrorEvent("timeout", "run timeout")

  // ---- the topic of one run ----

  datatype Task = Task(runId: string, userId: string, prompt: string, model: string, traceId: string)

  /** Events reach a subscriber only from the moment it subscribed; the worker publishes only once it has the task. When
      the request is cancelled the channel is closed: what is in it can still be taken, but nothing more comes. */
  class Topic {
    /** What the worker publishes for a task, over all attempts. */
    const work: Task -> seq<Event>
    /** How far it gets between two steps of the gateway. */
    const pace: nat -> nat
    /** Before which of these the channel is closed. */
    const cut: nat -> bool
    var task: seq<Task>
    var subscribed: bool
    var closed: bool
    var published: nat
    var delivered: nat
    var channel: seq<Event>
    var turns: nat

    ghost function Events(): seq<Event>
      reads this
    {
      if task == [] then [] else work(task[0])
    }

    ghost predicate Valid()
      reads this
    {
      |task| <= 1 && delivered <= published <= |Events()| && (closed ==> exists k :: cut(k))
    }

    /** Nothing has happened yet. */
    ghost predicate Fresh()
      reads this
    {
      Valid() && task == [] && channel == [] && delivered == 0 && !closed && !subscribed
    }

    constructor (work: Task -> seq<Event>, pace: nat -> nat, cut: nat -> bool)
      ensures Fresh() && turns == 0
      ensures this.work == work && this.pace == pace && this.cut == cut
    {
      this.work, this.pace, this.cut := work, pace, cut;
      task, subscribed, closed, published, delivered, channel, turns := [], false, false, 0, 0, [], 0;
    }

    method WorkerTurn()
      requires Valid() && (subscribed && !closed ==> delivered == published)
      modifies this`published, this`channel, this`turns, this`closed, this`delivered
      ensures Valid() && published >= old(published) && turns == old(turns) + 1
      ensures task != [] && pace(old(turns)) > 0 ==> published > old(published) || published == |Events()|
      ensures closed == (old(closed) || (subscribed && cut(old(turns))))
      ensures delivered == if subscribed && !closed then published else old(delivered)
      ensures channel == old(channel) + if subscribed && !closed then Events()[old(published)..published] else []
    {
      if subscribed && cut(turns) {
        closed := true;
      }
      if task != [] {
        var events := work(task[0]);
        for i := 0 to pace(turns)
          invariant turns == old(turns) && closed == (old(closed) || (subscribed && cut(turns)))
          invariant Valid() && published >= old(published)
          invariant delivered == if subscribed && !closed then published else old(delivered)
          invariant i > 0 ==> published > old(published) || published == |events|
          invariant channel == old(channel) + if subscribed && !closed then events[old(published)..published] else []
        {
          if published < |events| {
            if subscribed && !closed {
              channel := channel + [events[published]];
              delivered := delivered + 1;
            }
            published := published + 1;
          }
        }
      }
      turns := turns + 1;
    }

    method Subscribe()
      modifies this`subscribed
      ensures subscribed
    {
      subscribed := true;
    }

    method Publish(t: Task)
      requires Valid() && task == []
      modifies this`task
      ensures Valid() && task == [t]
    {
      task := [t];
    }

    method Receive() returns (e: Event)
      requires channel != []
      modifies this`channel
      ensures [e] + channel == old(channel)
    {
      e := channel[0];
      channel := channel[1..];
    }
  }

  // ---- one run ----

  /** What can go wrong outside the gateway: subscribing, queueing, the clock, the client's stream. */
  datatype World = World(subscribeFails: bool, publishFails: bool, patience: nat, sendFails: nat -> bool)

  datatype Outcome = EmptyPrompt | NotStarted | Finished | TimedOut | SendFailed | Cancelled

  class Client {
    var sent: seq<Event>

    constructor ()
      ensures sent == []
    {
      sent := [];
    }

    method Send(e: Event, fails: bool)
      modifies this
      ensures sent == old(sent) + if fails then [] else [e]
    {
      if !fails {
        sent := sent + [e];
      }
    }
  }

  /** Everything delivered has been taken from the channel, up to `n`, or waits in it; until the channel is closed that is
      everything published. */
  ghost predicate Following(topic: Topic, n: nat)
    reads topic
  {
    && topic.Valid() && topic.subscribed && (!topic.closed ==> topic.delivered == topic.published)
    && n <= topic.delivered && topic.channel == topic.Events()[n..topic.delivered]
  }

  lemma HeadOfSlice(events: seq<Event>, n: nat, m: nat, e: Event, rest: seq<Event>)
    requires n <= m <= |events| && [e] + rest == events[n..m]
    ensures n < m && e == events[n] && rest == events[n + 1..m]
  {
    assert ([e] + rest)[0] == e && ([e] + rest)[1..] == rest;
  }

  lemma NothingShown(events: seq<Event>, acp: bool)
    ensures Shown(events[..0], acp) == []
  {
  }

  lemma OneMoreShown(events: seq<Event>, n: nat, acp: bool)
    requires n < |events| && n <= FirstTerminal(events)
    ensures Shown(events[..n + 1], acp) == Shown(events[..n], acp) + if acp && events[n].ToolEvent? then [] else [events[n]]
    ensures if IsTerminal(events[n]) then FirstTerminal(events) == n && Cut(events) == events[..n + 1]
            else n + 1 <= FirstTerminal(events)
  {
    assert events[..n + 1][..n] == events[..n];
  }

  /** The worker publishes something, if anything is left, between any two steps of the gateway, and nobody cancels. */
  ghost predicate Steady(topic: Topic) {
    (forall k :: topic.pace(k) > 0) && forall k :: !topic.cut(k)
  }

  datatype Received = Nothing | Closed | Got(event: Event)

  /** Waits for the next event: the worker gets on, then the head of the channel is taken, if there is one; an empty closed
      channel answers that it is closed. */
  method NextEvent(topic: Topic, ghost n: nat) returns (r: Received)
    requires Following(topic, n)
    modifies topic`channel, topic`published, topic`turns, topic`closed, topic`delivered
    ensures topic.Valid() && topic.Events() == old(topic.Events())
    ensures !r.Got? ==> Following(topic, n)
    ensures r.Closed? ==> topic.closed && n == topic.delivered
    ensures r.Got? ==> n < |topic.Events()| && r.event == topic.Events()[n] && Following(topic, n + 1) && n < topic.delivered
    ensures Steady(topic) && n < |topic.Events()| ==> r.Got?
    ensures old(topic.closed) ==> topic.closed && topic.delivered == old(topic.delivered) && !r.Nothing?
  {
    ghost var events, before := topic.Events(), topic.published;
    topic.WorkerTurn();
    assert !topic.closed ==> events[n..before] + events[before..topic.published] == events[n..topic.published];
    if topic.channel == [] {
      return if topic.closed then Closed else Nothing;
    }
    var head := topic.Receive();
    HeadOfSlice(events, n, topic.delivered, head, topic.channel);
    r := Got(head);
  }

  /** The forwarding loop, for gRPC and for ACP. */
  method Forward(topic: Topic, client: Client, acp: bool, world: World) returns (o: Outcome, ghost n: nat)
    requires topic.Valid() && Following(topic, 0) && client.sent == []
    modifies topic`channel, topic`published, topic`turns, topic`closed, topic`delivered, client
    ensures topic.Valid() && n <= |topic.Events()|
    ensures o == Finished ==>
              && client.sent == Shown(Cut(topic.Events()), acp)
              && FirstTerminal(topic.Events()) < |topic.Events()| && FirstTerminal(topic.Events()) < topic.delivered
    ensures o == TimedOut ==> n <= FirstTerminal(topic.Events()) && client.sent == Shown(topic.Events()[..n], acp) + [TIMEOUT]
    ensures o == SendFailed ==> n <= FirstTerminal(topic.Events()) && client.sent == Shown(topic.Events()[..n], acp)
    ensures o == Cancelled ==>
              topic.closed && n == topic.delivered <= FirstTerminal(topic.Events()) && client.sent == Shown(topic.Events()[..n], acp)
    ensures o.Finished? || o.TimedOut? || o.SendFailed? || o.Cancelled?
    ensures o == TimedOut && Steady(topic) ==> n >= world.patience || n == |topic.Events()|
    ensures o == SendFailed ==> exists k | 0 <= k < world.patience :: world.sendFails(k)
  {
    hide Shown, Cut, FirstTerminal, Following, Steady;
    n := 0;
    ghost var events := topic.Events();
    NothingShown(events, acp);
    for round := 0 to world.patience
      invariant topic.Valid() && topic.Events() == events && Following(topic, n)
      invariant n <= FirstTerminal(events)
      invariant client.sent == Shown(events[..n], acp)
      invariant Steady(topic) ==> n >= round || n == |events|
    {
      var next := NextEvent(topic, n);
      if next.Closed? {
        return Cancelled, n;
      }
      if next.Got? {
        var ev := next.event;
        OneMoreShown(events, n, acp);
        if acp && ev.ToolEvent? {
          n := n + 1;
          continue;
        }
        client.Send(ev, world.sendFails(round));
        if world.sendFails(round) {
          return SendFailed, n;
        }
        if IsTerminal(ev) {
          return Finished, n;
        }
        n := n + 1;
      }
    }
    client.Send(TIMEOUT, false);
    return TimedOut, n;
  }

  /** Subscribes, then queues the task, then forwards: no event published in between is lost. */
  method RunAgent(topic: Topic, client: Client, acp: bool, t: Task, world: World) returns (o: Outcome, ghost n: nat)
    requires topic.Fresh() && client.sent == []
    modifies topic, client
    ensures t.prompt == "" <==> o == EmptyPrompt
    ensures o.EmptyPrompt? || o.NotStarted? ==> client.sent == [] && topic.task == []
    ensures var events := topic.work(t);
            && n <= |events|
            && (o == Finished ==>
                  client.sent == Shown(Cut(events), acp) && FirstTerminal(events) < |events| && FirstTerminal(events) < topic.delivered)
            && (o == TimedOut ==> n <= FirstTerminal(events) && client.sent == Shown(events[..n], acp) + [TIMEOUT])
            && (o == SendFailed ==> n <= FirstTerminal(events) && client.sent == Shown(events[..n], acp))
            && (o == Cancelled ==>
                  topic.closed && n == topic.delivered <= FirstTerminal(events) && client.sent == Shown(events[..n], acp))
    ensures t.prompt != "" ==> (o.NotStarted? <==> world.subscribeFails || world.publishFails)
    ensures o == TimedOut && Steady(topic) ==> n >= world.patience || n == |topic.work(t)|
    ensures o == SendFailed ==> exists k | 0 <= k < world.patience :: world.sendFails(k)
    ensures (forall k :: !topic.cut(k)) ==> o != Cancelled
    ensures !o.EmptyPrompt? && !o.NotStarted? ==> topic.task == [t] && topic.subscribed
  {
    n := 0;
    if t.prompt == "" {
      return EmptyPrompt, n;
    }
    topic.WorkerTurn();
    if world.subscribeFails {
      return NotStarted, n;
    }
    topic.Subscribe();
    topic.WorkerTurn();
    if world.publishFails {
      return NotStarted, n;
    }
    topic.Publish(t);
    o, n := Forward(topic, client, acp, world);
  }

  // ---- what the client makes of it ----

  function Flatten(attempts: seq<seq<Event>>): seq<Event> {
    if attempts == [] then [] else attempts[0] + Flatten(attempts[1..])
  }

  lemma {:induction false} FirstTerminalOf(trace: seq<Event>, more: seq<Event>, n: nat)
    requires n < |trace| && IsTerminal(trace[n]) && forall i | 0 <= i < n :: !IsTerminal(trace[i])
    ensures FirstTerminal(trace + more) == n
  {
    assert (trace + more)[0] == trace[0] && (trace + more)[1..] == trace[1..] + more;
    if n > 0 {
      FirstTerminalOf(trace[1..], more, n - 1);
    }
  }

  /** Retries republish on the same topic, but the client's stream ends with the first attempt. */
  lemma {:induction false} RetriesAreUnseen(attempts: seq<seq<Event>>)
    requires attempts != [] && IsCompleteRun(attempts[0])
    ensures Cut(Flatten(attempts)) == attempts[0]
    ensures FirstTerminal(Flatten(attempts)) < |Flatten(attempts)|
  {
    var t := attempts[0];
    CompleteRunEndsOnce(t);
    FirstTerminalOf(t, Flatten(attempts[1..]), |t| - 1);
  }

  lemma {:induction false} GrpcShowsAll(trace: seq<Event>)
    ensures Shown(trace, false) == trace
  {
    if trace != [] {
      GrpcShowsAll(trace[..|trace| - 1]);
    }
  }

  /** Hiding tool events hides nothing else: same moves, same tokens, same end. */
  lemma {:induction false} AcpKeepsTheRest(trace: seq<Event>)
    ensures var shown := Shown(trace, true);
            && (forall e | e in shown :: !e.ToolEvent?)
            && Moves(shown) == Moves(trace)
            && CountTokens(shown) == CountTokens(trace)
            && TextOf(shown) == TextOf(trace)
            && (trace != [] && !trace[|trace| - 1].ToolEvent? ==> shown != [] && shown[|shown| - 1] == trace[|trace| - 1])
  {
    if trace != [] {
      var n := |trace| - 1;
      AcpKeepsTheRest(trace[..n]);
      var front := Shown(trace[..n], true);
      assert (front + [trace[n]])[..|front|] == front && front + [] == front;
    }
  }

  predicate IsTool(e: Event) {
    e.ToolEvent?
  }

  /** What is shown is exactly what is not a tool event, in order. */
  lemma {:induction false} ShownPicks(trace: seq<Event>) returns (at: seq<nat>)
    ensures Picks(at, |trace|, i => 0 <= i < |trace| && !IsTool(trace[i]))
    ensures |Shown(trace, true)| == |at| && forall k | 0 <= k < |at| :: Shown(trace, true)[k] == trace[at[k]]
  {
    hide *;
    LastShown(trace);
    at := [];
    if trace == [] {
      NoPicks(i => 0 <= i < |trace| && !IsTool(trace[i]));
    } else {
      var n := |trace| - 1;
      at := ShownPicks(trace[..n]);
      PicksWithin(at, n, i => 0 <= i < n && !IsTool(trace[..n][i]));
      PicksNext(at, n, i => 0 <= i < n && !IsTool(trace[..n][i]), i => 0 <= i < |trace| && !IsTool(trace[i]));
      if !IsTool(trace[n]) {
        at := at + [n];
      }
    }
  }

  lemma LastShown(trace: seq<Event>)
    ensures trace == [] ==> Shown(trace, true) == []
    ensures trace != [] ==>
              var n := |trace| - 1;
              Shown(trace, true) == if IsTool(trace[n]) then Shown(trace[..n], true) else Shown(trace[..n], true) + [trace[n]]
  {
  }

  /** Of a complete run, the last event shown is the terminal one, and the only one. */
  lemma ShownEndsOnce(trace: seq<Event>)
    requires IsCompleteRun(trace)
    ensures var shown := Shown(trace, true); shown != [] && forall i | 0 <= i < |shown| :: IsTerminal(shown[i]) <==> i == |shown| - 1
  {
    CompleteRunEndsOnce(trace);
    AcpKeepsTheRest(trace);
    var shown := Shown(trace, true);
    var at := ShownPicks(trace);
    forall i | 0 <= i < |shown| - 1 ensures !IsTerminal(shown[i]) {
      assert at[i] < at[|at| - 1] < |trace|;
    }
    hide Shown, IsCompleteRun;
  }

  /** A finished stream of a queued run: exactly the first attempt's trace over gRPC; over ACP the same but for tool
      events, with the same state moves, tokens and terminal event. */
  lemma {:induction false} ClientReadsFirstAttempt(attempts: seq<seq<Event>>, sent: seq<Event>, acp: bool, last: State, total: nat, broken: bool)
    requires attempts != [] && Runner.Over(attempts[0], last, total, broken) && (last == Done || last == Failed)
    requires sent == Shown(Cut(Flatten(attempts)), acp)
    ensures !acp ==> sent == attempts[0]
    ensures acp ==> forall e | e in sent :: !e.ToolEvent?
    ensures Moves(sent) == Moves(attempts[0]) && CountTokens(sent) == total
    ensures Contiguous(Moves(sent)) <==> !broken
    ensures sent != [] && if last == Done then sent[|sent| - 1] == DoneEvent(total) else sent[|sent| - 1].ErrorEvent?
  {
    RetriesAreUnseen(attempts);
    Runner.FinishedRunReads(attempts[0], last, total, broken);
    GrpcShowsAll(attempts[0]);
    AcpKeepsTheRest(attempts[0]);
    hide *;
  }

  // ---- a pipeline through the queue ----

  /** The tokens of a trace, concatenated. */
  function TextOf(trace: seq<Event>): string {
    if trace == [] then ""
    else
      var e := trace[|trace| - 1];
      TextOf(trace[..|trace| - 1]) + if e.TokenEvent? then e.text else ""
  }

  /** The text is that of exactly the token events, in order. */
  lemma {:induction false} TextHoldsTokens(trace: seq<Event>) returns (at: seq<nat>, texts: seq<string>)
    ensures Picks(at, |trace|, i => 0 <= i < |trace| && trace[i].TokenEvent?)
    ensures |texts| == |at| && (forall k | 0 <= k < |at| :: trace[at[k]].TokenEvent? && texts[k] == trace[at[k]].text)
    ensures TextOf(trace) == Concat(texts)
  {
    hide *;
    LastText(trace);
    at, texts := [], [];
    if trace == [] {
      NoPicks(i => 0 <= i < |trace| && trace[i].TokenEvent?);
    } else {
      var n := |trace| - 1;
      at, texts := TextHoldsTokens(trace[..n]);
      PicksWithin(at, n, i => 0 <= i < n && trace[..n][i].TokenEvent?);
      PicksNext(at, n, i => 0 <= i < n && trace[..n][i].TokenEvent?, i => 0 <= i < |trace| && trace[i].TokenEvent?);
      if trace[n].TokenEvent? {
        ConcatSnoc(texts, trace[n].text);
        at, texts := at + [n], texts + [trace[n].text];
      }
    }
  }

  lemma LastText(trace: seq<Event>)
    ensures TextOf([]) == Concat([]) == ""
    ensures trace != [] ==>
              var n := |trace| - 1;
              TextOf(trace) == if trace[n].TokenEvent? then TextOf(trace[..n]) + trace[n].text else TextOf(trace[..n])
  {
  }

  /** What a step that reaches its terminal event comes to. */
  function ErrorOf(e: Event): Option<string> {
    if e.ErrorEvent? then Some(e.code + ": " + e.message) else None
  }

  datatype Summary = Summary(text: string, error: Option<string>)

  /** How a step ends: at its terminal event, by its deadline, before it started, or by a closed channel, which the handler
      takes for success. */
  datatype StepEnd = Reached | Expired | Unstarted | ChannelClosed

  /** A step that saw `n` events before it ended so. */
  ghost predicate Summarizes(events: seq<Event>, n: nat, end: StepEnd, r: Summary) {
    && n <= FirstTerminal(events)
    && r.text == TextOf(events[..n])
    && match end
       case Reached => n == FirstTerminal(events) < |events| && r.error == ErrorOf(events[n])
       case Expired => r.error == Some(DEADLINE)
       case Unstarted => n == 0 && r.error == Some(NOT_STARTED)
       case ChannelClosed => r.error == None
  }

  /** Only where the channel may be closed can a step end so. */
  ghost predicate Summarized(events: seq<Event>, cut: nat -> bool, r: Summary) {
    exists n, end :: Summarizes(events, n, end, r) && (end.ChannelClosed? ==> exists k :: cut(k))
  }

  const DEADLINE := "context deadline exceeded"
  const NOT_STARTED := "not started"

  lemma OneMoreCollected(events: seq<Event>, n: nat)
    requires n < |events| && n <= FirstTerminal(events)
    ensures TextOf(events[..n + 1]) == TextOf(events[..n]) + if events[n].TokenEvent? then events[n].text else ""
    ensures if IsTerminal(events[n]) then FirstTerminal(events) == n else n + 1 <= FirstTerminal(events)
  {
    assert events[..n + 1][..n] == events[..n];
  }

  lemma StepEnds(events: seq<Event>, n: nat)
    requires n <= FirstTerminal(events)
    ensures n == FirstTerminal(events) < |events| ==>
              Summarizes(events, n, Reached, Summary(TextOf(events[..n]), ErrorOf(events[n])))
    ensures Summarizes(events, n, Expired, Summary(TextOf(events[..n]), Some(DEADLINE)))
    ensures Summarizes(events, n, ChannelClosed, Summary(TextOf(events[..n]), None))
  {
  }

  /** Where the step's end is told from: whether the terminal event got through before the channel was closed. */
  ghost predicate EndedAt(topic: Topic, n: nat, end: StepEnd)
    reads topic
  {
    && (end == Reached ==> FirstTerminal(topic.Events()) < topic.delivered)
    && (end == ChannelClosed ==> topic.closed && n == topic.delivered <= FirstTerminal(topic.Events()))
  }

  method Collect(topic: Topic, world: World) returns (r: Summary, ghost n: nat, ghost end: StepEnd)
    requires Following(topic, 0)
    modifies topic`channel, topic`published, topic`turns, topic`closed, topic`delivered
    ensures topic.Valid() && Summarizes(topic.Events(), n, end, r) && EndedAt(topic, n, end) && end != Unstarted
    ensures Steady(topic) ==> n >= world.patience || n == |topic.Events()| || IsTerminal(topic.Events()[n])
    ensures old(topic.closed) && old(topic.delivered) == 0 && world.patience > 0 ==> end == ChannelClosed && n == 0
  {
    assert topic.Valid();
    hide FirstTerminal, Shown, Cut, Summarizes;
    n := 0;
    var text := "";
    ghost var events := topic.Events();
    assert events[..0] == [] && TextOf([]) == "";
    hide TextOf, Following, Steady;
    for round := 0 to world.patience
      invariant topic.Valid() && topic.Events() == events && Following(topic, n)
      invariant n <= FirstTerminal(events)
      invariant text == TextOf(events[..n])
      invariant Steady(topic) ==> n >= round || n == |events|
      invariant old(topic.closed) && old(topic.delivered) == 0 ==> round == 0 && topic.closed && topic.delivered == 0
    {
      StepEnds(events, n);
      var next := NextEvent(topic, n);
      if next.Closed? {
        return Summary(text, None), n, ChannelClosed;
      }
      if next.Got? {
        var ev := next.event;
        OneMoreCollected(events, n);
        match ev {
          case TokenEvent(t, _) => text := text + t;
          case DoneEvent(_) => return Summary(text, None), n, Reached;
          case ErrorEvent(_, _) => return Summary(text, Some(ev.code + ": " + ev.message)), n, Reached;
          case _ =>
        }
        n := n + 1;
      }
    }
    StepEnds(events, n);
    return Summary(text, Some(DEADLINE)), n, Expired;
  }

  /** One step of a pipeline. A step without error reached its Done event exactly if that event got through before the
      channel was closed, and so always if nobody cancels. */
  method RunPipelineStep(topic: Topic, t: Task, world: World) returns (r: Summary, ghost n: nat, ghost end: StepEnd)
    requires topic.Fresh()
    modifies topic
    ensures topic.Valid() && Summarizes(topic.work(t), n, end, r)
    ensures end == Unstarted <==> world.subscribeFails || world.publishFails
    ensures r.error == None ==> (end == Reached <==> FirstTerminal(topic.work(t)) < topic.delivered)
    ensures end == ChannelClosed ==> topic.closed && n == topic.delivered
    ensures (forall k :: !topic.cut(k)) ==> end != ChannelClosed
    ensures topic.cut(old(topic.turns)) && end != Unstarted && world.patience > 0 ==> end == ChannelClosed && n == 0
  {
    n, end := 0, Unstarted;
    assert topic.work(t)[..0] == [];
    if world.subscribeFails {
      return Summary("", Some(NOT_STARTED)), n, end;
    }
    topic.Subscribe();
    topic.WorkerTurn();
    if world.publishFails {
      return Summary("", Some(NOT_STARTED)), n, end;
    }
    topic.Publish(t);
    r, n, end := Collect(topic, world);
  }

  /** A step that ended without error says all the tokens of its first attempt and saw it end in Done, unless the channel was
      closed first: then it says the tokens of an initial part that lacks at least the end. */
  lemma GoodStepSaysAll(attempts: seq<seq<Event>>, n: nat, end: StepEnd, r: Summary)
    requires attempts != [] && IsCompleteRun(attempts[0])
    requires Summarizes(Flatten(attempts), n, end, r) && r.error == None
    ensures end == Reached || end == ChannelClosed
    ensures end == Reached ==> r.text == TextOf(attempts[0]) && attempts[0][|attempts[0]| - 1].DoneEvent?
    ensures end == ChannelClosed ==> n < |attempts[0]| && r.text == TextOf(attempts[0][..n])
  {
    var t, events := attempts[0], Flatten(attempts);
    CompleteRunEndsOnce(t);
    FirstTerminalOf(t, Flatten(attempts[1..]), |t| - 1);
    assert n <= |t| - 1;
    assert events[..n] == t[..n] && events[n] == t[n];
  }

  /** A step that is cancelled at once: no error, no text, though the run goes on to say "a" and ends in Done. */
  method CancelledStepLooksGood() returns (r: Summary, ghost trace: seq<Event>)
    ensures IsCompleteRun(trace) && TextOf(trace) == "a" && trace[|trace| - 1].DoneEvent?
    ensures r == Summary("", None)
  {
    var events := [StateEvent(Pending, Running), TokenEvent("a", 0), StateEvent(Running, Done), DoneEvent(1)];
    trace := events;
    SmallRunIsComplete(trace);
    var topic := new Topic(_ => events, _ => 1, k => k == 0);
    ghost var n, end;
    r, n, end := RunPipelineStep(topic, Task("r", "u", "p", "m", "t"), World(false, false, 1, _ => false));
    assert events[..0] == [];
  }

  lemma SmallRunIsComplete(trace: seq<Event>)
    requires trace == [StateEvent(Pending, Running), TokenEvent("a", 0), StateEvent(Running, Done), DoneEvent(1)]
    ensures IsCompleteRun(trace) && TextOf(trace) == "a"
  {
    Runner.WatchSnoc([], trace[0]);
    Runner.WatchSnoc(trace[..1], trace[1]);
    Runner.WatchSnoc(trace[..2], trace[2]);
    Runner.WatchSnoc(trace[..3], trace[3]);
    assert [] + [trace[0]] == trace[..1] && trace[..1] + [trace[1]] == trace[..2];
    assert trace[..2] + [trace[2]] == trace[..3] && trace[..3] + [trace[3]] == trace;
    assert trace[..1][..0] == [] && trace[..2][..1] == trace[..1] && trace[..3][..2] == trace[..2];
    assert TextOf(trace[..1]) == "" && TextOf(trace[..2]) == "a" && TextOf(trace[..3]) == "a";
  }

  // ---- the steps of a pipeline ----

  datatype StepResult = StepResult(stepId: string, role: string, childRunId: string, summary: string, status: string, error: string)

  datatype Response = InvalidArgument | Response(name: string, status: string, error: string, results: seq<StepResult>)

  function TextFor(summaries: map<string, string>, dep: string): string {
    if dep in summaries then summaries[dep] else ""
  }

  function Line(dep: string, text: string): string {
    "- " + dep + ": " + text + "\n"
  }

  function DependencyLines(deps: seq<string>, summaries: map<string, string>): string {
    if deps == [] then ""
    else
      var dep := deps[|deps| - 1];
      DependencyLines(deps[..|deps| - 1], summaries) + Line(dep, TextFor(summaries, dep))
  }

  function Prompt(st: Step, summaries: map<string, string>): string {
    var task := if st.role == "" then st.task
                else "You are a pipeline subagent with role: " + st.role + ".\n\nTask:\n" + st.task;
    if st.dependsOn == [] then task else task + "\n\nDependency outputs:\n" + DependencyLines(st.dependsOn, summaries)
  }

  /** A prompt is the step's task, headed by its role if it has one, and followed, if it has dependencies, by one line for each
      in the order listed. */
  lemma PromptHoldsLines(st: Step, summaries: map<string, string>) returns (lines: seq<string>)
    ensures st.role == "" && st.dependsOn == [] ==> Prompt(st, summaries) == st.task
    ensures st.role != "" && st.dependsOn == [] ==>
              Prompt(st, summaries) == "You are a pipeline subagent with role: " + st.role + ".\n\nTask:\n" + st.task
    ensures st.dependsOn != [] ==>
              Prompt(st, summaries) == Prompt(st.(dependsOn := []), summaries) + "\n\nDependency outputs:\n" + Concat(lines)
    ensures |lines| == |st.dependsOn| && forall k | 0 <= k < |lines| :: IsLineOf(st.dependsOn[k], summaries, lines[k])
  {
    lines := LinesOf(st.dependsOn, summaries);
    hide IsLineOf;
  }

  /** A dependency's line: its id and what it said. */
  ghost predicate IsLineOf(dep: string, summaries: map<string, string>, line: string) {
    line == "- " + dep + ": " + (if dep in summaries then summaries[dep] else "") + "\n"
  }

  lemma {:induction false} LinesOf(deps: seq<string>, summaries: map<string, string>) returns (lines: seq<string>)
    ensures DependencyLines(deps, summaries) == Concat(lines)
    ensures |lines| == |deps| && forall k | 0 <= k < |deps| :: IsLineOf(deps[k], summaries, lines[k])
  {
    lines := [];
    if deps != [] {
      var n := |deps| - 1;
      var line := Line(deps[n], TextFor(summaries, deps[n]));
      lines := LinesOf(deps[..n], summaries);
      assert IsLineOf(deps[n], summaries, line);
      hide IsLineOf, Line, TextFor;
      ConcatSnoc(lines, line);
      lines := lines + [line];
    }
  }

  method BuildPrompt(st: Step, summaries: map<string, string>) returns (prompt: string)
    ensures prompt == Prompt(st, summaries)
  {
    hide Line, TextFor;
    prompt := st.task;
    if st.role != "" {
      prompt := "You are a pipeline subagent with role: " + st.role + ".\n\nTask:\n" + prompt;
    }
    if |st.dependsOn| > 0 {
      prompt := prompt + "\n\nDependency outputs:\n";
      var head := prompt;
      for k := 0 to |st.dependsOn|
        invariant prompt == head + DependencyLines(st.dependsOn[..k], summaries)
      {
        var dep := st.dependsOn[k];
        assert st.dependsOn[..k + 1][..k] == st.dependsOn[..k];
        ghost var before := DependencyLines(st.dependsOn[..k], summaries);
        prompt := prompt + Line(dep, TextFor(summaries, dep));
        assert prompt == head + (before + Line(dep, TextFor(summaries, dep)));
      }
      assert st.dependsOn[..|st.dependsOn|] == st.dependsOn;
    }
  }

  /** Everything the pipeline handler cannot see: the worker, its pace, and per step what goes wrong. */
  datatype Cluster = Cluster(work: Task -> seq<Event>, pace: nat -> nat -> nat, cut: nat -> nat -> bool, world: nat -> World,
                             newRunId: nat -> string, newTraceId: string)

  /** The task of the i-th step: its prompt quotes the summaries of the steps before it. */
  function TaskOf(order: seq<Step>, texts: seq<string>, i: nat, c: Cluster, userId: string, model: string, traceId: string): Task
    requires i < |order| && i <= |texts|
  {
    Task(c.newRunId(i), userId, Prompt(order[i], O.Outputs(order, texts, i)), model, traceId)
  }

  function Texts(results: seq<StepResult>): seq<string> {
    seq(|results|, i requires 0 <= i < |results| => results[i].summary)
  }

  /** A result is what the run of the i-th step's task came to. */
  ghost predicate RanAt(order: seq<Step>, texts: seq<string>, r: StepResult, i: nat, c: Cluster,
                        userId: string, model: string, traceId: string)
    requires i < |order| && i <= |texts|
  {
    && r.stepId == order[i].id && r.role == order[i].role && r.childRunId == c.newRunId(i)
    && (r.status == "ok" || r.status == "error")
    && Summarized(c.work(TaskOf(order, texts, i, c, userId, model, traceId)), c.cut(i),
                  Summary(r.summary, if r.status == "ok" then None else Some(r.error)))
  }

  /** Steps ran in order, each on what the ones before it said, and only the last may have failed. */
  ghost predicate Ran(order: seq<Step>, results: seq<StepResult>, c: Cluster, userId: string, model: string, traceId: string) {
    && |results| <= |order|
    && (forall i | 0 <= i < |results| :: RanAt(order, Texts(results), results[i], i, c, userId, model, traceId))
    && forall i | 0 <= i < |results| - 1 :: results[i].status == "ok"
  }

  lemma RanOneMore(order: seq<Step>, results: seq<StepResult>, r: StepResult, c: Cluster,
                   userId: string, model: string, traceId: string)
    requires Ran(order, results, c, userId, model, traceId) && |results| < |order|
    requires forall i | 0 <= i < |results| :: results[i].status == "ok"
    requires RanAt(order, Texts(results), r, |results|, c, userId, model, traceId)
    ensures Ran(order, results + [r], c, userId, model, traceId)
    ensures Texts(results + [r]) == Texts(results) + [r.summary] && |Texts(results)| == |results|
  {
    hide RanAt;
    var longer := results + [r];
    assert Texts(longer) == Texts(results) + [r.summary];
    forall i | 0 <= i < |longer| ensures RanAt(order, Texts(longer), longer[i], i, c, userId, model, traceId) {
      LaterTextsDoNotMatter(order, Texts(results), r.summary, longer[i], i, c, userId, model, traceId);
    }
  }

  lemma LaterTextsDoNotMatter(order: seq<Step>, texts: seq<string>, text: string, r: StepResult, i: nat, c: Cluster,
                              userId: string, model: string, traceId: string)
    requires i < |order| && i <= |texts|
    ensures RanAt(order, texts + [text], r, i, c, userId, model, traceId) <==> RanAt(order, texts, r, i, c, userId, model, traceId)
  {
    O.OutputsIgnoreLaterResults(order, texts, text, i);
  }

  lemma NothingRan(order: seq<Step>, c: Cluster, userId: string, model: string, traceId: string)
    ensures Ran(order, [], c, userId, model, traceId) && Texts([]) == [] && O.Outputs(order, Texts([]), 0) == map[]
  {
  }

  method RunSteps(order: seq<Step>, name: string, c: Cluster, userId: string, model: string, traceId: string)
    returns (resp: Response)
    ensures resp.Response? && resp.name == name
    ensures Ran(order, resp.results, c, userId, model, traceId)
    ensures resp.status == "ok" ==>
              resp.error == "" && |resp.results| == |order| && forall r | r in resp.results :: r.status == "ok"
    ensures resp.status != "ok" ==>
              && resp.status == "error" && resp.results != []
              && resp.results[|resp.results| - 1].status == "error" && resp.error == resp.results[|resp.results| - 1].error
  {
    NothingRan(order, c, userId, model, traceId);
    hide RanAt, Ran, Prompt, Summarizes, Summarized, EndedAt, Steady, FirstTerminal, O.Outputs, TextOf;
    resp := Response(name, "ok", "", []);
    var summaries: map<string, string> := map[];
    for i := 0 to |order|
      invariant resp.Response? && resp.name == name && resp.status == "ok" && resp.error == ""
      invariant |resp.results| == i && forall k | 0 <= k < i :: resp.results[k].status == "ok"
      invariant Ran(order, resp.results, c, userId, model, traceId)
      invariant summaries == O.Outputs(order, Texts(resp.results), i)
    {
      var st := order[i];
      var before := resp.results;
      var prompt := BuildPrompt(st, summaries);
      var topic := new Topic(c.work, c.pace(i), c.cut(i));
      var t := Task(c.newRunId(i), userId, prompt, model, traceId);
      var r, n, end := RunPipelineStep(topic, t, c.world(i));
      var step := StepResult(st.id, st.role, t.runId, r.text, if r.error == None then "ok" else "error",
                             if r.error == None then "" else r.error.value);
      StepRan(order, Texts(before), step, i, c, userId, model, traceId, n, end, r);
      RanOneMore(order, before, step, c, userId, model, traceId);
      resp := resp.(results := before + [step]);
      if r.error.Some? {
        return resp.(status := "error", error := r.error.value);
      }
      O.OutputsSnoc(order, Texts(before), r.text);
      summaries := summaries[st.id := r.text];
    }
  }

  lemma StepRan(order: seq<Step>, texts: seq<string>, step: StepResult, i: nat, c: Cluster,
                userId: string, model: string, traceId: string, n: nat, end: StepEnd, r: Summary)
    requires i < |order| && i <= |texts|
    requires Summarizes(c.work(TaskOf(order, texts, i, c, userId, model, traceId)), n, end, r)
    requires end.ChannelClosed? ==> exists k :: c.cut(i)(k)
    requires step == StepResult(order[i].id, order[i].role, c.newRunId(i), r.text, if r.error == None then "ok" else "error",
                                if r.error == None then "" else r.error.value)
    ensures RanAt(order, texts, step, i, c, userId, model, traceId)
  {
    assert Summary(step.summary, if step.status == "ok" then None else Some(step.error)) == r;
  }

  /** Each dependency quoted in a step's prompt is a step that ran before it without error, with what it said. */
  lemma QuotedStepsRanWell(steps: seq<Step>, order: seq<Step>, results: seq<StepResult>, c: Cluster,
                           userId: string, model: string, traceId: string, i: nat, dep: string)
    requires IsTopologicalOrder(steps, order) && Ran(order, results, c, userId, model, traceId)
    requires i < |results| && dep in order[i].dependsOn
    ensures exists j | 0 <= j < i ::
              && order[j].id == dep && results[j].status == "ok"
              && TextFor(O.Outputs(order, Texts(results), i), dep) == results[j].summary
  {
    assert dep in Ids(order[..i]);
    var j :| 0 <= j < i && order[..i][j].id == dep;
    O.OutputsHoldEarlierResults(order, Texts(results), i, j);
  }

  /** The whole request: refused if there is no spec, if it does not parse or if it has no order. */
  method RunPipeline(spec: string, parsed: Option<Pipeline>, c: Cluster, userId: string, model: string, traceId: string)
    returns (resp: Response, ghost order: seq<Step>)
    ensures resp == InvalidArgument <==> Blank(spec) || parsed == None || forall q :: !IsTopologicalOrder(parsed.value.steps, q)
    ensures resp.Response? ==>
              && resp.name == parsed.value.name
              && IsLeastOrder(parsed.value.steps, order)
              && Ran(order, resp.results, c, if userId == "" then "pipeline" else userId, model,
                     if traceId == "" then c.newTraceId else traceId)
              && (resp.status == "ok" ==> resp.error == "" && |resp.results| == |parsed.value.steps| && forall r | r in resp.results :: r.status == "ok")
              && (resp.status != "ok" ==>
                    && resp.status == "error" && resp.results != []
                    && resp.results[|resp.results| - 1].status == "error"
                    && resp.error == resp.results[|resp.results| - 1].error)
  {
    var i, j := TrimSpaceKeepsWindow(spec);
    hide *;
    if TrimSpace(spec) == "" || parsed == None {
      return InvalidArgument, [];
    }
    var ordered := PipelineOrder.TopologicalOrder(parsed.value);
    if ordered.Err? {
      return InvalidArgument, [];
    }
    order := ordered.value;
    LeastOrderIsOrder(parsed.value.steps, order);
    var trace := traceId;
    if trace == "" {
      trace := c.newTraceId;
    }
    var user := userId;
    if user == "" {
      user := "pipeline";
    }
    resp := RunSteps(ordered.value, parsed.value.name, c, user, model, trace);
  }
}
