/** The parts put together: a run as a browser sees it, and as a reconnecting ACP client holds it. */
module EndToEnd {
  import opened Wrappers
  import opened Trace
  import R = Runner
  import G = Gateway
  import CP = ControlPlane
  import A = AcpSession
  import EC = EventCache
  import opened Bytes
  import opened Codec

  method RunTask(runner: R.AgentRunner, t: R.Task) returns (ok: bool, trace: seq<Event>)
    requires runner.store.Valid() && t.runId != ""
    modifies runner, runner.provider, runner.store
    ensures runner.store.Valid() && IsCompleteRun(trace)
    ensures trace != [] && (ok <==> trace[|trace| - 1].DoneEvent?)
  {
    var published := new R.Topic();
    ghost var total, prior, rounds, asked;
    ghost var broken := runner.SkipsClosingMove(t.prompt);
    ok, total, prior, rounds, asked := runner.Run(t, published);
    trace := published.trace;
    R.FinishedRunReads(trace, if ok then Done else Failed, total, broken);
  }

  /** Everything around a run that is watched: the worker's pace and the cancelling of the stream, what fails in the
      gateway, which commands of the event store fail, how the record grows under its readers and which reads fail, and the
      browser's connections. */
  datatype Surroundings = Surroundings(
    pace: nat -> nat, cut: nat -> bool, world: G.World, incrFails: nat -> bool, pushFails: nat -> bool,
    writing: nat -> nat, readFails: nat -> bool, connections: nat, polls: nat -> nat, arrives: nat -> nat)
  {
    ghost function Lost(): nat -> bool {
      CP.LostBy(incrFails, pushFails)
    }
  }

  /** The gateway's stream of a run whose first attempt published `trace`. */
  method StreamRun(trace: seq<Event>, retries: seq<seq<Event>>, task: G.Task, sur: Surroundings)
    returns (o: G.Outcome, sent: seq<Event>)
    requires IsCompleteRun(trace)
    ensures o == G.Finished ==> sent == trace
    ensures o == G.Cancelled ==> sent <= trace && |sent| < |trace|
  {
    var topic := new G.Topic(_ => G.Flatten([trace] + retries), sur.pace, sur.cut);
    var client := new G.Client();
    ghost var n;
    o, n := G.RunAgent(topic, client, false, task, sur.world);
    sent := client.sent;
    G.RetriesAreUnseen([trace] + retries);
    G.GrpcShowsAll(trace);
    G.GrpcShowsAll(G.Flatten([trace] + retries)[..n]);
    assert G.Flatten([trace] + retries)[..|trace|] == trace;
  }

  /** What the control plane makes of a complete trace, and what a browser can get of it. */
  ghost predicate IsRecordOf(trace: seq<Event>, lost: nat -> bool, books: seq<CP.Finish>, got: seq<CP.UiEvent>, whole: bool) {
    var events := CP.Wrap(trace);
    var n := CP.ReadUpTo(events, lost, 0);
    && books == [CP.Verdict(events, lost, n, "EOF")]
    && CP.Data(got) <= CP.Recorded(events[..n], lost)
    && (whole ==> CP.Data(got) == CP.Recorded(events[..n], lost))
  }

  /** With every append succeeding that is the trace itself, and the books say how it ended. */
  lemma RecordOfAll(trace: seq<Event>, lost: nat -> bool, books: seq<CP.Finish>, got: seq<CP.UiEvent>, whole: bool)
    requires IsCompleteRun(trace) && trace != [] && IsRecordOf(trace, lost, books, got, whole)
    requires forall k | 0 <= k < |trace| :: !lost(k)
    ensures books == [CP.Finish(if trace[|trace| - 1].DoneEvent? then "completed" else "failed", G.TextOf(trace), "")]
    ensures CP.Data(got) <= CP.Wrap(trace) && (whole ==> CP.Data(got) == CP.Wrap(trace))
  {
    CP.CompleteRunIsRecorded(trace, lost, "EOF");
    hide IsCompleteRun, CP.ReadUpTo, CP.Recorded, CP.Verdict, CP.Wrap, CP.Data, G.TextOf;
  }

  /** The control plane records a complete trace and a browser reads the record. */
  method RecordAndBrowse(trace: seq<Event>, sur: Surroundings)
    returns (books: seq<CP.Finish>, got: seq<CP.UiEvent>, whole: bool)
    ensures IsRecordOf(trace, sur.Lost(), books, got, whole)
  {
    hide CP.ReadUpTo, CP.Recorded, CP.Verdict, CP.Wrap, CP.Data, CP.Ends, CP.WellKept, CP.LostBy;
    var store := new CP.EventStore(sur.incrFails, sur.pushFails);
    var runs := new CP.RunStore();
    CP.ConsumeRun(None, CP.Wrap(trace), "EOF", store, runs);
    books := runs.finished;
    var live := new CP.LiveLog(store.list, sur.writing, sur.readFails);
    got, whole := CP.Browse(live, sur.connections, sur.polls, sur.arrives);
    BrowsedData(CP.Wrap(trace), sur.Lost(), store.list, got, whole);
  }

  lemma BrowsedData(events: seq<Option<Event>>, lost: nat -> bool, log: seq<CP.UiEvent>, got: seq<CP.UiEvent>, whole: bool)
    requires CP.WellKept(log) && got <= log
    requires CP.Data(log) == CP.Recorded(events[..CP.ReadUpTo(events, lost, 0)], lost)
    requires whole ==> got != [] && CP.Ends(got[|got| - 1])
    ensures CP.Data(got) <= CP.Data(log)
    ensures whole ==> CP.Data(got) == CP.Data(log)
  {
    if whole {
      CP.RecordEndsOnce(events, lost, log, |got| - 1);
      assert got == log;
    }
    hide CP.WellKept, CP.Recorded, CP.ReadUpTo, CP.Ends;
    assert CP.Data(got) == CP.Data(log)[..|got|];
  }

  /** A worker runs the task; the gateway forwards what it publishes, over all attempts; the control plane records the
      stream; a browser polls the record over any number of connections. Whatever the model, the tools, the history, the
      schedule and the network do: if the gateway sees the run to its end, the browser gets an initial part of what was
      recorded of the first attempt's trace, all of it once a connection ends properly; and if no append fails, that is the
      trace itself, and the books say how it ended. */
  method WatchRun(runner: R.AgentRunner, t: R.Task, task: G.Task, retries: seq<seq<Event>>, sur: Surroundings)
    returns (o: G.Outcome, ok: bool, trace: seq<Event>, books: seq<CP.Finish>, got: seq<CP.UiEvent>, whole: bool)
    requires runner.store.Valid() && t.runId != ""
    modifies runner, runner.provider, runner.store
    ensures runner.store.Valid() && IsCompleteRun(trace)
    ensures trace != [] && (ok <==> trace[|trace| - 1].DoneEvent?)
    ensures o == G.Finished ==> IsRecordOf(trace, sur.Lost(), books, got, whole)
    ensures o == G.Finished && (forall k | 0 <= k < |trace| :: !sur.Lost()(k)) ==>
              && books == [CP.Finish(if ok then "completed" else "failed", G.TextOf(trace), "")]
              && CP.Data(got) <= CP.Wrap(trace)
              && (whole ==> CP.Data(got) == CP.Wrap(trace))
  {
    hide *;
    books, got, whole := [], [], false;
    ok, trace := RunTask(runner, t);
    var sent;
    o, sent := StreamRun(trace, retries, task, sur);
    if o == G.Finished {
      books, got, whole := RecordAndBrowse(sent, sur);
      if forall k | 0 <= k < |trace| :: !sur.Lost()(k) {
        RecordOfAll(trace, sur.Lost(), books, got, whole);
      }
    }
  }

  function Encoded(trace: seq<Event>, encode: Event -> seq<byte>): seq<(seq<byte>, bool)> {
    seq(|trace|, i requires 0 <= i < |trace| => (encode(trace[i]), IsTerminal(trace[i])))
  }

  function Payloads(trace: seq<Event>, encode: Event -> seq<byte>): seq<seq<byte>> {
    seq(|trace|, i requires 0 <= i < |trace| => encode(trace[i]))
  }

  /** The last replay was of the whole log, and all of it arrived. */
  predicate CaughtUp(rs: seq<A.Reconnect>, total: nat) {
    rs != [] && rs[|rs| - 1].arrived >= rs[|rs| - 1].logged >= total
  }

  lemma HeldEncodesTrace(log: seq<EC.Cached>, first: nat, rs: seq<A.Reconnect>, all: seq<seq<byte>>)
    requires EC.Numbered(log) && first <= |log| && A.Payloads(log) <= all
    ensures A.Payloads(A.Held(log, first, rs)) <= all
    ensures CaughtUp(rs, |log|) && A.Payloads(log) == all ==> A.Payloads(A.Held(log, first, rs)) == all
  {
    A.ReconnectsKeepPrefix(log, first, rs);
    hide A.Held, A.Reached;
    var n := A.Reached(|log|, first, rs);
    assert A.Payloads(log[..n]) == A.Payloads(log)[..n];
  }

  /** An ACP session whose dispatcher emits what the gateway shows of a run, to a client that gets `first` of its events
      and then resumes any number of times. However all these connections are cut, the payloads the client holds encode an
      initial part of the trace without its tool events, in order and each once; and all of it, unless the session was
      killed by a full queue, once a replay of the whole log arrives. */
  method RunAndResume(session: A.Session, inbox: seq<Frame>, trace: seq<Event>, encode: Event -> seq<byte>, prompt: string,
                      ghost first: nat, ghost rs: seq<A.Reconnect>)
    returns (did: A.Did, ends: bool, ghost held: seq<EC.Cached>)
    requires session.Valid() && session.trace == [] && session.cacheOn
    requires (forall k :: session.world.takes(k)) && prompt != ""
    requires session.world.dispatch(prompt) == A.Dispatched(Encoded(G.Shown(trace, true), encode), false)
    modifies session, session.cache
    ensures session.Valid()
    ensures did.Ran? && session.unused && session.world.run(did.payload) == A.RunRequest(prompt)
            && first <= |A.Events(session.written)| ==>
              && A.Payloads(held) <= Payloads(G.Shown(trace, true), encode)
              && (ends && session.seqGen + 1 < WORD && CaughtUp(rs, session.seqGen) ==>
                    A.Payloads(held) == Payloads(G.Shown(trace, true), encode))
    ensures did.Ran? && session.world.run(did.payload) == A.RunRequest(prompt) ==>
              forall f | f in session.written && f.kind == A.EVENT :: Carries(f, G.Shown(trace, true), encode)
    ensures did.Ran? && session.world.run(did.payload) == A.RunRequest(prompt) && IsCompleteRun(trace) ==>
              forall f | f in session.written && f.kind == A.EVENT :: f.flags == A.END_STREAM <==> f.seqNo == |G.Shown(trace, true)|
  {
    hide A.Events, A.Payloads, A.Run, A.Held, A.RunEvents, G.Shown, EC.Stored, EC.Numbered, A.ToReplay, A.RunReply, A.EventFrames,
      A.Preface, A.IsEventOf, Carries, Encoded, IsCompleteRun;
    ghost var sent;
    did, ends, sent := session.Serve(inbox);
    held := [];
    if did.Ran? && session.world.run(did.payload) == A.RunRequest(prompt) {
      FramesCarry(session.world, did.payload, prompt, session.written, trace, encode);
    }
    if did.Ran? && session.unused && session.world.run(did.payload) == A.RunRequest(prompt)
       && first <= |A.Events(session.written)|
    {
      RunEventsAre(session.world, did.payload, prompt, G.Shown(trace, true), encode);
      held := A.Held(session.Model().log, first, rs);
      HeldEncodesTrace(session.Model().log, first, rs, Payloads(G.Shown(trace, true), encode));
    }
  }

  lemma RunEventsAre(world: A.World, payload: seq<byte>, prompt: string, shown: seq<Event>, encode: Event -> seq<byte>)
    requires world.run(payload) == A.RunRequest(prompt) && prompt != ""
    requires world.dispatch(prompt) == A.Dispatched(Encoded(shown, encode), false)
    ensures A.RunEvents(world, payload) == Encoded(shown, encode)
    ensures A.Firsts(Encoded(shown, encode)) == Payloads(shown, encode)
    ensures forall n: nat | n <= |shown| :: A.Firsts(A.RunEvents(world, payload)[..n]) <= Payloads(shown, encode)
  {
    assert A.Firsts(Encoded(shown, encode)) == Payloads(shown, encode);
  }

  /** The frame holds the event of its number, and END_STREAM is set exactly if that event is terminal. */
  predicate Carries(f: Frame, shown: seq<Event>, encode: Event -> seq<byte>) {
    && 1 <= f.seqNo <= |shown|
    && f.payload == encode(shown[f.seqNo - 1])
    && f.flags == if IsTerminal(shown[f.seqNo - 1]) then A.END_STREAM else 0
  }

  lemma FramesCarry(world: A.World, payload: seq<byte>, prompt: string, written: seq<Frame>, trace: seq<Event>,
                    encode: Event -> seq<byte>)
    requires world.run(payload) == A.RunRequest(prompt) && prompt != ""
    requires world.dispatch(prompt) == A.Dispatched(Encoded(G.Shown(trace, true), encode), false)
    requires forall f | f in written && f.kind == A.EVENT :: A.IsEventOf(f, A.RunEvents(world, payload))
    ensures forall f | f in written && f.kind == A.EVENT :: Carries(f, G.Shown(trace, true), encode)
    ensures IsCompleteRun(trace) ==>
              forall f | f in written && f.kind == A.EVENT :: f.flags == A.END_STREAM <==> f.seqNo == |G.Shown(trace, true)|
  {
    if IsCompleteRun(trace) {
      G.ShownEndsOnce(trace);
    }
    hide G.Shown, IsCompleteRun;
  }
}
