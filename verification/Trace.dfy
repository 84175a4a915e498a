/** Run states, published events, and a monitor that reads a trace one event at a time. */
module Trace {
  import opened Wrappers

  datatype State = Pending | Running | WaitingTool | Compacting | Done | Failed

  /** The table of legal moves. */
  predicate CanTransit(from: State, to: State) {
    match from
    case Pending => to == Running || to == Failed
    case Running => to == WaitingTool || to == Compacting || to == Done || to == Failed
    case WaitingTool => to == Running || to == Failed
    case Compacting => to == Running || to == Failed
    case Done => false
    case Failed => false
  }

  /** The table read by target: every state that is not final can fail, only RUNNING completes, waits for tools or compacts,
      and RUNNING is entered from PENDING and from the two states that go back to it. Nothing enters PENDING. */
  lemma MovesByTarget(from: State)
    ensures CanTransit(from, Failed) <==> from != Done && from != Failed
    ensures CanTransit(from, Done) <==> from == Running
    ensures CanTransit(from, WaitingTool) <==> from == Running
    ensures CanTransit(from, Compacting) <==> from == Running
    ensures CanTransit(from, Running) <==> from == Pending || from == WaitingTool || from == Compacting
    ensures !CanTransit(from, Pending) && !CanTransit(from, from)
  {
  }

  datatype Phase = Started | Completed | CallFailed

  datatype Event =
    | StateEvent(from: State, to: State)
    | TokenEvent(text: string, index: nat)
    | ToolEvent(callId: string, name: string, phase: Phase, result: string, message: string, isError: bool)
    | DoneEvent(total: nat)
    | ErrorEvent(code: string, message: string)

  predicate IsTerminal(e: Event) {
    e.DoneEvent? || e.ErrorEvent?
  }

  /** What a reader of the trace knows: the last state entered, whether each state event started where the previous
      one ended, the next token index, the call being executed, and whether the trace has ended. */
  datatype Monitor = Monitor(state: State, chained: bool, tokens: nat, open: Option<(string, string)>, ended: bool)

  const START := Monitor(Pending, true, 0, None, false)

  /** One more event, or None if it may not come here. */
  function Observe(m: Monitor, e: Event): Option<Monitor> {
    if m.ended then None
    else match e
      case StateEvent(from, to) =>
        if CanTransit(from, to) && m.open == None && m.state != Done && m.state != Failed
        then Some(m.(state := to, chained := m.chained && from == m.state)) else None
      case TokenEvent(_, index) =>
        if index == m.tokens && m.open == None && m.state != Done && m.state != Failed
        then Some(m.(tokens := m.tokens + 1)) else None
      case ToolEvent(callId, name, phase, _, _, _) =>
        if phase == Started then
          if m.open == None && m.state == WaitingTool then Some(m.(open := Some((callId, name)))) else None
        else
          if m.open == Some((callId, name)) then Some(m.(open := None)) else None
      case DoneEvent(total) =>
        if m.state == Done && total == m.tokens then Some(m.(ended := true)) else None
      case ErrorEvent(_, _) =>
        if m.state == Failed then Some(m.(ended := true)) else None
  }

  function Watch(trace: seq<Event>): Option<Monitor> {
    if trace == [] then Some(START)
    else
      match Watch(trace[..|trace| - 1])
      case None => None
      case Some(m) => Observe(m, trace[|trace| - 1])
  }

  // ---- what acceptance by the monitor means ----

  /** A trace the monitor accepts, up to and including its terminal event. */
  ghost predicate IsCompleteRun(trace: seq<Event>) {
    && Watch(trace).Some? && Watch(trace).value.ended
  }

  lemma {:induction false} WatchPrefix(trace: seq<Event>, n: nat)
    requires n <= |trace| && Watch(trace).Some?
    ensures Watch(trace[..n]).Some?
    decreases |trace| - n
  {
    if n < |trace| {
      WatchPrefix(trace, n + 1);
      assert trace[..n + 1][..n] == trace[..n];
    } else {
      assert trace[..n] == trace;
    }
  }

  lemma {:induction false} WatchStep(trace: seq<Event>, n: nat)
    requires n < |trace| && Watch(trace).Some?
    ensures Watch(trace[..n]).Some? && Watch(trace[..n + 1]).Some?
    ensures Observe(Watch(trace[..n]).value, trace[n]) == Watch(trace[..n + 1])
    ensures !Watch(trace[..n]).value.ended
  {
    WatchPrefix(trace, n);
    WatchPrefix(trace, n + 1);
    assert trace[..n + 1][..n] == trace[..n];
  }

  /** At most one terminal event, and nothing after it. */
  lemma {:induction false} TerminalIsLast(trace: seq<Event>, n: nat)
    requires Watch(trace).Some? && n < |trace| && IsTerminal(trace[n])
    ensures n == |trace| - 1 && Watch(trace).value.ended
  {
    WatchStep(trace, n);
    if n + 1 < |trace| {
      WatchStep(trace, n + 1);
    } else {
      assert trace[..n + 1] == trace;
    }
  }

  lemma {:induction false} EndedByTerminal(trace: seq<Event>)
    requires Watch(trace).Some? && Watch(trace).value.ended
    ensures trace != [] && IsTerminal(trace[|trace| - 1])
  {
  }

  function CountTokens(trace: seq<Event>): nat {
    if trace == [] then 0
    else CountTokens(trace[..|trace| - 1]) + if trace[|trace| - 1].TokenEvent? then 1 else 0
  }

  lemma {:induction false} TokensAreCounted(trace: seq<Event>)
    requires Watch(trace).Some?
    ensures Watch(trace).value.tokens == CountTokens(trace)
  {
    if trace != [] {
      TokensAreCounted(trace[..|trace| - 1]);
    }
  }

  /** Every token carries the number of tokens before it; a final total is the number of tokens. */
  lemma {:induction false} TokensAreNumbered(trace: seq<Event>, n: nat)
    requires Watch(trace).Some? && n < |trace|
    ensures trace[n].TokenEvent? ==> trace[n].index == CountTokens(trace[..n])
    ensures trace[n].DoneEvent? ==> trace[n].total == CountTokens(trace[..n])
  {
    WatchStep(trace, n);
    TokensAreCounted(trace[..n]);
  }

  lemma {:induction false} StatesMoveLegally(trace: seq<Event>, n: nat)
    requires Watch(trace).Some? && n < |trace| && trace[n].StateEvent?
    ensures CanTransit(trace[n].from, trace[n].to)
  {
    WatchStep(trace, n);
  }

  /** The call started at `n` is closed at `k`, with no tool event in between. */
  ghost predicate ClosedAt(trace: seq<Event>, n: nat, k: nat)
    requires n < |trace| && trace[n].ToolEvent?
  {
    && n < k < |trace|
    && trace[k].ToolEvent? && trace[k].phase != Started
    && trace[k].callId == trace[n].callId && trace[k].name == trace[n].name
    && forall j | n < j < k :: !trace[j].ToolEvent?
  }

  /** Once a trace has ended, each started call was closed before the next one started. */
  lemma {:induction false} StartedCallsAreClosed(trace: seq<Event>, n: nat)
    requires IsCompleteRun(trace)
    requires n < |trace| && trace[n].ToolEvent? && trace[n].phase == Started
    ensures exists k :: ClosedAt(trace, n, k)
  {
    WatchStep(trace, n);
    var k := NextToolEvent(trace, n);
    CallStaysOpen(trace, n, k);
    OpenCallNeverEnds(trace[..k]);
    if k < |trace| {
      WatchStep(trace, k);
      assert ClosedAt(trace, n, k);
    }
  }

  lemma {:induction false} NextToolEvent(trace: seq<Event>, n: nat) returns (k: nat)
    requires n < |trace|
    ensures n < k <= |trace|
    ensures forall j | n < j < k :: !trace[j].ToolEvent?
    ensures k < |trace| ==> trace[k].ToolEvent?
  {
    k := n + 1;
    while k < |trace| && !trace[k].ToolEvent?
      invariant n < k <= |trace|
      invariant forall j | n < j < k :: !trace[j].ToolEvent?
    {
      k := k + 1;
    }
  }

  lemma {:induction false} CallStaysOpen(trace: seq<Event>, n: nat, k: nat)
    requires Watch(trace).Some? && n < k <= |trace|
    requires Watch(trace[..n + 1]).Some? && Watch(trace[..n + 1]).value.open.Some?
    requires forall j | n < j < k :: !trace[j].ToolEvent?
    ensures Watch(trace[..k]).Some? && Watch(trace[..k]).value.open == Watch(trace[..n + 1]).value.open
  {
    if k > n + 1 {
      CallStaysOpen(trace, n, k - 1);
      WatchStep(trace, k - 1);
      OpenCallNeverEnds(trace[..k - 1]);
    }
  }

  /** While a call is open the run is waiting for it, so no terminal event can come. */
  lemma {:induction false} OpenCallNeverEnds(trace: seq<Event>)
    requires Watch(trace).Some?
    ensures Watch(trace).value.open.Some? ==> Watch(trace).value.state == WaitingTool && !Watch(trace).value.ended
  {
    if trace != [] {
      OpenCallNeverEnds(trace[..|trace| - 1]);
    }
  }

  /** The state events of a trace. */
  function Moves(trace: seq<Event>): seq<(State, State)> {
    if trace == [] then []
    else
      var e := trace[|trace| - 1];
      Moves(trace[..|trace| - 1]) + if e.StateEvent? then [(e.from, e.to)] else []
  }

  /** From PENDING on, each move starts where the previous one ended. */
  ghost predicate Contiguous(moves: seq<(State, State)>) {
    && (moves != [] ==> moves[0].0 == Pending)
    && forall i, j | 0 <= i && j == i + 1 < |moves| :: moves[j].0 == moves[i].1
  }

  /** The monitor's `chained` flag is contiguity, and its state is the last state entered. */
  lemma {:induction false} ChainedMeansContiguous(trace: seq<Event>)
    requires Watch(trace).Some?
    ensures Watch(trace).value.chained <==> Contiguous(Moves(trace))
    ensures Watch(trace).value.state == if Moves(trace) == [] then Pending else Moves(trace)[|Moves(trace)| - 1].1
  {
    if trace != [] {
      var front, e := trace[..|trace| - 1], trace[|trace| - 1];
      ChainedMeansContiguous(front);
      if e.StateEvent? {
        ContiguousSnoc(Moves(front), (e.from, e.to));
      }
    }
  }

  lemma ContiguousSnoc(moves: seq<(State, State)>, m: (State, State))
    ensures Contiguous(moves + [m]) <==>
            Contiguous(moves) && m.0 == if moves == [] then Pending else moves[|moves| - 1].1
  {
    var longer := moves + [m];
    var n := |moves|;
    if n > 0 {
      assert longer[0] == moves[0] && longer[n - 1] == moves[n - 1] && longer[n] == m;
    }
    if Contiguous(longer) {
      forall i, j | 0 <= i && j == i + 1 < n ensures moves[j].0 == moves[i].1 {
        assert longer[j].0 == longer[i].1;
      }
      if n > 0 {
        assert longer[n].0 == longer[n - 1].1;
      }
    }
    if Contiguous(moves) && m.0 == (if n == 0 then Pending else moves[n - 1].1) {
      forall i, j | 0 <= i && j == i + 1 < |longer| ensures longer[j].0 == longer[i].1 {
        if j < n {
          assert moves[j].0 == moves[i].1;
        }
      }
    }
  }

  lemma {:induction false} CompleteRunEndsOnce(trace: seq<Event>)
    requires IsCompleteRun(trace)
    ensures trace != [] && IsTerminal(trace[|trace| - 1])
    ensures forall n | 0 <= n < |trace| - 1 :: !IsTerminal(trace[n])
    ensures Watch(trace).value.state == if trace[|trace| - 1].DoneEvent? then Done else Failed
  {
    EndedByTerminal(trace);
    forall n | 0 <= n < |trace| - 1 ensures !IsTerminal(trace[n]) {
      if IsTerminal(trace[n]) {
        TerminalIsLast(trace, n);
      }
    }
  }
}
