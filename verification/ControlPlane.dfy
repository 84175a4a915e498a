/** The control plane: records a run's events under increasing ids, closes the run's books once, and serves the record to
    browsers that may drop and reconnect at any time. */
module ControlPlane {
  import opened Wrappers
  import opened Trace
  import Gateway

  /** A stored event; `data` is None for a payload the converter does not know. */
  datatype UiEvent = UiEvent(id: nat, kind: string, data: Option<Event>)

  function KindOf(e: Option<Event>): string {
    match e
    case None => "unknown"
    case Some(StateEvent(_, _)) => "state"
    case Some(TokenEvent(_, _)) => "token"
    case Some(ToolEvent(_, _, _, _, _, _)) => "tool"
    case Some(DoneEvent(_)) => "done"
    case Some(ErrorEvent(_, _)) => "error"
  }

  predicate Ends(e: UiEvent) {
    e.kind == "done" || e.kind == "error"
  }

  /** An event's kind tells what it is, and ends the stream exactly if its data is terminal. */
  lemma KindsTell(e: Option<Event>, f: Option<Event>, id: nat)
    ensures Ends(UiEvent(id, KindOf(e), e)) <==> e.Some? && (e.value.DoneEvent? || e.value.ErrorEvent?)
    ensures KindOf(e) == KindOf(f) ==>
              if e.None? then f.None?
              else f.Some? && (e.value.StateEvent? <==> f.value.StateEvent?) && (e.value.TokenEvent? <==> f.value.TokenEvent?)
                   && (e.value.ToolEvent? <==> f.value.ToolEvent?) && (e.value.DoneEvent? <==> f.value.DoneEvent?)
    ensures KindOf(e) == "done" <==> e.Some? && e.value.DoneEvent?
    ensures KindOf(e) == "error" <==> e.Some? && e.value.ErrorEvent?
    ensures KindOf(e) == "state" <==> e.Some? && e.value.StateEvent?
    ensures KindOf(e) == "tool" <==> e.Some? && e.value.ToolEvent?
    ensures KindOf(e) == "token" <==> e.Some? && e.value.TokenEvent?
    ensures KindOf(e) == "unknown" <==> e == None
  {
  }

  /** What is stored carries the kind of its data. */
  ghost predicate WellKept(log: seq<UiEvent>) {
    && (forall i, j | 0 <= i < j < |log| :: log[i].id < log[j].id)
    && (forall i | 0 <= i < |log| :: log[i].id >= 1 && log[i].kind == KindOf(log[i].data))
  }

  // ---- the event store ----

  /** `After`: in list order, what has a larger id. */
  function After(log: seq<UiEvent>, last: int): seq<UiEvent> {
    if log == [] then []
    else After(log[..|log| - 1], last) + if log[|log| - 1].id > last then [log[|log| - 1]] else []
  }

  /** The id a reader holds after the first `k` events. */
  function LastId(log: seq<UiEvent>, k: nat): nat
    requires k <= |log|
  {
    if k == 0 then 0 else log[k - 1].id
  }

  /** How many events of a kept log have ids up to `last`: they come first. */
  function Seen(log: seq<UiEvent>, last: int): (k: nat)
    ensures k <= |log|
  {
    if log == [] then 0
    else if log[|log| - 1].id <= last then |log| else Seen(log[..|log| - 1], last)
  }

  lemma {:induction false} SeenSplits(log: seq<UiEvent>, last: int)
    requires WellKept(log)
    ensures forall i | 0 <= i < |log| :: log[i].id <= last <==> i < Seen(log, last)
  {
    if log != [] && log[|log| - 1].id > last {
      SeenSplits(log[..|log| - 1], last);
    }
  }

  /** Whatever number a reader asks with, it is answered as if it had seen the events up to that number. */
  lemma AfterAnyNumber(log: seq<UiEvent>, last: int, n: nat)
    requires WellKept(log) && n <= |log|
    ensures After(log[..n], last) == if Seen(log, last) <= n then log[Seen(log, last)..n] else []
  {
    SeenSplits(log, last);
    AfterSplit(log, last, Seen(log, last), n);
  }

  lemma {:induction false} AfterSplit(log: seq<UiEvent>, last: int, k: nat, n: nat)
    requires n <= |log| && forall i | 0 <= i < |log| :: log[i].id <= last <==> i < k
    ensures After(log[..n], last) == if k <= n then log[k..n] else []
  {
    if n > 0 {
      AfterSplit(log, last, k, n - 1);
      assert log[..n][..n - 1] == log[..n - 1];
    }
  }

  /** Once a reader has the first `k` events it asks as one that has seen `k`. */
  lemma SeenAfterReading(log: seq<UiEvent>, k: nat)
    requires WellKept(log) && k <= |log|
    ensures Seen(log, LastId(log, k)) == k
  {
    SeenSplits(log, LastId(log, k));
    var n := Seen(log, LastId(log, k));
    assert n < |log| ==> log[n].id > LastId(log, k);
    assert k < |log| ==> log[k].id > LastId(log, k);
    assert k > 0 ==> log[k - 1].id <= LastId(log, k);
  }

  /** Asking for what follows the last id seen yields exactly the events not seen. */
  lemma AfterIsRest(log: seq<UiEvent>, k: nat, n: nat)
    requires WellKept(log) && k <= n <= |log|
    ensures After(log[..n], LastId(log, k)) == log[k..n]
  {
    SeenAfterReading(log, k);
    AfterAnyNumber(log, LastId(log, k), n);
  }

  // ---- several appenders ----

  /** The counter and the list, and what each appender has numbered but not yet pushed. */
  datatype Shared = Shared(counter: nat, list: seq<UiEvent>, held: map<nat, UiEvent>)

  /** The two commands of an append, by appender; the second may fail. */
  datatype Command = Incr(c: nat, data: Option<Event>) | Push(c: nat) | PushFails(c: nat)

  function Next(s: Shared, l: Command): Option<Shared> {
    match l
    case Incr(c, data) =>
      if c in s.held then None
      else Some(s.(counter := s.counter + 1, held := s.held[c := UiEvent(s.counter + 1, KindOf(data), data)]))
    case Push(c) =>
      if c !in s.held then None else Some(s.(list := s.list + [s.held[c]], held := s.held - {c}))
    case PushFails(c) =>
      if c !in s.held then None else Some(s.(held := s.held - {c}))
  }

  function Run(labels: seq<Command>): Option<Shared> {
    if labels == [] then Some(Shared(0, [], map[]))
    else
      match Run(labels[..|labels| - 1])
      case None => None
      case Some(s) => Next(s, labels[|labels| - 1])
  }

  /** An appender that has numbered an event can push it or fail to, and one that has not can number one. */
  lemma AppenderGoesOn(s: Shared, c: nat, data: Option<Event>)
    ensures Next(s, Push(c)).Some? <==> c in s.held
    ensures Next(s, PushFails(c)).Some? <==> c in s.held
    ensures Next(s, Incr(c, data)).Some? <==> c !in s.held
  {
  }

  /** With one appender the list is well kept after every schedule. */
  lemma {:induction false} OneAppenderKeepsOrder(labels: seq<Command>, c: nat)
    requires Run(labels).Some? && forall l | l in labels :: l.c == c
    ensures var s := Run(labels).value;
            && WellKept(s.list) && (forall i | 0 <= i < |s.list| :: s.list[i].id <= s.counter)
            && (forall d | d in s.held :: d == c)
            && (c in s.held ==> s.held[c].id == s.counter >= 1 && s.held[c].kind == KindOf(s.held[c].data)
                                && forall i | 0 <= i < |s.list| :: s.list[i].id < s.counter)
  {
    if labels != [] {
      var n := |labels| - 1;
      assert labels[n] in labels && forall l | l in labels[..n] :: l in labels;
      OneAppenderKeepsOrder(labels[..n], c);
    }
  }

  lemma {:induction false} AfterIsAbove(log: seq<UiEvent>, last: int)
    ensures forall e | e in After(log, last) :: e.id > last
  {
    if log != [] {
      AfterIsAbove(log[..|log| - 1], last);
    }
  }

  lemma {:induction false} ListGrows(before: seq<Command>, later: seq<Command>)
    requires Run(before).Some? && Run(before + later).Some?
    ensures Run(before).value.list <= Run(before + later).value.list
    decreases |later|
  {
    if later == [] {
      assert before + later == before;
    } else {
      var n := |later| - 1;
      assert (before + later)[..|before + later| - 1] == before + later[..n];
      ListGrows(before, later[..n]);
    }
  }

  /** Two appenders whose commands interleave: a reader that polls between their pushes gets event 2, and however things go
      on, no later poll, which asks for what follows 2 or more, ever has event 1, though it is in the list. */
  lemma {:induction false} InterleavedAppendMissesEvent(a: Option<Event>, b: Option<Event>, later: seq<Command>, last: int)
    requires last >= 2
    ensures var first, second := UiEvent(1, KindOf(a), a), UiEvent(2, KindOf(b), b);
            var polled, then_ := [Incr(0, a), Incr(1, b), Push(1)], [Incr(0, a), Incr(1, b), Push(1)] + [Push(0)];
            && Run(polled).Some? && After(Run(polled).value.list, 0) == [second]
            && Run(then_).Some? && !WellKept(Run(then_).value.list)
            && (Run(then_ + later).Some? ==>
                  first in Run(then_ + later).value.list && first !in After(Run(then_ + later).value.list, last))
  {
    var first, second := UiEvent(1, KindOf(a), a), UiEvent(2, KindOf(b), b);
    TwoAppends(a, b);
    var then_ := [Incr(0, a), Incr(1, b), Push(1)] + [Push(0)];
    assert [second][..0] == [];
    var list := Run(then_).value.list;
    assert list[0].id == 2 && list[1].id == 1;
    if Run(then_ + later).Some? {
      ListGrows(then_, later);
      AfterIsAbove(Run(then_ + later).value.list, last);
      assert Run(then_ + later).value.list[1] == first;
    }
    hide Run;
  }

  lemma {:induction false} TwoAppends(a: Option<Event>, b: Option<Event>)
    ensures var first, second := UiEvent(1, KindOf(a), a), UiEvent(2, KindOf(b), b);
            && Run([Incr(0, a), Incr(1, b), Push(1)]).Some?
            && Run([Incr(0, a), Incr(1, b), Push(1)]).value.list == [second]
            && Run([Incr(0, a), Incr(1, b), Push(1)] + [Push(0)]).Some?
            && Run([Incr(0, a), Incr(1, b), Push(1)] + [Push(0)]).value.list == [second, first]
  {
    var one, two, three := [Incr(0, a)], [Incr(0, a), Incr(1, b)], [Incr(0, a), Incr(1, b), Push(1)];
    var four := three + [Push(0)];
    assert one[..0] == [] && two[..1] == one && three[..2] == two && four[..3] == three;
    var first, second := UiEvent(1, KindOf(a), a), UiEvent(2, KindOf(b), b);
    assert Run([]) == Some(Shared(0, [], map[]));
    assert Run(one) == Some(Shared(1, [], map[0 := first]));
    assert Run(two) == Some(Shared(2, [], map[0 := first, 1 := second]));
    assert map[0 := first, 1 := second] - {1} == map[0 := first];
    assert [] + [second] == [second];
    assert Run(three) == Some(Shared(2, [second], map[0 := first]));
  }

  /** Redis as one run's appender sees it; attempts are numbered, and either command of an append may fail. */
  class EventStore {
    const incrFails: nat -> bool
    const pushFails: nat -> bool
    var counter: nat
    var list: seq<UiEvent>
    var attempts: nat

    ghost predicate Valid()
      reads this
    {
      WellKept(list) && forall i | 0 <= i < |list| :: list[i].id <= counter
    }

    constructor (incrFails: nat -> bool, pushFails: nat -> bool)
      ensures Valid() && list == [] && attempts == 0
      ensures this.incrFails == incrFails && this.pushFails == pushFails
    {
      this.incrFails, this.pushFails := incrFails, pushFails;
      counter, list, attempts := 0, [], 0;
    }

    /** The attempts that store nothing. */
    ghost function Lost(): nat -> bool {
      LostBy(incrFails, pushFails)
    }

    method Append(data: Option<Event>) returns (ok: bool)
      requires Valid()
      modifies this
      ensures Valid() && attempts == old(attempts) + 1
      ensures ok <==> !incrFails(old(attempts)) && !pushFails(old(attempts))
      ensures ok <==> !Lost()(old(attempts))
      ensures ok ==> list == old(list) + [UiEvent(counter, KindOf(data), data)] && counter == old(counter) + 1
      ensures !ok ==> list == old(list)
    {
      attempts := attempts + 1;
      if incrFails(attempts - 1) {
        return false;
      }
      counter := counter + 1;
      if pushFails(attempts - 1) {
        return false;
      }
      list := list + [UiEvent(counter, KindOf(data), data)];
      ok := true;
    }
  }

  function LostBy(incrFails: nat -> bool, pushFails: nat -> bool): nat -> bool {
    (k: nat) => incrFails(k) || pushFails(k)
  }

  // ---- consuming a run ----

  datatype Finish = Finish(status: string, summary: string, error: string)

  /** The table of runs. */
  class RunStore {
    var finished: seq<Finish>

    constructor ()
      ensures finished == []
    {
      finished := [];
    }

    method FinishRun(f: Finish)
      modifies this
      ensures finished == old(finished) + [f]
    {
      finished := finished + [f];
    }
  }

  function TextOf(events: seq<Option<Event>>): string {
    if events == [] then ""
    else
      var e := events[|events| - 1];
      TextOf(events[..|events| - 1]) + if e.Some? && e.value.TokenEvent? then e.value.text else ""
  }

  /** The data recorded for some events when the appends in `lost`, counted from the first event, fail. */
  function Recorded(events: seq<Option<Event>>, lost: nat -> bool): seq<Option<Event>> {
    if events == [] then []
    else
      var n := |events| - 1;
      Recorded(events[..n], lost) + if lost(n) then [] else [events[n]]
  }

  /** Exactly the events whose appends succeed, in order. */
  lemma {:induction false} RecordedPicks(events: seq<Option<Event>>, lost: nat -> bool) returns (at: seq<nat>)
    ensures Picks(at, |events|, i => i >= 0 && !lost(i))
    ensures |Recorded(events, lost)| == |at| && forall k | 0 <= k < |at| :: Recorded(events, lost)[k] == events[at[k]]
  {
    hide *;
    LastRecorded(events, lost);
    at := [];
    if events == [] {
      NoPicks(i => i >= 0 && !lost(i));
    } else {
      var n := |events| - 1;
      at := RecordedPicks(events[..n], lost);
      PicksWithin(at, n, i => i >= 0 && !lost(i));
      PicksNext(at, n, i => i >= 0 && !lost(i), i => i >= 0 && !lost(i));
      if !lost(n) {
        at := at + [n];
      }
    }
  }

  lemma LastRecorded(events: seq<Option<Event>>, lost: nat -> bool)
    ensures events == [] ==> Recorded(events, lost) == []
    ensures events != [] ==>
              var n := |events| - 1;
              Recorded(events, lost) == if lost(n) then Recorded(events[..n], lost) else Recorded(events[..n], lost) + [events[n]]
  {
  }

  predicate IsEnd(e: Option<Event>) {
    e.Some? && IsTerminal(e.value)
  }

  /** How many events are read: up to the first terminal one that is recorded, or all. */
  function ReadUpTo(events: seq<Option<Event>>, lost: nat -> bool, i: nat): (n: nat)
    requires i <= |events|
    ensures i <= n <= |events|
    ensures forall j | i <= j < n - 1 :: IsEnd(events[j]) ==> lost(j)
    ensures n < |events| ==> n > i && IsEnd(events[n - 1]) && !lost(n - 1)
    decreases |events| - i
  {
    if i == |events| then i
    else if IsEnd(events[i]) && !lost(i) then i + 1
    else ReadUpTo(events, lost, i + 1)
  }

  function Data(log: seq<UiEvent>): seq<Option<Event>> {
    seq(|log|, i requires 0 <= i < |log| => log[i].data)
  }

  /** How the run ends in the books. */
  function Verdict(events: seq<Option<Event>>, lost: nat -> bool, n: nat, end: string): Finish
    requires n <= |events|
  {
    if n > 0 && IsEnd(events[n - 1]) && !lost(n - 1)
    then Finish(if events[n - 1].value.DoneEvent? then "completed" else "failed", TextOf(events[..n]), "")
    else Finish("failed", TextOf(events[..n]), if end == "EOF" then "gateway stream ended without terminal event" else end)
  }

  /** Reads the gateway's stream, `events` and then the error `end`, and closes the run's books exactly once. */
  method ConsumeRun(startError: Option<string>, events: seq<Option<Event>>, end: string, store: EventStore, runs: RunStore)
    requires store.Valid() && store.list == [] && store.attempts == 0
    modifies store, runs
    ensures store.Valid()
    ensures startError.Some? ==> store.list == [] && runs.finished == old(runs.finished) + [Finish("failed", "", startError.value)]
    ensures startError.None? ==>
              var n := ReadUpTo(events, store.Lost(), 0);
              && Data(store.list) == Recorded(events[..n], store.Lost())
              && runs.finished == old(runs.finished) + [Verdict(events, store.Lost(), n, end)]
              && Closes(runs.finished[|old(runs.finished)|], events, n, n > 0 && IsEnd(events[n - 1]) && !store.Lost()(n - 1), end)
  {
    if startError.Some? {
      runs.FinishRun(Finish("failed", "", startError.value));
      return;
    }
    hide ReadUpTo, Recorded, Data, TextOf, WellKept, Verdict, IsEnd;
    ghost var n := ConsumeStream(events, end, store, runs, store.Lost());
    VerdictCloses(events, store.Lost(), n, end);
  }

  /** How a run's books are closed after `n` events, `ended` being that the last of them was terminal and recorded: with all
      the text read, as completed exactly after Done, and with an error exactly if no terminal event was recorded. */
  ghost predicate Closes(f: Finish, events: seq<Option<Event>>, n: nat, ended: bool, end: string)
    requires n <= |events| && (ended ==> n > 0)
  {
    && f.summary == TextOf(events[..n])
    && (f.status == "completed" <==> ended && events[n - 1].Some? && events[n - 1].value.DoneEvent?)
    && (f.status == "completed" || f.status == "failed")
    && (ended ==> f.error == "")
    && (!ended && end == "EOF" ==> f.error == "gateway stream ended without terminal event")
    && (!ended && end != "EOF" ==> f.error == end)
  }

  lemma VerdictCloses(events: seq<Option<Event>>, lost: nat -> bool, n: nat, end: string)
    requires n <= |events|
    ensures Closes(Verdict(events, lost, n, end), events, n, n > 0 && IsEnd(events[n - 1]) && !lost(n - 1), end)
  {
  }

  /** The receiving loop. */
  method ConsumeStream(events: seq<Option<Event>>, end: string, store: EventStore, runs: RunStore, ghost lost: nat -> bool)
    returns (ghost n: nat)
    requires store.Valid() && store.list == [] && store.attempts == 0 && store.Lost() == lost
    modifies store, runs
    ensures store.Valid()
    ensures n == ReadUpTo(events, lost, 0) && Data(store.list) == Recorded(events[..n], lost)
    ensures runs.finished == old(runs.finished) + [Verdict(events, lost, n, end)]
  {
    var summary := "";
    NothingRead(events, lost);
    hide ReadUpTo, Recorded, Data, TextOf, WellKept, Verdict, IsEnd;
    for i := 0 to |events|
      invariant store.Valid() && store.attempts == i && store.Lost() == lost
      invariant ReadUpTo(events, lost, 0) == ReadUpTo(events, lost, i)
      invariant Data(store.list) == Recorded(events[..i], lost)
      invariant summary == TextOf(events[..i])
      invariant i > 0 ==> !IsEnd(events[i - 1]) || lost(i - 1)
      invariant runs.finished == old(runs.finished)
    {
      var ev := events[i];
      OneMoreRead(events, lost, i, store.list, UiEvent(store.counter + 1, KindOf(ev), ev), end);
      if ev.Some? && ev.value.TokenEvent? {
        summary := summary + ev.value.text;
      }
      assert summary == TextOf(events[..i + 1]);
      var ok := store.Append(ev);
      if !ok {
        continue;
      }
      if IsEnd(ev) {
        runs.FinishRun(Finish(if ev.value.DoneEvent? then "completed" else "failed", summary, ""));
        return i + 1;
      }
    }
    EndOfStream(events, lost, end);
    runs.FinishRun(Finish("failed", summary, if end == "EOF" then "gateway stream ended without terminal event" else end));
    return |events|;
  }

  lemma NothingRead(events: seq<Option<Event>>, lost: nat -> bool)
    ensures Recorded(events[..0], lost) == [] && TextOf(events[..0]) == "" && Data([]) == []
  {
  }

  lemma EndOfStream(events: seq<Option<Event>>, lost: nat -> bool, end: string)
    requires events == [] || !IsEnd(events[|events| - 1]) || lost(|events| - 1)
    ensures ReadUpTo(events, lost, |events|) == |events| && events[..|events|] == events
    ensures Verdict(events, lost, |events|, end)
            == Finish("failed", TextOf(events), if end == "EOF" then "gateway stream ended without terminal event" else end)
  {
    assert events[..|events|] == events;
  }

  lemma OneMoreRead(events: seq<Option<Event>>, lost: nat -> bool, i: nat, log: seq<UiEvent>, e: UiEvent, end: string)
    requires i < |events| && e.data == events[i]
    ensures ReadUpTo(events, lost, i) == if IsEnd(events[i]) && !lost(i) then i + 1 else ReadUpTo(events, lost, i + 1)
    ensures Recorded(events[..i + 1], lost) == Recorded(events[..i], lost) + if lost(i) then [] else [events[i]]
    ensures Data(log + [e]) == Data(log) + [events[i]]
    ensures TextOf(events[..i + 1]) ==
            TextOf(events[..i]) + if events[i].Some? && events[i].value.TokenEvent? then events[i].value.text else ""
    ensures IsEnd(events[i]) && !lost(i) ==>
              && events[i].Some?
              && Verdict(events, lost, i + 1, end)
                 == Finish(if events[i].value.DoneEvent? then "completed" else "failed", TextOf(events[..i + 1]), "")
  {
    assert events[..i + 1][..i] == events[..i];
  }

  /** When every append succeeds: the record is the stream up to its first terminal event. */
  lemma {:induction false} AllRecorded(events: seq<Option<Event>>, lost: nat -> bool)
    requires forall k | 0 <= k < |events| :: !lost(k)
    ensures Recorded(events, lost) == events
  {
    if events != [] {
      AllRecorded(events[..|events| - 1], lost);
    }
  }

  function Wrap(events: seq<Event>): seq<Option<Event>> {
    seq(|events|, i requires 0 <= i < |events| => Some(events[i]))
  }

  lemma {:induction false} ReadsWholeTrace(events: seq<Event>, lost: nat -> bool, i: nat)
    requires i < |events| && IsTerminal(events[|events| - 1]) && forall k | i <= k < |events| - 1 :: !IsTerminal(events[k])
    ensures ReadUpTo(Wrap(events), lost, i) == |events|
    decreases |events| - i
  {
    if i < |events| - 1 {
      ReadsWholeTrace(events, lost, i + 1);
    }
  }

  lemma {:induction false} SameText(events: seq<Event>)
    ensures TextOf(Wrap(events)) == Gateway.TextOf(events)
  {
    if events != [] {
      var n := |events| - 1;
      assert Wrap(events)[..n] == Wrap(events[..n]);
      SameText(events[..n]);
    }
  }

  /** A complete run's trace, streamed by the gateway with every append succeeding: it is recorded as it is, and the books
      say completed exactly if it ended in Done, with all its tokens. */
  lemma CompleteRunIsRecorded(trace: seq<Event>, lost: nat -> bool, end: string)
    requires IsCompleteRun(trace) && forall k | 0 <= k < |trace| :: !lost(k)
    ensures var events, n := Wrap(trace), ReadUpTo(Wrap(trace), lost, 0);
            && n == |trace| && Recorded(events[..n], lost) == Wrap(trace)
            && Verdict(events, lost, n, end)
               == Finish(if trace[|trace| - 1].DoneEvent? then "completed" else "failed", Gateway.TextOf(trace), "")
  {
    CompleteRunEndsOnce(trace);
    ReadsWholeTrace(trace, lost, 0);
    AllRecorded(Wrap(trace), lost);
    SameText(trace);
    assert Wrap(trace)[..|trace|] == Wrap(trace);
    hide TextOf, Gateway.TextOf, Recorded, ReadUpTo, IsCompleteRun;
  }

  // ---- serving the record ----

  /** A run's record while it is still being written: what it will be, and how much of it is there. */
  class LiveLog {
    const full: seq<UiEvent>
    const pace: nat -> nat
    const readFails: nat -> bool
    var visible: nat
    var polls: nat

    ghost predicate Valid()
      reads this
    {
      WellKept(full) && visible <= |full|
    }

    constructor (full: seq<UiEvent>, pace: nat -> nat, readFails: nat -> bool)
      requires WellKept(full)
      ensures Valid() && this.full == full
    {
      this.full, this.pace, this.readFails := full, pace, readFails;
      visible, polls := 0, 0;
    }

    /** More may have been written since the last call. */
    method Poll(last: int) returns (r: Option<seq<UiEvent>>)
      requires Valid()
      modifies this
      ensures Valid() && visible >= old(visible)
      ensures visible == if old(visible) + pace(old(polls)) <= |full| then old(visible) + pace(old(polls)) else |full|
      ensures r == if readFails(old(polls)) then None else Some(After(full[..visible], last))
      ensures polls == old(polls) + 1
    {
      visible := if visible + pace(polls) <= |full| then visible + pace(polls) else |full|;
      polls := polls + 1;
      if readFails(polls - 1) {
        return None;
      }
      r := Some(After(full[..visible], last));
    }
  }

  /** What has been written to one response. */
  class Response {
    var written: seq<UiEvent>

    constructor ()
      ensures written == []
    {
      written := [];
    }

    method Write(e: UiEvent)
      modifies this
      ensures written == old(written) + [e]
    {
      written := written + [e];
    }
  }

  /** No event from `k` up to `m` ends the stream. */
  ghost predicate NoEnd(full: seq<UiEvent>, k: nat, m: int) {
    forall i | k <= i < m && i < |full| :: !Ends(full[i])
  }

  /** Writes one poll's events. */
  method WriteOut(events: seq<UiEvent>, w: Response, last0: int) returns (ended: bool, last: int, ghost n: nat)
    modifies w
    ensures n <= |events| && w.written == old(w.written) + events[..n]
    ensures last == if n == 0 then last0 else events[n - 1].id
    ensures NoEnd(events, 0, if ended then n - 1 else n)
    ensures if ended then n > 0 && Ends(events[n - 1]) else n == |events|
  {
    last, n := last0, 0;
    for i := 0 to |events|
      invariant n == i && w.written == old(w.written) + events[..i]
      invariant last == if i == 0 then last0 else events[i - 1].id
      invariant forall j | 0 <= j < i :: !Ends(events[j])
    {
      w.Write(events[i]);
      last, n := events[i].id, i + 1;
      assert events[..i + 1] == events[..i] + [events[i]];
      if Ends(events[i]) {
        return true, last, n;
      }
    }
    assert events[..|events|] == events;
    ended := false;
  }

  /** One connection of a reader that asks for what follows any number at all, polled at most `polls` times before it goes
      away: it is served from the first event with a larger id on. */
  method ServeEvents(live: LiveLog, w: Response, lastEventId: int, polls: nat) returns (ended: bool, ghost m: nat)
    requires live.Valid() && w.written == []
    modifies live, w
    ensures live.Valid() && live.visible >= old(live.visible)
    ensures var k := Seen(live.full, lastEventId);
            && k <= m <= |live.full| && (m == k || m <= live.visible)
            && w.written == live.full[k..m] && NoEnd(live.full, k, if ended then m - 1 else m)
            && (ended ==> k < m && Ends(live.full[m - 1]))
            && (!ended && polls > 0 && (forall i :: !live.readFails(i)) ==> m == if k <= live.visible then live.visible else k)
  {
    hide WellKept, After, NoEnd, Ends, Seen;
    var last := lastEventId;
    ghost var k := Seen(live.full, lastEventId);
    m := k;
    NothingThere(live.full, k);
    for poll := 0 to polls
      invariant live.Valid() && live.visible >= old(live.visible)
      invariant k <= m <= |live.full| && (m == k || m <= live.visible) && Seen(live.full, last) == m
      invariant w.written == live.full[k..m] && NoEnd(live.full, k, m)
      invariant poll > 0 && (forall i :: !live.readFails(i)) ==> m == if k <= live.visible then live.visible else k
    {
      var events := live.Poll(last);
      if events == None {
        return false, m;
      }
      AfterAnyNumber(live.full, last, live.visible);
      ghost var n;
      ended, last, n := WriteOut(events.value, w, last);
      if m <= live.visible {
        Extend(live.full, k, m, live.visible, n, ended);
        if n > 0 {
          SeenAfterReading(live.full, m + n);
        }
      }
      m := m + n;
      if ended {
        return true, m;
      }
    }
    ended := false;
  }

  lemma NothingThere(full: seq<UiEvent>, k: nat)
    ensures NoEnd(full, k, k)
  {
  }

  lemma Extend(full: seq<UiEvent>, k: nat, m: nat, v: nat, n: nat, ended: bool)
    requires k <= m && m + n <= v <= |full| && NoEnd(full, k, m)
    requires NoEnd(full[m..v], 0, if ended then n - 1 else n) && (ended ==> n > 0 && Ends(full[m..v][n - 1]))
    ensures full[k..m] + full[m..v][..n] == full[k..m + n]
    ensures NoEnd(full, k, if ended then m + n - 1 else m + n)
    ensures ended ==> Ends(full[m + n - 1])
    ensures n > 0 ==> full[m..v][n - 1].id == LastId(full, m + n)
  {
    var stop := if ended then n - 1 else n;
    forall i | k <= i < m + stop ensures !Ends(full[i]) {
      if i >= m {
        assert full[i] == full[m..v][i - m];
      }
    }
  }

  /** A browser that reconnects `connections` times with the id of the last event it got; of what connection `c` is
      sent, `arrives(c)` events arrive. Whatever is polled and cut, it gets the record from its start, in order, each
      event once; a connection that ends properly and arrives whole takes it to a terminal event, and one that is polled
      at all and arrives whole takes it at least as far as the record had got. */
  method Browse(live: LiveLog, connections: nat, polls: nat -> nat, arrives: nat -> nat)
    returns (got: seq<UiEvent>, whole: bool)
    requires live.Valid()
    modifies live
    ensures live.Valid() && got <= live.full[..live.visible]
    ensures whole ==> got != [] && Ends(got[|got| - 1])
    ensures (forall i :: !live.readFails(i)) && connections > 0 && polls(connections - 1) > 0 && !whole ==>
              arrives(connections - 1) >= |live.full| ==> |got| == live.visible
  {
    hide WellKept, After, NoEnd, Ends, Seen;
    got, whole := [], false;
    var last: int := 0;
    for c := 0 to connections
      invariant live.Valid() && |got| <= live.visible && got == live.full[..|got|]
      invariant last == LastId(live.full, |got|)
      invariant whole ==> got != [] && Ends(got[|got| - 1])
      invariant (forall i :: !live.readFails(i)) && c > 0 && polls(c - 1) > 0 && !whole ==>
                  arrives(c - 1) >= |live.full| ==> |got| == live.visible
    {
      var w := new Response();
      ghost var k := |got|;
      SeenAfterReading(live.full, k);
      var ended, m := ServeEvents(live, w, last, polls(c));
      var arrived := if arrives(c) <= |w.written| then w.written[..arrives(c)] else w.written;
      Arrive(live.full, k, m, |arrived|);
      got := got + arrived;
      whole := ended && |arrived| == |w.written|;
      last := if arrived == [] then last else arrived[|arrived| - 1].id;
    }
  }

  lemma Arrive(full: seq<UiEvent>, k: nat, m: nat, j: nat)
    requires k <= m <= |full| && j <= m - k
    ensures full[..k] + full[k..m][..j] == full[..k + j]
    ensures j > 0 ==> full[k..m][..j][j - 1].id == LastId(full, k + j)
    ensures full[k..m][..m - k] == full[k..m]
  {
  }

  lemma {:induction false} RecordedKeepsRest(events: seq<Option<Event>>, lost: nat -> bool, i: nat)
    requires i < |Recorded(events, lost)|
    requires forall j | 0 <= j < |events| :: IsEnd(events[j]) ==> lost(j)
    ensures !IsEnd(Recorded(events, lost)[i])
  {
    var n := |events| - 1;
    if i < |Recorded(events[..n], lost)| {
      RecordedKeepsRest(events[..n], lost, i);
    }
  }

  /** The record of a consumed run has at most one terminal event, and it is the last: a reader that got it has it all. */
  lemma RecordEndsOnce(events: seq<Option<Event>>, lost: nat -> bool, log: seq<UiEvent>, i: nat)
    requires WellKept(log) && Data(log) == Recorded(events[..ReadUpTo(events, lost, 0)], lost)
    requires i < |log| && Ends(log[i])
    ensures i == |log| - 1
  {
    var n := ReadUpTo(events, lost, 0);
    assert Data(log)[i] == log[i].data;
    assert IsEnd(log[i].data);
    if n > 0 {
      assert events[..n][..n - 1] == events[..n - 1];
      if i < |Recorded(events[..n - 1], lost)| {
        RecordedKeepsRest(events[..n - 1], lost, i);
      }
    }
  }
}
