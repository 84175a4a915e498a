/** One ACP connection: events are cached before they are queued, a writer goroutine empties the queue onto the wire,
    and a later connection replays what the client has not seen. */
module AcpSession {
  import opened Wrappers
  import opened Bytes
  import opened Codec
  import EC = EventCache

  const HELLO: byte := 0x01
  const HELLO_ACK: byte := 0x02
  const RUN: byte := 0x10
  const EVENT: byte := 0x20
  const PING: byte := 0x30
  const PONG: byte := 0x31
  const RESUME: byte := 0x40
  const CLOSE: byte := 0x50
  const ERROR: byte := 0xF0
  const END_STREAM: byte := 0x01
  const QUEUE := 256

  /** The session's fields; the frame an emit has cached but not yet queued; the frames on the wire and, once a write has
      `failed`, the bytes of its frame that went out. Then, for the proofs: the run's cached log, every event emitted, and
      every frame handed to `send`. `broken` is a connection that has been closed or could not be written. */
  datatype State = State(
    seqGen: nat, closed: bool, queue: seq<Frame>, pending: Option<Frame>, written: seq<Frame>, broken: bool,
    failed: bool, partial: seq<byte>, log: seq<EC.Cached>, emitted: seq<EC.Cached>, offered: seq<Frame>)

  const INIT := State(0, false, [], None, [], false, false, [], [], [], [])

  /** A step of the emitter (`Emit` numbers and caches an event, `SendEvent` queues it), of the serving goroutine (`Raise`
      lifts the numbering to a replayed event's), or of the writer; `stored` is whether the cache took the event, `sent` how
      many bytes went out. */
  datatype Label =
    | Emit(payload: seq<byte>, end: bool, stored: bool)
    | SendEvent
    | Send(f: Frame)
    | Raise(n: word)
    | Finish
    | Write
    | WriteFails(sent: nat)
    | Discard

  function EventFrame(e: EC.Cached, end: bool): Frame {
    Frame(EVENT, if end then END_STREAM else 0, e.seqNo, e.payload)
  }

  /** `send`: nothing once closed; a full queue closes the connection. */
  function Sent(s: State, f: Frame): State {
    if s.closed then s.(offered := s.offered + [f])
    else if |s.queue| < QUEUE then s.(queue := s.queue + [f], offered := s.offered + [f])
    else s.(closed := true, broken := true, offered := s.offered + [f])
  }

  /** A failed write leaves less than the frame, and nothing of one that is too long. */
  predicate CanCut(f: Frame, sent: nat) {
    sent < |EncodeFrame(f)| && (|f.payload| > MAX_PAYLOAD ==> sent == 0)
  }

  /** Everything on the wire. */
  function WireBytes(s: State): seq<byte> {
    EncodeAll(s.written) + s.partial
  }

  /** The state after one step, or None if the step cannot happen here. Once `serve` has returned nothing is sent. */
  function Next(s: State, l: Label): Option<State> {
    match l
    case Emit(payload, end, stored) =>
      if s.closed || s.pending.Some? || s.seqGen + 1 >= WORD then None
      else
        var e := EC.Cached(s.seqGen + 1, payload);
        Some(s.(seqGen := s.seqGen + 1, pending := Some(EventFrame(e, end)), emitted := s.emitted + [e],
                log := s.log + if stored then [e] else []))
    case SendEvent =>
      if s.pending == None || (s.closed && !s.broken) then None else Some(Sent(s, s.pending.value).(pending := None))
    case Send(f) =>
      if s.pending.Some? || (s.closed && !s.broken) then None else Some(Sent(s, f))
    case Raise(n) =>
      Some(if n > s.seqGen then s.(seqGen := n) else s)
    case Finish =>
      if s.pending.Some? then None else Some(s.(closed := true))
    case Write =>
      if s.broken || s.queue == [] || |s.queue[0].payload| > MAX_PAYLOAD then None
      else Some(s.(written := s.written + [s.queue[0]], queue := s.queue[1..]))
    case WriteFails(sent) =>
      if s.failed || s.queue == [] || !CanCut(s.queue[0], sent) then None
      else Some(s.(broken := true, failed := true, partial := EncodeFrame(s.queue[0])[..sent], queue := s.queue[1..]))
    case Discard =>
      if !s.failed || s.queue == [] then None else Some(s.(queue := s.queue[1..]))
  }

  function Run(s: State, labels: seq<Label>): Option<State> {
    if labels == [] then Some(s)
    else
      match Run(s, labels[..|labels| - 1])
      case None => None
      case Some(t) => Next(t, labels[|labels| - 1])
  }

  /** The events among some frames. */
  function Events(fs: seq<Frame>): seq<EC.Cached> {
    if fs == [] then []
    else
      var f := fs[|fs| - 1];
      Events(fs[..|fs| - 1]) + if f.kind == EVENT then [EC.Cached(f.seqNo, f.payload)] else []
  }

  lemma {:induction false} EventsConcat(fs: seq<Frame>, gs: seq<Frame>)
    ensures Events(fs + gs) == Events(fs) + Events(gs)
  {
    if gs == [] {
      assert fs + gs == fs;
    } else {
      var n := |gs| - 1;
      EventsConcat(fs, gs[..n]);
      assert (fs + gs)[..|fs + gs| - 1] == fs + gs[..n];
    }
  }

  // ---- the channel ----

  /** Frames reach the wire in the order they were sent, without gaps, for as long as anything reaches it. */
  ghost predicate Flows(s: State) {
    && |s.queue| <= QUEUE
    && s.written <= s.offered
    && (!s.broken ==> s.written + s.queue == s.offered)
    && (!s.failed ==> s.written + s.queue <= s.offered && s.partial == [] && (s.broken ==> s.closed))
    && (s.failed ==> s.broken && |s.written| < |s.offered| && IsCutOf(s.partial, s.offered[|s.written|]))
    && forall f | f in s.written :: |f.payload| <= MAX_PAYLOAD
  }

  ghost predicate IsCutOf(partial: seq<byte>, f: Frame) {
    CanCut(f, |partial|) && partial == EncodeFrame(f)[..|partial|]
  }

  lemma {:induction false} NextFlows(s: State, l: Label)
    requires Flows(s) && Next(s, l).Some?
    ensures Flows(Next(s, l).value)
  {
    hide EncodeFrame;
    if l.Write? || l.WriteFails? {
      HeadFlows(s, l);
    }
  }

  lemma {:induction false} HeadFlows(s: State, l: Label)
    requires Flows(s) && Next(s, l).Some? && (l.Write? || l.WriteFails?)
    ensures Flows(Next(s, l).value)
  {
    hide EncodeFrame;
    assert s.queue == [s.queue[0]] + s.queue[1..];
    assert (s.written + s.queue)[|s.written|] == s.queue[0];
    assert s.written + s.queue == s.written + [s.queue[0]] + s.queue[1..];
    assert s.offered[|s.written|] == s.queue[0];
  }

  lemma {:induction false} RunFlows(s: State, labels: seq<Label>)
    requires Flows(s) && Run(s, labels).Some?
    ensures Flows(Run(s, labels).value)
  {
    if labels != [] {
      RunFlows(s, labels[..|labels| - 1]);
      NextFlows(Run(s, labels[..|labels| - 1]).value, labels[|labels| - 1]);
    }
  }

  // ---- a connection that runs ----

  function Pending(s: State): seq<EC.Cached> {
    if s.pending.Some? then [EC.Cached(s.pending.value.seqNo, s.pending.value.payload)] else []
  }

  /** Events are numbered from 1 and sent in that order. */
  ghost predicate Numbers(s: State) {
    && |s.emitted| == s.seqGen < WORD
    && EC.Numbered(s.emitted)
    && (s.pending.Some? ==> s.pending.value.kind == EVENT)
    && Events(s.offered) + Pending(s) == s.emitted
  }

  /** A schedule of a RUN connection: the serving goroutine sends no events of its own. */
  predicate RunOnly(labels: seq<Label>) {
    forall l | l in labels :: !l.Raise? && (l.Send? ==> l.f.kind != EVENT)
  }

  predicate AllStored(labels: seq<Label>) {
    forall l | l in labels :: l.Emit? ==> l.stored
  }

  lemma {:induction false} NextNumbers(s: State, l: Label)
    requires Numbers(s) && Next(s, l).Some? && !l.Raise? && (l.Send? ==> l.f.kind != EVENT)
    ensures Numbers(Next(s, l).value)
  {
    hide Events, EC.Numbered;
    if l.SendEvent? {
      OneMoreOffered(s.offered, s.pending.value);
    } else if l.Send? {
      OneMoreOffered(s.offered, l.f);
    } else if l.Emit? {
      NumberedOn(s.emitted, EC.Cached(s.seqGen + 1, l.payload));
    }
  }

  lemma NumberedOn(events: seq<EC.Cached>, e: EC.Cached)
    requires EC.Numbered(events) && e.seqNo == |events| + 1
    ensures EC.Numbered(events + [e])
  {
  }

  lemma OneMoreOffered(fs: seq<Frame>, f: Frame)
    ensures Events(fs + [f]) == Events(fs) + if f.kind == EVENT then [EC.Cached(f.seqNo, f.payload)] else []
  {
    assert (fs + [f])[..|fs|] == fs;
  }

  lemma {:induction false} RunNumbers(labels: seq<Label>)
    requires Run(INIT, labels).Some? && RunOnly(labels)
    ensures Numbers(Run(INIT, labels).value)
  {
    if labels != [] {
      var front, l := labels[..|labels| - 1], labels[|labels| - 1];
      assert l in labels && forall k | k in front :: k in labels;
      RunNumbers(front);
      NextNumbers(Run(INIT, front).value, l);
    }
  }

  lemma {:induction false} StoredMeansLogged(labels: seq<Label>)
    requires Run(INIT, labels).Some? && AllStored(labels)
    ensures Run(INIT, labels).value.log == Run(INIT, labels).value.emitted
  {
    if labels != [] {
      var front, l := labels[..|labels| - 1], labels[|labels| - 1];
      assert l in labels && forall k | k in front :: k in labels;
      StoredMeansLogged(front);
    }
  }

  /** At every step of every schedule the events on the wire are an initial part of the cached log, whose numbers are
      1 to n; and as long as the connection holds, the rest of the log is queued or about to be. */
  lemma {:induction false} WireIsPrefixOfLog(labels: seq<Label>)
    requires Run(INIT, labels).Some? && RunOnly(labels) && AllStored(labels)
    ensures var s := Run(INIT, labels).value;
            && EC.Numbered(s.log) && |s.log| == s.seqGen
            && Events(s.written) <= s.log
            && (!s.broken ==> Events(s.written) + Events(s.queue) + Pending(s) == s.log)
  {
    RunFlows(INIT, labels);
    RunNumbers(labels);
    StoredMeansLogged(labels);
    SentIsPrefix(Run(INIT, labels).value);
    hide *;
  }

  lemma {:induction false} SentIsPrefix(s: State)
    requires Flows(s) && Numbers(s) && s.log == s.emitted
    ensures EC.Numbered(s.log) && |s.log| == s.seqGen && Events(s.written) <= s.log
    ensures !s.broken ==> Events(s.written) + Events(s.queue) + Pending(s) == s.log
  {
    EventsConcat(s.written, s.queue);
    EventsMonotone(s.written, s.offered);
    hide Events, EC.Numbered;
  }

  /** However the bytes are cut off, in transit or by a failed write, the client reads events 1 to m of the log. */
  lemma {:induction false} ClientReadsPrefixOfLog(labels: seq<Label>, k: nat)
    requires Run(INIT, labels).Some? && RunOnly(labels) && AllStored(labels)
    requires k <= |WireBytes(Run(INIT, labels).value)|
    ensures Events(Received(WireBytes(Run(INIT, labels).value)[..k])) <= Run(INIT, labels).value.log
  {
    RunFlows(INIT, labels);
    WireIsPrefixOfLog(labels);
    hide Run, Events, EC.Numbered, RunOnly, AllStored;
    var s := Run(INIT, labels).value;
    CutWireReadsWritten(s, k);
    EventsMonotone(Received(WireBytes(s)[..k]), s.written);
  }

  lemma EventsMonotone(fs: seq<Frame>, gs: seq<Frame>)
    requires fs <= gs
    ensures Events(fs) <= Events(gs)
  {
    EventsConcat(fs, gs[|fs|..]);
    assert gs == fs + gs[|fs|..];
  }

  lemma {:induction false} CutWireReadsWritten(s: State, k: nat)
    requires Flows(s) && k <= |WireBytes(s)|
    ensures Received(WireBytes(s)[..k]) <= s.written
  {
    hide Received, EncodeAll, EncodeFrame;
    if s.partial == [] {
      assert WireBytes(s) == EncodeAll(s.written);
      CutStreamReadsPrefix(s.written, k);
    } else {
      PartialFrameIsNotRead(s.written, s.offered[|s.written|], |s.partial|, k);
    }
  }

  /** An event was emitted but is not in the log, and the numbering is past it. */
  ghost predicate IsLost(s: State, e: EC.Cached) {
    e in s.emitted && e.seqNo <= s.seqGen && forall i | 0 <= i < |s.log| :: s.log[i].seqNo != e.seqNo
  }

  lemma {:induction false} LostStaysLost(before: seq<Label>, later: seq<Label>, e: EC.Cached)
    requires Run(INIT, before).Some? && Run(INIT, before + later).Some? && IsLost(Run(INIT, before).value, e)
    ensures IsLost(Run(INIT, before + later).value, e)
    decreases |later|
  {
    if later == [] {
      assert before + later == before;
    } else {
      var n := |later| - 1;
      var all := before + later;
      assert all[..|all| - 1] == before + later[..n];
      LostStaysLost(before, later[..n], e);
      LostNext(Run(INIT, before + later[..n]).value, later[n], e);
      assert Run(INIT, all) == Next(Run(INIT, before + later[..n]).value, later[n]);
      hide Next, IsLost;
    }
  }

  lemma {:induction false} LostNext(s: State, l: Label, e: EC.Cached)
    requires IsLost(s, e) && Next(s, l).Some?
    ensures IsLost(Next(s, l).value, e)
  {
  }

  /** An event the cache did not take is in no later replay, however the run goes on. */
  lemma {:induction false} UnstoredEventIsNeverReplayed(labels: seq<Label>, payload: seq<byte>, end: bool,
                                                        later: seq<Label>, since: nat)
    requires Run(INIT, labels).Some? && Run(INIT, labels + [Emit(payload, end, false)]).Some?
    requires Run(INIT, labels + [Emit(payload, end, false)] + later).Some?
    ensures Run(INIT, labels).value.seqGen + 1 < WORD
    ensures var s, lost := Run(INIT, labels + [Emit(payload, end, false)] + later).value,
                           EC.Cached(Run(INIT, labels).value.seqGen + 1, payload);
            && lost in s.emitted
            && (forall i | 0 <= i < |s.log| :: s.log[i].seqNo != lost.seqNo)
            && lost !in EC.Decoded(EC.Above(EC.Stored(s.log), since))
  {
    var before := labels + [Emit(payload, end, false)];
    EmittedUnstored(labels, payload, end);
    var lost := EC.Cached(Run(INIT, labels).value.seqGen + 1, payload);
    LostStaysLost(before, later, lost);
    hide Run, EC.Decoded, EC.Above, EC.Stored;
    ReplayIsOfLog(Run(INIT, before + later).value.log, since);
  }

  lemma {:induction false} EmittedUnstored(labels: seq<Label>, payload: seq<byte>, end: bool)
    requires Run(INIT, labels).Some? && Run(INIT, labels + [Emit(payload, end, false)]).Some?
    ensures Run(INIT, labels).value.seqGen + 1 < WORD
    ensures IsLost(Run(INIT, labels + [Emit(payload, end, false)]).value, EC.Cached(Run(INIT, labels).value.seqGen + 1, payload))
  {
    assert (labels + [Emit(payload, end, false)])[..|labels|] == labels;
    LogBelowSeqGen(labels);
  }

  /** A replay holds nothing but logged events. */
  lemma {:induction false} ReplayIsOfLog(log: seq<EC.Cached>, since: nat)
    ensures forall e | e in EC.Decoded(EC.Above(EC.Stored(log), since)) :: e in log
  {
    EC.AboveIsPart(EC.Stored(log), since);
    EC.DecodedIsPart(EC.Above(EC.Stored(log), since), log);
  }

  /** But it can reach the client: with the queue empty and the connection open, it is on the wire two steps later. */
  lemma {:induction false} UnstoredEventCanBeSent(labels: seq<Label>, payload: seq<byte>, end: bool)
    requires Run(INIT, labels).Some? && |payload| <= MAX_PAYLOAD
    requires var s := Run(INIT, labels).value;
             !s.closed && !s.broken && s.pending == None && s.queue == [] && s.seqGen + 1 < WORD
    ensures var s := Run(INIT, labels).value;
            var r := Run(INIT, labels + [Emit(payload, end, false)] + [SendEvent] + [Write]);
            && r.Some? && r.value.log == s.log
            && Events(r.value.written) == Events(s.written) + [EC.Cached(s.seqGen + 1, payload)]
  {
    hide *;
    var s := Run(INIT, labels).value;
    var emit := Emit(payload, end, false);
    EmitSendWrite(s, payload, end);
    OneMore(labels, emit);
    OneMore(labels + [emit], SendEvent);
    OneMore(labels + [emit] + [SendEvent], Write);
  }

  lemma {:induction false} EmitSendWrite(s: State, payload: seq<byte>, end: bool)
    requires |payload| <= MAX_PAYLOAD && !s.closed && !s.broken && s.pending == None && s.queue == [] && s.seqGen + 1 < WORD
    ensures var one := Next(s, Emit(payload, end, false));
            && one.Some? && Next(one.value, SendEvent).Some?
            && var three := Next(Next(one.value, SendEvent).value, Write);
            && three.Some? && three.value.log == s.log
            && Events(three.value.written) == Events(s.written) + [EC.Cached(s.seqGen + 1, payload)]
  {
    var e := EC.Cached(s.seqGen + 1, payload);
    var f := EventFrame(e, end);
    OneMoreOffered(s.written, f);
    hide Events, EncodeFrame;
    var one := s.(seqGen := s.seqGen + 1, pending := Some(f), emitted := s.emitted + [e]);
    var two := one.(queue := [f], offered := s.offered + [f], pending := None);
    assert s.log + [] == s.log;
    assert Next(s, Emit(payload, end, false)) == Some(one);
    assert one.queue + [f] == [f];
    assert Next(one, SendEvent) == Some(two);
  }

  lemma {:induction false} LogBelowSeqGen(labels: seq<Label>)
    requires Run(INIT, labels).Some?
    ensures var s := Run(INIT, labels).value; forall i | 0 <= i < |s.log| :: s.log[i].seqNo <= s.seqGen
  {
    if labels != [] {
      LogBelowSeqGen(labels[..|labels| - 1]);
    }
  }

  // ---- a connection that resumes ----

  function ReplayFrames(events: seq<EC.Cached>): seq<Frame> {
    seq(|events|, i requires 0 <= i < |events| => Frame(EVENT, 0, events[i].seqNo, events[i].payload))
  }

  lemma {:induction false} EventsOfReplay(events: seq<EC.Cached>)
    ensures Events(ReplayFrames(events)) == events
  {
    if events != [] {
      var n := |events| - 1;
      EventsOfReplay(events[..n]);
      assert ReplayFrames(events)[..n] == ReplayFrames(events[..n]);
      assert events == events[..n] + [events[n]];
    }
  }

  /** The frames some labels hand to `send`. */
  function Handed(labels: seq<Label>): seq<Frame> {
    if labels == [] then []
    else
      var l := labels[|labels| - 1];
      Handed(labels[..|labels| - 1]) + if l.Send? then [l.f] else []
  }

  lemma {:induction false} OfferedIsHanded(labels: seq<Label>)
    requires Run(INIT, labels).Some?
    requires forall l | l in labels :: !l.Emit?
    ensures var s := Run(INIT, labels).value; s.offered == Handed(labels) && s.pending == None
  {
    if labels != [] {
      var front, l := labels[..|labels| - 1], labels[|labels| - 1];
      assert l in labels && forall k | k in front :: k in labels;
      OfferedIsHanded(front);
    }
  }

  /** What a RESUME puts on the wire is an initial part of what was to be replayed, and all of it if the connection
      holds until the queue is empty. */
  lemma {:induction false} ResumeReplaysPrefix(labels: seq<Label>, before: seq<Frame>, rest: seq<EC.Cached>, after: seq<Frame>)
    requires Run(INIT, labels).Some? && forall l | l in labels :: !l.Emit?
    requires Handed(labels) <= before + ReplayFrames(rest) + after
    requires Events(before) == [] && Events(after) == []
    ensures var s := Run(INIT, labels).value;
            && Events(s.written) <= rest
            && (!s.broken && s.queue == [] && |Handed(labels)| >= |before| + |rest| ==> Events(s.written) == rest)
  {
    var s := Run(INIT, labels).value;
    RunFlows(INIT, labels);
    OfferedIsHanded(labels);
    LengthOfReplay(rest);
    EventsOfWhole(before, rest, after);
    PartOfWhole(s.written, s.offered, before + ReplayFrames(rest), after, rest);
  }

  lemma {:induction false} PartOfWhole(written: seq<Frame>, offered: seq<Frame>, head: seq<Frame>, after: seq<Frame>, rest: seq<EC.Cached>)
    requires written <= offered <= head + after
    requires Events(head) == Events(head + after) == rest
    ensures Events(written) <= rest
    ensures written == offered && |offered| >= |head| ==> Events(written) == rest
  {
    hide Events;
    EventsMonotone(written, head + after);
    if written == offered && |offered| >= |head| {
      EventsMonotone(head, written);
    }
  }

  lemma LengthOfReplay(rest: seq<EC.Cached>)
    ensures |ReplayFrames(rest)| == |rest|
  {
  }

  lemma EventsOfWhole(before: seq<Frame>, rest: seq<EC.Cached>, after: seq<Frame>)
    requires Events(before) == [] && Events(after) == []
    ensures Events(before + ReplayFrames(rest)) == rest
    ensures Events(before + ReplayFrames(rest) + after) == rest
  {
    EventsOfReplay(rest);
    EventsConcat(before, ReplayFrames(rest));
    EventsConcat(before + ReplayFrames(rest), after);
  }

  // ---- the client across connections ----

  /** A reconnect: the length the log has by then, and how many replayed events arrive. */
  datatype Reconnect = Reconnect(logged: nat, arrived: nat)

  function LastSeq(held: seq<EC.Cached>): nat {
    if held == [] then 0 else held[|held| - 1].seqNo
  }

  /** What a reconnect brings to a client that holds `held`. */
  function Arriving(log: seq<EC.Cached>, held: seq<EC.Cached>, r: Reconnect): seq<EC.Cached> {
    var logged := if r.logged <= |log| then r.logged else |log|;
    var replay := EC.Decoded(EC.Above(EC.Stored(log[..logged]), LastSeq(held)));
    if r.arrived <= |replay| then replay[..r.arrived] else replay
  }

  /** What the client holds after some reconnects, each asking for what follows its last event. */
  function Held(log: seq<EC.Cached>, first: nat, rs: seq<Reconnect>): seq<EC.Cached>
    requires first <= |log|
  {
    if rs == [] then log[..first]
    else
      var held := Held(log, first, rs[..|rs| - 1]);
      held + Arriving(log, held, rs[|rs| - 1])
  }

  /** How many events a reconnect leaves a client with that had `n`. */
  function Advance(total: nat, n: nat, r: Reconnect): (m: nat)
    requires n <= total
    ensures n <= m <= total
  {
    var logged := if r.logged <= total then r.logged else total;
    if logged <= n then n else if r.arrived <= logged - n then n + r.arrived else logged
  }

  function Reached(total: nat, first: nat, rs: seq<Reconnect>): (n: nat)
    requires first <= total
    ensures n <= total
  {
    if rs == [] then first else Advance(total, Reached(total, first, rs[..|rs| - 1]), rs[|rs| - 1])
  }

  lemma {:induction false} ReconnectAdvances(log: seq<EC.Cached>, n: nat, r: Reconnect)
    requires EC.Numbered(log) && n <= |log|
    ensures log[..n] + Arriving(log, log[..n], r) == log[..Advance(|log|, n, r)]
  {
    var logged := if r.logged <= |log| then r.logged else |log|;
    assert LastSeq(log[..n]) == n;
    EC.ReplayIsRest(log[..logged], n);
    TakeArrived(log, n, logged, r.arrived);
    hide EC.Decoded, EC.Above, EC.Stored, EC.Numbered, LastSeq;
  }

  lemma TakeArrived(log: seq<EC.Cached>, n: nat, logged: nat, arrived: nat)
    requires n <= |log| && logged <= |log|
    ensures var replay := if n <= logged then log[..logged][n..] else [];
            var got := if arrived <= |replay| then replay[..arrived] else replay;
            log[..n] + got == log[..if logged <= n then n else if arrived <= logged - n then n + arrived else logged]
  {
  }

  /** However many connections it takes, each cut off anywhere, the client holds the log up to some event, with no gap
      and no duplicate; a complete replay brings it up to date. */
  lemma {:induction false} ReconnectsKeepPrefix(log: seq<EC.Cached>, first: nat, rs: seq<Reconnect>)
    requires EC.Numbered(log) && first <= |log|
    ensures Held(log, first, rs) == log[..Reached(|log|, first, rs)]
    ensures rs != [] && rs[|rs| - 1].arrived >= rs[|rs| - 1].logged >= |log| ==> Held(log, first, rs) == log
  {
    hide EC.Numbered, Arriving;
    if rs != [] {
      var n := |rs| - 1;
      ReconnectsKeepPrefix(log, first, rs[..n]);
      ReconnectAdvances(log, Reached(|log|, first, rs[..n]), rs[n]);
    }
  }

  // ---- the code ----

  /** How much of a frame a failed write puts out when `bytes` would get through. */
  function CutLength(f: Frame, bytes: nat): (n: nat)
    ensures CanCut(f, n)
  {
    EncodedFrameNotEmpty(f);
    if |f.payload| > MAX_PAYLOAD then 0 else if bytes < |EncodeFrame(f)| then bytes else |EncodeFrame(f)| - 1
  }

  /** What the writer does with the head of the queue. */
  function WriterLabel(s: State, writes: bool, bytes: nat): Label
    requires s.queue != []
  {
    var f := s.queue[0];
    if s.failed then Discard
    else if !s.broken && |f.payload| <= MAX_PAYLOAD && writes then Write else WriteFails(CutLength(f, bytes))
  }

  lemma WriterMoves(s: State, writes: bool, bytes: nat)
    requires s.queue != []
    ensures var f, l := s.queue[0], WriterLabel(s, writes, bytes);
            && CutLength(f, bytes) < |EncodeFrame(f)|
            && !l.Send? && !l.Emit? && !l.Raise?
            && Next(s, l) ==
               Some(if s.failed then s.(queue := s.queue[1..])
                    else if !s.broken && |f.payload| <= MAX_PAYLOAD && writes
                    then s.(queue := s.queue[1..], written := s.written + [f])
                    else s.(queue := s.queue[1..], broken := true, failed := true,
                            partial := EncodeFrame(f)[..CutLength(f, bytes)]))
  {
    hide EncodeFrame;
  }

  predicate NoEmits(labels: seq<Label>) {
    forall l | l in labels :: !l.Emit?
  }

  /** What a longer schedule keeps of a shorter one. */
  predicate Alike(before: seq<Label>, after: seq<Label>) {
    && (RunOnly(before) ==> RunOnly(after))
    && (AllStored(before) ==> AllStored(after))
    && (NoEmits(before) ==> NoEmits(after))
  }

  lemma {:induction false} OneMore(labels: seq<Label>, l: Label)
    requires Run(INIT, labels).Some? && Next(Run(INIT, labels).value, l).Some?
    ensures Run(INIT, labels + [l]) == Next(Run(INIT, labels).value, l)
    ensures !l.Raise? && (l.Send? ==> l.f.kind != EVENT) && RunOnly(labels) ==> RunOnly(labels + [l])
    ensures (l.Emit? ==> l.stored) && AllStored(labels) ==> AllStored(labels + [l])
    ensures !l.Emit? && NoEmits(labels) ==> NoEmits(labels + [l])
  {
    assert (labels + [l])[..|labels|] == labels;
  }

  /** Decoded payloads. */
  datatype HelloRequest = BadHello | HelloRequest(runId: string)
  datatype RunRequest = BadRun | RunRequest(prompt: string)
  datatype ResumeRequest = BadResume | ResumeRequest(runId: string, lastSeq: nat)

  /** What the dispatcher does for a run: the encoded events it emits, whether each ends the stream, and whether it fails. */
  datatype Dispatched = Dispatched(events: seq<(seq<byte>, bool)>, fails: bool)

  /** Everything a session cannot see: how far the writer gets before each send, which writes succeed and how many bytes of
      a failed one go out, whether the cache takes each event, how payloads decode and encode, and what the dispatcher
      does. */
  datatype World = World(
    pace: nat -> nat, writes: nat -> bool, bytes: nat -> nat, takes: nat -> bool,
    hello: seq<byte> -> HelloRequest, run: seq<byte> -> RunRequest, resume: seq<byte> -> ResumeRequest,
    encode: string -> seq<byte>, dispatch: string -> Dispatched, replayFails: bool, newRunId: string)

  class Session {
    const world: World
    const cache: EC.Cache
    const cacheOn: bool
    var runId: string
    var seqGen: nat
    var closed: bool
    var queue: seq<Frame>
    var broken: bool
    var failed: bool
    var written: seq<Frame>
    var partial: seq<byte>
    var sends: nat
    var attempts: nat
    /** The schedule so far. */
    ghost var trace: seq<Label>
    /** The run id had no events when this session took it. */
    ghost var unused: bool

    ghost function Model(): State
      reads this
      requires Run(INIT, trace).Some?
    {
      Run(INIT, trace).value
    }

    ghost predicate Valid()
      reads this
    {
      && Run(INIT, trace).Some?
      && seqGen == Model().seqGen && closed == Model().closed && queue == Model().queue && broken == Model().broken
      && written == Model().written && failed == Model().failed && partial == Model().partial
    }

    /** The serving goroutine can still send: no emit is under way, and it has not returned. */
    ghost predicate Serving()
      reads this
      requires Valid()
    {
      Model().pending == None && (closed ==> broken)
    }

    /** The writer takes at least one frame between any two sends. */
    ghost predicate KeepsUp() {
      forall k :: world.pace(k) >= 1
    }

    /** At most the last frame is still queued. */
    ghost predicate Healthy()
      reads this
    {
      !closed && |queue| <= 1
    }

    /** The cached log of this session's run is the log of its schedule, if the run id was not in use before. */
    ghost predicate Logged()
      reads this, cache
      requires Valid()
    {
      unused ==> cache.Entries(runId) == EC.Stored(Model().log)
    }

    constructor (world: World, cache: EC.Cache, cacheOn: bool)
      ensures Valid() && Serving() && trace == [] && this.world == world && this.cache == cache && this.cacheOn == cacheOn
    {
      this.world, this.cache, this.cacheOn := world, cache, cacheOn;
      runId, seqGen, closed, queue, broken, failed, written, partial := "", 0, false, [], false, false, [], [];
      sends, attempts := 0, 0;
      trace, unused := [], false;
    }

    /** Takes the head of the queue and writes it if it can. */
    method WriteHead()
      requires queue != []
      modifies this`queue, this`written, this`broken, this`failed, this`partial, this`attempts
      ensures queue == old(queue[1..])
      ensures var f := old(queue[0]);
              if old(failed) then written == old(written) && broken == old(broken) && failed && partial == old(partial)
              else if !old(broken) && |f.payload| <= MAX_PAYLOAD && world.writes(old(attempts))
              then written == old(written) + [f] && !broken && !failed && partial == old(partial)
              else written == old(written) && broken && failed
                   && partial == EncodeFrame(f)[..CutLength(f, world.bytes(old(attempts)))]
    {
      hide EncodeFrame, CutLength;
      var f := queue[0];
      queue := queue[1..];
      attempts := attempts + 1;
      if failed {
        return;
      }
      if !broken && |f.payload| <= MAX_PAYLOAD && world.writes(attempts - 1) {
        written := written + [f];
        return;
      }
      broken, failed, partial := true, true, EncodeFrame(f)[..CutLength(f, world.bytes(attempts - 1))];
    }

    /** One round of the writer goroutine. */
    method WriterStep()
      requires Valid()
      modifies this`queue, this`written, this`broken, this`failed, this`partial, this`attempts, this`trace
      ensures Valid() && Alike(old(trace), trace)
      ensures Model() == old(Model()).(queue := queue, written := written, broken := broken, failed := failed, partial := partial)
      ensures |queue| == (if old(queue) == [] then 0 else |old(queue)| - 1) && (old(broken) ==> broken)
    {
      if queue == [] {
        return;
      }
      ghost var l := WriterLabel(Model(), world.writes(attempts), world.bytes(attempts));
      WriterMoves(Model(), world.writes(attempts), world.bytes(attempts));
      OneMore(trace, l);
      hide EncodeFrame, RunOnly, AllStored, NoEmits, Run, Next, CutLength, WriterLabel;
      WriteHead();
      trace := trace + [l];
    }

    /** The writer gets its turn. */
    method Yield()
      requires Valid()
      modifies this`queue, this`written, this`broken, this`failed, this`partial, this`attempts, this`trace, this`sends
      ensures Valid() && Alike(old(trace), trace)
      ensures Model() == old(Model()).(queue := queue, written := written, broken := broken, failed := failed, partial := partial)
      ensures old(broken) ==> broken
      ensures sends == old(sends) + 1
      ensures |queue| == if |old(queue)| <= world.pace(old(sends)) then 0 else |old(queue)| - world.pace(old(sends))
    {
      for i := 0 to world.pace(sends)
        invariant sends == old(sends) && |queue| == if |old(queue)| <= i then 0 else |old(queue)| - i
        invariant Valid() && Alike(old(trace), trace)
        invariant Model() == old(Model()).(queue := queue, written := written, broken := broken, failed := failed, partial := partial)
        invariant old(broken) ==> broken
      {
        WriterStep();
      }
      sends := sends + 1;
    }

    /** `send`: nothing once closed; a full queue closes the connection. */
    method Enqueue(f: Frame)
      modifies this`closed, this`queue, this`broken
      ensures if old(closed) then closed && queue == old(queue) && broken == old(broken)
              else if |old(queue)| < QUEUE then !closed && queue == old(queue) + [f] && broken == old(broken)
              else closed && queue == old(queue) && broken
    {
      if closed {
        return;
      }
      if |queue| < QUEUE {
        queue := queue + [f];
      } else {
        closed, broken := true, true;
      }
    }

    method Send(f: Frame)
      requires Valid() && Serving()
      modifies this`queue, this`written, this`broken, this`failed, this`partial,
               this`attempts, this`trace, this`sends, this`closed
      ensures Valid() && Serving() && Model().offered == old(Model().offered) + [f]
      ensures f.kind != EVENT ==> Alike(old(trace), trace)
      ensures NoEmits(old(trace)) ==> NoEmits(trace)
      ensures Model().log == old(Model().log) && Model().emitted == old(Model().emitted) && (old(closed) ==> closed)
      ensures KeepsUp() && old(Healthy()) ==> Healthy()
      ensures sends == old(sends) + 1 && (!closed ==> |queue| == 1 + if |old(queue)| <= world.pace(old(sends)) then 0
                                                                        else |old(queue)| - world.pace(old(sends)))
    {
      Yield();
      OneMore(trace, Label.Send(f));
      trace := trace + [Label.Send(f)];
      Enqueue(f);
    }

    /** The second half of an emit. */
    method SendPending(f: Frame)
      requires Valid() && Model().pending == Some(f) && (closed ==> broken)
      modifies this`queue, this`written, this`broken, this`failed, this`partial,
               this`attempts, this`trace, this`sends, this`closed
      ensures Valid() && Serving() && Alike(old(trace), trace)
      ensures seqGen == old(seqGen) && Model().log == old(Model().log) && Model().emitted == old(Model().emitted)
      ensures Model().offered == old(Model().offered) + [f]
      ensures KeepsUp() && old(Healthy()) ==> Healthy()
      ensures sends == old(sends) + 1 && (!closed ==> |queue| == 1 + if |old(queue)| <= world.pace(old(sends)) then 0
                                                                        else |old(queue)| - world.pace(old(sends)))
    {
      Yield();
      OneMore(trace, SendEvent);
      trace := trace + [SendEvent];
      Enqueue(f);
    }

    /** The first half: numbers the event and caches it. */
    method Record(payload: seq<byte>, end: bool) returns (f: Frame)
      requires Valid() && Serving() && Logged() && !closed && seqGen + 1 < WORD
      modifies this`seqGen, this`trace, cache
      ensures Valid() && !closed && Logged() && Model().pending == Some(f)
      ensures RunOnly(old(trace)) ==> RunOnly(trace)
      ensures cacheOn && world.takes(old(seqGen)) && AllStored(old(trace)) ==> AllStored(trace)
      ensures seqGen == old(seqGen) + 1 && f == EventFrame(EC.Cached(seqGen, payload), end)
      ensures Model().emitted == old(Model().emitted) + [EC.Cached(seqGen, payload)]
      ensures Model().offered == old(Model().offered)
    {
      var stored := cacheOn && world.takes(seqGen);
      seqGen := seqGen + 1;
      ghost var e, s := EC.Cached(seqGen, payload), Model();
      LogBelowSeqGen(trace);
      if stored {
        EC.AppendGrowsLog(s.log, e);
        cache.Append(runId, seqGen, payload);
      }
      OneMore(trace, Label.Emit(payload, end, stored));
      trace := trace + [Label.Emit(payload, end, stored)];
      f := Frame(EVENT, if end then END_STREAM else 0, seqGen, payload);
    }

    /** Numbers, caches and sends one event, in that order; a closed session refuses it. */
    method Emit(payload: seq<byte>, end: bool) returns (ok: bool)
      requires Valid() && Serving() && Logged()
      modifies this`queue, this`written, this`broken, this`failed, this`partial,
               this`attempts, this`trace, this`sends, this`closed, this`seqGen, cache
      ensures Valid() && Serving() && Logged()
      ensures RunOnly(old(trace)) ==> RunOnly(trace)
      ensures cacheOn && (forall k :: world.takes(k)) && AllStored(old(trace)) ==> AllStored(trace)
      ensures ok <==> !old(closed) && old(seqGen) + 1 < WORD
      ensures !ok ==> Model() == old(Model())
      ensures ok ==> seqGen == old(seqGen) + 1 < WORD
      ensures ok ==> Model().offered == old(Model().offered) + [Frame(EVENT, if end then END_STREAM else 0, seqGen, payload)]
      ensures ok ==> Model().emitted == old(Model().emitted) + [EC.Cached(seqGen, payload)]
      ensures KeepsUp() && old(Healthy()) ==> Healthy()
    {
      hide RunOnly, AllStored, NoEmits;
      if closed || seqGen + 1 >= WORD {
        return false;
      }
      var f := Record(payload, end);
      SendPending(f);
      ok := true;
    }

    method SendError(code: string)
      requires Valid() && Serving()
      modifies this`queue, this`written, this`broken, this`failed, this`partial,
               this`attempts, this`trace, this`sends, this`closed
      ensures Valid() && Serving() && Alike(old(trace), trace) && Model().log == old(Model().log)
      ensures Model().emitted == old(Model().emitted) && (old(closed) ==> closed)
      ensures Model().offered == old(Model().offered) + [ErrorFrame(world, code)]
      ensures KeepsUp() && old(Healthy()) ==> Healthy()
    {
      Send(ErrorFrame(world, code));
    }

    /** The dispatcher's emits: `sent` of them, all unless the session is killed or runs out of numbers. */
    method EmitAll(events: seq<(seq<byte>, bool)>) returns (ok: bool, ghost sent: nat)
      requires Valid() && Serving() && Logged() && seqGen < WORD
      modifies this`queue, this`written, this`broken, this`failed, this`partial,
               this`attempts, this`trace, this`sends, this`closed, this`seqGen, cache
      ensures Valid() && Serving() && Logged()
      ensures RunOnly(old(trace)) ==> RunOnly(trace)
      ensures cacheOn && (forall k :: world.takes(k)) && AllStored(old(trace)) ==> AllStored(trace)
      ensures sent <= |events| && seqGen == old(seqGen) + sent < WORD
      ensures Payloads(Model().emitted) == Payloads(old(Model().emitted)) + Firsts(events[..sent])
      ensures Model().offered == old(Model().offered) + EventFrames(events[..sent], old(seqGen))
      ensures ok <==> sent == |events|
      ensures !ok ==> closed || seqGen + 1 >= WORD
      ensures KeepsUp() && old(Healthy()) ==> Healthy()
    {
      hide RunOnly, AllStored, NoEmits, Payloads, Firsts, EventFrames;
      NothingFramed(events, seqGen);
      for i := 0 to |events|
        invariant Valid() && Serving() && Logged()
        invariant KeepsUp() && old(Healthy()) ==> Healthy()
        invariant RunOnly(old(trace)) ==> RunOnly(trace)
        invariant cacheOn && (forall k :: world.takes(k)) && AllStored(old(trace)) ==> AllStored(trace)
        invariant seqGen == old(seqGen) + i < WORD
        invariant Payloads(Model().emitted) == Payloads(old(Model().emitted)) + Firsts(events[..i])
        invariant Model().offered == old(Model().offered) + EventFrames(events[..i], old(seqGen))
      {
        ghost var before := Model().emitted;
        ok := Emit(events[i].0, events[i].1);
        if !ok {
          return ok, i;
        }
        OneMoreFramed(events, i, old(seqGen));
        PayloadsSnoc(before, EC.Cached(seqGen, events[i].0));
      }
      ok, sent := true, |events|;
    }

    method HandleRun(payload: seq<byte>) returns (ghost sent: nat)
      requires Valid() && Serving() && Logged() && seqGen < WORD
      modifies this`queue, this`written, this`broken, this`failed, this`partial,
               this`attempts, this`trace, this`sends, this`closed, this`seqGen, cache
      ensures Valid() && Serving() && Logged()
      ensures RunOnly(old(trace)) ==> RunOnly(trace)
      ensures cacheOn && (forall k :: world.takes(k)) && AllStored(old(trace)) ==> AllStored(trace)
      ensures var events := RunEvents(world, payload);
              && sent <= |events| && seqGen == old(seqGen) + sent < WORD
              && (sent == |events| || closed || seqGen + 1 >= WORD)
              && Payloads(Model().emitted) == Payloads(old(Model().emitted)) + Firsts(events[..sent])
              && Model().offered == old(Model().offered) + EventFrames(events[..sent], old(seqGen)) +
                                    RunReply(world, payload, sent == |events|)
      ensures KeepsUp() && old(Healthy()) ==> Healthy()
    {
      hide RunOnly, AllStored, NoEmits, Payloads, Firsts, EventFrames;
      NothingFramed([], seqGen);
      sent := 0;
      var req := world.run(payload);
      if req.BadRun? || req.prompt == "" {
        SendError("bad_request");
        return;
      }
      var d := world.dispatch(req.prompt);
      var ok;
      ok, sent := EmitAll(d.events);
      if ok && d.fails {
        SendError("internal");
      }
      Send(CloseFrame(world, "completed"));
    }

    method SendReplay(events: seq<EC.Cached>)
      requires Valid() && Serving()
      modifies this`queue, this`written, this`broken, this`failed, this`partial,
               this`attempts, this`trace, this`sends, this`closed, this`seqGen
      ensures Valid() && Serving() && Model().log == old(Model().log)
      ensures NoEmits(old(trace)) ==> NoEmits(trace)
      ensures Model().offered == old(Model().offered) + ReplayFrames(events)
      ensures KeepsUp() && old(Healthy()) ==> Healthy()
    {
      hide RunOnly, AllStored, NoEmits, ReplayFrames;
      EventsOfNone(events);
      for i := 0 to |events|
        invariant Valid() && Serving() && Model().log == old(Model().log)
        invariant KeepsUp() && old(Healthy()) ==> Healthy()
        invariant NoEmits(old(trace)) ==> NoEmits(trace)
        invariant Model().offered == old(Model().offered) + ReplayFrames(events[..i])
      {
        ReplayFramesSnoc(events, i);
        Send(Frame(EVENT, 0, events[i].seqNo, events[i].payload));
        OneMore(trace, Raise(events[i].seqNo));
        trace := trace + [Raise(events[i].seqNo)];
        if events[i].seqNo > seqGen {
          seqGen := events[i].seqNo;
        }
      }
      assert events[..|events|] == events;
    }

    method HandleResume(payload: seq<byte>)
      requires Valid() && Serving()
      modifies this`queue, this`written, this`broken, this`failed, this`partial,
               this`attempts, this`trace, this`sends, this`closed, this`seqGen
      ensures Valid() && Serving() && Model().log == old(Model().log)
      ensures NoEmits(old(trace)) ==> NoEmits(trace)
      ensures Model().offered == old(Model().offered) + ReplayFrames(ToReplay(world, payload, cacheOn, cache)) +
                               [LastFrame(world, payload, cacheOn)]
      ensures KeepsUp() && old(Healthy()) ==> Healthy()
    {
      hide RunOnly, AllStored, NoEmits, ReplayFrames;
      EventsOfNone([]);
      var req := world.resume(payload);
      if req.BadResume? || req.runId == "" {
        SendError("bad_request");
        return;
      }
      if !cacheOn {
        SendError("not_supported");
        return;
      }
      if world.replayFails {
        SendError("internal");
        return;
      }
      var events := cache.Replay(req.runId, req.lastSeq);
      SendReplay(events);
      Send(CloseFrame(world, "resumed"));
    }

    /** The end of `serve`: closes the queue and lets the writer empty it. A session closed by a full queue never closes
        the channel, so its writer, and with it `serve`, never ends. */
    method Shutdown() returns (ends: bool)
      requires Valid() && Serving()
      modifies this`queue, this`written, this`broken, this`failed, this`partial, this`attempts, this`trace, this`closed
      ensures Valid() && queue == [] && closed && Alike(old(trace), trace)
      ensures Model().log == old(Model().log) && Model().emitted == old(Model().emitted) && Model().pending == None
      ensures Model().offered == old(Model().offered) && seqGen == old(seqGen)
      ensures (ends <==> !old(closed)) && (old(broken) ==> broken)
    {
      ends := !closed;
      OneMore(trace, Finish);
      trace := trace + [Finish];
      closed := true;
      while queue != []
        invariant Valid() && closed && Alike(old(trace), trace)
        invariant Model().log == old(Model().log) && Model().emitted == old(Model().emitted) && Model().pending == None
        invariant Model().offered == old(Model().offered)
        invariant old(broken) ==> broken
        decreases |queue|
      {
        WriterStep();
      }
    }

    /** Takes the run id and greets back. */
    method Greet(f: Frame) returns (ok: bool)
      requires Valid() && trace == []
      modifies this`queue, this`written, this`broken, this`failed, this`partial,
               this`attempts, this`trace, this`sends, this`closed, this`runId, this`unused
      ensures Valid() && Serving() && Fresh() && Logged()
      ensures unused <==> ok && cache.Entries(runId) == []
      ensures ok <==> Greets(world, f)
      ensures ok ==> runId == RunIdFor(world, f) && Model().offered == [AckFrame(world, runId)]
      ensures !ok ==> Model().offered == []
      ensures KeepsUp() ==> Healthy()
    {
      NothingYet();
      hide RunOnly, AllStored, NoEmits, Events, Run, EC.Stored;
      unused := false;
      if f.kind != HELLO {
        return false;
      }
      var hello := world.hello(f.payload);
      if hello.BadHello? {
        return false;
      }
      runId := if hello.runId != "" then hello.runId else world.newRunId;
      unused := cache.Entries(runId) == [];
      Send(AckFrame(world, runId));
      NotAnEvent(AckFrame(world, runId), []);
      ok := true;
    }

    /** Nothing of substance has been sent yet. */
    ghost predicate Fresh()
      reads this
      requires Valid()
    {
      && NoEmits(trace) && RunOnly(trace) && AllStored(trace)
      && Events(Model().offered) == [] && Model().log == [] && Model().emitted == [] && seqGen == 0
    }

    /** Where handling a request leaves the session, `before` being what was sent first and `sent` how many of the
        dispatcher's events were. */
    ghost predicate Handled(did: Did, before: seq<Frame>, replay: seq<EC.Cached>, sent: nat)
      reads this, cache
      requires Valid()
    {
      match did
      case Neither => NoEmits(trace) && Events(before) == [] && Model().offered == before
      case Ran(payload) =>
        && Logged() && RunOnly(trace) && (cacheOn && (forall k :: world.takes(k)) ==> AllStored(trace))
        && Events(before) == []
        && var events := RunEvents(world, payload);
        && seqGen == sent <= |events| && sent < WORD && (sent == |events| || closed || seqGen + 1 >= WORD)
        && Payloads(Model().emitted) == Firsts(events[..sent])
        && Model().offered == before + EventFrames(events[..sent], 0) + RunReply(world, payload, sent == |events|)
      case Resumed(payload) =>
        && NoEmits(trace) && Events(before) == []
        && Model().offered == before + ReplayFrames(replay) + [LastFrame(world, payload, cacheOn)]
    }

    /** The frames after HELLO, up to the first RUN, RESUME or CLOSE. */
    method HandleAll(inbox: seq<Frame>) returns (did: Did, ghost sent: nat)
      requires Valid() && Serving() && Fresh() && Logged()
      modifies this`queue, this`written, this`broken, this`failed, this`partial,
               this`attempts, this`trace, this`sends, this`closed, this`seqGen, cache
      ensures Valid() && Serving() && did == DidOf(inbox)
      ensures Handled(did, old(Model().offered) + Pongs(inbox),
                      if did.Resumed? then old(ToReplay(world, did.payload, cacheOn, cache)) else [], sent)
      ensures !did.Ran? ==> cache.runs == old(cache.runs)
      ensures KeepsUp() && old(Healthy()) ==> Healthy()
    {
      hide RunOnly, AllStored, NoEmits, Events, ReplayFrames, Payloads, Run, EC.Stored, DidOf, Pongs, EventFrames, Firsts,
        RunEvents, RunReply, LastFrame, EC.Numbered, EC.Above, EC.Decoded;
      ghost var before := Model().offered;
      assert inbox[0..] == inbox && Model().offered + [] == Model().offered;
      sent := 0;
      for i := 0 to |inbox|
        invariant Valid() && Serving() && Fresh() && Logged() && cache.runs == old(cache.runs)
        invariant KeepsUp() && old(Healthy()) ==> Healthy()
        invariant before + Pongs(inbox) == Model().offered + Pongs(inbox[i..])
        invariant DidOf(inbox) == DidOf(inbox[i..])
      {
        var f := inbox[i];
        ghost var offered := Model().offered;
        NextFrame(inbox, i, offered);
        if f.kind == PING {
          NotAnEvent(Frame(PONG, 0, 0, f.payload), offered);
          Send(Frame(PONG, 0, 0, f.payload));
        } else if f.kind == CLOSE {
          return Neither, sent;
        } else if f.kind == RUN {
          sent := HandleRun(f.payload);
          NothingEmitted(Firsts(RunEvents(world, f.payload)[..sent]));
          return Ran(f.payload), sent;
        } else if f.kind == RESUME {
          HandleResume(f.payload);
          return Resumed(f.payload), sent;
        }
      }
      NoMoreFrames(inbox, Model().offered);
      did := Neither;
    }

    /** A whole connection, from the frames the client sends to the frames on the wire. A connection that breaks costs the
        log nothing; one killed by a full queue (`ends` is then false) ends the log there. */
    method Serve(inbox: seq<Frame>) returns (did: Did, ends: bool, ghost sent: nat)
      requires Valid() && trace == []
      modifies this, cache
      ensures Valid() && closed && queue == []
      ensures did == if inbox != [] && Greets(world, inbox[0]) then DidOf(inbox[1..]) else Neither
      ensures inbox != [] && Greets(world, inbox[0]) ==>
                runId == RunIdFor(world, inbox[0]) && (unused <==> old(cache.Entries(RunIdFor(world, inbox[0]))) == [])
      ensures did.Neither? && !broken ==> written == if inbox != [] && Greets(world, inbox[0]) then Preface(world, inbox) else []
      ensures did.Ran? ==>
                var events := RunEvents(world, did.payload);
                && seqGen == sent <= |events| && sent < WORD && (ends && seqGen + 1 < WORD ==> sent == |events|)
                && Model().offered == Preface(world, inbox) + EventFrames(events[..sent], 0) +
                                      RunReply(world, did.payload, sent == |events|)
                && written <= Model().offered && (!broken ==> written == Model().offered)
                && forall f | f in written && f.kind == EVENT :: IsEventOf(f, events)
      ensures did.Resumed? && !broken ==>
                written == Preface(world, inbox) + ReplayFrames(old(ToReplay(world, did.payload, cacheOn, cache))) +
                           [LastFrame(world, did.payload, cacheOn)]
      ensures did.Ran? && unused && cacheOn && (forall k :: world.takes(k)) ==>
                && cache.Entries(runId) == EC.Stored(Model().log) && EC.Numbered(Model().log) && |Model().log| == seqGen
                && Payloads(Model().log) == Firsts(RunEvents(world, did.payload)[..sent])
                && Events(written) <= Model().log && (!broken ==> Events(written) == Model().log)
      ensures did.Resumed? ==>
                var rest := old(ToReplay(world, did.payload, cacheOn, cache));
                Events(written) <= rest && (!broken ==> Events(written) == rest)
      ensures did.Neither? ==> Events(written) == []
      ensures forall f | f in written :: EndsFlagged(f)
      ensures !did.Ran? ==> cache.runs == old(cache.runs)
      ensures KeepsUp() ==> ends
    {
      NothingYet();
      hide RunOnly, AllStored, NoEmits, Events, ReplayFrames, Payloads, Run, EC.Stored, EC.Numbered, ToReplay, DidOf,
        Pongs, RunReply, RunEvents, EventFrames, Firsts, IsEventOf, Greets, RunIdFor, EndsFlagged;
      did, sent := Neither, 0;
      ghost var before: seq<Frame> := [];
      if inbox != [] {
        var greeted := Greet(inbox[0]);
        if greeted {
          before := Preface(world, inbox);
          did, sent := HandleAll(inbox[1..]);
        }
      }
      ends := Shutdown();
      if inbox != [] && Greets(world, inbox[0]) {
        PrefaceIsFlagged(world, inbox);
      }
      match did {
        case Neither =>
          SilentEnd(trace);
          assert before + [] + [] == before;
          AllFlagged(trace, before, [], []);
        case Ran(payload) =>
          AnswersAreFlagged(world, payload, cacheOn, RunEvents(world, payload)[..sent], [], sent == |RunEvents(world, payload)|);
          AllFlagged(trace, before, EventFrames(RunEvents(world, payload)[..sent], 0),
                     RunReply(world, payload, sent == |RunEvents(world, payload)|));
          ReplyHasNoEvents(world, payload, sent == |RunEvents(world, payload)|);
          WrittenEvents(trace, before, RunEvents(world, payload), sent, RunReply(world, payload, sent == |RunEvents(world, payload)|));
          if AllStored(trace) {
            RunEnd(trace);
          }
        case Resumed(payload) =>
          ResumeEnd(trace, before, old(ToReplay(world, payload, cacheOn, cache)), LastFrame(world, payload, cacheOn));
          AnswersAreFlagged(world, payload, cacheOn, [], old(ToReplay(world, payload, cacheOn, cache)), true);
          AllFlagged(trace, before, ReplayFrames(old(ToReplay(world, payload, cacheOn, cache))),
                     [LastFrame(world, payload, cacheOn)]);
      }
    }
  }

  lemma NothingYet()
    ensures NoEmits([]) && RunOnly([]) && AllStored([]) && Events([]) == []
    ensures Run(INIT, []) == Some(INIT) && EC.Stored([]) == []
  {
  }

  lemma NothingEmitted(firsts: seq<seq<byte>>)
    ensures Payloads([]) == []
    ensures [] + firsts == firsts
  {
  }

  lemma {:induction false} SilentEnd(labels: seq<Label>)
    requires Run(INIT, labels).Some? && NoEmits(labels) && Events(Run(INIT, labels).value.offered) == []
    ensures Events(Run(INIT, labels).value.written) == []
    ensures var s := Run(INIT, labels).value; !s.broken && s.queue == [] ==> s.written == s.offered
  {
    RunFlows(INIT, labels);
    EventsMonotone(Run(INIT, labels).value.written, Run(INIT, labels).value.offered);
  }

  /** What ends a connection, an error or a CLOSE, carries END_STREAM and no number. */
  predicate EndsFlagged(f: Frame) {
    f.kind == CLOSE || f.kind == ERROR ==> f.flags == END_STREAM && f.seqNo == 0
  }

  lemma PrefaceIsFlagged(world: World, inbox: seq<Frame>)
    requires inbox != [] && Greets(world, inbox[0])
    ensures forall f | f in Preface(world, inbox) :: EndsFlagged(f)
  {
    PongsAreFlagged(inbox[1..]);
  }

  lemma {:induction false} PongsAreFlagged(inbox: seq<Frame>)
    ensures forall f | f in Pongs(inbox) :: EndsFlagged(f)
  {
    if inbox != [] {
      PongsAreFlagged(inbox[1..]);
    }
  }

  lemma AnswersAreFlagged(world: World, payload: seq<byte>, cacheOn: bool, events: seq<(seq<byte>, bool)>, replay: seq<EC.Cached>,
                          whole: bool)
    requires |events| < WORD
    ensures forall f | f in EventFrames(events, 0) :: EndsFlagged(f)
    ensures forall f | f in ReplayFrames(replay) :: EndsFlagged(f)
    ensures forall f | f in RunReply(world, payload, whole) :: EndsFlagged(f)
    ensures EndsFlagged(LastFrame(world, payload, cacheOn))
  {
  }

  lemma AllFlagged(labels: seq<Label>, before: seq<Frame>, middle: seq<Frame>, after: seq<Frame>)
    requires Run(INIT, labels).Some? && Run(INIT, labels).value.offered == before + middle + after
    requires forall f | f in before :: EndsFlagged(f)
    requires forall f | f in middle :: EndsFlagged(f)
    requires forall f | f in after :: EndsFlagged(f)
    ensures forall f | f in Run(INIT, labels).value.written :: EndsFlagged(f)
  {
    RunFlows(INIT, labels);
    hide EndsFlagged, Run;
  }

  /** The event's payload is the dispatcher's event of that number, and END_STREAM is set exactly if that event ends the
      stream. */
  predicate IsEventOf(f: Frame, events: seq<(seq<byte>, bool)>) {
    && 1 <= f.seqNo <= |events|
    && f.payload == events[f.seqNo - 1].0
    && f.flags == if events[f.seqNo - 1].1 then END_STREAM else 0
  }

  lemma WrittenEvents(labels: seq<Label>, before: seq<Frame>, events: seq<(seq<byte>, bool)>, sent: nat, reply: seq<Frame>)
    requires Run(INIT, labels).Some? && Run(INIT, labels).value.queue == []
    requires sent <= |events| && sent < WORD && Events(before) == [] && Events(reply) == []
    requires Run(INIT, labels).value.offered == before + EventFrames(events[..sent], 0) + reply
    ensures var s := Run(INIT, labels).value;
            && s.written <= s.offered && (!s.broken ==> s.written == s.offered)
            && forall f | f in s.written && f.kind == EVENT :: IsEventOf(f, events)
  {
    RunFlows(INIT, labels);
    var s := Run(INIT, labels).value;
    hide *;
    forall f | f in s.written && f.kind == EVENT ensures IsEventOf(f, events) {
      assert f in s.offered;
      OfferedEvent(before, events, sent, reply, f);
    }
  }

  lemma OfferedEvent(before: seq<Frame>, events: seq<(seq<byte>, bool)>, sent: nat, reply: seq<Frame>, f: Frame)
    requires sent <= |events| && sent < WORD && Events(before) == [] && Events(reply) == []
    requires f in before + EventFrames(events[..sent], 0) + reply && f.kind == EVENT
    ensures IsEventOf(f, events)
  {
    NoEventAmong(before);
    NoEventAmong(reply);
    hide Events;
    var i :| 0 <= i < |EventFrames(events[..sent], 0)| && EventFrames(events[..sent], 0)[i] == f;
  }

  lemma {:induction false} NoEventAmong(fs: seq<Frame>)
    requires Events(fs) == []
    ensures forall f | f in fs :: f.kind != EVENT
  {
    if fs != [] {
      NoEventAmong(fs[..|fs| - 1]);
    }
  }

  lemma ReplyHasNoEvents(world: World, payload: seq<byte>, whole: bool)
    ensures Events(RunReply(world, payload, whole)) == []
  {
    NotAnEvent(ErrorFrame(world, "bad_request"), []);
    NotAnEvent(CloseFrame(world, "completed"), []);
    NotAnEvent(ErrorFrame(world, "internal"), []);
    NotAnEvent(CloseFrame(world, "completed"), [ErrorFrame(world, "internal")]);
  }

  lemma {:induction false} RunEnd(labels: seq<Label>)
    requires Run(INIT, labels).Some? && RunOnly(labels) && AllStored(labels)
    requires Run(INIT, labels).value.queue == [] && Run(INIT, labels).value.pending == None
    ensures var s := Run(INIT, labels).value;
            && EC.Numbered(s.log) && s.log == s.emitted && |s.log| == s.seqGen
            && Events(s.written) <= s.log && (!s.broken ==> Events(s.written) == s.log)
  {
    WireIsPrefixOfLog(labels);
    StoredMeansLogged(labels);
    assert Events([]) == [];
  }

  lemma {:induction false} ResumeEnd(labels: seq<Label>, before: seq<Frame>, rest: seq<EC.Cached>, last: Frame)
    requires Run(INIT, labels).Some? && NoEmits(labels) && Events(before) == [] && last.kind != EVENT
    requires Run(INIT, labels).value.offered == before + ReplayFrames(rest) + [last]
    requires Run(INIT, labels).value.queue == []
    ensures var s := Run(INIT, labels).value;
            && Events(s.written) <= rest && (!s.broken ==> Events(s.written) == rest)
            && (!s.broken ==> s.written == s.offered)
  {
    RunFlows(INIT, labels);
    OfferedIsHanded(labels);
    LengthOfReplay(rest);
    assert Events([last]) == [];
    ResumeReplaysPrefix(labels, before, rest, [last]);
  }

  predicate Greets(world: World, f: Frame) {
    f.kind == HELLO && world.hello(f.payload).HelloRequest?
  }

  function RunIdFor(world: World, f: Frame): string
    requires Greets(world, f)
  {
    if world.hello(f.payload).runId != "" then world.hello(f.payload).runId else world.newRunId
  }

  function AckFrame(world: World, runId: string): Frame {
    Frame(HELLO_ACK, 0, 0, world.encode(runId))
  }

  /** The first frame that decides what a connection is for. */
  function DidOf(inbox: seq<Frame>): Did {
    if inbox == [] || inbox[0].kind == CLOSE then Neither
    else if inbox[0].kind == RUN then Ran(inbox[0].payload)
    else if inbox[0].kind == RESUME then Resumed(inbox[0].payload)
    else DidOf(inbox[1..])
  }

  /** A PONG for each PING before that. */
  function Pongs(inbox: seq<Frame>): seq<Frame> {
    if inbox == [] || inbox[0].kind == CLOSE || inbox[0].kind == RUN || inbox[0].kind == RESUME then []
    else (if inbox[0].kind == PING then [Frame(PONG, 0, 0, inbox[0].payload)] else []) + Pongs(inbox[1..])
  }

  /** What a connection is for is decided by its first RUN, RESUME or CLOSE. */
  lemma {:induction false} FirstDecides(inbox: seq<Frame>) returns (n: nat)
    ensures n <= |inbox| && forall i | 0 <= i < n :: !Decides(inbox[i])
    ensures n < |inbox| ==> Decides(inbox[n])
    ensures n == |inbox| || inbox[n].kind == CLOSE ==> DidOf(inbox) == Neither
    ensures n < |inbox| && inbox[n].kind == RUN ==> DidOf(inbox) == Ran(inbox[n].payload)
    ensures n < |inbox| && inbox[n].kind == RESUME ==> DidOf(inbox) == Resumed(inbox[n].payload)
  {
    n := 0;
    if inbox != [] && !Decides(inbox[0]) {
      n := FirstDecides(inbox[1..]);
      assert forall i | 1 <= i < |inbox| :: inbox[i] == inbox[1..][i - 1];
      n := n + 1;
    }
  }

  /** The PINGs before it are answered, in order, each with its payload. */
  lemma {:induction false} PingsAreAnswered(inbox: seq<Frame>, n: nat)
    requires n <= |inbox| && forall i | 0 <= i < n :: !Decides(inbox[i])
    ensures (n < |inbox| ==> Decides(inbox[n])) ==> Pongs(inbox) == PongsTo(inbox[..n])
  {
    if n > 0 {
      assert forall i | 1 <= i < |inbox| :: inbox[i] == inbox[1..][i - 1];
      PingsAreAnswered(inbox[1..], n - 1);
      assert inbox[..n] == [inbox[0]] + inbox[1..][..n - 1];
      PongsToCons(inbox[0], inbox[1..][..n - 1]);
    }
  }

  /** A PONG for each PING. */
  function PongsTo(fs: seq<Frame>): seq<Frame> {
    if fs == [] then []
    else
      var f := fs[|fs| - 1];
      PongsTo(fs[..|fs| - 1]) + if f.kind == PING then [Frame(PONG, 0, 0, f.payload)] else []
  }

  lemma {:induction false} PongsToCons(f: Frame, fs: seq<Frame>)
    ensures PongsTo([f] + fs) == (if f.kind == PING then [Frame(PONG, 0, 0, f.payload)] else []) + PongsTo(fs)
  {
    var all := [f] + fs;
    if fs == [] {
      assert all[..0] == [];
    } else {
      var n := |fs| - 1;
      assert all[..|all| - 1] == [f] + fs[..n] && all[|all| - 1] == fs[n];
      PongsToCons(f, fs[..n]);
      Associates(if f.kind == PING then [Frame(PONG, 0, 0, f.payload)] else [], PongsTo(fs[..n]),
                 if fs[n].kind == PING then [Frame(PONG, 0, 0, fs[n].payload)] else []);
    }
  }

  predicate Decides(f: Frame) {
    f.kind == RUN || f.kind == RESUME || f.kind == CLOSE
  }

  function Preface(world: World, inbox: seq<Frame>): seq<Frame>
    requires inbox != [] && Greets(world, inbox[0])
  {
    [AckFrame(world, RunIdFor(world, inbox[0]))] + Pongs(inbox[1..])
  }

  /** What a RUN is answered with besides its events; `whole` is that all events were emitted. */
  function RunReply(world: World, payload: seq<byte>, whole: bool): seq<Frame> {
    match world.run(payload)
    case BadRun => [ErrorFrame(world, "bad_request")]
    case RunRequest(prompt) =>
      if prompt == "" then [ErrorFrame(world, "bad_request")]
      else if whole && world.dispatch(prompt).fails then [ErrorFrame(world, "internal"), CloseFrame(world, "completed")]
      else [CloseFrame(world, "completed")]
  }

  lemma NextFrame(inbox: seq<Frame>, i: nat, sent: seq<Frame>)
    requires i < |inbox|
    ensures var f := inbox[i];
            if f.kind == CLOSE || f.kind == RUN || f.kind == RESUME then
              && Pongs(inbox[i..]) == [] && sent + Pongs(inbox[i..]) == sent
              && DidOf(inbox[i..]) == if f.kind == CLOSE then Neither else if f.kind == RUN then Ran(f.payload) else Resumed(f.payload)
            else
              && DidOf(inbox[i..]) == DidOf(inbox[i + 1..])
              && sent + Pongs(inbox[i..]) ==
                 (if f.kind == PING then sent + [Frame(PONG, 0, 0, f.payload)] else sent) + Pongs(inbox[i + 1..])
  {
    assert inbox[i..][0] == inbox[i] && inbox[i..][1..] == inbox[i + 1..];
  }

  lemma NoMoreFrames(inbox: seq<Frame>, sent: seq<Frame>)
    ensures DidOf(inbox[|inbox|..]) == Neither && sent + Pongs(inbox[|inbox|..]) == sent
  {
  }

  /** What came of a connection. */
  datatype Did = Neither | Ran(payload: seq<byte>) | Resumed(payload: seq<byte>)

  lemma NotAnEvent(f: Frame, before: seq<Frame>)
    requires f.kind != EVENT
    ensures Events(before + [f]) == Events(before)
  {
  }

  /** The events a RESUME asks for. */
  function ToReplay(world: World, payload: seq<byte>, cacheOn: bool, cache: EC.Cache): seq<EC.Cached>
    reads cache
  {
    match world.resume(payload)
    case BadResume => []
    case ResumeRequest(runId, lastSeq) =>
      if runId == "" || !cacheOn || world.replayFails then []
      else EC.Decoded(EC.Above(cache.Entries(runId), lastSeq))
  }

  /** What ends the answer to a RESUME. */
  function LastFrame(world: World, payload: seq<byte>, cacheOn: bool): Frame {
    match world.resume(payload)
    case BadResume => ErrorFrame(world, "bad_request")
    case ResumeRequest(runId, _) =>
      if runId == "" then ErrorFrame(world, "bad_request")
      else if !cacheOn then ErrorFrame(world, "not_supported")
      else if world.replayFails then ErrorFrame(world, "internal")
      else CloseFrame(world, "resumed")
  }

  lemma EventsOfNone(events: seq<EC.Cached>)
    ensures ReplayFrames([]) == [] && events[..0] == []
  {
  }

  lemma ReplayFramesSnoc(events: seq<EC.Cached>, i: nat)
    requires i < |events|
    ensures ReplayFrames(events[..i + 1]) ==
            ReplayFrames(events[..i]) + [Frame(EVENT, 0, events[i].seqNo, events[i].payload)]
  {
  }

  function ErrorFrame(world: World, code: string): Frame {
    Frame(ERROR, END_STREAM, 0, world.encode(code))
  }

  function CloseFrame(world: World, code: string): Frame {
    Frame(CLOSE, END_STREAM, 0, world.encode(code))
  }

  function Payloads(events: seq<EC.Cached>): seq<seq<byte>> {
    seq(|events|, i requires 0 <= i < |events| => events[i].payload)
  }

  function Firsts(events: seq<(seq<byte>, bool)>): seq<seq<byte>> {
    seq(|events|, i requires 0 <= i < |events| => events[i].0)
  }

  lemma PayloadsSnoc(events: seq<EC.Cached>, e: EC.Cached)
    ensures Payloads(events + [e]) == Payloads(events) + [e.payload]
  {
  }

  /** The frames of some events, numbered on from `n`. */
  function EventFrames(events: seq<(seq<byte>, bool)>, n: nat): seq<Frame>
    requires n + |events| < WORD
  {
    seq(|events|, i requires 0 <= i < |events| => Frame(EVENT, if events[i].1 then END_STREAM else 0, n + 1 + i, events[i].0))
  }

  lemma NothingFramed(events: seq<(seq<byte>, bool)>, n: nat)
    requires n < WORD
    ensures Firsts(events[..0]) == [] && EventFrames(events[..0], n) == [] && events[..0] == []
  {
  }

  lemma OneMoreFramed(events: seq<(seq<byte>, bool)>, i: nat, n: nat)
    requires i < |events| && n + i + 1 < WORD
    ensures Firsts(events[..i + 1]) == Firsts(events[..i]) + [events[i].0]
    ensures EventFrames(events[..i + 1], n) ==
            EventFrames(events[..i], n) + [Frame(EVENT, if events[i].1 then END_STREAM else 0, n + 1 + i, events[i].0)]
  {
  }

  /** What a RUN is meant to emit. */
  function RunEvents(world: World, payload: seq<byte>): seq<(seq<byte>, bool)> {
    match world.run(payload)
    case BadRun => []
    case RunRequest(prompt) => if prompt == "" then [] else world.dispatch(prompt).events
  }
}
