/** The task stream: a consumer group with retry by re-adding and a dead-letter stream. */
module Queue {
  import opened Wrappers

  datatype Task = Task(runId: string, payload: string, attempt: int)

  /** A stream entry: without a task field, with one that does not decode, or with a task. */
  datatype Body = NoTask | Garbage(raw: string) | Work(task: Task)

  datatype Letter = Letter(body: Body, from: nat)

  /** Where one consumer stands with the entry it was given: handling it, about to put it elsewhere after a failure,
      or about to acknowledge it. */
  datatype Hand = Holding(id: nat) | Failing(id: nat) | Settled(id: nat)

  /** What has become of an entry. */
  datatype Fate = Waiting | Held | Failed | Won | Retried | Buried | Dropped | Lost

  /** The two streams, the group's cursor and pending list, the consumers; then, for the proofs, per entry the
      publication it descends from and its fate, and per publication its newest entry, handler runs and first attempt. */
  datatype State = State(
    entries: seq<Body>, delivered: nat, pending: set<nat>, dlq: seq<Letter>, hands: map<nat, Hand>,
    origin: seq<nat>, fate: seq<Fate>, head: seq<nat>, runs: seq<nat>, start: seq<int>)

  const INIT := State([], 0, {}, [], map[], [], [], [], [], [])

  /** One Redis operation or handler return. Consumers are numbered; any of them may stop at any point. `Lose` is an XADD,
      to either stream, that fails: its error is ignored and the entry is acknowledged all the same. */
  datatype Label =
    | Add(body: Body)
    | Read(c: nat)
    | Handled(c: nat, ok: bool)
    | Skip(c: nat)
    | Requeue(c: nat)
    | Bury(c: nat)
    | Lose(c: nat)
    | Ack(c: nat)

  /** `maxRetry` with its default: 3 for tasks, 1 for tools. */
  function Limit(maxRetry: int, standard: nat): int {
    if maxRetry <= 0 then standard else maxRetry
  }

  predicate Lengths(s: State) {
    && |s.origin| == |s.fate| == |s.entries|
    && |s.runs| == |s.start| == |s.head|
    && s.delivered <= |s.entries|
    && (forall i | 0 <= i < |s.origin| :: s.origin[i] < |s.head|)
    && (forall c | c in s.hands :: s.hands[c].id < |s.entries|)
  }

  function FirstAttempt(body: Body): int {
    if body.Work? then body.task.attempt else 0
  }

  function Settle(s: State, c: nat, f: Fate): State
    requires Lengths(s) && c in s.hands
  {
    s.(hands := s.hands[c := Settled(s.hands[c].id)], fate := s.fate[s.hands[c].id := f])
  }

  /** The state after one step, or None if the step cannot happen here. */
  function Next(s: State, l: Label, limit: int): Option<State>
    requires Lengths(s)
  {
    match l
    case Add(body) =>
      Some(s.(entries := s.entries + [body], origin := s.origin + [|s.head|], fate := s.fate + [Waiting],
              head := s.head + [|s.entries|], runs := s.runs + [0], start := s.start + [FirstAttempt(body)]))
    case Read(c) =>
      if c in s.hands || s.delivered == |s.entries| then None
      else Some(s.(delivered := s.delivered + 1, pending := s.pending + {s.delivered},
                   hands := s.hands[c := Holding(s.delivered)], fate := s.fate[s.delivered := Held]))
    case Handled(c, ok) =>
      if c !in s.hands || !s.hands[c].Holding? || !s.entries[s.hands[c].id].Work? then None
      else
        var id := s.hands[c].id;
        var s' := s.(runs := s.runs[s.origin[id] := s.runs[s.origin[id]] + 1]);
        Some(if ok then Settle(s', c, Won)
             else s'.(hands := s.hands[c := Failing(id)], fate := s.fate[id := Failed]))
    case Skip(c) =>
      if c !in s.hands || !s.hands[c].Holding? || !s.entries[s.hands[c].id].NoTask? then None
      else Some(Settle(s, c, Dropped))
    case Requeue(c) =>
      if c !in s.hands || !s.hands[c].Failing? || !s.entries[s.hands[c].id].Work? then None
      else
        var id := s.hands[c].id;
        var t := s.entries[id].task;
        if t.attempt + 1 >= limit then None
        else
          var s' := Settle(s, c, Retried);
          Some(s'.(entries := s.entries + [Work(t.(attempt := t.attempt + 1))], origin := s.origin + [s.origin[id]],
                   fate := s'.fate + [Waiting], head := s.head[s.origin[id] := |s.entries|]))
    case Bury(c) =>
      if c !in s.hands then None
      else
        var id := s.hands[c].id;
        var body := s.entries[id];
        if (s.hands[c].Failing? && body.Work? && body.task.attempt + 1 >= limit) || (s.hands[c].Holding? && body.Garbage?)
        then Some(Settle(s, c, Buried).(dlq := s.dlq + [Letter(body, id)])) else None
    case Lose(c) =>
      if c !in s.hands then None
      else
        var body := s.entries[s.hands[c].id];
        if (s.hands[c].Failing? && body.Work?) || (s.hands[c].Holding? && body.Garbage?) then Some(Settle(s, c, Lost)) else None
    case Ack(c) =>
      if c !in s.hands || !s.hands[c].Settled? then None
      else Some(s.(pending := s.pending - {s.hands[c].id}, hands := s.hands - {c}))
  }

  // ---- the invariant ----

  /** Each publication has one newest entry; every other entry of it has been retried. */
  ghost predicate OneHead(s: State)
    requires Lengths(s)
  {
    && (forall p | 0 <= p < |s.head| :: s.head[p] < |s.entries| && s.origin[s.head[p]] == p)
    && (forall i | 0 <= i < |s.entries| :: s.fate[i] == Retried <==> s.head[s.origin[i]] != i)
  }

  predicate Fits(h: Hand, f: Fate) {
    match h
    case Holding(_) => f == Held
    case Failing(_) => f == Failed
    case Settled(_) => f == Won || f == Retried || f == Buried || f == Dropped || f == Lost
  }

  /** The pending list is what the consumers have in hand; what is not delivered waits; what has left the pending list
      had its outcome or its successor recorded first. */
  ghost predicate HandsOk(delivered: nat, pending: set<nat>, hands: map<nat, Hand>, fate: seq<Fate>) {
    && delivered <= |fate|
    && (forall c | c in hands :: hands[c].id in pending && hands[c].id < |fate| && Fits(hands[c], fate[hands[c].id]))
    && (forall c, d | c in hands && d in hands && c != d :: hands[c].id != hands[d].id)
    && (forall i | i in pending :: i < delivered)
    && (forall i | 0 <= i < |fate| :: fate[i] == Waiting <==> i >= delivered)
    && (forall i | 0 <= i < |fate| :: fate[i] == Held || fate[i] == Failed ==> i in pending)
  }

  /** Handler runs so far, against the attempt counter of the newest entry. */
  ghost predicate RunsFit(s: State, limit: int)
    requires Lengths(s)
  {
    forall p | 0 <= p < |s.head| && s.head[p] < |s.entries| :: RunsFitAt(s, limit, p)
  }

  ghost predicate RunsFitAt(s: State, limit: int, p: nat)
    requires Lengths(s) && p < |s.head| && s.head[p] < |s.entries|
  {
    var h := s.head[p];
    if s.entries[h].Work? then
      var a := s.entries[h].task.attempt;
      && s.start[p] <= a && (a == s.start[p] || a < limit)
      && s.runs[p] == a - s.start[p] + (if s.fate[h] == Waiting || s.fate[h] == Held then 0 else 1)
      && (s.fate[h] == Buried ==> a + 1 >= limit)
    else s.runs[p] == 0 && s.fate[h] != Won
  }

  /** Exactly one letter per buried entry. */
  ghost predicate LettersOk(entries: seq<Body>, fate: seq<Fate>, dlq: seq<Letter>)
    requires |entries| == |fate|
  {
    && (forall k | 0 <= k < |dlq| :: IsLetterOf(entries, fate, dlq[k]))
    && (forall k, m | 0 <= k < m < |dlq| :: dlq[k].from != dlq[m].from)
    && (forall i | 0 <= i < |fate| && fate[i] == Buried :: HasLetter(dlq, i))
  }

  ghost predicate IsLetterOf(entries: seq<Body>, fate: seq<Fate>, letter: Letter)
    requires |entries| == |fate|
  {
    letter.from < |entries| && fate[letter.from] == Buried && letter.body == entries[letter.from]
  }

  ghost predicate HasLetter(dlq: seq<Letter>, i: nat) {
    exists k | 0 <= k < |dlq| :: dlq[k].from == i
  }

  ghost predicate Inv(s: State, limit: int) {
    && Lengths(s) && OneHead(s) && RunsFit(s, limit)
    && HandsOk(s.delivered, s.pending, s.hands, s.fate)
    && LettersOk(s.entries, s.fate, s.dlq)
  }

  // ---- every step keeps it ----

  lemma NextKeepsLengths(s: State, l: Label, limit: int)
    requires Lengths(s) && Next(s, l, limit).Some?
    ensures Lengths(Next(s, l, limit).value)
  {
  }

  /** A step that adds no entry changes the fate of at most one live entry, and never to Retried. */
  lemma PlainStep(s: State, l: Label, limit: int) returns (id: nat, f: Fate)
    requires Lengths(s) && HandsOk(s.delivered, s.pending, s.hands, s.fate)
    requires Next(s, l, limit).Some? && !l.Add? && !l.Requeue?
    ensures var s' := Next(s, l, limit).value;
            && Lengths(s') && s'.entries == s.entries && s'.origin == s.origin && s'.head == s.head && s'.start == s.start
            && (s'.fate == s.fate || (id < |s.fate| && IsLive(s.fate[id]) && f != Retried && s'.fate == s.fate[id := f]))
            && if l.Handled? then id < |s.fate| && IsLive(s.fate[id]) && s'.runs == s.runs[s.origin[id] := s.runs[s.origin[id]] + 1]
               else s'.runs == s.runs
  {
    NextKeepsLengths(s, l, limit);
    var s' := Next(s, l, limit).value;
    id := if l.Read? then s.delivered else s.hands[l.c].id;
    f := s'.fate[id];
  }

  lemma NextKeepsHead(s: State, l: Label, limit: int)
    requires Inv(s, limit) && Next(s, l, limit).Some?
    ensures Lengths(Next(s, l, limit).value) && OneHead(Next(s, l, limit).value)
  {
    hide RunsFit, LettersOk;
    if l.Add? {
      AddKeepsHead(s, l.body, limit);
    } else if l.Requeue? {
      RequeueMovesHead(s, l.c, limit);
    } else {
      var id, f := PlainStep(s, l, limit);
      hide Next, HandsOk;
    }
  }

  lemma AddKeepsHead(s: State, body: Body, limit: int)
    requires Lengths(s) && OneHead(s)
    ensures Lengths(Next(s, Add(body), limit).value) && OneHead(Next(s, Add(body), limit).value)
  {
    NextKeepsLengths(s, Add(body), limit);
  }

  lemma RequeueMovesHead(s: State, c: nat, limit: int)
    requires Lengths(s) && OneHead(s) && Next(s, Requeue(c), limit).Some?
    requires s.fate[s.hands[c].id] == Failed
    ensures Lengths(Next(s, Requeue(c), limit).value) && OneHead(Next(s, Requeue(c), limit).value)
  {
    var id := s.hands[c].id;
    var s' := Next(s, Requeue(c), limit).value;
    assert s.head[s.origin[id]] == id;
    forall i | 0 <= i < |s'.entries| ensures s'.fate[i] == Retried <==> s'.head[s'.origin[i]] != i {
      if i < |s.entries| {
        assert s'.origin[i] == s.origin[i];
      }
    }
  }

  lemma HandsAppend(delivered: nat, pending: set<nat>, hands: map<nat, Hand>, fate: seq<Fate>)
    requires HandsOk(delivered, pending, hands, fate)
    ensures HandsOk(delivered, pending, hands, fate + [Waiting])
  {
  }

  lemma HandsRead(delivered: nat, pending: set<nat>, hands: map<nat, Hand>, fate: seq<Fate>, c: nat)
    requires HandsOk(delivered, pending, hands, fate) && c !in hands && delivered < |fate|
    ensures HandsOk(delivered + 1, pending + {delivered}, hands[c := Holding(delivered)], fate[delivered := Held])
  {
    assert forall d | d in hands :: hands[d].id < delivered;
  }

  lemma HandsSet(delivered: nat, pending: set<nat>, hands: map<nat, Hand>, fate: seq<Fate>, c: nat, h: Hand, f: Fate)
    requires HandsOk(delivered, pending, hands, fate) && c in hands
    requires h.id == hands[c].id && Fits(h, f)
    ensures HandsOk(delivered, pending, hands[c := h], fate[h.id := f])
  {
  }

  lemma HandsAck(delivered: nat, pending: set<nat>, hands: map<nat, Hand>, fate: seq<Fate>, c: nat)
    requires HandsOk(delivered, pending, hands, fate) && c in hands && hands[c].Settled?
    ensures HandsOk(delivered, pending - {hands[c].id}, hands - {c}, fate)
  {
  }

  lemma NextKeepsHands(s: State, l: Label, limit: int)
    requires Inv(s, limit) && Next(s, l, limit).Some?
    ensures var s' := Next(s, l, limit).value; HandsOk(s'.delivered, s'.pending, s'.hands, s'.fate)
  {
    var s' := Next(s, l, limit).value;
    if l.Add? {
      HandsAppend(s.delivered, s.pending, s.hands, s.fate);
    } else if l.Read? {
      HandsRead(s.delivered, s.pending, s.hands, s.fate, l.c);
    } else if l.Ack? {
      HandsAck(s.delivered, s.pending, s.hands, s.fate, l.c);
    } else {
      var h := s'.hands[l.c];
      HandsSet(s.delivered, s.pending, s.hands, s.fate, l.c, h, s'.fate[h.id]);
      if l.Requeue? {
        HandsAppend(s.delivered, s.pending, s'.hands, s.fate[h.id := Retried]);
      }
    }
  }

  lemma NextKeepsRuns(s: State, l: Label, limit: int)
    requires Inv(s, limit) && Next(s, l, limit).Some?
    ensures Lengths(Next(s, l, limit).value) && RunsFit(Next(s, l, limit).value, limit)
  {
    NextKeepsLengths(s, l, limit);
    var s' := Next(s, l, limit).value;
    hide RunsFitAt;
    forall p | 0 <= p < |s'.head| && s'.head[p] < |s'.entries| ensures RunsFitAt(s', limit, p) {
      NextKeepsRunsAt(s, l, limit, p);
    }
  }

  lemma NextKeepsRunsAt(s: State, l: Label, limit: int, p: nat)
    requires Inv(s, limit) && Next(s, l, limit).Some?
    requires var s' := Next(s, l, limit).value; Lengths(s') && p < |s'.head| && s'.head[p] < |s'.entries|
    ensures RunsFitAt(Next(s, l, limit).value, limit, p)
  {
    hide LettersOk;
    if p < |s.head| {
      assert RunsFitAt(s, limit, p);
      hide RunsFit;
      if l.Handled? {
        HandledKeepsRuns(s, l, limit, p);
      } else if l.Requeue? {
        RequeueKeepsRuns(s, l, limit, p);
      } else {
        OthersKeepRuns(s, l, limit, p);
      }
    }
  }

  lemma OthersKeepRuns(s: State, l: Label, limit: int, p: nat)
    requires Lengths(s) && OneHead(s) && HandsOk(s.delivered, s.pending, s.hands, s.fate)
    requires !l.Handled? && !l.Requeue? && Next(s, l, limit).Some? && p < |s.head| && RunsFitAt(s, limit, p)
    ensures var s' := Next(s, l, limit).value; Lengths(s') && RunsFitAt(s', limit, p)
  {
    NextKeepsLengths(s, l, limit);
    var s', h := Next(s, l, limit).value, s.head[p];
    assert s'.head[p] == h && s'.entries[h] == s.entries[h] && s'.runs[p] == s.runs[p];
    if s.entries[h].Work? {
      FateMoves(s, l, limit, h);
    }
  }

  /** Steps other than handling keep apart the fates before and after it, and bury only what is out of retries. */
  lemma FateMoves(s: State, l: Label, limit: int, h: nat)
    requires Lengths(s) && HandsOk(s.delivered, s.pending, s.hands, s.fate) && Next(s, l, limit).Some?
    requires !l.Handled? && !l.Requeue? && h < |s.fate| && s.entries[h].Work?
    ensures var s' := Next(s, l, limit).value;
            && h < |s'.fate|
            && (s.fate[h] == Waiting || s.fate[h] == Held <==> s'.fate[h] == Waiting || s'.fate[h] == Held)
            && (s'.fate[h] == Buried ==> s.fate[h] == Buried || s.entries[h].task.attempt + 1 >= limit)
  {
  }

  lemma HandledKeepsRuns(s: State, l: Label, limit: int, p: nat)
    requires Lengths(s) && OneHead(s) && HandsOk(s.delivered, s.pending, s.hands, s.fate)
    requires l.Handled? && Next(s, l, limit).Some? && p < |s.head| && RunsFitAt(s, limit, p)
    ensures var s' := Next(s, l, limit).value; Lengths(s') && RunsFitAt(s', limit, p)
  {
  }

  lemma RequeueKeepsRuns(s: State, l: Label, limit: int, p: nat)
    requires Lengths(s) && OneHead(s) && HandsOk(s.delivered, s.pending, s.hands, s.fate)
    requires l.Requeue? && Next(s, l, limit).Some? && p < |s.head| && RunsFitAt(s, limit, p)
    ensures var s' := Next(s, l, limit).value; Lengths(s') && s'.head[p] < |s'.entries| && RunsFitAt(s', limit, p)
  {
  }

  lemma LettersAppend(entries: seq<Body>, fate: seq<Fate>, dlq: seq<Letter>, body: Body)
    requires |entries| == |fate| && LettersOk(entries, fate, dlq)
    ensures LettersOk(entries + [body], fate + [Waiting], dlq)
  {
    forall k | 0 <= k < |dlq| ensures IsLetterOf(entries + [body], fate + [Waiting], dlq[k]) {
      assert IsLetterOf(entries, fate, dlq[k]);
    }
  }

  lemma LettersSet(entries: seq<Body>, fate: seq<Fate>, dlq: seq<Letter>, i: nat, f: Fate)
    requires |entries| == |fate| && LettersOk(entries, fate, dlq)
    requires i < |fate| && fate[i] != Buried && f != Buried
    ensures LettersOk(entries, fate[i := f], dlq)
  {
    forall k | 0 <= k < |dlq| ensures IsLetterOf(entries, fate[i := f], dlq[k]) {
      assert IsLetterOf(entries, fate, dlq[k]);
    }
  }

  lemma LettersBury(entries: seq<Body>, fate: seq<Fate>, dlq: seq<Letter>, i: nat)
    requires |entries| == |fate| && LettersOk(entries, fate, dlq)
    requires i < |fate| && fate[i] != Buried
    ensures LettersOk(entries, fate[i := Buried], dlq + [Letter(entries[i], i)])
  {
    var fate', dlq' := fate[i := Buried], dlq + [Letter(entries[i], i)];
    forall k | 0 <= k < |dlq| ensures IsLetterOf(entries, fate', dlq'[k]) && dlq'[k].from != i {
      assert IsLetterOf(entries, fate, dlq[k]);
    }
    forall j | 0 <= j < |fate'| && fate'[j] == Buried ensures HasLetter(dlq', j) {
      if j == i {
        assert dlq'[|dlq|].from == i;
      } else {
        var k :| 0 <= k < |dlq| && dlq[k].from == j;
        assert dlq'[k].from == j;
      }
    }
  }

  lemma OnlyBuriedHaveLetters(entries: seq<Body>, fate: seq<Fate>, dlq: seq<Letter>, i: nat)
    requires |entries| == |fate| && LettersOk(entries, fate, dlq) && i < |fate|
    ensures HasLetter(dlq, i) <==> fate[i] == Buried
  {
    if HasLetter(dlq, i) {
      var k :| 0 <= k < |dlq| && dlq[k].from == i;
      assert IsLetterOf(entries, fate, dlq[k]);
    }
  }

  lemma NextKeepsLetters(s: State, l: Label, limit: int)
    requires Inv(s, limit) && Next(s, l, limit).Some?
    ensures var s' := Next(s, l, limit).value;
            |s'.entries| == |s'.fate| && LettersOk(s'.entries, s'.fate, s'.dlq)
  {
    var s' := Next(s, l, limit).value;
    NextKeepsLengths(s, l, limit);
    hide LettersOk, RunsFit, OneHead;
    match l
    case Add(body) => LettersAppend(s.entries, s.fate, s.dlq, body);
    case Read(c) => LettersSet(s.entries, s.fate, s.dlq, s.delivered, Held);
    case Ack(c) =>
    case Bury(c) => LettersBury(s.entries, s.fate, s.dlq, s.hands[c].id);
    case Handled(c, ok) => LettersSet(s.entries, s.fate, s.dlq, s.hands[c].id, if ok then Won else Failed);
    case Skip(c) => LettersSet(s.entries, s.fate, s.dlq, s.hands[c].id, Dropped);
    case Lose(c) => LettersSet(s.entries, s.fate, s.dlq, s.hands[c].id, Lost);
    case Requeue(c) =>
      LettersSet(s.entries, s.fate, s.dlq, s.hands[c].id, Retried);
      LettersAppend(s.entries, s.fate[s.hands[c].id := Retried], s.dlq, s'.entries[|s.entries|]);
  }

  lemma NextKeepsInv(s: State, l: Label, limit: int)
    requires Inv(s, limit) && Next(s, l, limit).Some?
    ensures Inv(Next(s, l, limit).value, limit)
  {
    NextKeepsLengths(s, l, limit);
    NextKeepsHead(s, l, limit);
    NextKeepsHands(s, l, limit);
    NextKeepsRuns(s, l, limit);
    NextKeepsLetters(s, l, limit);
  }

  // ---- any schedule of any number of consumers ----

  /** The state after a whole schedule, or None if some step could not happen. */
  function Run(labels: seq<Label>, limit: int): (r: Option<State>)
    ensures r.Some? ==> Lengths(r.value)
  {
    if labels == [] then Some(INIT)
    else
      match Run(labels[..|labels| - 1], limit)
      case None => None
      case Some(s) =>
        var next := Next(s, labels[|labels| - 1], limit);
        if next.Some? then NextKeepsLengths(s, labels[|labels| - 1], limit); next else None
  }

  lemma {:induction false} ReachableInv(labels: seq<Label>, limit: int)
    requires Run(labels, limit).Some?
    ensures Inv(Run(labels, limit).value, limit)
  {
    if labels != [] {
      var front, last := labels[..|labels| - 1], labels[|labels| - 1];
      ReachableInv(front, limit);
      NextKeepsInv(Run(front, limit).value, last, limit);
    }
  }

  predicate IsLive(f: Fate) {
    f == Waiting || f == Held || f == Failed
  }

  /** Of all entries of a publication, the i-th is neither superseded by a retry nor anything else's copy. */
  ghost predicate IsCurrent(s: State, p: nat, i: nat)
    requires Lengths(s)
  {
    i < |s.entries| && s.origin[i] == p && s.fate[i] != Retried
  }

  /** At every moment of every schedule, each published task has exactly one copy that counts: live, or won, or in the
      dead-letter stream as exactly one letter, or lost to a failed XADD. */
  lemma {:induction false} TasksAreConserved(labels: seq<Label>, limit: int, p: nat)
    requires Run(labels, limit).Some? && p < |Run(labels, limit).value.head|
    ensures var s := Run(labels, limit).value;
            && IsCurrent(s, p, s.head[p])
            && (forall i | IsCurrent(s, p, i) :: i == s.head[p])
            && (s.fate[s.head[p]] == Buried <==> HasLetter(s.dlq, s.head[p]))
            && (s.entries[s.head[p]].Work? ==> s.fate[s.head[p]] != Dropped)
  {
    ReachableInv(labels, limit);
    DroppedHasNoTask(labels, limit);
    var s := Run(labels, limit).value;
    OnlyBuriedHaveLetters(s.entries, s.fate, s.dlq, s.head[p]);
  }

  lemma {:induction false} DroppedHasNoTask(labels: seq<Label>, limit: int)
    requires Run(labels, limit).Some?
    ensures var s := Run(labels, limit).value;
            forall i | 0 <= i < |s.entries| && s.fate[i] == Dropped :: s.entries[i].NoTask?
  {
    if labels != [] {
      DroppedHasNoTask(labels[..|labels| - 1], limit);
    }
  }

  /** Tasks are lost by failed XADDs alone: with none in the schedule every task is live, won or dead-lettered. */
  lemma {:induction false} NothingIsLostWithoutFaults(labels: seq<Label>, limit: int)
    requires Run(labels, limit).Some?
    requires forall l | l in labels :: !l.Lose?
    ensures forall i | 0 <= i < |Run(labels, limit).value.fate| :: Run(labels, limit).value.fate[i] != Lost
  {
    if labels != [] {
      var n := |labels| - 1;
      NothingIsLostWithoutFaults(labels[..n], limit);
      assert labels[n] in labels;
    }
  }

  /** And each failed XADD does lose its task. */
  lemma {:induction false} FailedAddLosesTask(labels: seq<Label>, limit: int, c: nat)
    requires Run(labels + [Lose(c)], limit).Some?
    ensures Run(labels, limit).Some? && c in Run(labels, limit).value.hands
    ensures var s, id := Run(labels + [Lose(c)], limit).value, Run(labels, limit).value.hands[c].id;
            && id < |s.entries| && s.fate[id] == Lost && s.head[s.origin[id]] == id && !HasLetter(s.dlq, id)
  {
    assert (labels + [Lose(c)])[..|labels|] == labels;
    ReachableInv(labels, limit);
    ReachableInv(labels + [Lose(c)], limit);
    var s, id := Run(labels + [Lose(c)], limit).value, Run(labels, limit).value.hands[c].id;
    OnlyBuriedHaveLetters(s.entries, s.fate, s.dlq, id);
  }

  /** Such schedules exist for every task: it is added, read, its handler fails, and so does the XADD. */
  lemma FailedAddCanHappen(t: Task, limit: int) returns (labels: seq<Label>)
    ensures Run(labels + [Lose(0)], limit).Some? && Run(labels + [Lose(0)], limit).value.entries == [Work(t)]
    ensures Run(labels + [Lose(0)], limit).value.fate == [Lost]
  {
    labels := After([], Add(Work(t)), limit);
    labels := After(labels, Read(0), limit);
    labels := After(labels, Handled(0, false), limit);
    var all := After(labels, Lose(0), limit);
  }

  lemma After(labels: seq<Label>, l: Label, limit: int) returns (longer: seq<Label>)
    requires Run(labels, limit).Some?
    ensures longer == labels + [l] && Run(longer, limit) == Next(Run(labels, limit).value, l, limit)
  {
    longer := labels + [l];
    assert longer[..|labels|] == labels;
  }

  /** A task's handler runs at most max(1, limit - first attempt) times, and if it never succeeded it ran out of retries. */
  lemma {:induction false} HandlerRunsAreBounded(labels: seq<Label>, limit: int, p: nat)
    requires Run(labels, limit).Some? && p < |Run(labels, limit).value.head|
    ensures var s := Run(labels, limit).value;
            && s.runs[p] <= (if limit - s.start[p] > 1 then limit - s.start[p] else 1)
            && s.head[p] < |s.entries|
            && (s.fate[s.head[p]] == Buried && s.entries[s.head[p]].Work? ==>
                  s.runs[p] == if limit - s.start[p] > 1 then limit - s.start[p] else 1)
            && (s.fate[s.head[p]] == Won ==> s.runs[p] >= 1)
  {
    ReachableInv(labels, limit);
    hide Run, HandsOk, LettersOk;
    var s := Run(labels, limit).value;
    RunsAreBounded(s, limit, p);
    assert RunsFitAt(s, limit, p);
    hide RunsFit, OneHead;
  }

  lemma RunsAreBounded(s: State, limit: int, p: nat)
    requires Inv(s, limit) && p < |s.head|
    ensures s.runs[p] <= if limit - s.start[p] > 1 then limit - s.start[p] else 1
  {
    assert RunsFitAt(s, limit, p);
    hide RunsFit, OneHead, HandsOk, LettersOk;
  }

  /** An entry leaves the pending list only once its outcome, or its successor, is recorded or has failed to be. */
  lemma {:induction false} NothingIsAckedEarly(labels: seq<Label>, limit: int, i: nat)
    requires Run(labels, limit).Some? && i < Run(labels, limit).value.delivered
    requires i !in Run(labels, limit).value.pending
    ensures var s := Run(labels, limit).value;
            s.fate[i] == Won || s.fate[i] == Buried || s.fate[i] == Dropped || s.fate[i] == Lost
            || (s.fate[i] == Retried && s.head[s.origin[i]] != i)
  {
    ReachableInv(labels, limit);
  }

  /** Outcomes are final: later steps change neither a won nor a buried publication. */
  lemma {:induction false} OutcomesAreFinal(s: State, l: Label, limit: int, p: nat)
    requires Inv(s, limit) && Next(s, l, limit).Some? && p < |s.head| && !IsLive(s.fate[s.head[p]])
    ensures var s' := Next(s, l, limit).value;
            && p < |s'.head| && s'.head[p] == s.head[p] && s.head[p] < |s'.fate|
            && s'.fate[s.head[p]] == s.fate[s.head[p]] && s'.runs[p] == s.runs[p]
  {
    hide RunsFit, LettersOk;
    if !l.Add? && !l.Requeue? {
      var id, f := PlainStep(s, l, limit);
      hide Next, HandsOk;
    }
  }

  /** All copies of a task are the published task, attempt counter apart. */
  ghost predicate CopiesAgree(s: State)
    requires Lengths(s)
  {
    forall i | 0 <= i < |s.entries| && s.head[s.origin[i]] < |s.entries| ::
      SameTask(s.entries[i], s.entries[s.head[s.origin[i]]])
  }

  predicate SameTask(a: Body, b: Body) {
    if a.Work? then b.Work? && b.task == a.task.(attempt := b.task.attempt) else a == b
  }

  lemma {:induction false} RetriesCarryTheTask(labels: seq<Label>, limit: int)
    requires Run(labels, limit).Some?
    ensures CopiesAgree(Run(labels, limit).value)
  {
    if labels != [] {
      var front, l := labels[..|labels| - 1], labels[|labels| - 1];
      ReachableInv(front, limit);
      RetriesCarryTheTask(front, limit);
      StepKeepsCopies(Run(front, limit).value, l, limit);
    }
  }

  lemma StepKeepsCopies(s: State, l: Label, limit: int)
    requires Inv(s, limit) && CopiesAgree(s) && Next(s, l, limit).Some?
    ensures Lengths(Next(s, l, limit).value) && CopiesAgree(Next(s, l, limit).value)
  {
    hide RunsFit, LettersOk;
    if !l.Add? && !l.Requeue? {
      var id, f := PlainStep(s, l, limit);
      hide Next, HandsOk, OneHead;
    } else {
      NextKeepsLengths(s, l, limit);
      NewCopyAgrees(s, l, limit);
    }
  }

  lemma NewCopyAgrees(s: State, l: Label, limit: int)
    requires Lengths(s) && OneHead(s) && CopiesAgree(s) && Next(s, l, limit).Some? && (l.Add? || l.Requeue?)
    ensures Lengths(Next(s, l, limit).value) && CopiesAgree(Next(s, l, limit).value)
  {
    NextKeepsLengths(s, l, limit);
    var s' := Next(s, l, limit).value;
    forall i | 0 <= i < |s'.entries| && s'.head[s'.origin[i]] < |s'.entries|
      ensures SameTask(s'.entries[i], s'.entries[s'.head[s'.origin[i]]])
    {
      if i < |s.entries| {
        assert SameTask(s.entries[i], s.entries[s.head[s.origin[i]]]);
      }
    }
  }

  // ---- the code ----

  /** A schedule continued from a state. */
  function Follow(s: State, labels: seq<Label>, limit: int): (r: Option<State>)
    requires Lengths(s)
    ensures r.Some? ==> Lengths(r.value)
    decreases |labels|
  {
    if labels == [] then Some(s)
    else
      match Next(s, labels[0], limit)
      case None => None
      case Some(t) => NextKeepsLengths(s, labels[0], limit); Follow(t, labels[1..], limit)
  }

  lemma {:induction false} FollowKeepsInv(s: State, labels: seq<Label>, limit: int)
    requires Inv(s, limit) && Follow(s, labels, limit).Some?
    ensures Inv(Follow(s, labels, limit).value, limit)
    decreases |labels|
  {
    if labels != [] {
      NextKeepsInv(s, labels[0], limit);
      FollowKeepsInv(Next(s, labels[0], limit).value, labels[1..], limit);
    }
  }

  /** The operations one message costs a consumer, by its body and the handler's verdict. */
  function Handling(body: Body, ok: bool, c: nat, limit: int): seq<Label> {
    match body
    case NoTask => [Read(c), Skip(c), Ack(c)]
    case Garbage(_) => [Read(c), Bury(c), Ack(c)]
    case Work(t) =>
      if ok then [Read(c), Handled(c, true), Ack(c)]
      else if t.attempt + 1 >= limit then [Read(c), Handled(c, false), Bury(c), Ack(c)]
      else [Read(c), Handled(c, false), Requeue(c), Ack(c)]
  }

  class StreamQueue {
    var entries: seq<Body>
    var delivered: nat
    var pending: set<nat>
    var dlq: seq<Letter>
    /** The protocol state this queue is in. */
    ghost var model: State

    ghost predicate Valid()
      reads this
    {
      && Lengths(model)
      && entries == model.entries && delivered == model.delivered && pending == model.pending && dlq == model.dlq
    }

    constructor ()
      ensures Valid() && model == INIT
    {
      entries, delivered, pending, dlq := [], 0, {}, [];
      model := INIT;
    }

    method XAdd(body: Body)
      modifies this`entries
      ensures entries == old(entries) + [body]
    {
      entries := entries + [body];
    }

    method XReadGroup() returns (id: Option<nat>)
      requires delivered <= |entries|
      modifies this`delivered, this`pending
      ensures id == if old(delivered) == |entries| then None else Some(old(delivered))
      ensures id == None ==> delivered == old(delivered) && pending == old(pending)
      ensures id.Some? ==> delivered == old(delivered) + 1 && pending == old(pending) + {id.value}
    {
      if delivered == |entries| {
        return None;
      }
      id := Some(delivered);
      pending := pending + {delivered};
      delivered := delivered + 1;
    }

    method XAck(id: nat)
      modifies this`pending
      ensures pending == old(pending) - {id}
    {
      pending := pending - {id};
    }

    method DeadLetter(id: nat, body: Body)
      modifies this`dlq, this`pending
      ensures dlq == old(dlq) + [Letter(body, id)] && pending == old(pending) - {id}
    {
      dlq := dlq + [Letter(body, id)];
      XAck(id);
    }

    method Publish(t: Task, limit: int)
      requires Valid()
      modifies this
      ensures Valid() && Next(old(model), Add(Work(t)), limit) == Some(model)
      ensures entries == old(entries) + [Work(t)]
      ensures delivered == old(delivered) && pending == old(pending) && dlq == old(dlq)
    {
      model := Next(model, Add(Work(t)), limit).value;
      XAdd(Work(t));
    }

    /** One pass of the consume loop, undisturbed: exactly the operations of `Handling`, in order. */
    method ConsumeOne(c: nat, maxRetry: int, standard: nat, handler: (nat, Task) -> bool) returns (read: bool)
      requires Valid() && c !in model.hands
      modifies this
      ensures Valid() && c !in model.hands
      ensures read <==> old(delivered) < |old(entries)|
      ensures !read ==> model == old(model)
      ensures read ==> delivered == old(delivered) + 1
      ensures read ==>
                var id, body := old(delivered), old(entries)[old(delivered)];
                var ok := body.Work? && handler(id, body.task);
                Follow(old(model), Handling(body, ok, c, Limit(maxRetry, standard)), Limit(maxRetry, standard)) == Some(model)
      ensures read ==>
                var id, body := old(delivered), old(entries)[old(delivered)];
                var fails := body.Work? && !handler(id, body.task);
                var again := fails && body.task.attempt + 1 < if maxRetry > 0 then maxRetry else standard;
                && pending == old(pending) - {id}
                && entries == old(entries) + (if again then [Work(body.task.(attempt := body.task.attempt + 1))] else [])
                && dlq == old(dlq) + (if body.Garbage? || (fails && !again) then [Letter(body, id)] else [])
    {
      hide Next, Follow, Handling;
      var limit := maxRetry;
      if limit <= 0 {
        limit := standard;
      }
      var got := XReadGroup();
      if got == None {
        return false;
      }
      var id := got.value;
      var body := entries[id];
      ghost var ok := body.Work? && handler(id, body.task);
      match body {
        case NoTask => XAck(id);
        case Garbage(_) => DeadLetter(id, body);
        case Work(task) =>
          if handler(id, task) {
            XAck(id);
          } else {
            var t := task.(attempt := task.attempt + 1);
            if t.attempt >= limit {
              DeadLetter(id, body);
            } else {
              XAdd(Work(t));
              XAck(id);
            }
          }
      }
      HandlingHappens(model, c, ok, limit);
      model := Follow(model, Handling(body, ok, c, limit), limit).value;
      return true;
    }

    /** The consume loop for as long as it is let run. */
    method Consume(c: nat, maxRetry: int, standard: nat, handler: (nat, Task) -> bool, rounds: nat)
      requires Valid() && c !in model.hands && Inv(model, Limit(maxRetry, standard))
      modifies this
      ensures Valid() && c !in model.hands && Inv(model, Limit(maxRetry, standard))
      ensures delivered == old(delivered) + rounds || delivered == |entries|
      ensures var limit := if maxRetry > 0 then maxRetry else standard;
              forall p | 0 <= p < |model.head| ::
                model.runs[p] <= if limit - model.start[p] > 1 then limit - model.start[p] else 1
    {
      ghost var limit := Limit(maxRetry, standard);
      for round := 0 to rounds
        invariant Valid() && c !in model.hands && Inv(model, limit)
        invariant delivered == old(delivered) + round || delivered == |entries|
      {
        ghost var before := model;
        var read := ConsumeOne(c, maxRetry, standard, handler);
        if read {
          var body := before.entries[before.delivered];
          FollowKeepsInv(before, Handling(body, body.Work? && handler(before.delivered, body.task), c, limit), limit);
        }
      }
      forall p | 0 <= p < |model.head| ensures model.runs[p] <= if limit - model.start[p] > 1 then limit - model.start[p] else 1 {
        RunsAreBounded(model, limit, p);
      }
    }
  }

  lemma FollowOne(s: State, a: Label, rest: seq<Label>, limit: int)
    requires Lengths(s)
    ensures Follow(s, [a] + rest, limit) ==
            match Next(s, a, limit)
            case None => None
            case Some(t) => (NextKeepsLengths(s, a, limit); Follow(t, rest, limit))
  {
    assert ([a] + rest)[1..] == rest;
  }

  /** An idle consumer can carry out the handling of the next entry, and this is where it leads. */
  lemma {:induction false} HandlingHappens(s: State, c: nat, ok: bool, limit: int)
    requires Lengths(s) && c !in s.hands && s.delivered < |s.entries|
    requires ok ==> s.entries[s.delivered].Work?
    ensures var id, body := s.delivered, s.entries[s.delivered];
            var r := Follow(s, Handling(body, ok, c, limit), limit);
            && r.Some? && Lengths(r.value)
            && c !in r.value.hands
            && r.value.delivered == id + 1
            && r.value.pending == s.pending + {id} - {id}
            && r.value.entries == s.entries + (if body.Work? && !ok && body.task.attempt + 1 < limit
                                               then [Work(body.task.(attempt := body.task.attempt + 1))] else [])
            && r.value.dlq == s.dlq + (if body.Garbage? || (body.Work? && !ok && body.task.attempt + 1 >= limit)
                                       then [Letter(body, id)] else [])
  {
    var labels := Handling(s.entries[s.delivered], ok, c, limit);
    assert labels == [labels[0]] + labels[1..];
    FollowOne(s, labels[0], labels[1..], limit);
    var s1 := Next(s, labels[0], limit).value;
    if s.entries[s.delivered].Work? && !ok {
      FailureIsHandled(s1, c, limit);
      assert labels[1..] == [labels[1], labels[2], Ack(c)];
    } else {
      hide Follow;
      SettlingHappens(s1, c, labels[1], limit);
      assert labels[1..] == [labels[1], Ack(c)];
      hide Next;
    }
  }

  /** After a read: the entry is settled as it is. */
  lemma {:induction false} SettlingHappens(s: State, c: nat, l: Label, limit: int)
    requires Lengths(s) && c in s.hands && s.hands[c].Holding?
    requires var body := s.entries[s.hands[c].id];
             (l == Skip(c) && body.NoTask?) || (l == Bury(c) && body.Garbage?) || (l == Handled(c, true) && body.Work?)
    ensures var id := s.hands[c].id;
            var r := Follow(s, [l, Ack(c)], limit);
            && r.Some? && Lengths(r.value)
            && c !in r.value.hands
            && r.value.delivered == s.delivered
            && r.value.pending == s.pending - {id}
            && r.value.entries == s.entries
            && r.value.dlq == s.dlq + (if l.Bury? then [Letter(s.entries[id], id)] else [])
  {
    hide Follow;
    LastTwoHappen(s, c, l, limit);
  }

  /** After a read: the handler fails and the entry is put elsewhere. */
  lemma {:induction false} FailureIsHandled(s: State, c: nat, limit: int)
    requires Lengths(s) && c in s.hands && s.hands[c].Holding? && s.entries[s.hands[c].id].Work?
    ensures var id := s.hands[c].id;
            var t := s.entries[id].task;
            var r := Follow(s, [Handled(c, false), if t.attempt + 1 >= limit then Bury(c) else Requeue(c), Ack(c)], limit);
            && r.Some? && Lengths(r.value)
            && c !in r.value.hands
            && r.value.delivered == s.delivered
            && r.value.pending == s.pending - {id}
            && r.value.entries == s.entries + (if t.attempt + 1 < limit then [Work(t.(attempt := t.attempt + 1))] else [])
            && r.value.dlq == s.dlq + (if t.attempt + 1 < limit then [] else [Letter(s.entries[id], id)])
  {
    hide Follow;
    var l := if s.entries[s.hands[c].id].task.attempt + 1 >= limit then Bury(c) else Requeue(c);
    assert [Handled(c, false), l, Ack(c)] == [Handled(c, false)] + [l, Ack(c)];
    FollowOne(s, Handled(c, false), [l, Ack(c)], limit);
    LastTwoHappen(Next(s, Handled(c, false), limit).value, c, l, limit);
  }

  /** An entry's outcome is recorded, then the entry is acknowledged. */
  lemma {:induction false} LastTwoHappen(s: State, c: nat, l: Label, limit: int)
    requires Lengths(s) && c in s.hands && !l.Add? && !l.Read? && !l.Ack? && l.c == c
    requires Next(s, l, limit).Some? && (l.Handled? ==> l.ok)
    ensures var id := s.hands[c].id;
            var r := Follow(s, [l, Ack(c)], limit);
            && r.Some? && Lengths(r.value)
            && c !in r.value.hands
            && r.value.delivered == s.delivered
            && r.value.pending == s.pending - {id}
            && r.value.entries == Next(s, l, limit).value.entries
            && r.value.dlq == Next(s, l, limit).value.dlq
  {
    assert [l, Ack(c)] == [l] + [Ack(c)];
    FollowOne(s, l, [Ack(c)], limit);
    var s1 := Next(s, l, limit).value;
    assert s1.hands[c] == Settled(s.hands[c].id);
    FollowOne(s1, Ack(c), [], limit);
    assert [Ack(c)] == [Ack(c)] + [];
  }
}
