/** The warm pool of sandboxes: concurrent acquires and releases, each release followed by destroy-and-refill. */
module Pool {
  import opened Wrappers

  /** The driver's fields, then where its goroutines stand: callers waiting in Acquire, slots taken but not yet
      registered, slots being destroyed (one entry per goroutine), goroutines about to look whether the driver is
      closing, goroutines about to spawn, slots spawned but not yet in the pool. Then, for the proofs: slots handed to a
      caller and slots released, in order; slots that exist no more; warm slots at the start; refills that failed, and
      slots or refills given up because of Close. */
  datatype State = State(
    capacity: nat, pool: seq<nat>, inFlight: set<nat>, closing: bool, next: nat, spawned: nat, destroyed: nat,
    waiting: nat, taken: multiset<nat>, destroying: multiset<nat>, cleared: nat, spawning: nat, spare: multiset<nat>,
    handed: seq<nat>, released: seq<nat>, gone: multiset<nat>, warm: nat, failed: nat, closed: nat)

  /** `pool` holds the slots that could be warmed; a failure uses up an id. */
  function Init(capacity: nat, pool: seq<nat>, next: nat, spawned: nat): State {
    State(capacity, pool, {}, false, next, spawned, 0, 0, multiset{}, multiset{}, 0, 0, multiset{}, [], [], multiset{}, |pool|, 0, 0)
  }

  ghost predicate IsInit(s: State) {
    && s == Init(s.capacity, s.pool, s.next, s.spawned)
    && |s.pool| == s.spawned <= s.capacity
    && Distinct(s.pool, s.next)
  }

  ghost predicate Distinct(pool: seq<nat>, next: nat) {
    && (forall i | i in pool :: i < next)
    && forall i, j | 0 <= i < j < |pool| :: pool[i] != pool[j]
  }

  /** One atomic step of some goroutine. The spawn counter counts attempts in the memory driver and successes in the
      Docker one. */
  datatype Label =
    | Enter
    | Leave
    | Take
    | MkdirFails(i: nat)
    | Register(i: nat)
    | Release(i: nat)
    | Destroy(i: nat)
    | LookClosing
    | Spawn
    | SpawnFails
    | Push(i: nat)
    | Drop(i: nat)
    | Close
    | Drain

  /** The state after one step, or None if the step cannot happen here. `Release` takes any handle ever handed out. */
  function Next(s: State, l: Label, docker: bool): Option<State> {
    match l
    case Enter =>
      if s.closing then None else Some(s.(waiting := s.waiting + 1))
    case Leave =>
      if s.waiting == 0 then None else Some(s.(waiting := s.waiting - 1))
    case Take =>
      if s.waiting == 0 || s.pool == [] then None
      else Some(s.(waiting := s.waiting - 1, pool := s.pool[1..], taken := s.taken + multiset{s.pool[0]}))
    case MkdirFails(i) =>
      if i !in s.taken then None
      else Some(s.(taken := s.taken - multiset{i}, destroying := s.destroying + multiset{i}))
    case Register(i) =>
      if i !in s.taken then None
      else Some(s.(taken := s.taken - multiset{i}, inFlight := s.inFlight + {i}, handed := s.handed + [i]))
    case Release(i) =>
      if i !in s.handed then None
      else Some(s.(inFlight := s.inFlight - {i}, destroying := s.destroying + multiset{i}, released := s.released + [i]))
    case Destroy(i) =>
      if i !in s.destroying then None
      else Some(s.(destroying := s.destroying - multiset{i}, gone := s.gone + multiset{i},
                   destroyed := s.destroyed + 1, cleared := s.cleared + 1))
    case LookClosing =>
      if s.cleared == 0 then None
      else if s.closing then Some(s.(cleared := s.cleared - 1, closed := s.closed + 1))
      else Some(s.(cleared := s.cleared - 1, spawning := s.spawning + 1))
    case Spawn =>
      if s.spawning == 0 then None
      else Some(s.(spawning := s.spawning - 1, spare := s.spare + multiset{s.next}, next := s.next + 1, spawned := s.spawned + 1))
    case SpawnFails =>
      if s.spawning == 0 then None
      else Some(s.(spawning := s.spawning - 1, failed := s.failed + 1, next := s.next + 1,
                   spawned := s.spawned + if docker then 0 else 1))
    case Push(i) =>
      if i !in s.spare || |s.pool| >= s.capacity then None
      else Some(s.(spare := s.spare - multiset{i}, pool := s.pool + [i]))
    case Drop(i) =>
      if i !in s.spare || !s.closing then None
      else Some(s.(spare := s.spare - multiset{i}, gone := s.gone + multiset{i}, closed := s.closed + 1))
    case Close =>
      Some(s.(closing := true))
    case Drain =>
      if !s.closing || s.pool == [] then None
      else Some(s.(pool := s.pool[1..], gone := s.gone + multiset{s.pool[0]}, closed := s.closed + 1))
  }

  /** A schedule: every interleaving of the goroutines is one. */
  function Run(s: State, labels: seq<Label>, docker: bool): Option<State> {
    if labels == [] then Some(s)
    else
      match Run(s, labels[..|labels| - 1], docker)
      case None => None
      case Some(t) => Next(t, labels[|labels| - 1], docker)
  }

  // ---- without any assumption on callers ----

  /** How often a slot is upstream: in the pool, on its way into it, or on its way out to a caller or handed out. */
  function Upstream(s: State, i: nat): nat {
    multiset(s.pool)[i] + s.spare[i] + s.taken[i] + multiset(s.handed)[i]
  }

  ghost predicate HandsOutOnce(s: State) {
    forall i: nat :: Upstream(s, i) <= if i < s.next then 1 else 0
  }

  lemma InitHandsOutOnce(s: State)
    requires IsInit(s)
    ensures HandsOutOnce(s)
  {
    DistinctCounts(s.pool);
    forall i: nat ensures Upstream(s, i) <= if i < s.next then 1 else 0 {
      assert multiset(s.pool)[i] <= 1;
      assert i in multiset(s.pool) ==> i in s.pool;
    }
  }

  lemma {:induction false} DistinctCounts(q: seq<nat>)
    requires forall i, j | 0 <= i < j < |q| :: q[i] != q[j]
    ensures forall x: nat :: multiset(q)[x] <= 1
  {
    if q != [] {
      var n := |q| - 1;
      DistinctCounts(q[..n]);
      assert q == q[..n] + [q[n]];
    }
  }

  lemma {:induction false} CountsDistinct(q: seq<nat>, i: nat, j: nat)
    requires forall x: nat :: multiset(q)[x] <= 1
    requires i < j < |q|
    ensures q[i] != q[j]
  {
    assert q == q[..j] + q[j..];
    assert multiset(q)[q[j]] == multiset(q[..j])[q[j]] + multiset(q[j..])[q[j]];
    assert q[j..][0] in multiset(q[j..]);
    assert q[..j][i] in multiset(q[..j]);
  }

  lemma HeadApart(q: seq<nat>)
    requires q != []
    ensures multiset(q) == multiset{q[0]} + multiset(q[1..])
  {
    assert q == [q[0]] + q[1..];
  }

  /** Nothing comes into them but newly spawned slots. */
  lemma UpstreamMoves(s: State, l: Label, docker: bool, i: nat)
    requires Next(s, l, docker).Some?
    ensures Upstream(Next(s, l, docker).value, i) <= Upstream(s, i) + if l.Spawn? && i == s.next then 1 else 0
  {
    if l.Take? || l.Drain? {
      HeadApart(s.pool);
    } else if l.Push? || l.Register? {
      OneMoveUpstream(s, l, docker, i);
    }
  }

  lemma OneMoveUpstream(s: State, l: Label, docker: bool, i: nat)
    requires (l.Push? || l.Register?) && Next(s, l, docker).Some?
    ensures Upstream(Next(s, l, docker).value, i) == Upstream(s, i)
  {
  }

  lemma NextHandsOutOnce(s: State, l: Label, docker: bool)
    requires HandsOutOnce(s) && Next(s, l, docker).Some?
    ensures HandsOutOnce(Next(s, l, docker).value)
  {
    var s' := Next(s, l, docker).value;
    assert s'.next == s.next + if l.Spawn? || l.SpawnFails? then 1 else 0;
    hide Upstream, Next;
    forall i: nat ensures Upstream(s', i) <= if i < s'.next then 1 else 0 {
      UpstreamMoves(s, l, docker, i);
      assert Upstream(s, i) <= if i < s.next then 1 else 0;
    }
  }

  lemma {:induction false} RunHandsOutOnce(s: State, labels: seq<Label>, docker: bool)
    requires IsInit(s) && Run(s, labels, docker).Some?
    ensures HandsOutOnce(Run(s, labels, docker).value)
  {
    if labels == [] {
      InitHandsOutOnce(s);
    } else {
      var front := labels[..|labels| - 1];
      RunHandsOutOnce(s, front, docker);
      NextHandsOutOnce(Run(s, front, docker).value, labels[|labels| - 1], docker);
    }
  }

  /** No slot is ever handed to two callers, at any distance in time, and whatever callers do with their handles. */
  lemma NoTwoCallersShareSlot(s: State, labels: seq<Label>, docker: bool, a: nat, b: nat)
    requires IsInit(s) && Run(s, labels, docker).Some?
    requires a < b < |Run(s, labels, docker).value.handed|
    ensures var handed := Run(s, labels, docker).value.handed; handed[a] != handed[b]
  {
    RunHandsOutOnce(s, labels, docker);
    var t := Run(s, labels, docker).value;
    forall x: nat ensures multiset(t.handed)[x] <= 1 {
      assert x >= 0 && Upstream(t, x) <= 1;
    }
    CountsDistinct(t.handed, a, b);
  }

  /** A slot that has left the pool never returns to it. */
  lemma {:induction false} NoSlotReturns(s: State, before: seq<Label>, after: seq<Label>, docker: bool, i: nat)
    requires IsInit(s) && Run(s, before, docker).Some? && Run(s, before + after, docker).Some?
    requires var t := Run(s, before, docker).value; i < t.next && i !in t.pool && i !in t.spare
    ensures i !in Run(s, before + after, docker).value.pool
    ensures i !in Run(s, before + after, docker).value.spare
    ensures i < Run(s, before + after, docker).value.next
    decreases |after|
  {
    if after == [] {
      assert before + after == before;
    } else {
      var n := |after| - 1;
      assert (before + after)[..|before + after| - 1] == before + after[..n];
      NoSlotReturns(s, before, after[..n], docker, i);
      assert (before + after)[|before + after| - 1] == after[n];
      NextNeverReturns(Run(s, before + after[..n], docker).value, after[n], docker, i);
    }
  }

  lemma NextNeverReturns(s: State, l: Label, docker: bool, i: nat)
    requires Next(s, l, docker).Some? && i < s.next && i !in s.pool && i !in s.spare
    ensures var s' := Next(s, l, docker).value; i < s'.next && i !in s'.pool && i !in s'.spare
  {
  }

  // ---- when each handle is released at most once ----

  ghost predicate ReleasedOnce(s: State) {
    forall x: nat :: multiset(s.released)[x] <= 1
  }

  /** It is enough that nobody releases more often than it acquired: since no slot is handed out twice, the releases of
      callers that release what they got, once per acquire, are all different. */
  lemma OwnersReleaseOnce(s: State, labels: seq<Label>, docker: bool)
    requires IsInit(s) && Run(s, labels, docker).Some?
    requires multiset(Run(s, labels, docker).value.released) <= multiset(Run(s, labels, docker).value.handed)
    ensures ReleasedOnce(Run(s, labels, docker).value)
  {
    RunHandsOutOnce(s, labels, docker);
    var t := Run(s, labels, docker).value;
    forall x: nat ensures multiset(t.released)[x] <= 1 {
      assert Upstream(t, x) <= 1;
    }
  }

  /** In how many places a slot is. */
  function Places(s: State, i: nat): nat {
    multiset(s.pool)[i] + s.taken[i] + (if i in s.inFlight then 1 else 0) + s.destroying[i] + s.spare[i] + s.gone[i]
  }

  /** Goroutines that will put a slot into the pool, and slots that will come back as such. */
  function Out(s: State): nat {
    |s.taken| + |s.inFlight| + |s.destroying| + s.cleared + s.spawning + |s.spare|
  }

  ghost predicate InFlightIsUnreleased(s: State) {
    forall i :: i in s.inFlight <==> i in s.handed && i !in s.released
  }

  ghost predicate OnePlaceEach(s: State) {
    forall i: nat :: Places(s, i) <= if i < s.next then 1 else 0
  }

  ghost predicate Counted(s: State) {
    && |s.pool| + Out(s) + s.failed + s.closed == s.warm <= s.capacity
    && (!s.closing ==> s.closed == 0)
  }

  ghost predicate Inv(s: State) {
    HandsOutOnce(s) && InFlightIsUnreleased(s) && OnePlaceEach(s) && Counted(s)
  }

  lemma ReleasedNow(s: State, l: Label, docker: bool)
    requires Next(s, l, docker).Some? && ReleasedOnce(Next(s, l, docker).value)
    ensures ReleasedOnce(s)
    ensures l.Release? ==> l.i !in s.released
  {
    var s' := Next(s, l, docker).value;
    forall x ensures multiset(s.released)[x] <= 1 {
      assert multiset(s'.released)[x] <= 1;
    }
    if l.Release? {
      assert multiset(s'.released)[l.i] == multiset(s.released)[l.i] + 1;
      assert multiset(s.released)[l.i] == 0;
    }
  }

  lemma NextKeepsInFlight(s: State, l: Label, docker: bool)
    requires HandsOutOnce(s) && InFlightIsUnreleased(s) && Next(s, l, docker).Some?
    requires forall i | i in s.released :: i in s.handed
    ensures InFlightIsUnreleased(Next(s, l, docker).value)
    ensures forall i | i in Next(s, l, docker).value.released :: i in Next(s, l, docker).value.handed
  {
    if l.Register? {
      assert Upstream(s, l.i) <= 1;
      assert l.i !in multiset(s.handed);
    }
  }

  /** A handle is registered before it exists, and released while it is in flight. */
  predicate InFlightFits(s: State, l: Label) {
    (l.Register? ==> l.i !in s.inFlight) && (l.Release? ==> l.i in s.inFlight)
  }

  lemma StepFits(s: State, l: Label, docker: bool)
    requires OnePlaceEach(s) && InFlightIsUnreleased(s)
    requires Next(s, l, docker).Some? && (l.Release? ==> l.i !in s.released)
    ensures InFlightFits(s, l)
  {
    if l.Register? {
      assert Places(s, l.i) <= 1;
    }
  }

  /** A slot only ever moves from one place to the next, and new ones are spawned. */
  lemma PlacesMove(s: State, l: Label, docker: bool, i: nat)
    requires Next(s, l, docker).Some? && InFlightFits(s, l)
    ensures Places(Next(s, l, docker).value, i) == Places(s, i) + if l.Spawn? && i == s.next then 1 else 0
  {
    if l.Take? || l.Drain? {
      HeadMoves(s, l, docker, i);
    } else if l.Release? || l.Register? {
      HandleMoves(s, l, docker, i);
    } else if l.MkdirFails? || l.Destroy? || l.Drop? {
      DoomedMoves(s, l, docker, i);
    }
  }

  lemma DoomedMoves(s: State, l: Label, docker: bool, i: nat)
    requires l.MkdirFails? || l.Destroy? || l.Drop?
    requires Next(s, l, docker).Some?
    ensures Places(Next(s, l, docker).value, i) == Places(s, i)
  {
  }

  lemma HandleMoves(s: State, l: Label, docker: bool, i: nat)
    requires l.Release? || l.Register?
    requires Next(s, l, docker).Some? && InFlightFits(s, l)
    ensures Places(Next(s, l, docker).value, i) == Places(s, i)
  {
  }

  lemma HeadMoves(s: State, l: Label, docker: bool, i: nat)
    requires l.Take? || l.Drain?
    requires Next(s, l, docker).Some?
    ensures Places(Next(s, l, docker).value, i) == Places(s, i)
  {
    HeadApart(s.pool);
  }

  lemma NextKeepsPlaces(s: State, l: Label, docker: bool)
    requires OnePlaceEach(s) && Next(s, l, docker).Some? && InFlightFits(s, l)
    ensures OnePlaceEach(Next(s, l, docker).value)
  {
    var s' := Next(s, l, docker).value;
    assert s'.next == s.next + if l.Spawn? || l.SpawnFails? then 1 else 0;
    hide Places, Next;
    forall i: nat ensures Places(s', i) <= if i < s'.next then 1 else 0 {
      PlacesMove(s, l, docker, i);
      assert Places(s, i) <= if i < s.next then 1 else 0;
    }
  }

  lemma NextKeepsCount(s: State, l: Label, docker: bool)
    requires Counted(s) && Next(s, l, docker).Some? && InFlightFits(s, l)
    ensures Counted(Next(s, l, docker).value)
  {
  }

  lemma {:induction false} RunKeepsInv(s: State, labels: seq<Label>, docker: bool)
    requires IsInit(s) && Run(s, labels, docker).Some? && ReleasedOnce(Run(s, labels, docker).value)
    ensures Inv(Run(s, labels, docker).value)
    ensures forall i | i in Run(s, labels, docker).value.released :: i in Run(s, labels, docker).value.handed
  {
    if labels == [] {
      InitHandsOutOnce(s);
      forall i: nat ensures Places(s, i) <= if i < s.next then 1 else 0 {
        assert Upstream(s, i) == Places(s, i);
      }
    } else {
      var front, l := labels[..|labels| - 1], labels[|labels| - 1];
      var t := Run(s, front, docker).value;
      ReleasedNow(t, l, docker);
      RunKeepsInv(s, front, docker);
      NextHandsOutOnce(t, l, docker);
      NextKeepsInFlight(t, l, docker);
      StepFits(t, l, docker);
      NextKeepsPlaces(t, l, docker);
      NextKeepsCount(t, l, docker);
    }
  }

  /** The slots that were warmed or spawned. */
  function Born(s: State, labels: seq<Label>, docker: bool): set<nat>
    requires Run(s, labels, docker).Some?
  {
    if labels == [] then set i | i in s.pool
    else
      var front, l := labels[..|labels| - 1], labels[|labels| - 1];
      Born(s, front, docker) + if l.Spawn? then {Run(s, front, docker).value.next} else {}
  }

  lemma {:induction false} BornArePlaced(s: State, labels: seq<Label>, docker: bool, i: nat)
    requires IsInit(s) && Run(s, labels, docker).Some? && ReleasedOnce(Run(s, labels, docker).value)
    ensures Places(Run(s, labels, docker).value, i) == if i in Born(s, labels, docker) then 1 else 0
  {
    if labels == [] {
      DistinctCounts(s.pool);
      assert multiset(s.pool)[i] <= 1 && (i in s.pool <==> i in multiset(s.pool));
    } else {
      var front, l := labels[..|labels| - 1], labels[|labels| - 1];
      var t := Run(s, front, docker).value;
      ReleasedNow(t, l, docker);
      RunKeepsInv(s, front, docker);
      StepFits(t, l, docker);
      BornArePlaced(s, front, docker, i);
      PlacesMove(t, l, docker, i);
      assert i >= t.next ==> Places(t, i) == 0;
    }
  }

  /** Each slot ever warmed or spawned is in exactly one place; what is in the pool, away, failed or given up adds up to
      what was warmed; so until Close the pool plus what is away is the warm count minus the failed refills. */
  lemma SlotsAreConserved(s: State, labels: seq<Label>, docker: bool)
    requires IsInit(s) && Run(s, labels, docker).Some? && ReleasedOnce(Run(s, labels, docker).value)
    ensures var t := Run(s, labels, docker).value;
            && (forall i: nat :: Places(t, i) == if i in Born(s, labels, docker) then 1 else 0)
            && t.warm == |s.pool| && t.capacity == s.capacity
            && |t.pool| + Out(t) + t.failed + t.closed == |s.pool| <= t.capacity
            && (!t.closing ==> |t.pool| + Out(t) == |s.pool| - t.failed)
  {
    RunKeepsInv(s, labels, docker);
    WarmIsFixed(s, labels, docker);
    var t := Run(s, labels, docker).value;
    forall i: nat ensures Places(t, i) == if i in Born(s, labels, docker) then 1 else 0 {
      BornArePlaced(s, labels, docker, i);
    }
    hide Places, Born, Run;
  }

  lemma {:induction false} WarmIsFixed(s: State, labels: seq<Label>, docker: bool)
    requires Run(s, labels, docker).Some?
    ensures Run(s, labels, docker).value.warm == s.warm && Run(s, labels, docker).value.capacity == s.capacity
  {
    if labels != [] {
      WarmIsFixed(s, labels[..|labels| - 1], docker);
    }
  }

  /** Slots that exist: everywhere but gone. */
  function Existing(s: State): nat {
    |s.pool| + |s.taken| + |s.inFlight| + |s.destroying| + |s.spare|
  }

  ghost predicate Balanced(s: State, docker: bool) {
    && s.spawned == Existing(s) + |s.gone| + (if docker then 0 else s.failed)
    && |s.gone| >= s.destroyed
    && (!s.closing ==> |s.gone| == s.destroyed)
  }

  lemma NextKeepsBalance(s: State, l: Label, docker: bool)
    requires Balanced(s, docker) && Next(s, l, docker).Some? && InFlightFits(s, l)
    ensures Balanced(Next(s, l, docker).value, docker)
  {
  }

  /** The published counters: spawned less destroyed is what exists, apart from slots given up on Close and, in the
      memory driver, from spawns that failed. */
  lemma {:induction false} CountersBalance(s: State, labels: seq<Label>, docker: bool)
    requires IsInit(s) && Run(s, labels, docker).Some? && ReleasedOnce(Run(s, labels, docker).value)
    ensures Balanced(Run(s, labels, docker).value, docker)
  {
    if labels != [] {
      var front, l := labels[..|labels| - 1], labels[|labels| - 1];
      var t := Run(s, front, docker).value;
      ReleasedNow(t, l, docker);
      CountersBalance(s, front, docker);
      RunKeepsInv(s, front, docker);
      StepFits(t, l, docker);
      NextKeepsBalance(t, l, docker);
    }
  }

  /** A refill never blocks: whenever a new slot waits to be pushed, the pool has room for it. */
  lemma RefillNeverBlocks(s: State, labels: seq<Label>, docker: bool, i: nat)
    requires IsInit(s) && Run(s, labels, docker).Some? && ReleasedOnce(Run(s, labels, docker).value)
    requires i in Run(s, labels, docker).value.spare
    ensures Run(s, labels + [Push(i)], docker).Some?
  {
    RunKeepsInv(s, labels, docker);
    assert (labels + [Push(i)])[..|labels|] == labels;
    assert |Run(s, labels, docker).value.spare| >= 1;
  }

  /** With a handle released twice it can: here the second refill waits on a full pool, and slots outnumber the capacity. */
  lemma DoubleReleaseBlocksRefill(docker: bool) returns (labels: seq<Label>)
    ensures var s := Init(1, [0], 1, 1);
            && IsInit(s) && Run(s, labels, docker).Some?
            && var t := Run(s, labels, docker).value;
            && !t.closing && t.spare == multiset{2} && Next(t, Push(2), docker) == None
            && |t.pool| + Out(t) == 2 > t.capacity
  {
    var s := Init(1, [0], 1, 1);
    assert IsInit(s);
    hide IsInit;
    labels := [];
    labels := After(s, labels, Enter, docker);
    labels := After(s, labels, Take, docker);
    labels := After(s, labels, Register(0), docker);
    labels := After(s, labels, Release(0), docker);
    labels := After(s, labels, Release(0), docker);
    labels := After(s, labels, Destroy(0), docker);
    labels := After(s, labels, Destroy(0), docker);
    labels := After(s, labels, LookClosing, docker);
    labels := After(s, labels, LookClosing, docker);
    labels := After(s, labels, Spawn, docker);
    labels := After(s, labels, Spawn, docker);
    labels := After(s, labels, Push(1), docker);
  }

  lemma After(s: State, labels: seq<Label>, l: Label, docker: bool) returns (longer: seq<Label>)
    requires Run(s, labels, docker).Some?
    ensures longer == labels + [l]
    ensures Run(s, longer, docker) == Next(Run(s, labels, docker).value, l, docker)
  {
    longer := labels + [l];
    assert longer[..|labels|] == labels;
  }

  // ---- the code ----

  /** A schedule continued from a state. */
  function Follow(s: State, labels: seq<Label>, docker: bool): Option<State>
    decreases |labels|
  {
    if labels == [] then Some(s)
    else
      match Next(s, labels[0], docker)
      case None => None
      case Some(t) => Follow(t, labels[1..], docker)
  }

  lemma {:induction false} FollowIsRun(s: State, before: seq<Label>, labels: seq<Label>, docker: bool)
    requires Run(s, before, docker).Some?
    ensures Run(s, before + labels, docker) == Follow(Run(s, before, docker).value, labels, docker)
    decreases |labels|
  {
    hide Next;
    if labels == [] {
      assert before + labels == before;
    } else {
      var longer := After(s, before, labels[0], docker);
      assert before + labels == longer + labels[1..];
      if Run(s, longer, docker).Some? {
        FollowIsRun(s, longer, labels[1..], docker);
        assert labels == [labels[0]] + labels[1..];
      } else {
        StuckStays(s, longer, labels[1..], docker);
      }
    }
  }

  lemma {:induction false} StuckStays(s: State, before: seq<Label>, labels: seq<Label>, docker: bool)
    requires Run(s, before, docker) == None
    ensures Run(s, before + labels, docker) == None
    decreases |labels|
  {
    if labels == [] {
      assert before + labels == before;
    } else {
      var n := |labels| - 1;
      assert (before + labels)[..|before + labels| - 1] == before + labels[..n];
      StuckStays(s, before, labels[..n], docker);
    }
  }

  lemma FollowOne(s: State, a: Label, rest: seq<Label>, docker: bool)
    ensures Follow(s, [a] + rest, docker) ==
            match Next(s, a, docker) case None => None case Some(t) => Follow(t, rest, docker)
  {
    assert ([a] + rest)[1..] == rest;
  }

  // ---- what Stats reports ----

  /** Whether a step puts a slot into the pool, or takes one out. */
  function PoolChange(l: Label): int {
    if l.Push? then 1 else if l.Take? || l.Drain? then -1 else 0
  }

  function PoolChanges(labels: seq<Label>): int {
    if labels == [] then 0 else PoolChange(labels[0]) + PoolChanges(labels[1..])
  }

  function Releases(labels: seq<Label>): nat {
    if labels == [] then 0 else (if labels[0].Release? then 1 else 0) + Releases(labels[1..])
  }

  lemma {:induction false} PoolGrows(s: State, labels: seq<Label>, docker: bool)
    requires Follow(s, labels, docker).Some?
    ensures var t := Follow(s, labels, docker).value;
            && |t.pool| == |s.pool| + PoolChanges(labels)
            && t.capacity == s.capacity
            && |s.inFlight| <= |t.inFlight| + Releases(labels)
    decreases |labels|
  {
    if labels != [] {
      var t := Next(s, labels[0], docker).value;
      StepCounts(s, labels[0], docker);
      PoolGrows(t, labels[1..], docker);
    }
  }

  lemma StepCounts(s: State, l: Label, docker: bool)
    requires Next(s, l, docker).Some?
    ensures var t := Next(s, l, docker).value;
            && |t.pool| == |s.pool| + PoolChange(l)
            && t.capacity == s.capacity
            && |s.inFlight| <= |t.inFlight| + if l.Release? then 1 else 0
  {
    if l.Register? {
      assert s.inFlight <= s.inFlight + {l.i};
      SubsetIsNoLarger(s.inFlight, s.inFlight + {l.i});
    }
  }

  lemma {:induction false} SubsetIsNoLarger(a: set<nat>, b: set<nat>)
    requires a <= b
    ensures |a| <= |b|
  {
    assert b == a + (b - a);
  }

  /** Stats reads the slots in flight first and the pool later, so what it reports need not fit the pool size: it exceeds
      it by at most the releases in between. */
  lemma StatsBound(s: State, before: seq<Label>, between: seq<Label>, docker: bool)
    requires IsInit(s) && Run(s, before, docker).Some? && Run(s, before + between, docker).Some?
    requires ReleasedOnce(Run(s, before + between, docker).value)
    ensures |Run(s, before, docker).value.inFlight| + |Run(s, before + between, docker).value.pool| <= s.capacity + Releases(between)
  {
    FollowIsRun(s, before, between, docker);
    PoolGrows(Run(s, before, docker).value, between, docker);
    RunKeepsInv(s, before + between, docker);
    WarmIsFixed(s, before + between, docker);
    hide Run, Follow, Places, ReleasedOnce;
  }

  /** And it can exceed it: a slot counted in flight is released, and its refill is counted in the pool. */
  lemma StatsCanOverstate(docker: bool) returns (before: seq<Label>, between: seq<Label>)
    ensures var s := Init(1, [0], 1, 1);
            && IsInit(s) && Run(s, before, docker).Some? && Run(s, before + between, docker).Some?
            && ReleasedOnce(Run(s, before + between, docker).value)
            && |Run(s, before, docker).value.inFlight| + |Run(s, before + between, docker).value.pool| == 2 > s.capacity
  {
    hide *;
    var s := Init(1, [0], 1, 1);
    before := SlotIsTaken(docker);
    between := [Release(0), Destroy(0), LookClosing, Spawn, Push(1)];
    var all := RefillOverstates(s, before, docker);
    assert all == before + between;
  }

  lemma SlotIsTaken(docker: bool) returns (before: seq<Label>)
    ensures var s := Init(1, [0], 1, 1);
            && IsInit(s) && s.capacity == 1 && Run(s, before, docker).Some?
            && var t := Run(s, before, docker).value;
               t.inFlight == {0} && t.handed == [0] && t.pool == [] && t.capacity == 1 && !t.closing && t.released == [] && t.next == 1
  {
    var s := Init(1, [0], 1, 1);
    before := After(s, [], Enter, docker);
    before := After(s, before, Take, docker);
    before := After(s, before, Register(0), docker);
  }

  /** The second half of that schedule. */
  lemma RefillOverstates(s: State, before: seq<Label>, docker: bool) returns (all: seq<Label>)
    requires Run(s, before, docker).Some?
    requires var t := Run(s, before, docker).value;
             t.handed == [0] && t.pool == [] && t.capacity == 1 && !t.closing && t.released == [] && t.next == 1
    ensures all == before + [Release(0)] + [Destroy(0)] + [LookClosing] + [Spawn] + [Push(1)]
    ensures Run(s, all, docker).Some? && Run(s, all, docker).value.pool == [1] && ReleasedOnce(Run(s, all, docker).value)
  {
    all := After(s, before, Release(0), docker);
    all := After(s, all, Destroy(0), docker);
    all := After(s, all, LookClosing, docker);
    all := After(s, all, Spawn, docker);
    all := After(s, all, Push(1), docker);
    assert Run(s, all, docker).value.released == [0];
    hide Run;
  }

  datatype AcquireResult = Acquired(slot: nat) | EmptyRunId | Closing | TimedOut | MkdirFailed

  datatype Stats = Stats(poolSize: nat, poolReady: nat, inFlight: nat, spawnCount: nat, destroyCount: nat)

  /** The driver. `model` is the protocol state it is in, which also says where the goroutines stand. */
  class Driver {
    const poolSize: nat
    const docker: bool
    var pool: seq<nat>
    var inFlight: map<nat, string>
    var closing: bool
    var ids: nat
    var spawnCount: nat
    var destroyCount: nat
    var model: State

    ghost predicate Valid()
      reads this
    {
      && poolSize == model.capacity && pool == model.pool && inFlight.Keys == model.inFlight && closing == model.closing
      && ids == model.next && spawnCount == model.spawned && destroyCount == model.destroyed
    }

    /** `warmed` are the warm-up spawns that succeeded. */
    constructor (poolSize: nat, docker: bool, warmed: seq<nat>)
      requires Distinct(warmed, poolSize) && |warmed| <= poolSize && (!docker ==> |warmed| == poolSize)
      ensures Valid() && IsInit(model) && model.pool == warmed && model.capacity == this.poolSize == poolSize
      ensures this.docker == docker
    {
      this.poolSize, this.docker := poolSize, docker;
      pool, inFlight, closing, ids := warmed, map[], false, poolSize;
      spawnCount, destroyCount := |warmed|, 0;
      model := Init(poolSize, warmed, poolSize, |warmed|);
    }

    /** With nobody to refill it, the wait on an empty pool ends with the caller's context. */
    method Acquire(runId: string, mkdirOk: bool) returns (r: AcquireResult)
      requires Valid()
      modifies this
      ensures Valid()
      ensures r == if runId == "" then EmptyRunId
                   else if old(closing) then Closing
                   else if old(pool) == [] then TimedOut
                   else if mkdirOk then Acquired(old(pool)[0]) else MkdirFailed
      ensures Follow(old(model), AcquireSteps(runId, old(closing), old(pool), mkdirOk), docker) == Some(model)
      ensures inFlight == if r.Acquired? then old(inFlight)[r.slot := runId] else old(inFlight)
      ensures pool == if r.Acquired? || r == MkdirFailed then old(pool)[1..] else old(pool)
      ensures r == MkdirFailed ==> old(pool)[0] in model.destroying
    {
      if runId == "" {
        return EmptyRunId;
      }
      if closing {
        return Closing;
      }
      var steps := AcquireSteps(runId, closing, pool, mkdirOk);
      if pool == [] {
        TwoSteps(model, Enter, Leave, docker);
        model := Follow(model, steps, docker).value;
        return TimedOut;
      }
      var slot := pool[0];
      ThreeSteps(model, Enter, Take, steps[2], docker);
      model := Follow(model, steps, docker).value;
      pool := pool[1..];
      if !mkdirOk {
        return MkdirFailed;
      }
      inFlight := inFlight[slot := runId];
      r := Acquired(slot);
    }

    method Release(slot: nat)
      requires Valid() && slot in model.handed
      modifies this
      ensures Valid()
      ensures Next(old(model), Label.Release(slot), docker) == Some(model)
      ensures inFlight == old(inFlight) - {slot} && pool == old(pool) && slot in model.destroying
    {
      inFlight := inFlight - {slot};
      model := Next(model, Label.Release(slot), docker).value;
    }

    /** The goroutine started by a release. The count of slots is what lets it push without waiting. */
    method DestroyAndRefill(slot: nat, spawnOk: bool)
      requires Valid() && slot in model.destroying && Counted(model)
      modifies this
      ensures Valid() && Counted(model)
      ensures Follow(old(model), RefillSteps(slot, old(closing), spawnOk, old(ids)), docker) == Some(model)
      ensures pool == old(pool) + if !old(closing) && spawnOk then [old(ids)] else []
      ensures inFlight == old(inFlight)
      ensures destroyCount == old(destroyCount) + 1
      ensures spawnCount == old(spawnCount) + if old(closing) || (docker && !spawnOk) then 0 else 1
    {
      RefillLeads(model, slot, spawnOk, docker);
      hide Next, Follow, Counted;
      model := Follow(model, RefillSteps(slot, closing, spawnOk, ids), docker).value;
      destroyCount := destroyCount + 1;
      if closing {
        return;
      }
      ids := ids + 1;
      if !docker || spawnOk {
        spawnCount := spawnCount + 1;
      }
      if !spawnOk {
        return;
      }
      pool := pool + [ids - 1];
    }

    /** A step of some other goroutine, if it is possible now; `runId` is for a slot it registers. */
    method Turn(l: Label, runId: string)
      requires Valid()
      modifies this
      ensures Valid()
      ensures model == match Next(old(model), l, docker) case None => old(model) case Some(t) => t
      ensures inFlight == if Next(old(model), l, docker) == None then old(inFlight)
                          else if l.Register? then old(inFlight)[l.i := runId]
                          else if l.Release? then old(inFlight) - {l.i} else old(inFlight)
    {
      var next := Next(model, l, docker);
      if next == None {
        return;
      }
      match l {
        case Take => pool := pool[1..];
        case Drain => pool := pool[1..];
        case Push(i) => pool := pool + [i];
        case Register(i) => inFlight := inFlight[i := runId];
        case Release(i) => inFlight := inFlight - {i};
        case Destroy(_) => destroyCount := destroyCount + 1;
        case Spawn => ids, spawnCount := ids + 1, spawnCount + 1;
        case SpawnFails =>
          ids := ids + 1;
          spawnCount := spawnCount + if docker then 0 else 1;
        case Close => closing := true;
        case _ =>
      }
      model := next.value;
    }

    /** Other goroutines get their turn; what is not possible when it comes up does not happen. */
    method Others(moves: seq<(Label, string)>) returns (ghost done: seq<Label>)
      requires Valid()
      modifies this
      ensures Valid() && Follow(old(model), done, docker) == Some(model)
      ensures moves == [] ==> done == []
    {
      done := [];
      for k := 0 to |moves|
        invariant Valid() && Follow(old(model), done, docker) == Some(model)
        invariant k == 0 ==> done == []
      {
        var l := moves[k].0;
        FollowMore(old(model), done, [l], docker);
        FollowOne(model, l, [], docker);
        assert [l] + [] == [l];
        if Next(model, l, docker).Some? {
          done := done + [l];
        }
        Turn(l, moves[k].1);
      }
    }

    /** Counts the slots in flight, then, after whatever others do in between, the pool. The sum fits the pool size exactly
        if the pool did not grow in between by more than the room there was. */
    method GetStats(moves: seq<(Label, string)>) returns (r: Stats, ghost between: seq<Label>)
      requires Valid()
      modifies this
      ensures Valid() && Follow(old(model), between, docker) == Some(model) && (moves == [] ==> between == [])
      ensures r == Stats(poolSize, |pool|, |old(inFlight)|, spawnCount, destroyCount)
      ensures r.poolReady + r.inFlight <= r.poolSize <==>
              PoolChanges(between) <= poolSize - |old(pool)| - |old(inFlight)|
    {
      var inf := |inFlight|;
      ghost var before := model;
      between := Others(moves);
      PoolGrows(before, between, docker);
      r := Stats(poolSize, |pool|, inf, spawnCount, destroyCount);
    }

    /** Drains the pool and waits for what is in flight, others moving before each look; when `moves` is used up the
        context ends. The memory driver then reports an error if something is still in flight, the Docker one does not.
        `drained` steps in, the pool was seen empty. */
    method Close(moves: seq<seq<(Label, string)>>) returns (ok: bool, ghost steps: seq<Label>, ghost drained: nat)
      requires Valid()
      modifies this
      ensures Valid() && closing
      ensures Follow(old(model), steps, docker) == Some(model)
      ensures drained <= |steps| && Follow(old(model), steps[..drained], docker).Some?
      ensures Follow(old(model), steps[..drained], docker).value.pool == []
      ensures ok <==> docker || inFlight == map[]
      ensures moves == [] ==> steps == CloseSteps(old(pool)) && pool == [] && inFlight == old(inFlight)
    {
      hide Next, Follow;
      ghost var start := model;
      Turn(Label.Close, "");
      steps := [Label.Close];
      CloseHappens(start, docker);
      var k := 0;
      while true
        invariant Valid() && closing && k <= |moves| && Follow(start, steps, docker) == Some(model)
        invariant moves == [] ==> inFlight == old(inFlight) && steps + Drains(pool) == CloseSteps(old(pool))
        decreases |moves| - k, |pool|
      {
        if k < |moves| {
          ghost var was := model;
          ghost var done := Others(moves[k]);
          ClosingStays(was, done, docker);
          FollowMore(start, steps, done, docker);
          steps := steps + done;
          k := k + 1;
        }
        if pool == [] {
          break;
        }
        DrainHappens(start, steps, model, docker);
        assert steps + Drains(pool) == steps + [Drain] + Drains(pool[1..]);
        Turn(Drain, "");
        steps := steps + [Drain];
      }
      drained := |steps|;
      assert steps[..drained] == steps;
      ghost var drain := steps;
      while |inFlight| > 0 && k < |moves|
        invariant Valid() && closing && k <= |moves| && Follow(start, steps, docker) == Some(model)
        invariant drain <= steps && (moves == [] ==> steps == drain && pool == [] && inFlight == old(inFlight))
        decreases |moves| - k
      {
        ghost var was := model;
        ghost var done := Others(moves[k]);
        ClosingStays(was, done, docker);
        FollowMore(start, steps, done, docker);
        steps := steps + done;
        k := k + 1;
      }
      assert steps[..drained] == drain;
      ok := docker || |inFlight| == 0;
    }
  }

  lemma {:induction false} ClosingStays(s: State, labels: seq<Label>, docker: bool)
    requires s.closing && Follow(s, labels, docker).Some?
    ensures Follow(s, labels, docker).value.closing
    decreases |labels|
  {
    if labels != [] {
      ClosingStays(Next(s, labels[0], docker).value, labels[1..], docker);
    }
  }

  lemma CloseHappens(s: State, docker: bool)
    ensures Follow(s, [Label.Close], docker) == Next(s, Label.Close, docker) && Next(s, Label.Close, docker).Some?
    ensures Next(s, Label.Close, docker).value.closing && Next(s, Label.Close, docker).value.pool == s.pool
  {
    FollowOne(s, Label.Close, [], docker);
    assert [Label.Close] + [] == [Label.Close];
  }

  lemma DrainHappens(start: State, steps: seq<Label>, s: State, docker: bool)
    requires Follow(start, steps, docker) == Some(s) && s.closing && s.pool != []
    ensures Next(s, Drain, docker).Some? && Follow(start, steps + [Drain], docker) == Next(s, Drain, docker)
    ensures var t := Next(s, Drain, docker).value; t.closing && t.pool == s.pool[1..]
  {
    FollowMore(start, steps, [Drain], docker);
    FollowOne(s, Drain, [], docker);
    assert [Drain] + [] == [Drain];
  }
  function Drains(pool: seq<nat>): seq<Label> {
    if pool == [] then [] else [Drain] + Drains(pool[1..])
  }

  function CloseSteps(pool: seq<nat>): seq<Label> {
    [Label.Close] + Drains(pool)
  }

  /** The steps of an Acquire that nothing interrupts; `Leave` is a wait that ends with its context. */
  function AcquireSteps(runId: string, closing: bool, pool: seq<nat>, mkdirOk: bool): seq<Label> {
    if runId == "" || closing then []
    else if pool == [] then [Enter, Leave]
    else [Enter, Take, if mkdirOk then Register(pool[0]) else MkdirFails(pool[0])]
  }

  function RefillSteps(slot: nat, closing: bool, spawnOk: bool, id: nat): seq<Label> {
    [Destroy(slot), LookClosing] + if closing then [] else if spawnOk then [Spawn, Push(id)] else [SpawnFails]
  }

  /** Where an undisturbed destroy-and-refill leads. */
  lemma RefillLeads(s: State, slot: nat, spawnOk: bool, docker: bool)
    requires slot in s.destroying && Counted(s)
    ensures var r := Follow(s, RefillSteps(slot, s.closing, spawnOk, s.next), docker);
            && r.Some? && Counted(r.value)
            && r.value.pool == s.pool + (if !s.closing && spawnOk then [s.next] else [])
            && r.value.inFlight == s.inFlight && r.value.closing == s.closing && r.value.capacity == s.capacity
            && r.value.next == s.next + (if s.closing then 0 else 1)
            && r.value.spawned == s.spawned + (if s.closing || (docker && !spawnOk) then 0 else 1)
            && r.value.destroyed == s.destroyed + 1
  {
    hide Follow;
    TwoSteps(s, Destroy(slot), LookClosing, docker);
    var looked := Follow(s, [Destroy(slot), LookClosing], docker).value;
    if s.closing {
      assert RefillSteps(slot, s.closing, spawnOk, s.next) == [Destroy(slot), LookClosing];
    } else {
      var more := if spawnOk then [Spawn, Push(s.next)] else [SpawnFails];
      FollowMore(s, [Destroy(slot), LookClosing], more, docker);
      SpawnLeads(looked, spawnOk, docker);
      hide Next, Counted;
    }
  }

  lemma SpawnLeads(s: State, spawnOk: bool, docker: bool)
    requires s.spawning > 0 && Counted(s)
    ensures var r := Follow(s, if spawnOk then [Spawn, Push(s.next)] else [SpawnFails], docker);
            && r.Some? && Counted(r.value)
            && r.value.pool == s.pool + (if spawnOk then [s.next] else [])
            && r.value.inFlight == s.inFlight && r.value.closing == s.closing && r.value.capacity == s.capacity
            && r.value.next == s.next + 1 && r.value.destroyed == s.destroyed
            && r.value.spawned == s.spawned + (if docker && !spawnOk then 0 else 1)
  {
    if spawnOk {
      TwoSteps(s, Spawn, Push(s.next), docker);
    } else {
      FollowOne(s, SpawnFails, [], docker);
      assert [SpawnFails] + [] == [SpawnFails];
    }
  }

  lemma TwoSteps(s: State, a: Label, b: Label, docker: bool)
    requires Next(s, a, docker).Some?
    ensures Follow(s, [a, b], docker) == Next(Next(s, a, docker).value, b, docker)
  {
    assert [a, b] == [a] + ([b] + []);
    FollowOne(s, a, [b] + [], docker);
    FollowOne(Next(s, a, docker).value, b, [], docker);
  }

  lemma ThreeSteps(s: State, a: Label, b: Label, c: Label, docker: bool)
    requires Next(s, a, docker).Some? && Next(Next(s, a, docker).value, b, docker).Some?
    ensures Follow(s, [a, b, c], docker) == Next(Next(Next(s, a, docker).value, b, docker).value, c, docker)
  {
    assert [a, b, c] == [a] + [b, c];
    FollowOne(s, a, [b, c], docker);
    TwoSteps(Next(s, a, docker).value, b, c, docker);
  }

  lemma {:induction false} FollowMore(s: State, labels: seq<Label>, more: seq<Label>, docker: bool)
    ensures Follow(s, labels + more, docker) ==
            match Follow(s, labels, docker) case None => None case Some(t) => Follow(t, more, docker)
    decreases |labels|
  {
    if labels == [] {
      assert labels + more == more;
    } else {
      assert labels + more == [labels[0]] + (labels[1..] + more);
      FollowOne(s, labels[0], labels[1..] + more, docker);
      match Next(s, labels[0], docker)
      case None =>
      case Some(t) => FollowMore(t, labels[1..], more, docker);
    }
  }

  // ---- the tool runner ----

  datatype ToolResult = Failure | Result(content: string, isError: bool, errorCode: string, errorMsg: string)

  datatype PreHook = PreBroke | Denies(reason: string) | Allows
  datatype PostHook = PostBroke | Keeps | Patches(content: string, isError: bool)

  /** How a tool call goes once it has its sandbox: the hook before it, what it returns if it does not break, the hook
      after it. */
  datatype Course = Course(pre: PreHook, returned: Option<(string, bool)>, post: PostHook)

  /** The sandbox is acquired at most once, on every path back it is released, and the first thing to go wrong decides
      the result. */
  method ExecuteInWorkspace(d: Driver, known: bool, toolName: string, workspaceId: string, mkdirOk: bool, course: Course)
    returns (r: ToolResult)
    requires d.Valid()
    modifies d
    ensures d.Valid()
    ensures var unknown := "unknown tool: " + toolName;
            !known ==> r == Result(unknown, true, "tool_not_found", unknown) && d.model == old(d.model)
    ensures var acquires := workspaceId != "" && !old(d.closing) && old(d.pool) != [] && mkdirOk;
            known ==>
              var steps := AcquireSteps(workspaceId, old(d.closing), old(d.pool), mkdirOk);
              if !acquires then
                && r == Failure && Follow(old(d.model), steps, d.docker) == Some(d.model)
                && d.model.handed == old(d.model.handed) && d.model.released == old(d.model.released)
              else
                && Follow(old(d.model), steps + [Release(old(d.pool)[0])], d.docker) == Some(d.model)
                && d.model.handed == old(d.model.handed) + [old(d.pool)[0]]
                && d.model.released == old(d.model.released) + [old(d.pool)[0]]
                && (course.pre.Denies? ==> r == Result(course.pre.reason, true, "hook_denied", course.pre.reason))
                && (course.pre.PreBroke? || (course.pre.Allows? && (course.returned == None || course.post.PostBroke?)) ==>
                      r == Failure)
                && (course.pre.Allows? && course.returned.Some? && course.post.Patches? ==>
                      r == Result(course.post.content, course.post.isError, "", ""))
                && (course.pre.Allows? && course.returned.Some? && course.post.Keeps? ==>
                      r == Result(course.returned.value.0, course.returned.value.1, "", ""))
  {
    if !known {
      return Result("unknown tool: " + toolName, true, "tool_not_found", "unknown tool: " + toolName);
    }
    ghost var start, steps := d.model, AcquireSteps(workspaceId, d.closing, d.pool, mkdirOk);
    AcquireHands(start, workspaceId, mkdirOk, d.docker);
    var got := d.Acquire(workspaceId, mkdirOk);
    if !got.Acquired? {
      return Failure;
    }
    ReleaseFollows(start, steps, d.model, got.slot, d.docker);
    hide Next, Follow;
    if course.pre.PreBroke? {
      d.Release(got.slot);
      return Failure;
    }
    if course.pre.Denies? {
      d.Release(got.slot);
      return Result(course.pre.reason, true, "hook_denied", course.pre.reason);
    }
    if course.returned == None {
      d.Release(got.slot);
      return Failure;
    }
    if course.post.PostBroke? {
      d.Release(got.slot);
      return Failure;
    }
    var (content, isError) := course.returned.value;
    if course.post.Patches? {
      content, isError := course.post.content, course.post.isError;
    }
    d.Release(got.slot);
    return Result(content, isError, "", "");
  }

  lemma ReleaseFollows(start: State, steps: seq<Label>, s: State, slot: nat, docker: bool)
    requires Follow(start, steps, docker) == Some(s) && slot in s.handed
    ensures Follow(start, steps + [Label.Release(slot)], docker) == Next(s, Label.Release(slot), docker)
    ensures Next(s, Label.Release(slot), docker).Some?
    ensures var t := Next(s, Label.Release(slot), docker).value; t.handed == s.handed && t.released == s.released + [slot]
  {
    FollowMore(start, steps, [Label.Release(slot)], docker);
    FollowOne(s, Label.Release(slot), [], docker);
    assert [Label.Release(slot)] + [] == [Label.Release(slot)];
  }

  /** What an undisturbed Acquire does to the lists of handles. */
  lemma AcquireHands(s: State, runId: string, mkdirOk: bool, docker: bool)
    ensures var steps := AcquireSteps(runId, s.closing, s.pool, mkdirOk);
            var r := Follow(s, steps, docker);
            && r.Some?
            && r.value.released == s.released
            && r.value.handed == s.handed + if runId != "" && !s.closing && s.pool != [] && mkdirOk then [s.pool[0]] else []
  {
    if runId != "" && !s.closing {
      if s.pool == [] {
        TwoSteps(s, Enter, Leave, docker);
      } else {
        ThreeSteps(s, Enter, Take, if mkdirOk then Register(s.pool[0]) else MkdirFails(s.pool[0]), docker);
      }
    }
  }
}
