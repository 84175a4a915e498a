/** Step graphs of a pipeline: what a topological order and a cycle are, and how they exclude each other. */
module PipelineGraph {
  import opened Strings

  datatype Step = Step(id: string, role: string, task: string, dependsOn: seq<string>)
  datatype Pipeline = Pipeline(name: string, steps: seq<Step>)

  function Ids(steps: seq<Step>): set<string> {
    set st | st in steps :: st.id
  }

  ghost predicate UniqueIds(steps: seq<Step>) {
    forall i, j | 0 <= i < j < |steps| :: steps[i].id != steps[j].id
  }

  /** Every dependency names a step. */
  ghost predicate Resolvable(steps: seq<Step>) {
    forall st, d | st in steps && d in st.dependsOn :: d in Ids(steps)
  }

  ghost predicate DependsOn(steps: seq<Step>, a: string, b: string) {
    exists st :: st in steps && st.id == a && b in st.dependsOn
  }

  /** A closed walk: each id depends on the next one, and the last is the first again. */
  ghost predicate IsCycle(steps: seq<Step>, c: seq<string>) {
    && |c| >= 2
    && c[0] == c[|c| - 1]
    && forall i | 0 <= i < |c| - 1 :: DependsOn(steps, c[i], c[i + 1])
  }

  ghost predicate Acyclic(steps: seq<Step>) {
    !exists c :: IsCycle(steps, c)
  }

  /** A permutation of the steps, with unambiguous ids, in which every step comes after all it depends on. */
  ghost predicate IsTopologicalOrder(steps: seq<Step>, out: seq<Step>) {
    && multiset(out) == multiset(steps)
    && UniqueIds(out)
    && forall i, d | 0 <= i < |out| && d in out[i].dependsOn :: d in Ids(out[..i])
  }

  /** `a` comes before `b`, comparing the id sequences lexicographically. */
  ghost predicate LexBefore(a: seq<Step>, b: seq<Step>) {
    exists k | 0 <= k < |a| && k < |b| :: a[..k] == b[..k] && Less(a[k].id, b[k].id)
  }

  ghost predicate IsLeastOrder(steps: seq<Step>, out: seq<Step>) {
    && IsTopologicalOrder(steps, out)
    && forall q | IsTopologicalOrder(steps, q) && q != out :: LexBefore(out, q)
  }

  /** Some dependency of the step is not in `done`. */
  ghost predicate Waits(st: Step, done: set<string>) {
    exists d :: d in st.dependsOn && d !in done
  }

  /** Among the steps whose dependencies are all in `done`, none left out of `done` has a smaller id. */
  ghost predicate LeastAvailable(steps: seq<Step>, done: set<string>, id: string) {
    forall st | st in steps && st.id !in done && !Waits(st, done) :: !Less(st.id, id)
  }

  ghost predicate Greedy(steps: seq<Step>, out: seq<Step>) {
    forall i | 0 <= i < |out| :: LeastAvailable(steps, Ids(out[..i]), out[i].id)
  }

  // ---- permutations of steps ----

  lemma SameMultisetSameMembers<T>(a: seq<T>, b: seq<T>)
    requires multiset(a) == multiset(b)
    ensures |a| == |b|
    ensures forall x :: x in a <==> x in b
  {
    assert |a| == |multiset(a)| == |multiset(b)| == |b|;
    assert forall x :: x in a <==> x in multiset(a);
    assert forall x :: x in b <==> x in multiset(b);
  }

  lemma IdsAppend(s: seq<Step>, st: Step)
    ensures Ids(s + [st]) == Ids(s) + {st.id}
  {
  }

  lemma {:induction false} IdsCount(steps: seq<Step>)
    ensures |Ids(steps)| <= |steps|
    ensures |Ids(steps)| == |steps| <==> UniqueIds(steps)
  {
    if steps == [] {
      assert Ids(steps) == {};
    } else {
      var n := |steps| - 1;
      var front, last := steps[..n], steps[n];
      assert steps == front + [last];
      IdsCount(front);
      IdsAppend(front, last);
      if last.id in Ids(front) {
        var i :| 0 <= i < n && front[i].id == last.id;
        assert steps[i].id == steps[n].id;
        assert Ids(steps) == Ids(front);
      } else {
        assert |Ids(steps)| == |Ids(front)| + 1;
        if UniqueIds(front) {
          forall i, j | 0 <= i < j < |steps| ensures steps[i].id != steps[j].id {
            if j == n { assert front[i].id in Ids(front); } else { assert front[i].id != front[j].id; }
          }
        } else {
          var i, j :| 0 <= i < j < |front| && front[i].id == front[j].id;
          assert steps[i].id == steps[j].id;
        }
      }
    }
  }

  /** Unique ids survive permutation. */
  lemma UniqueIdsPermutation(a: seq<Step>, b: seq<Step>)
    requires multiset(a) == multiset(b) && UniqueIds(a)
    ensures UniqueIds(b)
  {
    SameMultisetSameMembers(a, b);
    assert Ids(a) == Ids(b);
    IdsCount(a);
    IdsCount(b);
  }

  lemma {:induction false} UniqueCountsAtMostOne(s: seq<Step>, x: Step)
    requires UniqueIds(s)
    ensures multiset(s)[x] == if x in s then 1 else 0
  {
    if s != [] {
      var n := |s| - 1;
      assert s == s[..n] + [s[n]];
      UniqueCountsAtMostOne(s[..n], x);
    }
  }

  /** As many distinct steps as there are steps: a permutation. */
  lemma FullSelectionIsPermutation(steps: seq<Step>, out: seq<Step>)
    requires UniqueIds(out) && |out| == |steps|
    requires forall st | st in out :: st in steps
    ensures UniqueIds(steps)
    ensures multiset(out) == multiset(steps)
  {
    IdsCount(out);
    IdsCount(steps);
    assert Ids(out) <= Ids(steps);
    SubsetSameSize(Ids(out), Ids(steps));
    forall x ensures multiset(out)[x] == multiset(steps)[x] {
      UniqueCountsAtMostOne(out, x);
      UniqueCountsAtMostOne(steps, x);
      if x in steps {
        assert x.id in Ids(out);
        var y :| y in out && y.id == x.id;
        SameIdSameStep(steps, x, y);
      }
    }
  }

  lemma SameIdSameStep(steps: seq<Step>, x: Step, y: Step)
    requires UniqueIds(steps) && x in steps && y in steps && x.id == y.id
    ensures x == y
  {
    var i, j :| 0 <= i < |steps| && 0 <= j < |steps| && steps[i] == x && steps[j] == y;
    assert i == j;
  }

  lemma SubsetSameSize(a: set<string>, b: set<string>)
    requires a <= b && |a| >= |b|
    ensures a == b
  {
    assert b == a + (b - a);
    assert |b| == |a| + |b - a|;
  }

  lemma DifferentStepsDifferentIds(steps: seq<Step>, x: Step, y: Step)
    requires UniqueIds(steps) && x in steps && y in steps && x != y
    ensures x.id != y.id
  {
    var i, j :| 0 <= i < |steps| && 0 <= j < |steps| && steps[i] == x && steps[j] == y;
    assert i != j;
  }

  // ---- orders, cycles and leftovers ----

  /** If some step is left out of `done` and each left-out step waits for one not in `done`, no order exists. */
  lemma StuckBlocksOrder(steps: seq<Step>, done: set<string>, q: seq<Step>)
    requires forall st | st in steps && st.id !in done :: Waits(st, done)
    requires exists st :: st in steps && st.id !in done
    ensures !IsTopologicalOrder(steps, q)
  {
    if IsTopologicalOrder(steps, q) {
      SomeStepIsAvailable(steps, done, q);
    }
  }

  /** In any order, the first step outside `done` has all its dependencies inside. */
  lemma SomeStepIsAvailable(steps: seq<Step>, done: set<string>, q: seq<Step>)
    requires IsTopologicalOrder(steps, q)
    requires exists st :: st in steps && st.id !in done
    ensures exists st :: st in steps && st.id !in done && !Waits(st, done)
  {
    SameMultisetSameMembers(q, steps);
    FirstOutside(q, done);
    var k :| 0 <= k < |q| && q[k].id !in done && Ids(q[..k]) <= done;
    assert q[k] in steps;
  }

  lemma {:induction false} FirstOutside(q: seq<Step>, done: set<string>)
    requires exists st :: st in q && st.id !in done
    ensures exists k | 0 <= k < |q| :: q[k].id !in done && Ids(q[..k]) <= done
  {
    var n := |q| - 1;
    if Ids(q[..n]) <= done {
      assert forall st | st in q[..n] :: st.id in Ids(q[..n]);
      assert q == q[..n] + [q[n]];
      assert q[n].id !in done;
    } else {
      FirstOutside(q[..n], done);
      var k :| 0 <= k < n && q[..n][k].id !in done && Ids(q[..n][..k]) <= done;
      assert q[..n][..k] == q[..k];
    }
  }

  /** The ids on a cycle never become available, so a cycle rules out every order. */
  lemma CycleBlocksOrder(steps: seq<Step>, c: seq<string>, q: seq<Step>)
    requires IsCycle(steps, c)
    ensures !IsTopologicalOrder(steps, q)
  {
    if IsTopologicalOrder(steps, q) {
      var k := PositionAfter(steps, c, q, 0);
      CycleDescends(steps, c, q, |c| - 1);
    }
  }

  /** Position in `q` of the step named by an id that depends on something. */
  lemma PositionAfter(steps: seq<Step>, c: seq<string>, q: seq<Step>, i: nat) returns (k: nat)
    requires IsCycle(steps, c) && IsTopologicalOrder(steps, q) && i < |c| - 1
    ensures k < |q| && q[k].id == c[i] && c[i + 1] in Ids(q[..k])
  {
    SameMultisetSameMembers(q, steps);
    assert DependsOn(steps, c[i], c[i + 1]);
    var st :| st in steps && st.id == c[i] && c[i + 1] in st.dependsOn;
    k :| 0 <= k < |q| && q[k] == st;
  }

  /** Walking `i` edges moves strictly towards the front of the order. */
  lemma {:induction false} CycleDescends(steps: seq<Step>, c: seq<string>, q: seq<Step>, i: nat)
    requires IsCycle(steps, c) && IsTopologicalOrder(steps, q) && 0 < i < |c|
    ensures forall a, b | 0 <= a < |q| && 0 <= b < |q| && q[a].id == c[0] && q[b].id == c[i] :: b < a
  {
    var k := PositionAfter(steps, c, q, i - 1);
    var m :| 0 <= m < k && q[..k][m].id == c[i];
    if i > 1 {
      CycleDescends(steps, c, q, i - 1);
    }
    forall a, b | 0 <= a < |q| && 0 <= b < |q| && q[a].id == c[0] && q[b].id == c[i] ensures b < a {
      assert b == m;
      if i == 1 { assert a == k; } else { assert k < a; }
    }
  }

  ghost predicate WaitsInside(steps: seq<Step>, left: set<string>, a: string) {
    exists b :: b in left && DependsOn(steps, a, b)
  }

  ghost predicate HasCycleIn(steps: seq<Step>, left: set<string>) {
    exists c :: IsCycle(steps, c) && forall x | x in c :: x in left
  }

  ghost predicate IsWalk(steps: seq<Step>, left: set<string>, path: seq<string>) {
    && path != []
    && (forall x | x in path :: x in left)
    && forall i | 0 <= i < |path| - 1 :: DependsOn(steps, path[i], path[i + 1])
  }

  /** Leftover steps that wait only for each other contain a real cycle. */
  lemma LeftoverHasCycle(steps: seq<Step>, left: set<string>)
    requires left != {}
    requires forall a | a in left :: WaitsInside(steps, left, a)
    ensures HasCycleIn(steps, left)
  {
    var start :| start in left;
    FindCycle(steps, left, [start]);
  }

  lemma {:induction false} FindCycle(steps: seq<Step>, left: set<string>, path: seq<string>)
    requires IsWalk(steps, left, path)
    requires forall a | a in left :: WaitsInside(steps, left, a)
    ensures HasCycleIn(steps, left)
    decreases left - set x | x in path
  {
    hide DependsOn, WaitsInside, HasCycleIn;
    var b := NextInside(steps, left, path[|path| - 1]);
    var longer := path + [b];
    ExtendWalk(steps, left, path, b);
    if b in path {
      var j :| 0 <= j < |path| && path[j] == b;
      CloseWalk(steps, left, longer, j);
    } else {
      FreshIdShrinksRest(left, path, b);
      FindCycle(steps, left, longer);
    }
  }

  lemma FreshIdShrinksRest(left: set<string>, path: seq<string>, b: string)
    requires b in left && b !in path
    ensures left - (set x | x in path + [b]) < left - set x | x in path
  {
    assert (path + [b])[|path|] == b;
    assert b in left - set x | x in path;
    assert forall x | x in path :: x in path + [b];
  }

  lemma NextInside(steps: seq<Step>, left: set<string>, a: string) returns (b: string)
    requires WaitsInside(steps, left, a)
    ensures b in left && DependsOn(steps, a, b)
  {
    b :| b in left && DependsOn(steps, a, b);
  }

  lemma ExtendWalk(steps: seq<Step>, left: set<string>, path: seq<string>, b: string)
    requires IsWalk(steps, left, path) && b in left && DependsOn(steps, path[|path| - 1], b)
    ensures IsWalk(steps, left, path + [b])
  {
  }

  lemma CloseWalk(steps: seq<Step>, left: set<string>, path: seq<string>, j: nat)
    requires IsWalk(steps, left, path)
    requires j < |path| - 1 && path[j] == path[|path| - 1]
    ensures HasCycleIn(steps, left)
  {
    var c := path[j..];
    forall i | 0 <= i < |c| - 1 ensures DependsOn(steps, c[i], c[i + 1]) {
      assert DependsOn(steps, path[j + i], path[j + i + 1]);
    }
    assert IsCycle(steps, c);
  }

  // ---- the least order ----

  lemma LeastOrderIsOrder(steps: seq<Step>, order: seq<Step>)
    requires IsLeastOrder(steps, order)
    ensures IsTopologicalOrder(steps, order) && |order| == |steps|
  {
    assert |multiset(order)| == |multiset(steps)|;
  }

  /** Always taking the least available id gives the lexicographically least order. */
  lemma GreedyIsLeast(steps: seq<Step>, out: seq<Step>)
    requires IsTopologicalOrder(steps, out) && Greedy(steps, out)
    ensures IsLeastOrder(steps, out)
  {
    forall q: seq<Step> | IsTopologicalOrder(steps, q) && q != out ensures LexBefore(out, q) {
      SameMultisetSameMembers(q, out);
      SameMultisetSameMembers(q, steps);
      var k := FirstDifference(out, q);
      assert q[k].id !in Ids(q[..k]);
      assert !Less(q[k].id, out[k].id);
      LessTotal(q[k].id, out[k].id);
      DifferentStepsDifferentIds(out, q[k], out[k]);
    }
  }

  lemma {:induction false} FirstDifference<T>(a: seq<T>, b: seq<T>) returns (k: nat)
    requires |a| == |b| && a != b
    ensures k < |a| && a[..k] == b[..k] && a[k] != b[k]
  {
    if a[0] != b[0] {
      k := 0;
    } else {
      assert a == [a[0]] + a[1..] && b == [b[0]] + b[1..];
      k := FirstDifference(a[1..], b[1..]);
      assert a[..k + 1] == [a[0]] + a[1..][..k];
      assert b[..k + 1] == [b[0]] + b[1..][..k];
      k := k + 1;
    }
  }

  /** The least order depends on the set of steps alone, not on how the file lists them. */
  lemma LeastOrderIgnoresListing(p: seq<Step>, p': seq<Step>, out: seq<Step>, out': seq<Step>)
    requires multiset(p) == multiset(p')
    requires IsLeastOrder(p, out) && IsLeastOrder(p', out')
    ensures out == out'
  {
    if out != out' {
      LexBeforeAsymmetric(out, out');
    }
  }

  lemma LexBeforeAsymmetric(a: seq<Step>, b: seq<Step>)
    requires LexBefore(a, b)
    ensures !LexBefore(b, a)
  {
    var k :| 0 <= k < |a| && k < |b| && a[..k] == b[..k] && Less(a[k].id, b[k].id);
    LessIrreflexive(b[k].id);
    forall m | 0 <= m < |b| && m < |a| ensures !(b[..m] == a[..m] && Less(b[m].id, a[m].id)) {
      if m < k {
        assert a[..k][m] == b[..k][m];
        LessIrreflexive(a[m].id);
      } else if m == k {
        LessAsymmetric(a[k].id, b[k].id);
      } else {
        assert a[..m][k] == a[k] && b[..m][k] == b[k];
      }
    }
  }
}

/** Ordering and validation as the orchestrator computes them. */
module PipelineOrder {
  import opened Strings
  import opened PipelineGraph

  datatype PipelineError = MissingStep | DuplicateStep | PipelineCycle
  datatype Result<+T> = Ok(value: T) | Err(error: PipelineError)

  function Kids(children: map<string, seq<string>>, d: string): seq<string> {
    if d in children then children[d] else []
  }

  /** Dependency entries, repeated ones included, that are not in `done`. */
  function Remaining(deps: seq<string>, done: set<string>): nat {
    if deps == [] then 0 else (if deps[0] in done then 0 else 1) + Remaining(deps[1..], done)
  }

  lemma {:induction false} RemainingZero(deps: seq<string>, done: set<string>)
    ensures Remaining(deps, done) == 0 <==> forall d | d in deps :: d in done
  {
    if deps != [] {
      RemainingZero(deps[1..], done);
      assert forall d :: d in deps <==> d == deps[0] || d in deps[1..];
    }
  }

  lemma {:induction false} RemainingEmpty(deps: seq<string>)
    ensures Remaining(deps, {}) == |deps|
  {
    if deps != [] {
      RemainingEmpty(deps[1..]);
    }
  }

  lemma {:induction false} RemainingAfter(deps: seq<string>, done: set<string>, id: string)
    requires id !in done
    ensures Remaining(deps, done) == Remaining(deps, done + {id}) + multiset(deps)[id]
  {
    if deps != [] {
      RemainingAfter(deps[1..], done, id);
      assert deps == [deps[0]] + deps[1..];
    }
  }

  lemma CountSnoc<T(!new)>(s: seq<T>, k: nat)
    requires k < |s|
    ensures forall x :: multiset(s[..k + 1])[x] == multiset(s[..k])[x] + if s[k] == x then 1 else 0
  {
    assert s[..k + 1] == s[..k] + [s[k]];
  }

  lemma TakeAll<T>(s: seq<T>)
    ensures s[..|s|] == s
  {
  }

  /** `grown` is `children` with `id` added once for each of `deps`. */
  ghost predicate Grown(children: map<string, seq<string>>, grown: map<string, seq<string>>, id: string, deps: seq<string>) {
    forall d, c :: multiset(Kids(grown, d))[c] == multiset(Kids(children, d))[c] + if c == id then multiset(deps)[d] else 0
  }

  lemma GrowsByOne(children: map<string, seq<string>>, grown: map<string, seq<string>>, id: string, deps: seq<string>, k: nat)
    requires k < |deps| && Grown(children, grown, id, deps[..k])
    ensures Grown(children, grown[deps[k] := Kids(grown, deps[k]) + [id]], id, deps[..k + 1])
  {
    CountSnoc(deps, k);
    var dep := deps[k];
    var more := grown[dep := Kids(grown, dep) + [id]];
    assert Kids(more, dep) == Kids(grown, dep) + [id];
    forall d, c
      ensures multiset(Kids(more, d))[c] == multiset(Kids(children, d))[c] + if c == id then multiset(deps[..k + 1])[d] else 0
    {
      assert d != dep ==> Kids(more, d) == Kids(grown, d);
      assert multiset(Kids(more, d))[c] == multiset(Kids(grown, d))[c] + if d == dep && c == id then 1 else 0;
    }
  }

  /** The inner loop over one step's dependencies. */
  method AddChildren(children: map<string, seq<string>>, st: Step) returns (r: map<string, seq<string>>)
    ensures Grown(children, r, st.id, st.dependsOn)
  {
    r := children;
    assert Grown(children, r, st.id, st.dependsOn[..0]);
    hide Grown;
    for k := 0 to |st.dependsOn|
      invariant Grown(children, r, st.id, st.dependsOn[..k])
    {
      GrowsByOne(children, r, st.id, st.dependsOn, k);
      var dep := st.dependsOn[k];
      r := r[dep := Kids(r, dep) + [st.id]];
    }
    TakeAll(st.dependsOn);
  }

  /** What the three tables built from the first steps hold. */
  ghost predicate Tables(steps: seq<Step>, byId: map<string, Step>, indeg: map<string, int>, children: map<string, seq<string>>) {
    && byId.Keys == indeg.Keys == Ids(steps)
    && (forall id | id in byId :: byId[id] in steps && byId[id].id == id && indeg[id] == |byId[id].dependsOn|)
    && (forall d, c | c in Kids(children, d) :: c in byId)
    && (UniqueIds(steps) ==> forall d, c | c in byId :: multiset(Kids(children, d))[c] == multiset(byId[c].dependsOn)[d])
  }

  method BuildTables(steps: seq<Step>)
    returns (byId: map<string, Step>, indeg: map<string, int>, children: map<string, seq<string>>)
    ensures Tables(steps, byId, indeg, children)
  {
    byId, indeg, children := map[], map[], map[];
    assert Tables(steps[..0], byId, indeg, children);
    hide Tables, Grown;
    for i := 0 to |steps|
      invariant Tables(steps[..i], byId, indeg, children)
    {
      var st := steps[i];
      ghost var byId0, indeg0, children0 := byId, indeg, children;
      assert steps[..i + 1] == steps[..i] + [st];
      byId := byId[st.id := st];
      indeg := indeg[st.id := |st.dependsOn|];
      children := AddChildren(children, st);
      TablesExtend(steps[..i], st, byId0, indeg0, children0, children);
    }
    TakeAll(steps);
  }

  lemma TablesExtend(steps: seq<Step>, st: Step, byId: map<string, Step>, indeg: map<string, int>,
                     children: map<string, seq<string>>, children': map<string, seq<string>>)
    requires Tables(steps, byId, indeg, children) && Grown(children, children', st.id, st.dependsOn)
    ensures Tables(steps + [st], byId[st.id := st], indeg[st.id := |st.dependsOn|], children')
  {
    IdsAppend(steps, st);
    TablesGrow(steps, st, byId, children, children');
    hide Grown, Kids, UniqueIds;
  }

  lemma TablesGrow(steps: seq<Step>, st: Step, byId: map<string, Step>,
                   children: map<string, seq<string>>, children': map<string, seq<string>>)
    requires byId.Keys == Ids(steps)
    requires forall d, c | c in Kids(children, d) :: c in byId
    requires UniqueIds(steps) ==>
               forall d, c | c in byId :: multiset(Kids(children, d))[c] == multiset(byId[c].dependsOn)[d]
    requires Grown(children, children', st.id, st.dependsOn)
    ensures forall d, c | c in Kids(children', d) :: c in byId[st.id := st]
    ensures UniqueIds(steps + [st]) ==>
              forall d, c | c in byId[st.id := st] ::
                multiset(Kids(children', d))[c] == multiset(byId[st.id := st][c].dependsOn)[d]
  {
    forall d, c | c in Kids(children', d) ensures c in byId[st.id := st] {
      assert multiset(Kids(children', d))[c] > 0;
      assert c == st.id || c in multiset(Kids(children, d));
    }
    if UniqueIds(steps + [st]) {
      forall i | 0 <= i < |steps| ensures steps[i].id != st.id {
        assert (steps + [st])[i].id != (steps + [st])[|steps|].id;
      }
      forall i, j | 0 <= i < j < |steps| ensures steps[i].id != steps[j].id {
        assert (steps + [st])[i].id != (steps + [st])[j].id;
      }
      assert st.id !in Ids(steps);
      forall d ensures multiset(Kids(children, d))[st.id] == 0 {
        assert st.id !in Kids(children, d);
      }
    }
  }

  /** The ids whose count is zero, collected in whatever order the map yields them, then sorted. */
  method InitialReady(indeg: map<string, int>) returns (ready: seq<string>)
    ensures Sorted(ready) && NoDuplicates(ready)
    ensures forall c :: c in ready <==> c in indeg && indeg[c] == 0
  {
    var todo := indeg.Keys;
    var found: seq<string> := [];
    while todo != {}
      invariant todo <= indeg.Keys
      invariant NoDuplicates(found)
      invariant forall c :: c in found <==> c in indeg && c !in todo && indeg[c] == 0
      decreases todo
    {
      var id :| id in todo;
      todo := todo - {id};
      if indeg[id] == 0 {
        found := found + [id];
      }
    }
    ready := Sort(found);
    SortKeepsMembers(found);
  }

  lemma SortKeepsMembers(s: seq<string>)
    ensures forall c :: c in Sort(s) <==> c in s
    ensures NoDuplicates(s) ==> NoDuplicates(Sort(s))
  {
    SameMultisetSameMembers(s, Sort(s));
    if NoDuplicates(s) {
      PermutationNoDuplicates(s, Sort(s));
    }
  }

  lemma {:induction false} NoDuplicatesCount(s: seq<string>)
    ensures |set x | x in s| <= |s|
    ensures NoDuplicates(s) <==> |set x | x in s| == |s|
  {
    if s != [] {
      var n := |s| - 1;
      var front := s[..n];
      NoDuplicatesCount(front);
      assert s == front + [s[n]];
      assert (set x | x in s) == (set x | x in front) + {s[n]};
      if s[n] in front {
        var i :| 0 <= i < n && front[i] == s[n];
        assert s[i] == s[n];
        assert (set x | x in s) == (set x | x in front);
      } else {
        assert |set x | x in s| == |set x | x in front| + 1;
        assert NoDuplicates(s) ==> NoDuplicates(front);
        assert NoDuplicates(front) ==> NoDuplicates(s);
      }
    }
  }

  lemma PermutationNoDuplicates(s: seq<string>, t: seq<string>)
    requires multiset(s) == multiset(t) && NoDuplicates(s)
    ensures NoDuplicates(t)
  {
    SameMultisetSameMembers(s, t);
    assert (set x | x in s) == (set x | x in t);
    NoDuplicatesCount(s);
    NoDuplicatesCount(t);
  }

  /** Decrement every child's count once per entry; those that reach zero join the sorted ready list. */
  method ReleaseChildren(kids: seq<string>, indeg: map<string, int>, ready: seq<string>)
    returns (indeg': map<string, int>, ready': seq<string>)
    requires forall c | c in kids :: c in indeg
    requires forall c | c in ready :: c in indeg && indeg[c] <= 0
    requires Sorted(ready) && NoDuplicates(ready)
    ensures indeg'.Keys == indeg.Keys
    ensures forall c | c in indeg :: indeg'[c] == indeg[c] - multiset(kids)[c]
    ensures Sorted(ready') && NoDuplicates(ready')
    ensures forall c :: c in ready' <==> c in ready || (c in indeg && indeg[c] > 0 && indeg'[c] <= 0)
  {
    hide Sorted, NoDuplicates, Sort;
    indeg', ready' := indeg, ready;
    for k := 0 to |kids|
      invariant indeg'.Keys == indeg.Keys
      invariant forall c | c in indeg :: indeg'[c] == indeg[c] - multiset(kids[..k])[c]
      invariant Sorted(ready') && NoDuplicates(ready')
      invariant forall c :: c in ready' <==> c in ready || (c in indeg && indeg[c] > 0 && indeg'[c] <= 0)
    {
      var child := kids[k];
      assert child in indeg;
      CountSnoc(kids, k);
      indeg' := indeg'[child := indeg'[child] - 1];
      if indeg'[child] == 0 {
        SortedIn(ready', child);
        ready' := Sort(ready' + [child]);
      }
    }
    TakeAll(kids);
  }

  /** Appending a newcomer and sorting again. */
  lemma SortedIn(ready: seq<string>, child: string)
    requires NoDuplicates(ready)
    ensures var r := Sort(ready + [child]);
            && Sorted(r) && (child !in ready ==> NoDuplicates(r))
            && forall c :: c in r <==> c in ready || c == child
  {
    SortKeepsMembers(ready + [child]);
    hide Sorted, Sort;
  }

  /** Bookkeeping of the main loop that holds for any list of steps. */
  ghost predicate Progress(byId: map<string, Step>, indeg: map<string, int>, ready: seq<string>, out: seq<Step>) {
    && indeg.Keys == byId.Keys
    && Sorted(ready) && NoDuplicates(ready) && UniqueIds(out)
    && (forall c | c in ready :: c in indeg && indeg[c] <= 0 && c !in Ids(out))
    && (forall st | st in out :: st.id in byId && st == byId[st.id] && indeg[st.id] <= 0)
  }

  /** With unique ids, counts are exact and `ready` is precisely what is available. */
  ghost predicate Exact(byId: map<string, Step>, indeg: map<string, int>, ready: seq<string>, out: seq<Step>)
    requires byId.Keys == indeg.Keys
  {
    && (forall c | c in byId :: indeg[c] == Remaining(byId[c].dependsOn, Ids(out)))
    && (forall c | c in byId :: indeg[c] == 0 ==> c in ready || c in Ids(out))
  }

  /** One round of the main loop: take the head of `ready`, then release its children. */
  lemma RoundKeepsProgress(byId: map<string, Step>, indeg: map<string, int>, ready: seq<string>, out: seq<Step>,
                           indeg': map<string, int>, ready': seq<string>, kids: seq<string>)
    requires Progress(byId, indeg, ready, out) && ready != []
    requires indeg'.Keys == indeg.Keys && Sorted(ready') && NoDuplicates(ready')
    requires forall c | c in indeg :: indeg'[c] == indeg[c] - multiset(kids)[c]
    requires forall c :: c in ready' <==> c in ready[1..] || (c in indeg && indeg[c] > 0 && indeg'[c] <= 0)
    ensures ready[0] in byId
    requires forall id | id in byId :: byId[id].id == id
    ensures Progress(byId, indeg', ready', out + [byId[ready[0]]])
  {
    var id := ready[0];
    assert id in ready;
    IdsAppend(out, byId[id]);
    assert forall c | c in ready[1..] :: c in ready && c != id;
    forall i, j | 0 <= i < j < |out + [byId[id]]| ensures (out + [byId[id]])[i].id != (out + [byId[id]])[j].id {
      if j == |out| {
        assert out[i].id in Ids(out);
      }
    }
  }

  /** What becomes available joins `ready`; what was available stays, but for the head, which is now done. */
  lemma RoundKeepsReady(byId: map<string, Step>, indeg: map<string, int>, indeg': map<string, int>,
                        ready: seq<string>, ready': seq<string>, done: set<string>)
    requires indeg.Keys == indeg'.Keys == byId.Keys && ready != []
    requires forall c | c in byId :: indeg'[c] <= indeg[c] && (indeg[c] == 0 ==> c in ready || c in done)
    requires forall c :: c in ready' <==> c in ready[1..] || (c in indeg && indeg[c] > 0 && indeg'[c] <= 0)
    ensures forall c | c in byId && indeg'[c] == 0 :: c in ready' || c in done + {ready[0]}
  {
    assert ready == [ready[0]] + ready[1..];
  }

  lemma RoundKeepsCounts(byId: map<string, Step>, indeg: map<string, int>, indeg': map<string, int>,
                         done: set<string>, id: string, kids: seq<string>)
    requires indeg.Keys == indeg'.Keys == byId.Keys && id !in done
    requires forall c | c in byId :: indeg[c] == Remaining(byId[c].dependsOn, done)
    requires forall c | c in indeg :: indeg'[c] == indeg[c] - multiset(kids)[c]
    requires forall c | c in byId :: multiset(kids)[c] == multiset(byId[c].dependsOn)[id]
    ensures forall c | c in byId :: indeg'[c] == Remaining(byId[c].dependsOn, done + {id})
  {
    forall c | c in byId ensures indeg'[c] == Remaining(byId[c].dependsOn, done + {id}) {
      RemainingAfter(byId[c].dependsOn, done, id);
    }
  }

  /** The head of the sorted ready list is the least available id. */
  lemma HeadIsLeast(steps: seq<Step>, byId: map<string, Step>, indeg: map<string, int>, ready: seq<string>, out: seq<Step>)
    requires UniqueIds(steps) && byId.Keys == Ids(steps)
    requires forall id | id in byId :: byId[id] in steps && byId[id].id == id
    requires Progress(byId, indeg, ready, out) && Exact(byId, indeg, ready, out) && ready != []
    ensures LeastAvailable(steps, Ids(out), ready[0])
  {
    forall st | st in steps && st.id !in Ids(out) && !Waits(st, Ids(out))
      ensures !Less(st.id, ready[0])
    {
      SameIdSameStep(steps, st, byId[st.id]);
      RemainingZero(st.dependsOn, Ids(out));
      assert st.id in ready;
      var k :| 0 <= k < |ready| && ready[k] == st.id;
      LessIrreflexive(ready[0]);
    }
  }

  /** The head's dependencies are all out already. */
  lemma HeadIsAvailable(byId: map<string, Step>, indeg: map<string, int>, ready: seq<string>, out: seq<Step>)
    requires Progress(byId, indeg, ready, out) && ready != [] && ready[0] in byId
    requires Exact(byId, indeg, ready, out)
    ensures forall d | d in byId[ready[0]].dependsOn :: d in Ids(out)
  {
    assert ready[0] in ready;
    RemainingZero(byId[ready[0]].dependsOn, Ids(out));
  }

  ghost predicate Placed(out: seq<Step>) {
    forall i, d | 0 <= i < |out| && d in out[i].dependsOn :: d in Ids(out[..i])
  }

  lemma AppendKeepsPlaced(steps: seq<Step>, out: seq<Step>, st: Step)
    requires Placed(out) && Greedy(steps, out)
    requires forall d | d in st.dependsOn :: d in Ids(out)
    requires LeastAvailable(steps, Ids(out), st.id)
    ensures Placed(out + [st]) && Greedy(steps, out + [st])
  {
    var longer := out + [st];
    assert longer[..|out|] == out;
    forall i | 0 <= i < |longer|
      ensures LeastAvailable(steps, Ids(longer[..i]), longer[i].id)
      ensures forall d | d in longer[i].dependsOn :: d in Ids(longer[..i])
    {
      if i < |out| {
        assert longer[..i] == out[..i];
      }
    }
  }

  /** What is left when `ready` runs empty: every step not output waits for another one not output. */
  lemma LeftoverIsStuck(steps: seq<Step>, byId: map<string, Step>, indeg: map<string, int>, out: seq<Step>)
    requires UniqueIds(steps) && byId.Keys == Ids(steps)
    requires forall id | id in byId :: byId[id] in steps && byId[id].id == id
    requires Progress(byId, indeg, [], out) && Exact(byId, indeg, [], out)
    ensures forall st | st in steps && st.id !in Ids(out) :: Waits(st, Ids(out))
  {
    forall st | st in steps && st.id !in Ids(out) ensures Waits(st, Ids(out)) {
      SameIdSameStep(steps, st, byId[st.id]);
      RemainingZero(st.dependsOn, Ids(out));
    }
  }

  /** Fewer steps out than in: some are left over, so no order exists. */
  lemma ShortOutputMeansNoOrder(steps: seq<Step>, out: seq<Step>)
    requires UniqueIds(steps) && UniqueIds(out) && |out| != |steps|
    requires forall st | st in out :: st in steps
    requires forall st | st in steps && st.id !in Ids(out) :: Waits(st, Ids(out))
    ensures Ids(steps) - Ids(out) != {}
    ensures forall q :: !IsTopologicalOrder(steps, q)
  {
    IdsCount(steps);
    IdsCount(out);
    assert Ids(out) <= Ids(steps);
    assert Ids(steps) == Ids(out) + (Ids(steps) - Ids(out));
    assert Ids(out) + {} == Ids(out);
    var a :| a in Ids(steps) - Ids(out);
    assert exists st :: st in steps && st.id == a;
    forall q { StuckBlocksOrder(steps, Ids(out), q); }
  }

  /** If all dependencies resolve, the leftovers contain a cycle. */
  lemma LeftoversHaveCycle(steps: seq<Step>, done: set<string>)
    requires Resolvable(steps) && Ids(steps) - done != {}
    requires forall st | st in steps && st.id !in done :: Waits(st, done)
    ensures HasCycleIn(steps, Ids(steps) - done)
  {
    forall a | a in Ids(steps) - done ensures WaitsInside(steps, Ids(steps) - done, a) {
      LeftoverWaitsInside(steps, done, a);
    }
    LeftoverHasCycle(steps, Ids(steps) - done);
  }

  lemma LeftoverWaitsInside(steps: seq<Step>, done: set<string>, a: string)
    requires Resolvable(steps) && a in Ids(steps) - done
    requires forall st | st in steps && st.id !in done :: Waits(st, done)
    ensures WaitsInside(steps, Ids(steps) - done, a)
  {
    var st :| st in steps && st.id == a;
    var d :| d in st.dependsOn && d !in done;
    assert d in Ids(steps) && DependsOn(steps, a, d);
  }

  /** Repeated ids: fewer distinct ids than steps, so the output is short and no order exists. */
  lemma RepeatedIdsMeanNoOrder(steps: seq<Step>)
    requires !UniqueIds(steps)
    ensures forall q :: !IsTopologicalOrder(steps, q)
  {
    forall q ensures !IsTopologicalOrder(steps, q) {
      if IsTopologicalOrder(steps, q) {
        UniqueIdsPermutation(q, steps);
      }
    }
  }

  /** The invariant of the main loop. */
  ghost predicate Rolling(steps: seq<Step>, byId: map<string, Step>, indeg: map<string, int>, ready: seq<string>, out: seq<Step>) {
    && Progress(byId, indeg, ready, out)
    && (UniqueIds(steps) ==> Exact(byId, indeg, ready, out) && Placed(out) && Greedy(steps, out))
  }

  lemma RollingStarts(steps: seq<Step>, byId: map<string, Step>, indeg: map<string, int>, children: map<string, seq<string>>,
                      ready: seq<string>)
    requires Tables(steps, byId, indeg, children) && Sorted(ready) && NoDuplicates(ready)
    requires forall c :: c in ready <==> c in indeg && indeg[c] == 0
    ensures Rolling(steps, byId, indeg, ready, [])
  {
    assert Ids([]) == {};
    forall c | c in byId ensures indeg[c] == Remaining(byId[c].dependsOn, {}) {
      RemainingEmpty(byId[c].dependsOn);
    }
    hide Remaining, Sorted, NoDuplicates;
  }

  /** What releasing the children of the head needs. */
  lemma HeadIsReady(steps: seq<Step>, byId: map<string, Step>, first: map<string, int>, children: map<string, seq<string>>,
                    indeg: map<string, int>, ready: seq<string>, out: seq<Step>)
    requires Tables(steps, byId, first, children) && Rolling(steps, byId, indeg, ready, out) && ready != []
    ensures ready[0] in byId && forall c | c in Kids(children, ready[0]) :: c in indeg
    ensures Sorted(ready[1..]) && NoDuplicates(ready[1..]) && forall c | c in ready[1..] :: c in indeg && indeg[c] <= 0
  {
    assert ready[0] in ready && forall c | c in ready[1..] :: c in ready;
    hide Exact, Placed, Greedy, UniqueIds;
  }

  /** A round takes the head and leaves fewer ids to take. */
  lemma RoundRolls(steps: seq<Step>, byId: map<string, Step>, first: map<string, int>, children: map<string, seq<string>>,
                   indeg: map<string, int>, ready: seq<string>, out: seq<Step>, indeg': map<string, int>, ready': seq<string>)
    requires Tables(steps, byId, first, children) && Rolling(steps, byId, indeg, ready, out) && ready != []
    requires indeg'.Keys == indeg.Keys && Sorted(ready') && NoDuplicates(ready')
    requires forall c | c in indeg :: indeg'[c] == indeg[c] - multiset(Kids(children, ready[0]))[c]
    requires forall c :: c in ready' <==> c in ready[1..] || (c in indeg && indeg[c] > 0 && indeg'[c] <= 0)
    ensures ready[0] in byId
    ensures Rolling(steps, byId, indeg', ready', out + [byId[ready[0]]])
    ensures byId.Keys - Ids(out + [byId[ready[0]]]) < byId.Keys - Ids(out)
  {
    var kids := Kids(children, ready[0]);
    hide Sorted, NoDuplicates, Placed, Greedy, Kids, Exact;
    RoundKeepsProgress(byId, indeg, ready, out, indeg', ready', kids);
    assert ready[0] in ready;
    IdsAppend(out, byId[ready[0]]);
    assert ready[0] in byId.Keys - Ids(out);
    if UniqueIds(steps) {
      RoundKeepsExact(steps, byId, first, children, indeg, ready, out, indeg', ready');
      HeadExtends(steps, byId, indeg, ready, out);
    }
  }

  /** Appending the head keeps every step behind its dependencies and the output greedy. */
  lemma HeadExtends(steps: seq<Step>, byId: map<string, Step>, indeg: map<string, int>, ready: seq<string>, out: seq<Step>)
    requires UniqueIds(steps) && byId.Keys == Ids(steps)
    requires forall id | id in byId :: byId[id] in steps && byId[id].id == id
    requires Progress(byId, indeg, ready, out) && Exact(byId, indeg, ready, out) && ready != []
    requires Placed(out) && Greedy(steps, out)
    ensures ready[0] in byId
    ensures Placed(out + [byId[ready[0]]]) && Greedy(steps, out + [byId[ready[0]]])
  {
    assert ready[0] in ready;
    hide Placed, Greedy, LeastAvailable, UniqueIds, Sorted, NoDuplicates;
    HeadIsLeast(steps, byId, indeg, ready, out);
    HeadIsAvailable(byId, indeg, ready, out);
    AppendKeepsPlaced(steps, out, byId[ready[0]]);
  }

  lemma RoundKeepsExact(steps: seq<Step>, byId: map<string, Step>, first: map<string, int>, children: map<string, seq<string>>,
                        indeg: map<string, int>, ready: seq<string>, out: seq<Step>, indeg': map<string, int>, ready': seq<string>)
    requires Tables(steps, byId, first, children) && Rolling(steps, byId, indeg, ready, out) && ready != [] && UniqueIds(steps)
    requires indeg'.Keys == indeg.Keys
    requires forall c | c in indeg :: indeg'[c] == indeg[c] - multiset(Kids(children, ready[0]))[c]
    requires forall c :: c in ready' <==> c in ready[1..] || (c in indeg && indeg[c] > 0 && indeg'[c] <= 0)
    ensures ready[0] in byId && Exact(byId, indeg', ready', out + [byId[ready[0]]])
  {
    hide Sorted, NoDuplicates, Placed, Greedy, Kids, UniqueIds;
    assert ready[0] in ready;
    IdsAppend(out, byId[ready[0]]);
    RoundKeepsCounts(byId, indeg, indeg', Ids(out), ready[0], Kids(children, ready[0]));
    RoundKeepsReady(byId, indeg, indeg', ready, ready', Ids(out));
  }

  /** Kahn's algorithm. Succeeds on exactly the step lists that have an order, with the least one. */
  method TopologicalOrder(p: Pipeline) returns (r: Result<seq<Step>>)
    ensures r.Ok? ==> IsLeastOrder(p.steps, r.value)
    ensures r.Err? ==> r.error == PipelineCycle && forall q :: !IsTopologicalOrder(p.steps, q)
    ensures UniqueIds(p.steps) && Resolvable(p.steps) ==> (r.Ok? <==> Acyclic(p.steps))
  {
    hide *;
    var byId, indeg, children := BuildTables(p.steps);
    ghost var first := indeg;
    var ready := InitialReady(indeg);
    var out: seq<Step> := [];
    RollingStarts(p.steps, byId, indeg, children, ready);
    while ready != []
      invariant Rolling(p.steps, byId, indeg, ready, out)
      decreases byId.Keys - Ids(out)
    {
      HeadIsReady(p.steps, byId, first, children, indeg, ready, out);
      ghost var indeg0, ready0, out0 := indeg, ready, out;
      var id := ready[0];
      out := out + [byId[id]];
      indeg, ready := ReleaseChildren(Kids(children, id), indeg, ready[1..]);
      RoundRolls(p.steps, byId, first, children, indeg0, ready0, out0, indeg, ready);
    }
    Conclude(p.steps, byId, first, children, indeg, out);
    if |out| != |p.steps| {
      return Err(PipelineCycle);
    }
    return Ok(out);
  }

  lemma Conclude(steps: seq<Step>, byId: map<string, Step>, first: map<string, int>, children: map<string, seq<string>>,
                 indeg: map<string, int>, out: seq<Step>)
    requires Tables(steps, byId, first, children) && Rolling(steps, byId, indeg, [], out)
    ensures |out| == |steps| ==> IsLeastOrder(steps, out)
    ensures |out| != |steps| ==> forall q :: !IsTopologicalOrder(steps, q)
    ensures UniqueIds(steps) && Resolvable(steps) ==> (|out| == |steps| <==> Acyclic(steps))
  {
    assert forall st | st in out :: st in steps;
    if |out| == |steps| {
      FullSelectionIsPermutation(steps, out);
      GreedyIsLeast(steps, out);
      forall c ensures !IsCycle(steps, c) {
        if IsCycle(steps, c) {
          CycleBlocksOrder(steps, c, out);
        }
      }
    } else if UniqueIds(steps) {
      LeftoverIsStuck(steps, byId, indeg, out);
      ShortOutputMeansNoOrder(steps, out);
      if Resolvable(steps) {
        LeftoversHaveCycle(steps, Ids(out));
      }
    } else {
      RepeatedIdsMeanNoOrder(steps);
    }
  }
}
