/** Validation, the child-run supervisor and the local pipeline runner. */
module Orchestrator {
  import opened Wrappers
  import opened Strings
  import opened PipelineGraph
  import opened PipelineOrder

  // ---- validation ----

  predicate StepFine(steps: seq<Step>, i: nat)
    requires i < |steps|
  {
    steps[i].id != "" && steps[i].id !in Ids(steps[..i]) && !Blank(steps[i].task)
  }

  ghost predicate StepsFine(steps: seq<Step>) {
    forall i | 0 <= i < |steps| :: StepFine(steps, i)
  }

  /** The first flawed step is flawed by a repeated id. */
  ghost predicate DuplicateFirst(steps: seq<Step>) {
    exists i | 0 <= i < |steps| ::
      && (forall j | 0 <= j < i :: StepFine(steps, j))
      && steps[i].id != "" && steps[i].id in Ids(steps[..i])
  }

  lemma FirstFlawDecides(steps: seq<Step>, i: nat)
    requires i < |steps| && !StepFine(steps, i)
    requires forall j | 0 <= j < i :: StepFine(steps, j)
    ensures DuplicateFirst(steps) <==> steps[i].id != "" && steps[i].id in Ids(steps[..i])
    ensures !StepsFine(steps)
  {
    if DuplicateFirst(steps) {
      var k :| 0 <= k < |steps| && (forall j | 0 <= j < k :: StepFine(steps, j))
               && steps[k].id != "" && steps[k].id in Ids(steps[..k]);
      assert !StepFine(steps, k);
      assert k == i;
    }
  }

  lemma FineStepsHaveUniqueIds(steps: seq<Step>)
    requires StepsFine(steps)
    ensures UniqueIds(steps)
  {
    forall i, j | 0 <= i < j < |steps| ensures steps[i].id != steps[j].id {
      assert StepFine(steps, j);
      assert steps[..j][i] == steps[i];
    }
  }

  method ValidatePipeline(p: Pipeline) returns (r: Result<()>)
    ensures r.Ok? <==> StepsFine(p.steps) && Resolvable(p.steps) && Acyclic(p.steps)
    ensures r == Err(DuplicateStep) <==> DuplicateFirst(p.steps)
    ensures r == Err(PipelineCycle) <==> StepsFine(p.steps) && Resolvable(p.steps) && !Acyclic(p.steps)
    ensures r.Ok? ==> exists q :: IsLeastOrder(p.steps, q)
  {
    var seen: set<string> := {};
    for i := 0 to |p.steps|
      invariant seen == Ids(p.steps[..i])
      invariant forall j | 0 <= j < i :: StepFine(p.steps, j)
    {
      var st := p.steps[i];
      if st.id == "" {
        FirstFlawDecides(p.steps, i);
        return Err(MissingStep);
      }
      if st.id in seen {
        FirstFlawDecides(p.steps, i);
        return Err(DuplicateStep);
      }
      assert p.steps[..i + 1] == p.steps[..i] + [st];
      IdsAppend(p.steps[..i], st);
      seen := seen + {st.id};
      if Blank(st.task) {
        FirstFlawDecides(p.steps, i);
        return Err(MissingStep);
      }
    }
    TakeAll(p.steps);
    FineStepsHaveUniqueIds(p.steps);
    for i := 0 to |p.steps|
      invariant forall j, d | 0 <= j < i && d in p.steps[j].dependsOn :: d in seen
    {
      var st := p.steps[i];
      for k := 0 to |st.dependsOn|
        invariant forall m | 0 <= m < k :: st.dependsOn[m] in seen
      {
        if st.dependsOn[k] !in seen {
          assert st in p.steps && st.dependsOn[k] in st.dependsOn;
          return Err(MissingStep);
        }
      }
    }
    var order := TopologicalOrder(p);
    if order.Err? {
      return Err(order.error);
    }
    return Ok(());
  }

  // ---- supervisor ----

  datatype SubagentRequest = SubagentRequest(role: string, task: string, outputSchema: string)
  datatype SubagentResult =
    SubagentResult(childRunId: string, role: string, summary: string, status: string, error: string)
  datatype ChildRequest = ChildRequest(parentRunId: string, childRunId: string, traceId: string, userId: string,
                                       model: string, role: string, task: string, depth: int)
  datatype ChildOutcome = Returned(result: SubagentResult) | Failed(message: string)
  datatype DispatchError = MaxDepth | MaxChildren | ChildFailed(message: string)
  datatype Dispatched = Dispatched(result: SubagentResult, error: Option<DispatchError>)

  const DISABLED := SubagentResult("", "", "", "error", "supervisor disabled")

  /** A child runner that behaves in any way whatever, call by call, and remembers what it was asked. */
  class ChildRunner {
    const answer: (nat, ChildRequest) -> ChildOutcome
    var requests: seq<ChildRequest>

    constructor (answer: (nat, ChildRequest) -> ChildOutcome)
      ensures this.answer == answer && requests == []
    {
      this.answer := answer;
      requests := [];
    }

    method RunChild(req: ChildRequest) returns (o: ChildOutcome)
      modifies this
      ensures requests == old(requests) + [req]
      ensures o == answer(|old(requests)|, req)
    {
      o := answer(|requests|, req);
      requests := requests + [req];
    }
  }

  function Count(children: map<string, nat>, parent: string): nat {
    if parent in children then children[parent] else 0
  }

  function CallsFor(log: seq<ChildRequest>, parent: string): nat {
    if log == [] then 0
    else CallsFor(log[..|log| - 1], parent) + if log[|log| - 1].parentRunId == parent then 1 else 0
  }

  lemma CallsForSnoc(log: seq<ChildRequest>, q: ChildRequest, parent: string)
    ensures CallsFor(log + [q], parent) == CallsFor(log, parent) + if q.parentRunId == parent then 1 else 0
  {
    assert (log + [q])[..|log|] == log;
  }

  /** How a child's answer is completed for the parent: a failure becomes an error result with its message; of a result only
      empty fields are filled in, summary and error stay as they are. */
  ghost predicate IsCompleted(o: ChildOutcome, q: ChildRequest, d: Dispatched) {
    match o
    case Failed(message) =>
      && d.error == Some(ChildFailed(message))
      && d.result == SubagentResult(q.childRunId, q.role, "", "error", message)
    case Returned(res) =>
      && d.error == None
      && d.result.summary == res.summary && d.result.error == res.error
      && d.result.childRunId == (if res.childRunId != "" then res.childRunId else q.childRunId)
      && d.result.role == (if res.role != "" then res.role else q.role)
      && d.result.status == (if res.status != "" then res.status else "ok")
  }

  method Complete(o: ChildOutcome, q: ChildRequest) returns (d: Dispatched)
    ensures IsCompleted(o, q, d)
  {
    match o {
      case Failed(message) =>
        d := Dispatched(SubagentResult(q.childRunId, q.role, "", "error", message), Some(ChildFailed(message)));
      case Returned(res) =>
        var filled := res;
        if filled.childRunId == "" {
          filled := filled.(childRunId := q.childRunId);
        }
        if filled.role == "" {
          filled := filled.(role := q.role);
        }
        if filled.status == "" {
          filled := filled.(status := "ok");
        }
        d := Dispatched(filled, None);
    }
  }

  class Supervisor {
    const runner: ChildRunner?
    const maxDepth: int
    const maxChildren: int
    const newRunId: nat -> string
    var issued: nat
    var children: map<string, nat>
    /** The counters this supervisor was handed, and the requests its runner had already seen. */
    ghost const initial: map<string, nat>
    ghost const earlier: seq<ChildRequest>

    function DepthLimit(): int {
      if maxDepth <= 0 then 2 else maxDepth
    }

    function ChildLimit(): int {
      if maxChildren <= 0 then 4 else maxChildren
    }

    ghost function Footprint(): set<object> {
      if runner == null then {this} else {this, runner}
    }

    /** Over any history: one runner call per counted child, and no call beyond the limit. */
    ghost predicate Valid()
      reads this, Footprint()
    {
      runner != null ==>
        forall parent ::
          && CallsFor(runner.requests, parent) - CallsFor(earlier, parent)
             == Count(children, parent) - Count(initial, parent)
          && (Count(children, parent) == Count(initial, parent) || Count(children, parent) <= ChildLimit())
    }

    constructor (runner: ChildRunner?, maxDepth: int, maxChildren: int, newRunId: nat -> string, children: map<string, nat>)
      ensures Valid()
      ensures this.runner == runner && this.maxDepth == maxDepth && this.maxChildren == maxChildren
      ensures this.children == children
    {
      this.runner, this.maxDepth, this.maxChildren := runner, maxDepth, maxChildren;
      this.newRunId, this.issued, this.children := newRunId, 0, children;
      this.initial := children;
      this.earlier := if runner == null then [] else runner.requests;
    }

    method Dispatch(parentRunId: string, traceId: string, userId: string, model: string, depth: int, req: SubagentRequest)
      returns (r: Dispatched)
      requires Valid()
      modifies Footprint()
      ensures Valid()
      ensures runner == null ==> r == Dispatched(DISABLED, None) && children == old(children)
      ensures var depthLimit := if maxDepth > 0 then maxDepth else 2;
              var childLimit := if maxChildren > 0 then maxChildren else 4;
              var had := if parentRunId in old(children) then old(children)[parentRunId] else 0;
              runner != null ==>
                if depth >= depthLimit then
                  && r == Dispatched(SubagentResult("", req.role, "", "error", "subagent max depth exceeded"), Some(MaxDepth))
                  && children == old(children) && runner.requests == old(runner.requests)
                else if had >= childLimit then
                  && r == Dispatched(SubagentResult("", req.role, "", "error", "subagent max children exceeded"), Some(MaxChildren))
                  && children == old(children) && runner.requests == old(runner.requests)
                else
                  && children == old(children)[parentRunId := had + 1]
                  && |runner.requests| == |old(runner.requests)| + 1
                  && var q := runner.requests[|old(runner.requests)|];
                  && runner.requests == old(runner.requests) + [q]
                  && q.parentRunId == parentRunId && q.childRunId == newRunId(old(issued)) && q.depth == depth + 1
                  && q.traceId == traceId && q.userId == userId && q.model == model
                  && q.role == (if Blank(req.role) then "subagent" else TrimSpace(req.role))
                  && (req.outputSchema == "" ==> q.task == TrimSpace(req.task))
                  && (req.outputSchema != "" ==>
                        q.task == TrimSpace(req.task) + "\n\nReturn output matching this JSON schema:\n" + req.outputSchema)
                  && IsCompleted(runner.answer(|old(runner.requests)|, q), q, r)
    {
      hide TrimSpace, Blank, IsCompleted, CallsFor;
      if runner == null {
        return Dispatched(DISABLED, None);
      }
      if depth >= DepthLimit() {
        return Dispatched(SubagentResult("", req.role, "", "error", "subagent max depth exceeded"), Some(MaxDepth));
      }
      if Count(children, parentRunId) >= ChildLimit() {
        return Dispatched(SubagentResult("", req.role, "", "error", "subagent max children exceeded"), Some(MaxChildren));
      }
      var childRunId := newRunId(issued);
      issued := issued + 1;
      var role := Role(req.role);
      var task := TrimSpace(req.task);
      if req.outputSchema != "" {
        task := task + "\n\nReturn output matching this JSON schema:\n" + req.outputSchema;
      }
      var childRequest := ChildRequest(parentRunId, childRunId, traceId, userId, model, role, task, depth + 1);
      r := Launch(childRequest);
      assert runner.requests[|old(runner.requests)|] == childRequest;
    }

    /** Counts a child against its parent and runs it. */
    method Launch(q: ChildRequest) returns (r: Dispatched)
      requires Valid() && runner != null && Count(children, q.parentRunId) < ChildLimit()
      modifies this`children, runner
      ensures Valid() && children == old(children)[q.parentRunId := Count(old(children), q.parentRunId) + 1]
      ensures runner.requests == old(runner.requests) + [q]
      ensures IsCompleted(runner.answer(|old(runner.requests)|, q), q, r)
    {
      hide IsCompleted, CallsFor;
      ghost var log := runner.requests;
      children := children[q.parentRunId := Count(children, q.parentRunId) + 1];
      var o := runner.RunChild(q);
      forall parent ensures CallsFor(runner.requests, parent) == CallsFor(log, parent) + if q.parentRunId == parent then 1 else 0 {
        CallsForSnoc(log, q, parent);
      }
      r := Complete(o, q);
    }
  }

  method Role(given: string) returns (role: string)
    ensures role == if Blank(given) then "subagent" else TrimSpace(given)
  {
    var i, j := TrimSpaceKeepsWindow(given);
    role := TrimSpace(given);
    if role == "" {
      role := "subagent";
    }
  }

  // ---- running a pipeline ----

  datatype PipelineResult = PipelineResult(name: string, results: seq<SubagentResult>, status: string, error: string)
  datatype RunError = NoOrder | StepFailed(error: DispatchError)

  function ErrorText(e: DispatchError): string {
    match e
    case MaxDepth => "subagent max depth exceeded"
    case MaxChildren => "subagent max children exceeded"
    case ChildFailed(message) => message
  }

  /** Results by step id after the first `n` steps of the order. */
  function Outputs<T>(order: seq<Step>, results: seq<T>, n: nat): map<string, T>
    requires n <= |order| && n <= |results|
  {
    if n == 0 then map[] else Outputs(order, results, n - 1)[order[n - 1].id := results[n - 1]]
  }

  function Lookup(outputs: map<string, SubagentResult>, dep: string): SubagentResult {
    if dep in outputs then outputs[dep] else SubagentResult("", "", "", "", "")
  }

  function Line(dep: string, r: SubagentResult): string {
    "- " + dep + " (" + r.status + "): " + r.summary + "\n"
  }

  function DependencyLines(deps: seq<string>, outputs: map<string, SubagentResult>): string {
    if deps == [] then ""
    else
      var dep, r := deps[|deps| - 1], Lookup(outputs, deps[|deps| - 1]);
      DependencyLines(deps[..|deps| - 1], outputs) + Line(dep, r)
  }

  function Prompt(st: Step, outputs: map<string, SubagentResult>): string {
    if st.dependsOn == [] then st.task
    else st.task + "\n\nDependency outputs:\n" + DependencyLines(st.dependsOn, outputs)
  }

  method BuildPrompt(st: Step, outputs: map<string, SubagentResult>) returns (task: string)
    ensures task == Prompt(st, outputs)
  {
    hide Line, Lookup;
    task := st.task;
    if |st.dependsOn| > 0 {
      task := task + "\n\nDependency outputs:\n";
      var head := task;
      for k := 0 to |st.dependsOn|
        invariant task == head + DependencyLines(st.dependsOn[..k], outputs)
      {
        var dep := st.dependsOn[k];
        var r := Lookup(outputs, dep);
        assert st.dependsOn[..k + 1][..k] == st.dependsOn[..k];
        ghost var before := DependencyLines(st.dependsOn[..k], outputs);
        task := task + Line(dep, r);
        assert task == head + (before + Line(dep, r));
      }
      TakeAll(st.dependsOn);
    }
  }

  /** A prompt is the step's task and, if it has dependencies, their heading and one line for each, in the order listed. */
  lemma PromptHoldsLines(st: Step, outputs: map<string, SubagentResult>) returns (lines: seq<string>)
    ensures Prompt(st, outputs) == st.task + if st.dependsOn == [] then "" else "\n\nDependency outputs:\n" + Concat(lines)
    ensures |lines| == |st.dependsOn| && forall k | 0 <= k < |lines| :: IsLineOf(st.dependsOn[k], outputs, lines[k])
  {
    lines := LinesOf(st.dependsOn, outputs);
    hide IsLineOf;
  }

  /** A dependency's line: its id, and the status and summary of its result. */
  ghost predicate IsLineOf(dep: string, outputs: map<string, SubagentResult>, line: string) {
    var r := if dep in outputs then outputs[dep] else SubagentResult("", "", "", "", "");
    line == "- " + dep + " (" + r.status + "): " + r.summary + "\n"
  }

  lemma {:induction false} LinesOf(deps: seq<string>, outputs: map<string, SubagentResult>) returns (lines: seq<string>)
    ensures DependencyLines(deps, outputs) == Concat(lines)
    ensures |lines| == |deps| && forall k | 0 <= k < |deps| :: IsLineOf(deps[k], outputs, lines[k])
  {
    lines := [];
    if deps != [] {
      var n := |deps| - 1;
      var line := Line(deps[n], Lookup(outputs, deps[n]));
      lines := LinesOf(deps[..n], outputs);
      assert IsLineOf(deps[n], outputs, line);
      hide IsLineOf, Line, Lookup;
      ConcatSnoc(lines, line);
      lines := lines + [line];
    }
  }

  /** The table holds, under its own id, the result of each earlier step. */
  lemma {:induction false} OutputsHoldEarlierResults<T>(order: seq<Step>, results: seq<T>, n: nat, j: nat)
    requires j < n <= |order| && n <= |results| && UniqueIds(order)
    ensures order[j].id in Outputs(order, results, n)
    ensures Outputs(order, results, n)[order[j].id] == results[j]
  {
    if j < n - 1 {
      OutputsHoldEarlierResults(order, results, n - 1, j);
    }
  }

  lemma DependenciesAlreadyRan(steps: seq<Step>, order: seq<Step>, results: seq<SubagentResult>, n: nat, dep: string)
    requires IsTopologicalOrder(steps, order) && n < |order| && n <= |results|
    requires dep in order[n].dependsOn
    ensures exists j | 0 <= j < n :: order[j].id == dep && Lookup(Outputs(order, results, n), dep) == results[j]
  {
    assert dep in Ids(order[..n]);
    var j :| 0 <= j < n && order[..n][j].id == dep;
    OutputsHoldEarlierResults(order, results, n, j);
  }

  /** On whose behalf a pipeline runs. */
  datatype Caller = Caller(parentRunId: string, traceId: string, userId: string, model: string)

  ghost predicate AskedWith(st: Step, outputs: map<string, SubagentResult>, q: ChildRequest, who: Caller) {
    && q.parentRunId == who.parentRunId && q.traceId == who.traceId && q.userId == who.userId && q.model == who.model
    && q.depth == 1 && q.role == (if Blank(st.role) then "subagent" else TrimSpace(st.role))
    && q.task == TrimSpace(Prompt(st, outputs))
  }

  /** The i-th request carries the i-th step's prompt, made from the results of the steps before it. */
  ghost predicate AskedAt(order: seq<Step>, results: seq<SubagentResult>, q: ChildRequest, i: nat, who: Caller)
    requires i < |order| && i <= |results|
  {
    AskedWith(order[i], Outputs(order, results, i), q, who)
  }

  /** What the first n steps of a run have left behind in the runner's log. */
  ghost predicate Asked(order: seq<Step>, results: seq<SubagentResult>, asked: seq<ChildRequest>, who: Caller) {
    && |asked| <= |results| && |asked| <= |order|
    && forall i | 0 <= i < |asked| :: AskedAt(order, results, asked[i], i, who)
  }

  lemma {:induction false} OutputsIgnoreLaterResults<T>(order: seq<Step>, results: seq<T>, r: T, n: nat)
    requires n <= |order| && n <= |results|
    ensures Outputs(order, results + [r], n) == Outputs(order, results, n)
  {
    if n > 0 {
      OutputsIgnoreLaterResults(order, results, r, n - 1);
    }
  }

  lemma NoOutputs<T>(order: seq<Step>)
    ensures Outputs<T>(order, [], 0) == map[]
  {
  }

  lemma OutputsSnoc<T>(order: seq<Step>, results: seq<T>, r: T)
    requires |results| < |order|
    ensures Outputs(order, results + [r], |results| + 1) == Outputs(order, results, |results|)[order[|results|].id := r]
  {
    OutputsIgnoreLaterResults(order, results, r, |results|);
  }

  /** What Dispatch makes of the answer to a request, the `k`-th the runner is sent. */
  ghost function AnswerTo(runner: ChildRunner, k: nat, q: ChildRequest): (d: Dispatched)
    ensures IsCompleted(runner.answer(k, q), q, d)
  {
    match runner.answer(k, q)
    case Failed(message) => Dispatched(SubagentResult(q.childRunId, q.role, "", "error", message), Some(ChildFailed(message)))
    case Returned(res) =>
      Dispatched(SubagentResult(if res.childRunId == "" then q.childRunId else res.childRunId,
                                if res.role == "" then q.role else res.role, res.summary,
                                if res.status == "" then "ok" else res.status, res.error), None)
  }

  /** The i-th result is the completed answer to the i-th request, and only the last may be a failure. */
  ghost predicate AnsweredAt(runner: ChildRunner, first: nat, asked: seq<ChildRequest>, results: seq<SubagentResult>, i: nat)
    requires i < |asked| && i < |results|
  {
    var d := AnswerTo(runner, first + i, asked[i]);
    results[i] == d.result && (i < |results| - 1 ==> d.error == None)
  }

  ghost predicate Answered(runner: ChildRunner, first: nat, asked: seq<ChildRequest>, results: seq<SubagentResult>) {
    && |asked| <= |results|
    && forall i | 0 <= i < |asked| :: AnsweredAt(runner, first, asked, results, i)
  }

  lemma AnsweredSnoc(runner: ChildRunner, first: nat, asked: seq<ChildRequest>, results: seq<SubagentResult>,
                     more: seq<ChildRequest>, r: SubagentResult)
    requires Answered(runner, first, asked, results) && |asked| == |results| && |more| <= 1
    requires asked != [] ==> AnswerTo(runner, first + |asked| - 1, asked[|asked| - 1]).error == None
    requires |more| == 1 ==> r == AnswerTo(runner, first + |asked|, more[0]).result
    ensures Answered(runner, first, asked + more, results + [r])
  {
    hide AnswerTo;
    var asked', results' := asked + more, results + [r];
    forall i | 0 <= i < |asked'| ensures AnsweredAt(runner, first, asked', results', i) {
      if i < |asked| {
        assert AnsweredAt(runner, first, asked, results, i);
        assert i < |asked| - 1 || i == |asked| - 1;
      }
    }
  }

  /** Each dependency a request quotes is a step that ran before it without error, with that step's own answer. */
  lemma QuotedStepsRanWell(steps: seq<Step>, order: seq<Step>, runner: ChildRunner, first: nat, asked: seq<ChildRequest>,
                           results: seq<SubagentResult>, i: nat, dep: string)
    requires IsTopologicalOrder(steps, order) && Answered(runner, first, asked, results)
    requires i < |asked| && i < |order| && dep in order[i].dependsOn
    ensures exists j | 0 <= j < i ::
              && order[j].id == dep && AnswerTo(runner, first + j, asked[j]).error == None
              && Lookup(Outputs(order, results, i), dep) == AnswerTo(runner, first + j, asked[j]).result
  {
    DependenciesAlreadyRan(steps, order, results, i, dep);
    var j :| 0 <= j < i && order[j].id == dep && Lookup(Outputs(order, results, i), dep) == results[j];
    assert AnsweredAt(runner, first, asked, results, j);
  }

  ghost predicate AllDisabled(results: seq<SubagentResult>) {
    forall i | 0 <= i < |results| :: results[i] == DISABLED
  }

  ghost predicate NeverFails(runner: ChildRunner) {
    forall k, req :: runner.answer(k, req).Returned?
  }

  /** One round of the loop: the prompt, then the dispatch at depth 0. */
  method RunStep(sup: Supervisor, st: Step, results: map<string, SubagentResult>,
                 parentRunId: string, traceId: string, userId: string, model: string)
    returns (d: Dispatched, ghost asked: seq<ChildRequest>)
    requires sup.Valid()
    modifies sup.Footprint()
    ensures sup.Valid()
    ensures sup.runner == null ==> d == Dispatched(DISABLED, None) && asked == []
    ensures sup.runner != null ==> sup.runner.requests == old(sup.runner.requests) + asked
    ensures sup.runner != null && Count(old(sup.children), parentRunId) >= sup.ChildLimit() ==>
              && d.error == Some(MaxChildren) && asked == []
              && d.result == SubagentResult("", st.role, "", "error", "subagent max children exceeded")
    ensures sup.runner != null && Count(old(sup.children), parentRunId) < sup.ChildLimit() ==>
              && |asked| == 1 && AskedWith(st, results, asked[0], Caller(parentRunId, traceId, userId, model))
              && d == AnswerTo(sup.runner, |old(sup.runner.requests)|, asked[0])
              && Count(sup.children, parentRunId) == Count(old(sup.children), parentRunId) + 1
              && d.error != Some(MaxChildren) && d.error != Some(MaxDepth)
              && (NeverFails(sup.runner) ==> d.error == None)
    ensures d.error.Some? ==> ErrorText(d.error.value) == d.result.error
    ensures sup.runner != null ==> d.error != Some(MaxDepth)
  {
    var task := BuildPrompt(st, results);
    var req := SubagentRequest(st.role, task, "");
    ghost var before := if sup.runner == null then [] else sup.runner.requests;
    d := sup.Dispatch(parentRunId, traceId, userId, model, 0, req);
    asked := if sup.runner == null then [] else sup.runner.requests[|before|..];
  }

  lemma NothingAsked(order: seq<Step>, who: Caller)
    ensures Asked(order, [], [], who)
  {
  }

  lemma NothingAnswered(runner: ChildRunner?, first: nat)
    ensures runner != null ==> Answered(runner, first, [], [])
  {
  }

  lemma AskedSnoc(order: seq<Step>, results: seq<SubagentResult>, asked: seq<ChildRequest>, who: Caller,
                  r: SubagentResult, more: seq<ChildRequest>)
    requires Asked(order, results, asked, who) && |asked| == |results| < |order| && |more| <= 1
    requires |more| == 1 ==> AskedAt(order, results, more[0], |results|, who)
    ensures Asked(order, results + [r], asked + more, who)
  {
    var all := asked + more;
    forall i | 0 <= i < |all|
      ensures AskedAt(order, results + [r], all[i], i, who)
    {
      OutputsIgnoreLaterResults(order, results, r, i);
      if i < |asked| {
        assert AskedAt(order, results, asked[i], i, who);
      }
    }
  }

  /** The loop over the ordered steps. */
  method RunSteps(sup: Supervisor, order: seq<Step>, name: string,
                  parentRunId: string, traceId: string, userId: string, model: string)
    returns (out: PipelineResult, err: Option<DispatchError>, ghost asked: seq<ChildRequest>)
    requires sup.Valid()
    modifies sup.Footprint()
    ensures sup.Valid()
    ensures |out.results| <= |order|
    ensures err == None ==> out.status == "ok" && out.error == "" && |out.results| == |order|
    ensures err.Some? ==> out.status == "error" && out.error == ErrorText(err.value) && |out.results| > 0
                          && out.error == out.results[|out.results| - 1].error
    ensures out.name == name
    ensures sup.runner == null ==> err == None && AllDisabled(out.results)
    ensures sup.runner != null ==>
              && sup.runner.requests == old(sup.runner.requests) + asked
              && Asked(order, out.results, asked, Caller(parentRunId, traceId, userId, model))
              && |asked| == |out.results| - (if err == Some(MaxChildren) then 1 else 0)
              && err != Some(MaxDepth)
              && Answered(sup.runner, |old(sup.runner.requests)|, asked, out.results)
              && (err != Some(MaxChildren) && asked != [] ==>
                    AnswerTo(sup.runner, |old(sup.runner.requests)| + |asked| - 1, asked[|asked| - 1]).error == err)
              && (err == Some(MaxChildren) ==>
                    out.results[|asked|] == SubagentResult("", order[|asked|].role, "", "error", "subagent max children exceeded"))
    ensures sup.runner != null && NeverFails(sup.runner) ==>
              (err == None <==> order == [] || Count(old(sup.children), parentRunId) + |order| <=
                                               if sup.maxChildren > 0 then sup.maxChildren else 4)
  {
    hide Prompt, CallsFor, Asked, AskedAt, AskedWith, Answered, AnsweredAt, AnswerTo, IsCompleted, ErrorText, NeverFails,
      Outputs, Supervisor.Valid;
    asked := [];
    ghost var first := if sup.runner == null then 0 else |sup.runner.requests|;
    var results: map<string, SubagentResult> := map[];
    out := PipelineResult(name, [], "ok", "");
    ghost var who := Caller(parentRunId, traceId, userId, model);
    NothingAsked(order, who);
    NothingAnswered(sup.runner, first);
    NoOutputs<SubagentResult>(order);
    for n := 0 to |order|
      invariant sup.Valid()
      invariant |out.results| == n && out.status == "ok" && out.error == "" && out.name == name
      invariant results == Outputs(order, out.results, n)
      invariant sup.runner == null ==> AllDisabled(out.results)
      invariant sup.runner != null ==>
                  && sup.runner.requests == old(sup.runner.requests) + asked
                  && |asked| == n && Asked(order, out.results, asked, Caller(parentRunId, traceId, userId, model))
                  && Answered(sup.runner, first, asked, out.results)
                  && (n > 0 ==> AnswerTo(sup.runner, first + n - 1, asked[n - 1]).error == None)
                  && Count(sup.children, parentRunId) == Count(old(sup.children), parentRunId) + n
                  && (n == 0 || Count(sup.children, parentRunId) <= sup.ChildLimit())
    {
      var st := order[n];
      ghost var before := out.results;
      var d, more := RunStep(sup, st, results, parentRunId, traceId, userId, model);
      results := results[st.id := d.result];
      out := out.(results := out.results + [d.result]);
      OutputsSnoc(order, before, d.result);
      if sup.runner != null {
        AskedSnoc(order, before, asked, who, d.result, more);
        AnsweredSnoc(sup.runner, first, asked, before, more, d.result);
        asked := asked + more;
      }
      if d.error.Some? {
        return out.(status := "error", error := ErrorText(d.error.value)), d.error, asked;
      }
    }
    err := None;
  }

  /** Runs the steps in the least order, stopping at the first failure. */
  method RunPipeline(sup: Supervisor, p: Pipeline, parentRunId: string, traceId: string, userId: string, model: string)
    returns (out: PipelineResult, err: Option<RunError>, ghost order: seq<Step>, ghost asked: seq<ChildRequest>)
    requires sup.Valid()
    modifies sup.Footprint()
    ensures sup.Valid()
    ensures err == Some(NoOrder) <==> forall q :: !IsTopologicalOrder(p.steps, q)
    ensures err == Some(NoOrder) ==>
              out.results == [] && out.status == "error" && out.error == "pipeline contains a cycle" && asked == []
    ensures err != Some(NoOrder) ==> IsLeastOrder(p.steps, order) && |out.results| <= |order|
    ensures err == None ==> out.status == "ok" && out.error == "" && |out.results| == |order|
    ensures err.Some? && err.value.StepFailed? ==>
              && out.status == "error" && out.error == ErrorText(err.value.error)
              && |out.results| > 0 && out.error == out.results[|out.results| - 1].error
    ensures out.name == p.name
    ensures sup.runner == null && err != Some(NoOrder) ==>
              err == None && AllDisabled(out.results)
    ensures sup.runner != null ==> sup.runner.requests == old(sup.runner.requests) + asked
    ensures sup.runner != null && err != Some(NoOrder) ==>
              && Asked(order, out.results, asked, Caller(parentRunId, traceId, userId, model))
              && |asked| == |out.results| - (if err == Some(StepFailed(MaxChildren)) then 1 else 0)
              && err != Some(StepFailed(MaxDepth))
              && Answered(sup.runner, |old(sup.runner.requests)|, asked, out.results)
              && (err != Some(StepFailed(MaxChildren)) && asked != [] ==>
                    AnswerTo(sup.runner, |old(sup.runner.requests)| + |asked| - 1, asked[|asked| - 1]).error ==
                    if err == None then None else Some(err.value.error))
    ensures sup.runner != null && NeverFails(sup.runner) && err != Some(NoOrder) ==>
              (err == None <==> p.steps == [] || Count(old(sup.children), parentRunId) + |p.steps| <=
                                                 if sup.maxChildren > 0 then sup.maxChildren else 4)
  {
    hide Asked, Answered, AnswerTo, AllDisabled, NeverFails, IsLeastOrder, IsTopologicalOrder, ErrorText;
    var ordered := TopologicalOrder(p);
    if ordered.Err? {
      return PipelineResult(p.name, [], "error", "pipeline contains a cycle"), Some(NoOrder), [], [];
    }
    order := ordered.value;
    LeastOrderIsOrder(p.steps, order);
    var stepErr;
    out, stepErr, asked := RunSteps(sup, ordered.value, p.name, parentRunId, traceId, userId, model);
    err := match stepErr case None => None case Some(e) => Some(StepFailed(e));
  }
}
