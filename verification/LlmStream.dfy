/** The chat-completions stream: lines to events, with tool calls put together from their fragments. */
module LlmStream {
  import opened Wrappers
  import opened Strings
  import opened Trace
  import R = Runner

  datatype Fragment = Fragment(index: int, id: string, kind: string, name: string, arguments: string)
  datatype Choice = Choice(content: string, calls: seq<Fragment>, finish: string)

  /** How reading the body ends. */
  datatype End = Eof | Broken(message: string)

  datatype Emitted = Emitted(event: R.ModelEvent, stopReason: string)

  // ---- what the calls are ----

  datatype Builder = Builder(id: string, kind: string, name: string, arguments: string)

  const EMPTY := Builder("", "", "", "")

  function Later(old_: string, new_: string): string {
    if new_ != "" then new_ else old_
  }

  /** The indices of some fragments, in order of first appearance. */
  function Order(fs: seq<Fragment>): seq<int> {
    if fs == [] then []
    else
      var front, i := Order(fs[..|fs| - 1]), fs[|fs| - 1].index;
      if i in front then front else front + [i]
  }

  /** The fragments of one index. */
  function Only(fs: seq<Fragment>, i: int): seq<Fragment> {
    if fs == [] then []
    else Only(fs[..|fs| - 1], i) + if fs[|fs| - 1].index == i then [fs[|fs| - 1]] else []
  }

  function Arguments(fs: seq<Fragment>): string {
    if fs == [] then "" else Arguments(fs[..|fs| - 1]) + fs[|fs| - 1].arguments
  }

  function LastId(fs: seq<Fragment>): string {
    if fs == [] then "" else Later(LastId(fs[..|fs| - 1]), fs[|fs| - 1].id)
  }

  function LastKind(fs: seq<Fragment>): string {
    if fs == [] then "" else Later(LastKind(fs[..|fs| - 1]), fs[|fs| - 1].kind)
  }

  function LastName(fs: seq<Fragment>): string {
    if fs == [] then "" else Later(LastName(fs[..|fs| - 1]), fs[|fs| - 1].name)
  }

  function Called(b: Builder): R.ToolCall {
    R.ToolCall(b.id, if b.kind == "" then "function" else b.kind, b.name, b.arguments)
  }

  /** The call some fragments of one index make up: arguments in order, last nonempty id, type and name. */
  function BuilderOf(fs: seq<Fragment>): Builder {
    Builder(LastId(fs), LastKind(fs), LastName(fs), Arguments(fs))
  }

  /** One call per index, in order of first appearance. */
  function Built(fs: seq<Fragment>): seq<R.ToolCall> {
    seq(|Order(fs)|, k requires 0 <= k < |Order(fs)| => Called(BuilderOf(Only(fs, Order(fs)[k]))))
  }

  /** `i` has come up by a point at which `j` has not. */
  ghost predicate ComesUpBefore(fs: seq<Fragment>, i: int, j: int) {
    exists k | 0 <= k < |fs| :: fs[k].index == i && forall m | 0 <= m <= k :: fs[m].index != j
  }

  lemma {:induction false} OrderIsFirstAppearances(fs: seq<Fragment>)
    ensures forall i :: i in Order(fs) <==> HasComeUp(fs, i)
    ensures forall a, b | 0 <= a < b < |Order(fs)| :: Order(fs)[a] != Order(fs)[b] && ComesUpBefore(fs, Order(fs)[a], Order(fs)[b])
  {
    if fs != [] {
      var n := |fs| - 1;
      OrderIsFirstAppearances(fs[..n]);
      hide ComesUpBefore;
      forall i ensures i in Order(fs) <==> HasComeUp(fs, i) {
        if i in Order(fs[..n]) {
          var k :| 0 <= k < n && fs[..n][k].index == i;
          assert fs[k].index == i;
        }
        if k :| 0 <= k < |fs| && fs[k].index == i {
          if k < n {
            assert fs[..n][k].index == i;
          }
        }
      }
      forall a, b | 0 <= a < b < |Order(fs)| ensures ComesUpBefore(fs, Order(fs)[a], Order(fs)[b]) {
        ComingUp(fs, Order(fs)[a], Order(fs)[b]);
      }
    }
  }

  /** What comes up with the last fragment comes up after what had come up before. */
  lemma ComingUp(fs: seq<Fragment>, i: int, j: int)
    requires fs != []
    requires var front := fs[..|fs| - 1];
             ComesUpBefore(front, i, j) || (HasComeUp(front, i) && !HasComeUp(front, j))
    ensures ComesUpBefore(fs, i, j)
  {
    var front := fs[..|fs| - 1];
    assert forall k | 0 <= k < |front| :: front[k] == fs[k];
    var k :| 0 <= k < |front| && front[k].index == i && forall m | 0 <= m <= k :: front[m].index != j;
    assert fs[k].index == i && forall m | 0 <= m <= k :: fs[m].index != j;
  }

  ghost predicate HasComeUp(fs: seq<Fragment>, i: int) {
    exists k | 0 <= k < |fs| :: fs[k].index == i
  }

  /** The fragments of an index are exactly those with that index, in order. */
  lemma {:induction false} OnlyPicks(fs: seq<Fragment>, i: int) returns (at: seq<nat>)
    ensures Picks(at, |fs|, k => 0 <= k < |fs| && fs[k].index == i)
    ensures |Only(fs, i)| == |at| && forall k | 0 <= k < |at| :: Only(fs, i)[k] == fs[at[k]]
  {
    hide *;
    LastOnly(fs, i);
    at := [];
    if fs == [] {
      NoPicks(k => 0 <= k < |fs| && fs[k].index == i);
    } else {
      var n := |fs| - 1;
      at := OnlyPicks(fs[..n], i);
      PicksWithin(at, n, k => 0 <= k < n && fs[..n][k].index == i);
      PicksNext(at, n, k => 0 <= k < n && fs[..n][k].index == i, k => 0 <= k < |fs| && fs[k].index == i);
      if fs[n].index == i {
        at := at + [n];
      }
    }
  }

  lemma LastOnly(fs: seq<Fragment>, i: int)
    ensures fs == [] ==> Only(fs, i) == []
    ensures fs != [] ==>
              var n := |fs| - 1;
              Only(fs, i) == if fs[n].index == i then Only(fs[..n], i) + [fs[n]] else Only(fs[..n], i)
  {
  }

  /** The last value that is not empty, if there is one. */
  ghost predicate IsLatest(values: seq<string>, v: string) {
    if forall k | 0 <= k < |values| :: values[k] == "" then v == ""
    else exists k | 0 <= k < |values| :: v == values[k] != "" && forall m | k < m < |values| :: values[m] == ""
  }

  lemma LaterIsLatest(values: seq<string>, v: string, next: string)
    requires IsLatest(values, v)
    ensures IsLatest(values + [next], Later(v, next))
  {
    var all := values + [next];
    if next != "" {
      assert all[|values|] == next;
    } else if k :| 0 <= k < |values| && v == values[k] != "" && forall m | k < m < |values| :: values[m] == "" {
      assert all[k] == v;
    } else {
      assert forall k | 0 <= k < |values| :: values[k] == "" && all[k] == values[k];
    }
  }

  /** What a call's fragments make up: the latest id, type and name that are not empty, and all the arguments in order. */
  lemma {:induction false} BuilderHolds(fs: seq<Fragment>) returns (ids: seq<string>, kinds: seq<string>, names: seq<string>, args: seq<string>)
    ensures |ids| == |kinds| == |names| == |args| == |fs|
    ensures forall k | 0 <= k < |fs| :: fs[k] == Fragment(fs[k].index, ids[k], kinds[k], names[k], args[k])
    ensures IsLatest(ids, BuilderOf(fs).id) && IsLatest(kinds, BuilderOf(fs).kind) && IsLatest(names, BuilderOf(fs).name)
    ensures BuilderOf(fs).arguments == Concat(args)
  {
    ids, kinds, names, args := [], [], [], [];
    if fs != [] {
      var n := |fs| - 1;
      ids, kinds, names, args := BuilderHolds(fs[..n]);
      LaterIsLatest(ids, LastId(fs[..n]), fs[n].id);
      LaterIsLatest(kinds, LastKind(fs[..n]), fs[n].kind);
      LaterIsLatest(names, LastName(fs[..n]), fs[n].name);
      ConcatSnoc(args, fs[n].arguments);
      hide IsLatest, Concat, Later;
      ids, kinds, names, args := ids + [fs[n].id], kinds + [fs[n].kind], names + [fs[n].name], args + [fs[n].arguments];
    }
  }

  // ---- the code that assembles them ----

  class Assembler {
    var builders: map<int, Builder>
    var order: seq<int>

    /** The builders hold what the fragments so far make up. */
    ghost predicate Holds(fs: seq<Fragment>)
      reads this
    {
      && order == Order(fs)
      && builders.Keys == (set i | i in order)
      && forall i | i in builders :: builders[i] == BuilderOf(Only(fs, i))
    }

    constructor ()
      ensures Holds([])
    {
      builders, order := map[], [];
    }

    method Add(f: Fragment, ghost fs: seq<Fragment>)
      requires Holds(fs)
      modifies this
      ensures Holds(fs + [f])
    {
      OneMoreFragment(fs, f);
      hide Order, Only, BuilderOf;
      var b := if f.index in builders then builders[f.index] else EMPTY;
      if f.index !in builders {
        order := order + [f.index];
      }
      if f.id != "" {
        b := b.(id := f.id);
      }
      if f.kind != "" {
        b := b.(kind := f.kind);
      }
      if f.name != "" {
        b := b.(name := f.name);
      }
      if f.arguments != "" {
        b := b.(arguments := b.arguments + f.arguments);
      }
      builders := builders[f.index := b];
    }

    lemma CountsFragments(fs: seq<Fragment>)
      requires Holds(fs)
      ensures |builders| > 0 <==> fs != []
    {
      NoFragmentsNoOrder(fs);
      if order == [] {
        assert builders.Keys == {};
      } else {
        assert order[0] in order;
        assert order[0] in builders.Keys;
      }
    }

    method BuiltToolCalls(ghost fs: seq<Fragment>) returns (out: seq<R.ToolCall>)
      requires Holds(fs)
      ensures out == Built(fs)
      ensures |out| == |Order(fs)| && forall k | 0 <= k < |out| ::
                var b := BuilderOf(Only(fs, Order(fs)[k]));
                && out[k].id == b.id && out[k].name == b.name && out[k].arguments == b.arguments
                && out[k].kind == if b.kind != "" then b.kind else "function"
    {
      hide Order, Only, BuilderOf;
      assert forall k | 0 <= k < |order| :: order[k] in order;
      out := [];
      for k := 0 to |order|
        invariant |out| == k && forall j | 0 <= j < k :: out[j] == Called(BuilderOf(Only(fs, order[j])))
      {
        var b := builders[order[k]];
        out := out + [R.ToolCall(b.id, if b.kind == "" then "function" else b.kind, b.name, b.arguments)];
      }
    }
  }

  /** What one more fragment does to the builder of its index. */
  function Updated(b: Builder, f: Fragment): Builder {
    Builder(Later(b.id, f.id), Later(b.kind, f.kind), Later(b.name, f.name), b.arguments + f.arguments)
  }

  lemma {:induction false} OneMoreFragment(fs: seq<Fragment>, f: Fragment)
    ensures Order(fs + [f]) == if f.index in Order(fs) then Order(fs) else Order(fs) + [f.index]
    ensures forall i | i != f.index :: Only(fs + [f], i) == Only(fs, i)
    ensures BuilderOf(Only(fs + [f], f.index)) == Updated(BuilderOf(Only(fs, f.index)), f)
    ensures f.index !in Order(fs) ==> BuilderOf(Only(fs, f.index)) == EMPTY
  {
    assert (fs + [f])[..|fs|] == fs;
    var one := Only(fs, f.index);
    assert (one + [f])[..|one|] == one;
    AbsentHasNone(fs, f.index);
    forall i | i != f.index ensures Only(fs + [f], i) == Only(fs, i) {
      assert Only(fs, i) + [] == Only(fs, i);
    }
  }

  lemma {:induction false} AbsentHasNone(fs: seq<Fragment>, i: int)
    ensures i !in Order(fs) ==> Only(fs, i) == []
  {
    if fs != [] {
      AbsentHasNone(fs[..|fs| - 1], i);
    }
  }

  /** Where a call is cut into fragments does not matter: two neighbours of one index count as one. */
  lemma {:induction false} CuttingDoesNotMatter(before: seq<Fragment>, f: Fragment, g: Fragment, after: seq<Fragment>)
    requires f.index == g.index
    ensures var merged := Fragment(f.index, Later(f.id, g.id), Later(f.kind, g.kind), Later(f.name, g.name), f.arguments + g.arguments);
            var two, one := before + [f] + [g] + after, before + [merged] + after;
            && Order(two) == Order(one)
            && (forall i :: BuilderOf(Only(two, i)) == BuilderOf(Only(one, i)))
            && Built(two) == Built(one)
    decreases |after|
  {
    var merged := Fragment(f.index, Later(f.id, g.id), Later(f.kind, g.kind), Later(f.name, g.name), f.arguments + g.arguments);
    var two, one := before + [f] + [g] + after, before + [merged] + after;
    hide Order, Only, BuilderOf;
    if after == [] {
      assert two == before + [f] + [g] && one == before + [merged];
      OneMoreFragment(before, f);
      OneMoreFragment(before + [f], g);
      OneMoreFragment(before, merged);
    } else {
      var n := |after| - 1;
      var two', one' := before + [f] + [g] + after[..n], before + [merged] + after[..n];
      assert two == two' + [after[n]] && one == one' + [after[n]];
      CuttingDoesNotMatter(before, f, g, after[..n]);
      OneMoreFragment(two', after[n]);
      OneMoreFragment(one', after[n]);
    }
    SameBuilders(two, one);
  }

  /** How fragments of different calls are interleaved does not matter, as long as the calls come up in the same
      order: two neighbours of different indices can be swapped once one of the indices has occurred. */
  lemma {:induction false} SwappingDoesNotMatter(before: seq<Fragment>, f: Fragment, g: Fragment, after: seq<Fragment>)
    requires f.index != g.index && (f.index in Order(before) || g.index in Order(before))
    ensures var one, two := before + [f] + [g] + after, before + [g] + [f] + after;
            && Order(two) == Order(one)
            && (forall i :: BuilderOf(Only(two, i)) == BuilderOf(Only(one, i)))
            && Built(two) == Built(one)
    decreases |after|
  {
    var one, two := before + [f] + [g] + after, before + [g] + [f] + after;
    hide Order, Only, BuilderOf;
    if after == [] {
      assert one == before + [f] + [g] && two == before + [g] + [f];
      OneMoreFragment(before, f);
      OneMoreFragment(before + [f], g);
      OneMoreFragment(before, g);
      OneMoreFragment(before + [g], f);
    } else {
      var n := |after| - 1;
      var one', two' := before + [f] + [g] + after[..n], before + [g] + [f] + after[..n];
      assert one == one' + [after[n]] && two == two' + [after[n]];
      SwappingDoesNotMatter(before, f, g, after[..n]);
      OneMoreFragment(one', after[n]);
      OneMoreFragment(two', after[n]);
    }
    SameBuilders(two, one);
  }

  lemma {:induction false} SameBuilders(fs: seq<Fragment>, gs: seq<Fragment>)
    requires Order(fs) == Order(gs) && forall i :: BuilderOf(Only(fs, i)) == BuilderOf(Only(gs, i))
    ensures Built(fs) == Built(gs)
  {
    forall k | 0 <= k < |Order(fs)| ensures Built(fs)[k] == Built(gs)[k] {
      assert BuilderOf(Only(fs, Order(fs)[k])) == BuilderOf(Only(gs, Order(fs)[k]));
    }
  }

  // ---- from lines to events ----

  datatype Item = Content(text: string) | Frag(fragment: Fragment) | Finish(reason: string) | DoneMark

  function FragItems(fs: seq<Fragment>): seq<Item> {
    if fs == [] then [] else [Frag(fs[0])] + FragItems(fs[1..])
  }

  function ChoiceItems(c: Choice): seq<Item> {
    (if c.content == "" then [] else [Content(c.content)]) + FragItems(c.calls) +
    (if c.finish == "" then [] else [Finish(c.finish)])
  }

  function ChoicesItems(cs: seq<Choice>): seq<Item> {
    if cs == [] then [] else ChoiceItems(cs[0]) + ChoicesItems(cs[1..])
  }

  function TrimNewlines(line: string): string {
    if line != "" && (line[|line| - 1] == '\r' || line[|line| - 1] == '\n') then TrimNewlines(line[..|line| - 1]) else line
  }

  const DATA := "data:"

  /** What a line carries: a data line holds a chunk, the end mark, or nothing that counts. */
  function LineItems(line: string, decode: string -> Option<seq<Choice>>): seq<Item> {
    var trimmed := TrimNewlines(line);
    if !(DATA <= trimmed) then []
    else
      var payload := TrimSpace(trimmed[|DATA|..]);
      if payload == "" then []
      else if payload == "[DONE]" then [DoneMark]
      else match decode(payload) case None => [] case Some(choices) => ChoicesItems(choices)
  }

  /** A line counts if it begins with "data:". Trimmed, what follows is the end mark, or a payload, whose choices are the line's
      items if it can be decoded; nothing else counts. */
  lemma {:induction false} DataLinesCount(line: string, payload: string, gap: string, end: string, decode: string -> Option<seq<Choice>>)
    requires line == "data:" + gap + payload + end && Blank(gap) && (payload == "" || Tight(payload))
    requires end == "" || end == "\n" || end == "\r\n"
    ensures payload == "[DONE]" ==> LineItems(line, decode) == [DoneMark]
    ensures payload == "" || (payload != "[DONE]" && decode(payload) == None) ==> LineItems(line, decode) == []
    ensures payload != "" && payload != "[DONE]" && decode(payload).Some? ==>
              LineItems(line, decode) == ChoicesItems(decode(payload).value)
  {
    var body := "data:" + (gap + payload);
    assert line == body + end;
    NewlinesAreTrimmed(body, end);
    var text, rest := HeadStays(gap + payload);
    TrimmedPayload(text, rest, gap, payload);
    assert TrimNewlines(line) == DATA + text && (DATA + text)[|DATA|..] == text;
    hide TrimNewlines, TrimSpace, ChoicesItems;
  }

  /** Cutting off newlines leaves the head of a data line. */
  lemma HeadStays(content: string) returns (text: string, rest: string)
    ensures TrimNewlines("data:" + content) == "data:" + text && text + rest == content
    ensures forall c | c in rest :: c == '\r' || c == '\n'
  {
    var body := "data:" + content;
    rest := NewlinesAtEnd(body);
    var trimmed := TrimNewlines(body);
    assert body[4] == ':';
    forall k | |trimmed| <= k < |body| ensures body[k] == '\r' || body[k] == '\n' {
      assert body[k] == rest[k - |trimmed|] && rest[k - |trimmed|] in rest;
    }
    assert |trimmed| >= 5;
    text := trimmed[5..];
    assert trimmed == trimmed[..5] + text && trimmed[..5] == body[..5] && body[5..] == content;
  }

  lemma LineThatDoesNotCount(line: string, decode: string -> Option<seq<Choice>>)
    requires !("data:" <= line)
    ensures LineItems(line, decode) == []
  {
    var rest := NewlinesAtEnd(line);
    assert DATA <= TrimNewlines(line) ==> DATA <= TrimNewlines(line) + rest;
  }

  /** What is cut off is newlines. */
  lemma {:induction false} NewlinesAtEnd(line: string) returns (rest: string)
    ensures line == TrimNewlines(line) + rest && forall c | c in rest :: c == '\r' || c == '\n'
    ensures TrimNewlines(line) != "" ==> var n := |TrimNewlines(line)| - 1;
                                         TrimNewlines(line)[n] != '\r' && TrimNewlines(line)[n] != '\n'
  {
    rest := "";
    if line != "" && (line[|line| - 1] == '\r' || line[|line| - 1] == '\n') {
      rest := NewlinesAtEnd(line[..|line| - 1]);
      rest := rest + [line[|line| - 1]];
    }
  }

  lemma NewlinesAreTrimmed(body: string, end: string)
    requires end == "" || end == "\n" || end == "\r\n"
    ensures TrimNewlines(body + end) == TrimNewlines(body)
  {
    var line := body + end;
    if end == "\r\n" {
      assert line[..|line| - 1] == body + "\r";
      assert (body + "\r")[..|body|] == body;
    } else if end == "\n" {
      assert line[..|line| - 1] == body;
    } else {
      assert line == body;
    }
  }

  lemma TrimmedPayload(text: string, rest: string, gap: string, payload: string)
    requires text + rest == gap + payload && Blank(gap) && (payload == "" || Tight(payload))
    requires forall c | c in rest :: c == '\r' || c == '\n'
    ensures TrimSpace(text) == payload
  {
    if payload == "" {
      assert gap + payload == gap && text == (text + rest)[..|text|];
      assert forall c | c in text :: c in gap;
      var i, j := TrimSpaceKeepsWindow(text);
    } else {
      var all := text + rest;
      assert all[|all| - 1] == payload[|payload| - 1];
      forall k | |text| <= k < |all| ensures IsSpace(all[k]) {
        assert all[k] == rest[k - |text|] && rest[k - |text|] in rest;
      }
      assert rest == "";
      assert text == gap + payload;
      GapIsTrimmed(gap, payload);
    }
  }

  lemma {:induction false} GapIsTrimmed(gap: string, payload: string)
    requires Blank(gap) && Tight(payload)
    ensures TrimSpace(gap + payload) == payload
  {
    if gap == "" {
      assert gap + payload == payload;
      TightUntouched(payload);
    } else {
      assert gap[0] in gap && (gap + payload)[1..] == gap[1..] + payload;
      GapIsTrimmed(gap[1..], payload);
    }
  }

  /** A choice's items: its text unless empty, its fragments in order, its finish reason unless empty. */
  lemma ChoiceHolds(c: Choice)
    ensures var items := ChoiceItems(c);
            var from := if c.content == "" then 0 else 1;
            && |items| == from + |c.calls| + (if c.finish == "" then 0 else 1)
            && (c.content != "" ==> items[0] == Content(c.content))
            && (forall k | 0 <= k < |c.calls| :: items[from + k] == Frag(c.calls[k]))
            && (c.finish != "" ==> items[|items| - 1] == Finish(c.finish))
  {
    FragItemsAt(c.calls);
  }

  lemma {:induction false} FragItemsAt(fs: seq<Fragment>)
    ensures |FragItems(fs)| == |fs| && forall k | 0 <= k < |fs| :: FragItems(fs)[k] == Frag(fs[k])
  {
    if fs != [] {
      FragItemsAt(fs[1..]);
    }
  }

  /** Choices and lines add their items in order. */
  lemma {:induction false} ItemsAddUp(cs: seq<Choice>, ds: seq<Choice>)
    ensures ChoicesItems(cs + ds) == ChoicesItems(cs) + ChoicesItems(ds)
  {
    if cs == [] {
      assert cs + ds == ds;
    } else {
      assert (cs + ds)[1..] == cs[1..] + ds;
      ItemsAddUp(cs[1..], ds);
      Associates(ChoiceItems(cs[0]), ChoicesItems(cs[1..]), ChoicesItems(ds));
      hide ChoiceItems;
    }
  }

  lemma {:induction false} LinesAddUp(lines: seq<string>, more: seq<string>, decode: string -> Option<seq<Choice>>)
    ensures BodyItems(lines + more, decode) == BodyItems(lines, decode) + BodyItems(more, decode)
  {
    if lines == [] {
      assert lines + more == more;
    } else {
      assert (lines + more)[1..] == lines[1..] + more;
      LinesAddUp(lines[1..], more, decode);
      Associates(LineItems(lines[0], decode), BodyItems(lines[1..], decode), BodyItems(more, decode));
      hide LineItems;
    }
  }

  function BodyItems(lines: seq<string>, decode: string -> Option<seq<Choice>>): seq<Item> {
    if lines == [] then [] else LineItems(lines[0], decode) + BodyItems(lines[1..], decode)
  }

  function Token(text: string): Emitted {
    Emitted(R.ModelEvent(text, [], false, None), "")
  }

  function Ended(reason: string): Emitted {
    Emitted(R.ModelEvent("", [], true, None), reason)
  }

  /** What is emitted for the items still to come, `fs` being the fragments so far. */
  function Out(fs: seq<Fragment>, items: seq<Item>, end: End): seq<Emitted>
    decreases |items|
  {
    if items == [] then
      [if end.Eof? then Ended("") else Emitted(R.ModelEvent("", [], false, Some("sse read: " + end.message)), "")]
    else
      match items[0]
      case Content(text) => [Token(text)] + Out(fs, items[1..], end)
      case Frag(f) => Out(fs + [f], items[1..], end)
      case DoneMark => [Ended("")]
      case Finish(reason) => ToolCallsAtFinish(fs, reason) + [Ended(reason)]
  }

  function ToolCallsAtFinish(fs: seq<Fragment>, reason: string): seq<Emitted> {
    if reason == "tool_calls" && fs != [] then [CallsEvent(Built(fs))] else []
  }

  function CallsEvent(calls: seq<R.ToolCall>): Emitted {
    Emitted(R.ModelEvent("", calls, false, None), "tool_calls")
  }

  lemma {:induction false} NoFragmentsNoOrder(fs: seq<Fragment>)
    ensures Order(fs) == [] <==> fs == []
  {
    hide Only, BuilderOf;
    if fs != [] {
      OneMoreFragment(fs[..|fs| - 1], fs[|fs| - 1]);
      assert fs == fs[..|fs| - 1] + [fs[|fs| - 1]];
    }
  }

  lemma {:induction false} ChoiceInParts(c: Choice, rest: seq<Item>)
    ensures var tail := (if c.finish == "" then [] else [Finish(c.finish)]) + rest;
            && (c.content == "" ==> ChoiceItems(c) + rest == FragItems(c.calls) + tail)
            && (c.content != "" ==> ChoiceItems(c) + rest == [Content(c.content)] + (FragItems(c.calls) + tail))
  {
  }

  lemma NoMoreFragments(calls: seq<Fragment>, rest: seq<Item>)
    ensures FragItems(calls[|calls|..]) + rest == rest
  {
  }

  lemma {:induction false} ContentNext(fs: seq<Fragment>, text: string, rest: seq<Item>, end: End)
    ensures Out(fs, [Content(text)] + rest, end) == [Token(text)] + Out(fs, rest, end)
  {
    assert ([Content(text)] + rest)[1..] == rest;
  }

  lemma {:induction false} FragmentNext(fs: seq<Fragment>, calls: seq<Fragment>, rest: seq<Item>, end: End)
    requires calls != []
    ensures Out(fs, FragItems(calls) + rest, end) == Out(fs + [calls[0]], FragItems(calls[1..]) + rest, end)
  {
    assert (FragItems(calls) + rest)[1..] == FragItems(calls[1..]) + rest;
  }

  lemma {:induction false} StopNext(fs: seq<Fragment>, item: Item, rest: seq<Item>, end: End)
    requires item.Finish? || item.DoneMark?
    ensures Out(fs, [item] + rest, end) ==
            if item.Finish? then ToolCallsAtFinish(fs, item.reason) + [Ended(item.reason)] else [Ended("")]
  {
  }

  /** The reading goroutine; a send fails once the context is cancelled. */
  class Streamer {
    const decode: string -> Option<seq<Choice>>
    const sendFails: nat -> bool
    const assembler: Assembler
    var out: seq<Emitted>
    var sends: nat
    /** Everything that is to be emitted, and the fragments so far. */
    ghost const total: seq<Emitted>
    ghost var fs: seq<Fragment>

    constructor (decode: string -> Option<seq<Choice>>, sendFails: nat -> bool, ghost total: seq<Emitted>)
      ensures out == [] && fs == [] && assembler.Holds([]) && fresh(assembler)
      ensures this.decode == decode && this.sendFails == sendFails && this.total == total
    {
      this.decode, this.sendFails, this.total := decode, sendFails, total;
      assembler := new Assembler();
      out, sends, fs := [], 0, [];
    }

    /** What has been emitted, followed by what the remaining items call for, is everything. */
    ghost predicate Ahead(items: seq<Item>, end: End)
      reads this, assembler
    {
      assembler.Holds(fs) && total == out + Out(fs, items, end)
    }

    ghost predicate Patient() {
      forall k :: !sendFails(k)
    }

    /** Reading is over: everything has been emitted, or a first part of it if sends failed. */
    ghost predicate Stopped()
      reads this
    {
      out <= total && (Patient() ==> out == total)
    }

    method Send(e: Emitted) returns (ok: bool)
      modifies this`out, this`sends
      ensures ok <==> !sendFails(old(sends))
      ensures sends == old(sends) + 1
      ensures out == old(out) + if ok then [e] else []
    {
      ok := !sendFails(sends);
      if ok {
        out := out + [e];
      }
      sends := sends + 1;
    }

    method HandleChoice(c: Choice, ghost rest: seq<Item>, ghost end: End) returns (stop: bool)
      requires Ahead(ChoiceItems(c) + rest, end)
      modifies this`out, this`sends, this`fs, assembler
      ensures !stop ==> Ahead(rest, end)
      ensures stop ==> Stopped()
    {
      var calls := c.calls;
      ghost var tail := (if c.finish == "" then [] else [Finish(c.finish)]) + rest;
      ghost var before := out;
      ChoiceInParts(c, rest);
      hide ChoiceItems, FragItems, Out;
      assert calls[0..] == calls;
      if c.content != "" {
        ContentNext(fs, c.content, FragItems(calls) + tail, end);
        var ok := Send(Token(c.content));
        if !ok {
          return true;
        }
        assert out + Out(fs, FragItems(calls) + tail, end) == before + ([Token(c.content)] + Out(fs, FragItems(calls) + tail, end));
      }
      for k := 0 to |calls|
        invariant Ahead(FragItems(calls[k..]) + tail, end)
      {
        FragmentNext(fs, calls[k..], tail, end);
        assembler.Add(calls[k], fs);
        fs := fs + [calls[k]];
      }
      NoMoreFragments(calls, tail);
      if c.finish != "" {
        StopNext(fs, Finish(c.finish), rest, end);
        FinishChoice(c.finish);
        return true;
      }
      assert tail == rest;
      stop := false;
    }

    /** The last events, until a send fails. */
    method SendAll(es: seq<Emitted>)
      requires total == out + es
      modifies this`out, this`sends
      ensures Stopped()
    {
      for i := 0 to |es|
        invariant total == out + es[i..]
      {
        var ok := Send(es[i]);
        if !ok {
          return;
        }
      }
    }

    method FinishChoice(reason: string)
      requires assembler.Holds(fs) && total == out + (ToolCallsAtFinish(fs, reason) + [Ended(reason)])
      modifies this`out, this`sends
      ensures Stopped()
    {
      assembler.CountsFragments(fs);
      var last: seq<Emitted> := [];
      if reason == "tool_calls" && |assembler.builders| > 0 {
        var calls := assembler.BuiltToolCalls(fs);
        last := [Emitted(R.ModelEvent("", calls, false, None), "tool_calls")];
      }
      assert last == ToolCallsAtFinish(fs, reason);
      hide *;
      SendAll(last + [Ended(reason)]);
    }

    method HandleChoices(cs: seq<Choice>, ghost rest: seq<Item>, ghost end: End) returns (stop: bool)
      requires Ahead(ChoicesItems(cs) + rest, end)
      modifies this`out, this`sends, this`fs, assembler
      ensures !stop ==> Ahead(rest, end)
      ensures stop ==> Stopped()
    {
      hide ChoiceItems, Out;
      for k := 0 to |cs|
        invariant Ahead(ChoicesItems(cs[k..]) + rest, end)
      {
        assert ChoicesItems(cs[k..]) + rest == ChoiceItems(cs[k]) + (ChoicesItems(cs[k + 1..]) + rest);
        stop := HandleChoice(cs[k], ChoicesItems(cs[k + 1..]) + rest, end);
        if stop {
          return;
        }
      }
      assert ChoicesItems(cs[|cs|..]) + rest == rest;
      stop := false;
    }

    /** One line of the body. */
    method HandleLine(line: string, ghost rest: seq<Item>, ghost end: End) returns (stop: bool)
      requires Ahead(LineItems(line, decode) + rest, end)
      modifies this`out, this`sends, this`fs, assembler
      ensures !stop ==> Ahead(rest, end)
      ensures stop ==> Stopped()
    {
      hide Out, ChoicesItems;
      assert [] + rest == rest;
      var trimmed := TrimNewlines(line);
      if !(DATA <= trimmed) {
        return false;
      }
      var payload := TrimSpace(trimmed[|DATA|..]);
      if payload == "" {
        return false;
      }
      if payload == "[DONE]" {
        StopNext(fs, DoneMark, rest, end);
        var sent := Send(Ended(""));
        return true;
      }
      var chunk := decode(payload);
      if chunk == None {
        return false;
      }
      stop := HandleChoices(chunk.value, rest, end);
    }

    /** Reads lines until the stream stops or the body ends; the last line may come together with the end. */
    method Run(lines: seq<string>, partial: bool, end: End)
      requires Ahead(BodyItems(lines, decode), end)
      modifies this`out, this`sends, this`fs, assembler
      ensures Stopped()
    {
      hide LineItems;
      var i := 0;
      while true
        invariant i <= |lines| && Ahead(BodyItems(lines[i..], decode), end)
        decreases |lines| - i
      {
        var atEnd := i == |lines| || (partial && i == |lines| - 1);
        if i < |lines| {
          var line := lines[i];
          i := i + 1;
          var stop := HandleLine(line, BodyItems(lines[i..], decode), end);
          if stop {
            return;
          }
        }
        if atEnd {
          var sent := Send(if end.Eof? then Ended("") else Emitted(R.ModelEvent("", [], false, Some("sse read: " + end.message)), ""));
          return;
        }
      }
    }
  }

  /** The events of a body: those called for by its items, or a first part of them if the context was cancelled. */
  method Stream(lines: seq<string>, partial: bool, end: End, decode: string -> Option<seq<Choice>>, sendFails: nat -> bool)
    returns (out: seq<Emitted>)
    ensures out <= Out([], BodyItems(lines, decode), end)
    ensures (forall k :: !sendFails(k)) ==> out == Out([], BodyItems(lines, decode), end)
  {
    hide Out, BodyItems, LineItems;
    var s := new Streamer(decode, sendFails, Out([], BodyItems(lines, decode), end));
    assert [] + Out([], BodyItems(lines, decode), end) == Out([], BodyItems(lines, decode), end);
    s.Run(lines, partial, end);
    out := s.out;
  }

  // ---- what the events say ----

  predicate Stops(item: Item) {
    item.Finish? || item.DoneMark?
  }

  /** The first item that stops the stream, or the number of items. */
  function StopAt(items: seq<Item>): (n: nat)
    ensures n <= |items|
  {
    if items == [] || Stops(items[0]) then 0 else 1 + StopAt(items[1..])
  }

  lemma {:induction false} StopAtIsFirst(items: seq<Item>)
    ensures forall i | 0 <= i < StopAt(items) :: !Stops(items[i])
    ensures StopAt(items) < |items| ==> Stops(items[StopAt(items)])
  {
    if items != [] && !Stops(items[0]) {
      StopAtIsFirst(items[1..]);
      assert forall i | 1 <= i <= StopAt(items[1..]) :: items[i] == items[1..][i - 1];
    }
  }

  function Texts(items: seq<Item>): seq<string> {
    if items == [] then [] else (if items[0].Content? then [items[0].text] else []) + Texts(items[1..])
  }

  function Fragments(items: seq<Item>): seq<Fragment> {
    if items == [] then [] else (if items[0].Frag? then [items[0].fragment] else []) + Fragments(items[1..])
  }

  function TokenEvents(texts: seq<string>): seq<Emitted> {
    if texts == [] then [] else [Token(texts[0])] + TokenEvents(texts[1..])
  }

  /** What comes after the tokens: the calls if they were asked for, and one terminal event. */
  function Ending(fs: seq<Fragment>, items: seq<Item>, n: nat, end: End): seq<Emitted>
    requires n <= |items|
  {
    if n == |items| then Out(fs, [], end)
    else if items[n].Finish? then ToolCallsAtFinish(fs, items[n].reason) + [Ended(items[n].reason)]
    else [Ended("")]
  }

  /** An item that does not stop the stream. */
  lemma {:induction false} OutNext(fs: seq<Fragment>, item: Item, rest: seq<Item>, end: End)
    requires !Stops(item)
    ensures Out(fs, [item] + rest, end) ==
            (if item.Content? then [Token(item.text)] else []) + Out(if item.Frag? then fs + [item.fragment] else fs, rest, end)
  {
    assert ([item] + rest)[1..] == rest;
  }

  lemma {:induction false} PartsNext(item: Item, rest: seq<Item>)
    requires !Stops(item)
    ensures StopAt([item] + rest) == 1 + StopAt(rest)
    ensures ([item] + rest)[..1 + StopAt(rest)] == [item] + rest[..StopAt(rest)]
  {
    assert ([item] + rest)[1..] == rest;
  }

  lemma {:induction false} TextsNext(item: Item, items: seq<Item>)
    ensures Texts([item] + items) == (if item.Content? then [item.text] else []) + Texts(items)
    ensures Fragments([item] + items) == (if item.Frag? then [item.fragment] else []) + Fragments(items)
    ensures TokenEvents(Texts([item] + items)) == (if item.Content? then [Token(item.text)] else []) + TokenEvents(Texts(items))
  {
    assert ([item] + items)[1..] == items;
    assert [] + Texts(items) == Texts(items);
    if item.Content? {
      assert ([item.text] + Texts(items))[1..] == Texts(items);
    }
  }

  /** Everything emitted: the content deltas in order up to the stop, then the ending. */
  lemma {:induction false} OutInParts(fs: seq<Fragment>, items: seq<Item>, end: End)
    ensures var n := StopAt(items);
            Out(fs, items, end) == TokenEvents(Texts(items[..n])) + Ending(fs + Fragments(items[..n]), items, n, end)
    decreases |items|
  {
    var n := StopAt(items);
    if n > 0 {
      var item, rest := items[0], items[1..];
      assert items == [item] + rest;
      PartsNext(item, rest);
      TextsNext(item, rest[..n - 1]);
      OutNext(fs, item, rest, end);
      OutInParts(if item.Frag? then fs + [item.fragment] else fs, rest, end);
      hide *;
      Associates(fs, if item.Frag? then [item.fragment] else [], Fragments(rest[..n - 1]));
      Associates(if item.Content? then [Token(item.text)] else [], TokenEvents(Texts(rest[..n - 1])),
                 Ending(fs + Fragments(items[..n]), rest, n - 1, end));
      assert fs + [] == fs;
    } else {
      NothingBeforeStop(fs, items, end);
    }
  }

  lemma {:induction false} NothingBeforeStop(fs: seq<Fragment>, items: seq<Item>, end: End)
    requires StopAt(items) == 0
    ensures Out(fs, items, end) == Ending(fs, items, 0, end)
    ensures TokenEvents(Texts(items[..0])) == [] && fs + Fragments(items[..0]) == fs
  {
    assert items[..0] == [];
  }

  predicate IsLast(e: Emitted) {
    e.event.done || e.event.err.Some?
  }

  /** Uncancelled, a stream has exactly one terminal event, and it comes last. */
  lemma {:induction false} OneTerminalEvent(fs: seq<Fragment>, items: seq<Item>, end: End)
    ensures var out := Out(fs, items, end);
            out != [] && forall i | 0 <= i < |out| :: IsLast(out[i]) <==> i == |out| - 1
    decreases |items|
  {
    if items != [] && !Stops(items[0]) {
      var item := items[0];
      var fs' := if item.Frag? then fs + [item.fragment] else fs;
      OneTerminalEvent(fs', items[1..], end);
      var rest, out := Out(fs', items[1..], end), Out(fs, items, end);
      if item.Content? {
        assert out == [Token(item.text)] + rest;
        forall i | 0 <= i < |out| ensures IsLast(out[i]) <==> i == |out| - 1 {
          if i > 0 {
            assert out[i] == rest[i - 1];
          }
        }
      }
    }
  }

  function Plain(es: seq<Emitted>): seq<R.ModelEvent> {
    seq(|es|, i requires 0 <= i < |es| => es[i].event)
  }

  lemma {:induction false} StopIsLast(events: seq<R.ModelEvent>, i: nat)
    requires i < |events|
    requires forall k | i <= k < |events| - 1 :: !events[k].done && events[k].err.None?
    requires events[|events| - 1].done || events[|events| - 1].err.Some?
    ensures R.Stop(events, i) == if events[|events| - 1].err.Some? then |events| - 1 else |events|
    decreases |events| - i
  {
    if i < |events| - 1 {
      StopIsLast(events, i + 1);
    }
  }

  lemma {:induction false} HeardSnoc(a: seq<R.ModelEvent>, e: R.ModelEvent)
    ensures R.Tokens(a + [e]) == R.Tokens(a) + if e.token == "" then [] else [e.token]
    ensures R.Calls(a + [e]) == R.Calls(a) + e.toolCalls
  {
    assert (a + [e])[..|a|] == a;
  }

  lemma HeardNothing()
    ensures R.Tokens([]) == [] && R.Calls([]) == []
  {
  }

  lemma {:induction false} HeardInParts(a: seq<R.ModelEvent>, b: seq<R.ModelEvent>)
    ensures R.Tokens(a + b) == R.Tokens(a) + R.Tokens(b)
    ensures R.Calls(a + b) == R.Calls(a) + R.Calls(b)
  {
    hide *;
    if b == [] {
      HeardNothing();
      assert a + b == a && R.Tokens(a) + [] == R.Tokens(a) && R.Calls(a) + [] == R.Calls(a);
    } else {
      var n := |b| - 1;
      HeardInParts(a, b[..n]);
      HeardSnoc(a + b[..n], b[n]);
      HeardSnoc(b[..n], b[n]);
      assert a + b == a + b[..n] + [b[n]] && b == b[..n] + [b[n]];
      Associates(R.Tokens(a), R.Tokens(b[..n]), if b[n].token == "" then [] else [b[n].token]);
      Associates(R.Calls(a), R.Calls(b[..n]), b[n].toolCalls);
    }
  }

  lemma {:induction false} TokensOfTexts(texts: seq<string>)
    requires forall t | t in texts :: t != ""
    ensures R.Tokens(Plain(TokenEvents(texts))) == texts && R.Calls(Plain(TokenEvents(texts))) == []
  {
    if texts != [] {
      assert forall t | t in texts[1..] :: t in texts;
      TokensOfTexts(texts[1..]);
      var one := [Token(texts[0]).event];
      assert Plain(TokenEvents(texts)) == one + Plain(TokenEvents(texts[1..]));
      HeardInParts(one, Plain(TokenEvents(texts[1..])));
      assert one[..0] == [] && texts[0] in texts;
      assert R.Tokens(one) == [texts[0]] && R.Calls(one) == [];
      assert texts == [texts[0]] + texts[1..];
    }
  }

  /** The calls asked for: those put together by the first finish reason, if it is "tool_calls". */
  function CallsAsked(items: seq<Item>): seq<R.ToolCall> {
    var n := StopAt(items);
    var fs := Fragments(items[..n]);
    if n < |items| && items[n].Finish? && items[n].reason == "tool_calls" then Built(fs) else []
  }

  lemma {:induction false} TextsNotEmpty(items: seq<Item>)
    requires forall item | item in items :: item.Content? ==> item.text != ""
    ensures forall t | t in Texts(items) :: t != ""
  {
    if items != [] {
      assert items[0] in items && forall item | item in items[1..] :: item in items;
      TextsNotEmpty(items[1..]);
    }
  }

  lemma HeardOne(e: R.ModelEvent)
    requires e.token == ""
    ensures R.Tokens([e]) == [] && R.Calls([e]) == e.toolCalls
  {
    assert [e][..0] == [];
  }

  lemma HeardTwo(d: R.ModelEvent, e: R.ModelEvent)
    requires d.token == e.token == "" && e.toolCalls == []
    ensures R.Tokens([d, e]) == [] && R.Calls([d, e]) == d.toolCalls
  {
    HeardOne(d);
    HeardOne(e);
    assert [d, e] == [d] + [e];
    HeardInParts([d], [e]);
  }

  lemma {:induction false} HeardAtEnd(items: seq<Item>, end: End)
    ensures var n := StopAt(items);
            var ending := Plain(Ending(Fragments(items[..n]), items, n, end));
            && R.Calls(ending) == CallsAsked(items) && R.Tokens(ending) == []
  {
    var n := StopAt(items);
    var fs := Fragments(items[..n]);
    var es := Ending(fs, items, n, end);
    NoFragmentsNoOrder(fs);
    if |es| == 2 {
      HeardTwo(es[0].event, es[1].event);
      assert Plain(es) == [es[0].event, es[1].event];
    } else {
      HeardOne(es[0].event);
      assert Plain(es) == [es[0].event];
    }
  }

  /** Whether the last event is an error. */
  lemma {:induction false} EndingIsLast(items: seq<Item>, end: End)
    ensures var out := Out([], items, end);
            && out != [] && (out[|out| - 1].event.err.Some? <==> StopAt(items) == |items| && end.Broken?)
            && var e := out[|out| - 1].event;
            (e.err.Some? ==> e.token == "" && e.toolCalls == [] && !e.done)
  {
    OutInParts([], items, end);
    OneTerminalEvent([], items, end);
    var n := StopAt(items);
    assert [] + Fragments(items[..n]) == Fragments(items[..n]);
    var ending := Ending(Fragments(items[..n]), items, n, end);
    hide Out, Texts, TokenEvents, Built;
    assert ending != [];
  }

  /** A reader stops at the terminal event; an error, which carries nothing, is not acted on. */
  lemma {:induction false} HeardThroughEnd(out: seq<Emitted>)
    requires out != [] && forall i | 0 <= i < |out| :: IsLast(out[i]) <==> i == |out| - 1
    requires out[|out| - 1].event.err.Some? ==> out[|out| - 1].event.token == "" && out[|out| - 1].event.toolCalls == [] && !out[|out| - 1].event.done
    ensures var answer := R.Stream(Plain(out));
            && R.Tokens(R.Heard(answer)) == R.Tokens(Plain(out))
            && R.Calls(R.Heard(answer)) == R.Calls(Plain(out))
            && (R.Errs(answer) <==> out[|out| - 1].event.err.Some?)
  {
    var events, n := Plain(out), |out| - 1;
    forall i | 0 <= i < |out| ensures events[i] == out[i].event && (IsLast(out[i]) <==> i == n) {}
    StopIsLast(events, 0);
    assert events[..|events|] == events;
    assert R.Tokens(events[..n]) + [] == R.Tokens(events[..n]);
    assert R.Calls(events[..n]) + [] == R.Calls(events[..n]);
  }

  /** The runner that reads the whole stream hears the content deltas in order and the assembled calls, and takes it for
      an error exactly if the body broke before anything stopped the stream. */
  lemma {:induction false} RunnerHearsStream(items: seq<Item>, end: End)
    requires NoEmptyContent(items)
    ensures var answer := R.Stream(Plain(Out([], items, end)));
            && R.Tokens(R.Heard(answer)) == Texts(items[..StopAt(items)])
            && R.Calls(R.Heard(answer)) == CallsAsked(items)
            && (R.Errs(answer) <==> StopAt(items) == |items| && end.Broken?)
  {
    hide Out, Ending, TokenEvents, Texts, Fragments, R.Tokens, R.Calls, R.Heard, R.Errs, R.Stop, CallsAsked, Built, StopAt, IsLast;
    var n := StopAt(items);
    var out := Out([], items, end);
    var tokens, ending := TokenEvents(Texts(items[..n])), Ending(Fragments(items[..n]), items, n, end);
    OutInParts([], items, end);
    assert [] + Fragments(items[..n]) == Fragments(items[..n]);
    OneTerminalEvent([], items, end);
    EndingIsLast(items, end);
    TextsNotEmpty(items[..n]);
    TokensOfTexts(Texts(items[..n]));
    HeardAtEnd(items, end);
    assert Plain(out) == Plain(tokens) + Plain(ending);
    HeardInParts(Plain(tokens), Plain(ending));
    HeardThroughEnd(out);
  }

  predicate NoEmptyContent(items: seq<Item>) {
    forall item | item in items :: item.Content? ==> item.text != ""
  }

  lemma {:induction false} FragmentsHaveNoContent(fs: seq<Fragment>)
    ensures NoEmptyContent(FragItems(fs))
  {
    if fs != [] {
      FragmentsHaveNoContent(fs[1..]);
    }
  }

  lemma {:induction false} ChoicesHaveNoEmptyContent(cs: seq<Choice>)
    ensures NoEmptyContent(ChoicesItems(cs))
  {
    if cs != [] {
      FragmentsHaveNoContent(cs[0].calls);
      ChoicesHaveNoEmptyContent(cs[1..]);
    }
  }

  /** So it is for any body. */
  lemma {:induction false} BodyHasNoEmptyContent(lines: seq<string>, decode: string -> Option<seq<Choice>>)
    ensures NoEmptyContent(BodyItems(lines, decode))
  {
    if lines != [] {
      var payload := TrimSpace(TrimNewlines(lines[0])[if DATA <= TrimNewlines(lines[0]) then |DATA| else 0..]);
      if decode(payload).Some? {
        ChoicesHaveNoEmptyContent(decode(payload).value);
      }
      BodyHasNoEmptyContent(lines[1..], decode);
    }
  }
}
