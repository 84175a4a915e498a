/** The compaction policy: when the visible history is too long, fold its middle into a summary. */
module Compaction {
  import opened Strings
  import opened History

  function TotalChars(ms: seq<Message>): nat {
    if ms == [] then 0 else TotalChars(ms[..|ms| - 1]) + |ms[|ms| - 1].content|
  }

  lemma {:induction false} TotalCharsAdds(a: seq<Message>, b: seq<Message>)
    ensures TotalChars(a + b) == TotalChars(a) + TotalChars(b)
  {
    if b == [] {
      assert a + b == a;
    } else {
      assert (a + b)[..|a + b| - 1] == a + b[..|b| - 1];
      TotalCharsAdds(a, b[..|b| - 1]);
    }
  }

  datatype CompactPolicy = CompactPolicy(enabled: bool, maxChars: int, keepHead: int, keepTail: int) {
    function MaxChars(): nat {
      if maxChars <= 0 then 24000 else maxChars
    }

    function KeepHead(): nat {
      if keepHead < 0 then 0 else keepHead
    }

    function KeepTail(): nat {
      if keepTail <= 0 then 8 else keepTail
    }

    predicate WillFold(ms: seq<Message>) {
      enabled && TotalChars(ms) > MaxChars() && |ms| > KeepHead() + KeepTail() + 1
    }
  }

  function SummaryLine(m: Message): string {
    var content := JoinWords(Fields(m.content));
    "- " + m.role + ": " + (if |content| > 180 then content[..180] + "..." else content) + "\n"
  }

  function SummaryLines(ms: seq<Message>): string {
    if ms == [] then "Compacted history summary:\n" else SummaryLines(ms[..|ms| - 1]) + SummaryLine(ms[|ms| - 1])
  }

  function Summarize(ms: seq<Message>): string {
    TrimSpace(SummaryLines(ms))
  }

  /** The text with one space between words, cut after 180 characters. */
  ghost predicate IsShortened(text: string, short: string) {
    var flat := JoinWords(Fields(text));
    if |flat| <= 180 then short == flat else |short| == 183 && short[..180] == flat[..180] && short[180..] == "..."
  }

  /** A message's line of the summary. */
  ghost predicate IsLineOf(m: Message, line: string) {
    exists short :: IsShortened(m.content, short) && line == "- " + m.role + ": " + short + "\n"
  }

  /** Up to white space at its end, a summary is its heading and then one line for each message, in order. */
  lemma SummaryHoldsLines(ms: seq<Message>) returns (lines: seq<string>, rest: string)
    ensures Summarize(ms) + rest == "Compacted history summary:\n" + Concat(lines) && Blank(rest)
    ensures |lines| == |ms| && forall i | 0 <= i < |ms| :: IsLineOf(ms[i], lines[i])
  {
    lines := LinesOf(ms);
    hide Concat, IsLineOf;
    assert SummaryLines(ms)[0] == 'C';
    rest := TrimSpaceKeepsStart(SummaryLines(ms));
  }

  lemma {:induction false} LinesOf(ms: seq<Message>) returns (lines: seq<string>)
    ensures SummaryLines(ms) == "Compacted history summary:\n" + Concat(lines)
    ensures |lines| == |ms| && forall i | 0 <= i < |ms| :: IsLineOf(ms[i], lines[i])
  {
    lines := [];
    if ms != [] {
      var n := |ms| - 1;
      lines := LinesOf(ms[..n]);
      LineIsLine(ms[n]);
      assert (lines + [SummaryLine(ms[n])])[..n] == lines;
      lines := lines + [SummaryLine(ms[n])];
      hide IsLineOf, SummaryLine;
    }
  }

  lemma LineIsLine(m: Message)
    ensures IsLineOf(m, SummaryLine(m))
  {
    var flat := JoinWords(Fields(m.content));
    var short := if |flat| > 180 then flat[..180] + "..." else flat;
    hide JoinWords, Fields;
    assert IsShortened(m.content, short);
  }

  /** White space apart, what is not cut off is the text. */
  lemma ShortenedSaysAll(text: string, short: string)
    requires IsShortened(text, short) && |JoinWords(Fields(text))| <= 180
    ensures Solid(short) == Solid(text)
  {
    FieldsAreSolid(text);
    JoinedWordsAreSolid(Fields(text));
  }

  method CountChars(ms: seq<Message>) returns (total: nat)
    ensures total == TotalChars(ms)
  {
    total := 0;
    for i := 0 to |ms|
      invariant total == TotalChars(ms[..i])
    {
      total := total + |ms[i].content|;
      assert ms[..i + 1][..i] == ms[..i];
    }
    assert ms[..|ms|] == ms;
  }

  /** Any visible stored message is rendered. */
  lemma {:induction false} VisibleIsRendered(order: seq<Id>, msgs: map<Id, Message>, id: Id)
    requires id in order && id in msgs && msgs[id].visible
    ensures msgs[id] in RenderOf(order, msgs)
  {
    var n := |order| - 1;
    if order[n] != id {
      VisibleIsRendered(order[..n], msgs, id);
    }
  }

  /** Whether a message lies in the part of the list that is folded. */
  ghost predicate InSlice(ms: seq<Message>, a: nat, b: nat, id: Id)
    requires a <= b <= |ms|
  {
    exists i | a <= i < b :: ms[i].id == id
  }

  /** On a rendered list, the stored visible messages in an id range are the list's slice between the two ids. */
  lemma {:induction false} RangeIsSlice(order: seq<Id>, msgs: map<Id, Message>, nextId: Id, a: nat, b: nat, id: Id)
    requires WellKept(msgs, order, nextId)
    requires var ms := RenderOf(order, msgs); a < b <= |ms|
    requires id in msgs
    ensures var ms := RenderOf(order, msgs);
            ms[a].id <= id <= ms[b - 1].id && msgs[id].visible <==> InSlice(ms, a, b, id)
  {
    var ms := RenderOf(order, msgs);
    RenderedAscending(order, msgs);
    hide RenderOf;
    if msgs[id].visible {
      VisibleIsRendered(order, msgs, id);
      var k :| 0 <= k < |ms| && ms[k] == msgs[id];
      if k < a { assert ms[k].id < ms[a].id; }
      if k >= b { assert ms[b - 1].id < ms[k].id; }
    }
  }

  /** The ids of a rendered list rise, so an id range cuts it in three. */
  lemma {:induction false} RenderedCutsInThree(order: seq<Id>, msgs: map<Id, Message>, nextId: Id, a: nat, b: nat)
    requires WellKept(msgs, order, nextId)
    requires a < b <= |RenderOf(order, msgs)|
    ensures var ms := RenderOf(order, msgs);
            && ms[a].id <= ms[b - 1].id && ms[a].id in msgs && ms[b - 1].id in msgs
            && Without(ms, ms[a].id, ms[b - 1].id) == ms[..a] + ms[b..]
  {
    var ms := RenderOf(order, msgs);
    RenderedAscending(order, msgs);
    hide RenderOf, Without;
    assert ms[a] in ms && ms[b - 1] in ms;
    WithoutIsSlice(ms, a, b, ms[a].id, ms[b - 1].id);
  }

  /** What a fold does to the history it was decided on. */
  ghost predicate IsCompacted(p: CompactPolicy, prior: seq<Message>, after: seq<Message>,
                              msgs: map<Id, Message>, msgs': map<Id, Message>)
  {
    && |prior| > p.KeepHead() + p.KeepTail() + 1
    && var a, b := p.KeepHead(), |prior| - p.KeepTail();
    && |after| < |prior|
    && after != []
    && var summary := after[|after| - 1];
    && after == prior[..a] + prior[b..] + [summary]
    && summary.content == Summarize(prior[a..b]) && summary.role == "assistant" && summary.id !in msgs
    && msgs'.Keys == msgs.Keys + {summary.id}
    && forall id | id in msgs ::
         msgs'[id] == if InSlice(prior, a, b, id) then Folded(msgs[id]) else msgs[id]
  }

  lemma {:induction false} FoldCompacts(p: CompactPolicy, order: seq<Id>, msgs: map<Id, Message>, nextId: Id,
                     msgs': map<Id, Message>, after: seq<Message>, summary: Message)
    requires WellKept(msgs, order, nextId)
    requires var prior := RenderOf(order, msgs);
             && |prior| > p.KeepHead() + p.KeepTail() + 1
             && var a, b := p.KeepHead(), |prior| - p.KeepTail();
             && HidesRange(msgs, msgs', prior[a].id, prior[b - 1].id)
             && msgs'.Keys == msgs.Keys + {nextId}
             && summary == FoldedSummary(nextId, Summarize(prior[a..b]), prior[a].id, prior[b - 1].id)
             && after == Without(prior, prior[a].id, prior[b - 1].id) + [summary]
    ensures IsCompacted(p, RenderOf(order, msgs), after, msgs, msgs')
  {
    hide Without, RenderOf, Summarize, WellKept, InSlice, Folded;
    var prior := RenderOf(order, msgs);
    var a, b := p.KeepHead(), |prior| - p.KeepTail();
    RenderedCutsInThree(order, msgs, nextId, a, b);
    NextIdIsNew(msgs, order, nextId);
    forall id | id in msgs
      ensures msgs'[id] == if InSlice(prior, a, b, id) then Folded(msgs[id]) else msgs[id]
    {
      RangeIsSlice(order, msgs, nextId, a, b, id);
    }
  }

  lemma CompactedParts(p: CompactPolicy, prior: seq<Message>, after: seq<Message>, msgs: map<Id, Message>, msgs': map<Id, Message>)
    requires IsCompacted(p, prior, after, msgs, msgs')
    ensures var a, c := p.KeepHead(), p.KeepTail();
            && |after| == a + c + 1 && after[..a] == prior[..a] && after[a..a + c] == prior[|prior| - c..]
            && after[a + c].content == Summarize(prior[a..|prior| - c])
  {
    hide Summarize;
  }

  lemma NextIdIsNew(msgs: map<Id, Message>, order: seq<Id>, nextId: Id)
    requires WellKept(msgs, order, nextId)
    ensures nextId !in msgs
  {
  }

  method CompactIfNeeded(p: CompactPolicy, store: RunHistory?, msgs: seq<Message>) returns (ok: bool, failed: bool)
    requires store != null ==> store.Valid()
    modifies if store == null then {} else {store}
    ensures store != null ==> store.Valid()
    ensures var maxChars := if p.maxChars > 0 then p.maxChars else 24000;
            var head := if p.keepHead > 0 then p.keepHead else 0;
            var tail := if p.keepTail > 0 then p.keepTail else 8;
            var folds := p.enabled && TotalChars(msgs) > maxChars && |msgs| > head + tail + 1;
            && (folds <==> p.WillFold(msgs))
            && (store == null || !folds ==>
                  !ok && !failed && (store != null ==> store.msgs == old(store.msgs) && store.order == old(store.order)))
            && (store != null && folds ==>
                  && (ok <==> !failed)
                  && (failed <==> msgs[head].id !in old(store.msgs) || msgs[|msgs| - tail - 1].id !in old(store.msgs)))
            && (store != null && folds && msgs == old(store.Rendered()) ==>
                  && ok && |store.Rendered()| == head + tail + 1
                  && store.Rendered()[..head] == msgs[..head]
                  && store.Rendered()[head..head + tail] == msgs[|msgs| - tail..]
                  && store.Rendered()[head + tail].content == Summarize(msgs[head..|msgs| - tail]))
    ensures failed ==> !ok && store != null && store.msgs == old(store.msgs) && store.order == old(store.order)
    ensures store != null && p.WillFold(msgs) && msgs == old(store.Rendered()) ==>
              ok && IsCompacted(p, msgs, store.Rendered(), old(store.msgs), store.msgs)
  {
    hide IsCompacted, Without, RenderOf, Summarize, WellKept, FoldedSummary, HidesRange, TotalChars, InSlice;
    if !p.enabled || store == null {
      return false, false;
    }
    var total := CountChars(msgs);
    if total <= p.MaxChars() {
      return false, false;
    }
    var keepHead, keepTail := p.KeepHead(), p.KeepTail();
    if |msgs| <= keepHead + keepTail + 1 {
      return false, false;
    }
    var from := msgs[keepHead];
    var to := msgs[|msgs| - keepTail - 1];
    var summary := Summarize(msgs[keepHead..|msgs| - keepTail]);
    ghost var order0, msgs0, next0 := store.order, store.msgs, store.nextId;
    ghost var rendered := msgs == store.Rendered();
    if rendered {
      RenderedCutsInThree(order0, msgs0, next0, keepHead, |msgs| - keepTail);
    }
    var r := store.Fold(from.id, to.id, summary);
    if r == NotFound {
      return false, true;
    }
    if rendered {
      FoldCompacts(p, order0, msgs0, next0, store.msgs, store.Rendered(), store.msgs[r.value]);
      CompactedParts(p, msgs, store.Rendered(), msgs0, store.msgs);
    }
    return true, false;
  }
}
