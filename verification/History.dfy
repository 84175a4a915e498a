/** The message history of one run: an ordered set of ids over a table of messages, with soft deletion and folding. */
module History {
  import opened Wrappers
  import opened Strings

  /** ULIDs: fixed-width, so their string order is their numeric order. 0 stands for the empty string. */
  type Id = nat

  datatype Message = Message(id: Id, role: string, content: string, visible: bool, version: nat, parentId: Id,
                             tags: map<string, Tag>)
  datatype Tag = Text(text: string) | Ref(id: Id)

  datatype Result<+T> = Ok(value: T) | NotFound

  const VERSIONS := 0x1_0000_0000

  /** `Version++` on a uint32. */
  function Bump(v: nat): nat {
    (v + 1) % VERSIONS
  }

  ghost predicate Ascending(ids: seq<Id>) {
    forall i, j | 0 <= i < j < |ids| :: ids[i] < ids[j]
  }

  /** The visible messages, in id order. */
  function RenderOf(order: seq<Id>, msgs: map<Id, Message>): seq<Message> {
    if order == [] then []
    else
      var n := |order| - 1;
      RenderOf(order[..n], msgs) +
      if order[n] in msgs && msgs[order[n]].visible then [msgs[order[n]]] else []
  }

  /** Sorted-set insertion. */
  function AddId(order: seq<Id>, id: Id): (r: seq<Id>)
    requires Ascending(order)
    ensures Ascending(r)
    ensures forall x :: x in r <==> x in order || x == id
  {
    if order == [] then [id]
    else
      var n := |order| - 1;
      if order[n] == id then order
      else if order[n] < id then order + [id]
      else
        assert forall x | x in order[..n] :: x < order[n];
        var front := AddId(order[..n], id);
        assert forall i | 0 <= i < |front| :: front[i] in front;
        front + [order[n]]
  }

  /** The ids between two bounds, both included. */
  function Range(order: seq<Id>, lo: Id, hi: Id): (r: seq<Id>)
    ensures forall x :: x in r <==> x in order && lo <= x <= hi
  {
    if order == [] then []
    else
      var n := |order| - 1;
      Range(order[..n], lo, hi) + if lo <= order[n] <= hi then [order[n]] else []
  }

  function Folded(m: Message): Message {
    m.(visible := false, version := Bump(m.version))
  }

  /** The table after folding: exactly the visible messages in the range are hidden, one version later. */
  ghost predicate HidesRange(msgs: map<Id, Message>, msgs': map<Id, Message>, lo: Id, hi: Id) {
    && msgs.Keys <= msgs'.Keys
    && forall id | id in msgs ::
         msgs'[id] == if lo <= id <= hi && msgs[id].visible then Folded(msgs[id]) else msgs[id]
  }

  /** Messages in the range are hidden, the others untouched. */
  ghost predicate HiddenWithin(msgs: map<Id, Message>, msgs': map<Id, Message>, lo: Id, hi: Id) {
    forall id | id in msgs ::
      id in msgs' && if lo <= id <= hi then !msgs'[id].visible else msgs'[id] == msgs[id]
  }

  /** The set of ids and the table agree, in order, below the next id. */
  ghost predicate WellKept(msgs: map<Id, Message>, order: seq<Id>, nextId: Id) {
    && Ascending(order)
    && (forall id :: id in order <==> id in msgs)
    && (forall id | id in msgs :: msgs[id].id == id && id < nextId)
    && nextId > 0
  }

  lemma NewestIsKept(msgs: map<Id, Message>, order: seq<Id>, m: Message)
    requires WellKept(msgs, order, m.id)
    ensures WellKept(msgs[m.id := m], order + [m.id], m.id + 1)
  {
    assert forall i | 0 <= i < |order| :: order[i] in order;
    assert forall id :: id in order + [m.id] <==> id in order || id == m.id;
  }

  lemma KeptIdsAreBelow(msgs: map<Id, Message>, order: seq<Id>, nextId: Id, id: Id)
    requires WellKept(msgs, order, nextId) && id in msgs
    ensures id < nextId && Ascending(order)
  {
  }

  lemma HidingKeeps(msgs: map<Id, Message>, msgs': map<Id, Message>, order: seq<Id>, nextId: Id, lo: Id, hi: Id)
    requires WellKept(msgs, order, nextId) && HidesRange(msgs, msgs', lo, hi) && msgs'.Keys == msgs.Keys
    ensures WellKept(msgs', order, nextId)
  {
  }

  class RunHistory {
    var msgs: map<Id, Message>
    var order: seq<Id>
    /** What `obs.NewRunID` will return next. */
    var nextId: Id

    ghost predicate Valid()
      reads this
    {
      WellKept(msgs, order, nextId)
    }

    constructor ()
      ensures Valid() && Rendered() == []
    {
      msgs, order, nextId := map[], [], 1;
    }

    function Rendered(): seq<Message>
      reads this
    {
      RenderOf(order, msgs)
    }

    method NewId() returns (id: Id)
      requires Valid()
      modifies this`nextId
      ensures Valid() && id == old(nextId) && nextId == id + 1
    {
      id := nextId;
      nextId := nextId + 1;
    }

    method Append(m: Message) returns (id: Id)
      requires Valid()
      modifies this
      ensures Valid()
      ensures id == if m.id == 0 then old(nextId) else m.id
      ensures msgs == old(msgs)[id := m.(id := id, visible := true, version := if m.version == 0 then 1 else m.version)]
      ensures order == AddId(old(order), id)
      ensures m.id == 0 ==> Rendered() == old(Rendered()) + [msgs[id]] && nextId == old(nextId) + 1
    {
      if m.id == 0 {
        id := NewId();
      } else {
        id := m.id;
        nextId := if nextId <= id then id + 1 else nextId;
      }
      var stored := m.(id := id, visible := true, version := if m.version == 0 then 1 else m.version);
      if m.id == 0 {
        RenderOfNewest(order, msgs, stored);
      }
      msgs := msgs[id := stored];
      order := AddId(order, id);
    }

    method Patch(id: Id, content: string) returns (r: Result<()>)
      requires Valid()
      modifies this`msgs
      ensures Valid()
      ensures id !in old(msgs) ==> r == NotFound && msgs == old(msgs)
      ensures id in old(msgs) ==>
                r == Ok(()) && msgs == old(msgs)[id := old(msgs)[id].(content := content, version := Bump(old(msgs)[id].version))]
      ensures id in old(msgs) && old(msgs)[id].version < 0xFFFF_FFFF ==> msgs[id].version == old(msgs)[id].version + 1
      ensures id in old(msgs) ==>
                && |Rendered()| == |old(Rendered())|
                && forall i | 0 <= i < |Rendered()| ::
                     Rendered()[i] == if old(Rendered())[i].id == id then msgs[id] else old(Rendered())[i]
    {
      hide RenderOf;
      if id !in msgs {
        return NotFound;
      }
      RenderOfUpdate(order, msgs, msgs[id].(content := content, version := Bump(msgs[id].version)));
      msgs := msgs[id := msgs[id].(content := content, version := Bump(msgs[id].version))];
      return Ok(());
    }

    method Hide(id: Id) returns (r: Result<()>)
      requires Valid()
      modifies this`msgs
      ensures Valid()
      ensures id !in old(msgs) ==> r == NotFound && msgs == old(msgs)
      ensures id in old(msgs) ==>
                && r == Ok(()) && msgs == old(msgs)[id := msgs[id]] && !msgs[id].visible
                && msgs[id] == old(msgs)[id].(visible := false, version := msgs[id].version)
                && (old(msgs)[id].version < 0xFFFF_FFFF ==> msgs[id].version == old(msgs)[id].version + 1)
                && (old(msgs)[id].version == 0xFFFF_FFFF ==> msgs[id].version == 0)
      ensures Rendered() == Without(old(Rendered()), id, id)
    {
      hide RenderOf, Without;
      if id !in msgs {
        RenderAfterHiding(order, msgs, msgs, id, id);
        return NotFound;
      }
      ghost var before := msgs;
      msgs := msgs[id := Folded(msgs[id])];
      RenderAfterHiding(order, before, msgs, id, id);
      return Ok(());
    }

    /** Hides the visible messages between two ids, in either order, and appends a summary of them. */
    method Fold(fromId: Id, toId: Id, summary: string) returns (r: Result<Id>)
      requires Valid()
      modifies this
      ensures Valid()
      ensures r == NotFound <==> fromId !in old(msgs) || toId !in old(msgs)
      ensures r == NotFound ==> msgs == old(msgs) && order == old(order)
      ensures r.Ok? ==>
                var lo, hi := if fromId <= toId then fromId else toId, if fromId <= toId then toId else fromId;
                && r.value == old(nextId)
                && order == old(order) + [r.value]
                && HidesRange(old(msgs), msgs, lo, hi)
                && msgs.Keys == old(msgs).Keys + {r.value}
                && msgs[r.value] == FoldedSummary(r.value, summary, lo, hi)
                && msgs[r.value].role == "assistant" && msgs[r.value].content == summary && msgs[r.value].visible
                && msgs[r.value].version == 1 && msgs[r.value].parentId == 0
                && msgs[r.value].tags == map["compacted" := Text("true"), "fold_from" := Ref(lo), "fold_to" := Ref(hi)]
                && Rendered() == Without(old(Rendered()), lo, hi) + [msgs[r.value]]
    {
      hide RenderOf, Without, FoldedSummary, HidesRange, AddId, WellKept;
      if fromId !in msgs || toId !in msgs {
        return NotFound;
      }
      var lo, hi := if fromId <= toId then fromId else toId, if fromId <= toId then toId else fromId;
      var updated := FoldUpdates(lo, hi);
      KeptIdsAreBelow(msgs, order, nextId, hi);
      var id := NewId();
      var folded := FoldedSummary(id, summary, lo, hi);
      ghost var before, hidden := msgs, msgs + updated;
      FoldedSummaryIsVisible(id, summary, lo, hi);
      FoldRenders(before, hidden, order, id, lo, hi, folded);
      msgs := (msgs + updated)[id := folded];
      order := AddId(order, id);
      return Ok(id);
    }

    /** The first loop of Fold: the visible messages of the range, hidden. */
    method FoldUpdates(lo: Id, hi: Id) returns (updated: map<Id, Message>)
      requires Valid()
      ensures HidesRange(msgs, msgs + updated, lo, hi) && (msgs + updated).Keys == msgs.Keys
    {
      var ids := Range(order, lo, hi);
      updated := map[];
      for i := 0 to |ids|
        invariant forall id :: id in updated <==> id in ids[..i] && msgs[id].visible
        invariant forall id | id in updated :: updated[id] == Folded(msgs[id])
      {
        assert ids[i] in ids && ids[i] in order;
        assert ids[..i + 1] == ids[..i] + [ids[i]];
        var m := msgs[ids[i]];
        if m.visible {
          updated := updated[ids[i] := Folded(m)];
        }
      }
      assert ids[..|ids|] == ids;
    }
  }

  function FoldedSummary(id: Id, summary: string, lo: Id, hi: Id): Message {
    Message(id, "assistant", summary, true, 1, 0,
            map["compacted" := Text("true"), "fold_from" := Ref(lo), "fold_to" := Ref(hi)])
  }

  lemma FoldRenders(msgs: map<Id, Message>, hidden: map<Id, Message>, order: seq<Id>, id: Id, lo: Id, hi: Id, folded: Message)
    requires WellKept(msgs, order, id) && HidesRange(msgs, hidden, lo, hi) && hidden.Keys == msgs.Keys
    requires folded.id == id && folded.visible && hi < id
    ensures AddId(order, id) == order + [id]
    ensures WellKept(hidden[id := folded], order + [id], id + 1)
    ensures HidesRange(msgs, hidden[id := folded], lo, hi)
    ensures RenderOf(order + [id], hidden[id := folded]) == Without(RenderOf(order, msgs), lo, hi) + [folded]
  {
    RenderAfterHiding(order, msgs, hidden, lo, hi);
    RenderOfNewest(order, hidden, folded);
    HidingKeeps(msgs, hidden, order, id, lo, hi);
    NewestIsKept(hidden, order, folded);
  }

  lemma FoldedSummaryIsVisible(id: Id, summary: string, lo: Id, hi: Id)
    ensures var m := FoldedSummary(id, summary, lo, hi);
            && m.visible && m.id == id && m.role == "assistant" && m.content == summary && m.version == 1 && m.parentId == 0
            && m.tags == map["compacted" := Text("true"), "fold_from" := Ref(lo), "fold_to" := Ref(hi)]
  {
  }

  /** A rendered list with one message replaced by its new version. */
  function Replaced(ms: seq<Message>, m: Message): seq<Message> {
    seq(|ms|, i requires 0 <= i < |ms| => if ms[i].id == m.id then m else ms[i])
  }

  /** A rendered list without the messages whose id lies in a range. */
  function Without(ms: seq<Message>, lo: Id, hi: Id): seq<Message> {
    if ms == [] then []
    else
      var n := |ms| - 1;
      Without(ms[..n], lo, hi) + if lo <= ms[n].id <= hi then [] else [ms[n]]
  }

  lemma {:induction false} RenderIgnoresOthers(order: seq<Id>, msgs: map<Id, Message>, msgs': map<Id, Message>)
    requires forall id | id in order :: (id in msgs <==> id in msgs') && (id in msgs ==> msgs[id] == msgs'[id])
    ensures RenderOf(order, msgs) == RenderOf(order, msgs')
  {
    if order != [] {
      var n := |order| - 1;
      assert order[n] in order;
      RenderIgnoresOthers(order[..n], msgs, msgs');
    }
  }

  lemma {:induction false} RenderOfNewest(order: seq<Id>, msgs: map<Id, Message>, m: Message)
    requires Ascending(order) && m.visible && forall id | id in order :: id < m.id
    ensures AddId(order, m.id) == order + [m.id]
    ensures RenderOf(order + [m.id], msgs[m.id := m]) == RenderOf(order, msgs) + [m]
  {
    assert (order + [m.id])[..|order|] == order;
    RenderIgnoresOthers(order, msgs, msgs[m.id := m]);
    RenderSnoc(order + [m.id], msgs[m.id := m]);
    hide RenderOf;
    if order != [] {
      assert order[|order| - 1] in order;
    }
  }

  lemma RenderSnoc(order: seq<Id>, msgs: map<Id, Message>)
    requires order != []
    ensures var n := |order| - 1;
            RenderOf(order, msgs) == RenderOf(order[..n], msgs) +
              if order[n] in msgs && msgs[order[n]].visible then [msgs[order[n]]] else []
  {
  }

  lemma {:induction false} RenderOfUpdate(order: seq<Id>, msgs: map<Id, Message>, m: Message)
    requires m.id in msgs && m.visible == msgs[m.id].visible
    requires forall id | id in order :: id in msgs && msgs[id].id == id
    ensures RenderOf(order, msgs[m.id := m]) == Replaced(RenderOf(order, msgs), m)
  {
    if order != [] {
      var n := |order| - 1;
      assert order[n] in order;
      RenderOfUpdate(order[..n], msgs, m);
      RenderSnoc(order, msgs);
      RenderSnoc(order, msgs[m.id := m]);
    }
  }

  lemma WithoutSnoc(ms: seq<Message>, m: Message, lo: Id, hi: Id)
    ensures Without(ms + [m], lo, hi) == Without(ms, lo, hi) + if lo <= m.id <= hi then [] else [m]
  {
    assert (ms + [m])[..|ms|] == ms;
  }

  lemma {:induction false} RenderAfterHiding(order: seq<Id>, msgs: map<Id, Message>, msgs': map<Id, Message>, lo: Id, hi: Id)
    requires forall id | id in order :: id in msgs && msgs[id].id == id
    requires HiddenWithin(msgs, msgs', lo, hi)
    ensures RenderOf(order, msgs') == Without(RenderOf(order, msgs), lo, hi)
  {
    hide RenderOf, Without;
    if order != [] {
      var n := |order| - 1;
      assert order[n] in order;
      RenderAfterHiding(order[..n], msgs, msgs', lo, hi);
      RenderSnoc(order, msgs);
      RenderSnoc(order, msgs');
      WithoutSnoc(RenderOf(order[..n], msgs), msgs[order[n]], lo, hi);
      assert RenderOf(order[..n], msgs) + [] == RenderOf(order[..n], msgs);
    } else {
      NothingRendered(msgs, msgs', lo, hi);
    }
  }

  lemma NothingRendered(msgs: map<Id, Message>, msgs': map<Id, Message>, lo: Id, hi: Id)
    ensures RenderOf([], msgs) == RenderOf([], msgs') == Without([], lo, hi) == []
  {
  }

  lemma {:induction false} RenderedAscending(order: seq<Id>, msgs: map<Id, Message>)
    requires Ascending(order) && forall id | id in order :: id in msgs && msgs[id].id == id
    ensures var r := RenderOf(order, msgs);
            && (forall i, j | 0 <= i < j < |r| :: r[i].id < r[j].id)
            && forall m | m in r :: m.id in order && m.visible && msgs[m.id] == m
  {
    if order != [] {
      var n := |order| - 1;
      assert order[n] in order;
      assert forall id | id in order[..n] :: id in order && id < order[n];
      RenderedAscending(order[..n], msgs);
    }
  }

  lemma {:induction false} WithoutNothing(ms: seq<Message>, lo: Id, hi: Id)
    requires forall i | 0 <= i < |ms| :: !(lo <= ms[i].id <= hi)
    ensures Without(ms, lo, hi) == ms
  {
    if ms != [] {
      var n := |ms| - 1;
      WithoutNothing(ms[..n], lo, hi);
      assert ms == ms[..n] + [ms[n]];
    }
  }

  lemma {:induction false} WithoutAppend(a: seq<Message>, b: seq<Message>, lo: Id, hi: Id)
    ensures Without(a + b, lo, hi) == Without(a, lo, hi) + Without(b, lo, hi)
  {
    if b == [] {
      assert a + b == a && Without(b, lo, hi) == [];
    } else {
      hide *;
      var n := |b| - 1;
      WithoutAppend(a, b[..n], lo, hi);
      WithoutSnoc(a + b[..n], b[n], lo, hi);
      WithoutSnoc(b[..n], b[n], lo, hi);
      assert a + b == (a + b[..n]) + [b[n]];
      assert b == b[..n] + [b[n]];
      Associates(Without(a, lo, hi), Without(b[..n], lo, hi), if lo <= b[n].id <= hi then [] else [b[n]]);
    }
  }

  lemma {:induction false} WithoutAll(ms: seq<Message>, lo: Id, hi: Id)
    requires forall i | 0 <= i < |ms| :: lo <= ms[i].id <= hi
    ensures Without(ms, lo, hi) == []
  {
    if ms != [] {
      WithoutAll(ms[..|ms| - 1], lo, hi);
    }
  }

  /** Dropping a range of ids drops exactly the slice that lies in it. */
  lemma WithoutIsSlice(ms: seq<Message>, a: nat, b: nat, lo: Id, hi: Id)
    requires a <= b <= |ms|
    requires forall i | 0 <= i < a :: ms[i].id < lo
    requires forall i | a <= i < b :: lo <= ms[i].id <= hi
    requires forall i | b <= i < |ms| :: hi < ms[i].id
    ensures Without(ms, lo, hi) == ms[..a] + ms[b..]
  {
    hide Without;
    var front, mid, back := ms[..a], ms[a..b], ms[b..];
    assert ms == front + mid + back;
    WithoutAppend(front + mid, back, lo, hi);
    WithoutAppend(front, mid, lo, hi);
    WithoutNothing(front, lo, hi);
    WithoutAll(mid, lo, hi);
    WithoutNothing(back, lo, hi);
    assert front + [] == front;
  }
}
