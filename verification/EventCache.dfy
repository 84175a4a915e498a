/** The event log kept for replay: one ordered set per run, scored by sequence number. */
module EventCache {
  import opened Wrappers
  import opened Bytes

  datatype Cached = Cached(seqNo: word, payload: seq<byte>)

  /** Ordered-set entries; scores are sequence numbers, taken to be exact. */
  datatype Entry = Entry(score: nat, member: seq<byte>)

  // ---- members ----

  function Member(seqNo: word, payload: seq<byte>): seq<byte> {
    payload + BigEndian(seqNo, 8)
  }

  function Unmember(m: seq<byte>): Option<Cached> {
    if |m| < 8 then None
    else
      EightBytesFitAWord(m[|m| - 8..]);
      Some(Cached(FromBigEndian(m[|m| - 8..]), m[..|m| - 8]))
  }

  lemma MemberRoundTrip(seqNo: word, payload: seq<byte>)
    ensures Unmember(Member(seqNo, payload)) == Some(Cached(seqNo, payload))
  {
    EightBytesAreAWord();
    BigEndianRoundTrip(seqNo, 8);
    var m := Member(seqNo, payload);
    assert m[|m| - 8..] == BigEndian(seqNo, 8) && m[..|m| - 8] == payload;
  }

  /** Every string of at least eight bytes is the member of exactly one event. */
  lemma MemberOfUnmember(m: seq<byte>)
    requires Unmember(m).Some?
    ensures var e := Unmember(m).value; Member(e.seqNo, e.payload) == m
  {
    BigEndianOfBytes(m[|m| - 8..]);
    assert m == m[..|m| - 8] + m[|m| - 8..];
  }

  /** Equal payloads under different numbers do not collide, and nothing else does. */
  lemma MembersDiffer(a: Cached, b: Cached)
    ensures Member(a.seqNo, a.payload) == Member(b.seqNo, b.payload) <==> a == b
  {
    MemberRoundTrip(a.seqNo, a.payload);
    MemberRoundTrip(b.seqNo, b.payload);
  }

  method EncodeMember(seqNo: word, payload: seq<byte>) returns (m: seq<byte>)
    ensures m == Member(seqNo, payload)
  {
    var n := |payload|;
    var b := new byte[n + 8](i => if 0 <= i < n then payload[i] else 0);
    ghost var tail := BigEndian(seqNo, 8);
    for i := 0 to 8
      invariant forall k | 0 <= k < n :: b[k] == payload[k]
      invariant forall k | 8 - i <= k < 8 :: b[n + k] == tail[k]
    {
      BigEndianAt(seqNo, 8, i);
      b[n + 7 - i] := ShiftRight(seqNo, 8 * i) % 256;
    }
    assert b[..n] == payload && b[n..] == tail;
    m := b[..];
  }

  method DecodeMember(m: seq<byte>) returns (r: Option<Cached>)
    ensures r == Unmember(m)
  {
    if |m| < 8 {
      return None;
    }
    var tail := m[|m| - 8..];
    var seqNo: word := 0;
    EightBytesAreAWord();
    for i := 0 to 8
      invariant seqNo == FromBigEndian(tail[..i])
    {
      assert tail[..i + 1][..i] == tail[..i];
      ByteComesIn(tail[..i], tail[i]);
      seqNo := OrWord(ShiftLeft(seqNo, 8), tail[i]);
    }
    assert tail[..8] == tail;
    r := Some(Cached(seqNo, m[..|m| - 8]));
  }

  /** Shifting by a byte and or-ing the next one in is exact while the word has room. */
  lemma ByteComesIn(s: seq<byte>, b: byte)
    requires |s| < 8
    ensures var v := FromBigEndian(s);
            && v < WORD
            && OrWord(ShiftLeft(v, 8), b) == v * 256 + b
  {
    hide Pow, Or, FromBigEndian;
    var v := FromBigEndian(s);
    SevenBytesLeaveRoom(s);
    EightBits();
    OrIsSum(b, v, 8);
    OrCommutes(b, v * 256);
  }

  lemma SevenBytesLeaveRoom(s: seq<byte>)
    requires |s| < 8
    ensures FromBigEndian(s) * 256 < WORD
  {
    FromBigEndianBound(s);
    PowMonotone(256, |s|, 7);
    EightBytesAreAWord();
    assert Pow(256, 8) == 256 * Pow(256, 7);
  }

  lemma EightBits()
    ensures Pow(2, 8) == 256
  {
    assert Pow(2, 4) == 16;
    PowAdds(2, 4, 4);
  }

  lemma {:induction false} OrCommutes(x: nat, y: nat)
    ensures Or(x, y) == Or(y, x)
  {
    if x > 0 || y > 0 {
      OrCommutes(x / 2, y / 2);
    }
  }

  // ---- the ordered set ----

  predicate LessBytes(a: seq<byte>, b: seq<byte>) {
    if b == [] then false
    else if a == [] then true
    else if a[0] != b[0] then a[0] < b[0]
    else LessBytes(a[1..], b[1..])
  }

  lemma {:induction false} LessBytesIsFirstDifference(a: seq<byte>, b: seq<byte>)
    ensures LessBytes(a, b) <==> a < b || exists k | 0 <= k < |a| && k < |b| :: a[..k] == b[..k] && a[k] < b[k]
  {
    if a != [] && b != [] && a[0] == b[0] {
      LessBytesIsFirstDifference(a[1..], b[1..]);
      assert a == [a[0]] + a[1..] && b == [b[0]] + b[1..];
      if k :| 0 <= k < |a[1..]| && k < |b[1..]| && a[1..][..k] == b[1..][..k] && a[1..][k] < b[1..][k] {
        assert a[..k + 1] == [a[0]] + a[1..][..k] && b[..k + 1] == [b[0]] + b[1..][..k];
        assert a[k + 1] < b[k + 1];
      }
      if k :| 0 <= k < |a| && k < |b| && a[..k] == b[..k] && a[k] < b[k] {
        assert a[1..][..k - 1] == a[..k][1..] && b[1..][..k - 1] == b[..k][1..];
        assert a[1..][k - 1] < b[1..][k - 1];
      }
    } else if a != [] && b != [] {
      assert a[..0] == b[..0];
    }
  }

  /** By score, then by member. */
  predicate Before(a: Entry, b: Entry) {
    a.score < b.score || (a.score == b.score && LessBytes(a.member, b.member))
  }

  function Without(zs: seq<Entry>, member: seq<byte>): seq<Entry> {
    if zs == [] then []
    else (if zs[0].member == member then [] else [zs[0]]) + Without(zs[1..], member)
  }

  function Insert(e: Entry, zs: seq<Entry>): seq<Entry> {
    if zs == [] || Before(e, zs[0]) then [e] + zs else [zs[0]] + Insert(e, zs[1..])
  }

  /** ZADD: one entry per member. */
  function ZAdd(zs: seq<Entry>, e: Entry): seq<Entry> {
    Insert(e, Without(zs, e.member))
  }

  /** Scores rise, and where they are equal no member is less than one in front of it. */
  ghost predicate Ordered(zs: seq<Entry>) {
    forall i, j | 0 <= i < j < |zs| :: InOrder(zs[i], zs[j])
  }

  predicate InOrder(a: Entry, b: Entry) {
    a.score < b.score || (a.score == b.score && !LessBytes(b.member, a.member))
  }

  lemma {:induction false} LessBytesIsOrder(a: seq<byte>, b: seq<byte>, c: seq<byte>)
    ensures !LessBytes(a, a)
    ensures LessBytes(a, b) ==> !LessBytes(b, a)
    ensures !LessBytes(b, a) && !LessBytes(c, b) ==> !LessBytes(c, a)
  {
    if a != [] && b != [] && c != [] {
      LessBytesIsOrder(a[1..], b[1..], c[1..]);
    } else if a != [] && b != [] {
      LessBytesIsOrder(a[1..], b[1..], []);
    } else if a != [] {
      LessBytesIsOrder(a[1..], [], []);
    }
  }

  lemma InOrderTransitive(a: Entry, b: Entry, c: Entry)
    requires InOrder(a, b) && InOrder(b, c)
    ensures InOrder(a, c)
  {
    LessBytesIsOrder(a.member, b.member, c.member);
  }

  lemma BeforeIsOrder(e: Entry, z: Entry)
    ensures Before(e, z) ==> InOrder(e, z)
    ensures !Before(e, z) ==> InOrder(z, e)
  {
    LessBytesIsOrder(e.member, z.member, z.member);
  }

  lemma {:induction false} InsertKeepsOrder(e: Entry, zs: seq<Entry>)
    requires Ordered(zs)
    ensures Ordered(Insert(e, zs)) && multiset(Insert(e, zs)) == multiset(zs) + multiset{e}
  {
    hide LessBytes, Before, InOrder;
    if zs != [] {
      assert zs == [zs[0]] + zs[1..];
      BeforeIsOrder(e, zs[0]);
      if Before(e, zs[0]) {
        forall j | 1 <= j < |zs| ensures InOrder(e, zs[j]) {
          InOrderTransitive(e, zs[0], zs[j]);
        }
      } else {
        InsertKeepsOrder(e, zs[1..]);
        var rest := Insert(e, zs[1..]);
        forall j | 0 <= j < |rest| ensures InOrder(zs[0], rest[j]) {
          assert rest[j] in multiset(rest);
          assert rest[j] == e || rest[j] in zs[1..];
        }
      }
    }
  }

  lemma {:induction false} WithoutKeepsOrder(zs: seq<Entry>, member: seq<byte>)
    requires Ordered(zs)
    ensures Ordered(Without(zs, member))
    ensures forall z :: z in Without(zs, member) <==> z in zs && z.member != member
  {
    if zs != [] {
      WithoutKeepsOrder(zs[1..], member);
      assert zs == [zs[0]] + zs[1..];
      hide InOrder;
      forall z | z in zs[1..] ensures InOrder(zs[0], z) {
        var i :| 0 <= i < |zs[1..]| && zs[1..][i] == z;
      }
    }
  }

  /** Adding keeps the set in order; it then holds the new entry and every old one with another member. */
  lemma ZAddKeepsOrder(zs: seq<Entry>, e: Entry)
    requires Ordered(zs)
    ensures Ordered(ZAdd(zs, e))
    ensures forall z :: z in ZAdd(zs, e) <==> z == e || (z in zs && z.member != e.member)
  {
    WithoutKeepsOrder(zs, e.member);
    InsertKeepsOrder(e, Without(zs, e.member));
    hide Insert, Without, Ordered;
    forall z ensures z in ZAdd(zs, e) <==> z in multiset(ZAdd(zs, e)) {}
  }

  /** Of a set in order, the entries above a score are its end, from the first of them on. */
  lemma {:induction false} AboveIsEnd(zs: seq<Entry>, since: nat) returns (k: nat)
    requires Ordered(zs)
    ensures k <= |zs| && Above(zs, since) == zs[k..]
    ensures forall i | 0 <= i < |zs| :: zs[i].score > since <==> i >= k
  {
    k := 0;
    if zs != [] {
      k := AboveIsEnd(zs[1..], since);
      assert zs == [zs[0]] + zs[1..];
      if zs[0].score > since {
        assert forall i | 0 <= i < |zs[1..]| :: zs[1..][i] == zs[i + 1] && zs[i + 1].score > since;
      } else {
        k := k + 1;
      }
    }
  }

  /** ZRANGEBYSCORE (since +inf */
  function Above(zs: seq<Entry>, since: nat): seq<Entry> {
    if zs == [] then []
    else (if zs[0].score > since then [zs[0]] else []) + Above(zs[1..], since)
  }

  function Decoded(zs: seq<Entry>): seq<Cached> {
    if zs == [] then []
    else
      Decoded(zs[..|zs| - 1]) +
      match Unmember(zs[|zs| - 1].member) case None => [] case Some(e) => [e]
  }

  class Cache {
    var runs: map<string, seq<Entry>>

    constructor ()
      ensures runs == map[]
    {
      runs := map[];
    }

    function Entries(runId: string): seq<Entry>
      reads this
    {
      if runId in runs then runs[runId] else []
    }

    method Append(runId: string, seqNo: word, payload: seq<byte>)
      modifies this
      ensures Entries(runId) == ZAdd(old(Entries(runId)), Entry(seqNo, Member(seqNo, payload)))
      ensures forall other | other != runId :: Entries(other) == old(Entries(other))
    {
      var member := EncodeMember(seqNo, payload);
      runs := runs[runId := ZAdd(Entries(runId), Entry(seqNo, member))];
    }

    method Replay(runId: string, since: nat) returns (out: seq<Cached>)
      ensures out == Decoded(Above(Entries(runId), since))
    {
      var res := Above(Entries(runId), since);
      out := [];
      for i := 0 to |res|
        invariant out == Decoded(res[..i])
      {
        assert res[..i + 1][..i] == res[..i];
        var e := DecodeMember(res[i].member);
        if e.Some? {
          out := out + [e.value];
        }
      }
      assert res[..|res|] == res;
    }
  }

  // ---- what the log holds ----

  function Stored(events: seq<Cached>): seq<Entry> {
    seq(|events|, i requires 0 <= i < |events| => Entry(events[i].seqNo, Member(events[i].seqNo, events[i].payload)))
  }

  /** Sequence numbers 1, 2, 3, ... */
  ghost predicate Numbered(events: seq<Cached>) {
    forall i | 0 <= i < |events| :: events[i].seqNo == i + 1
  }

  lemma {:induction false} NothingToDrop(zs: seq<Entry>, member: seq<byte>)
    requires forall i | 0 <= i < |zs| :: zs[i].member != member
    ensures Without(zs, member) == zs
  {
    if zs != [] {
      NothingToDrop(zs[1..], member);
      assert zs == [zs[0]] + zs[1..];
    }
  }

  lemma {:induction false} GoesLast(zs: seq<Entry>, e: Entry)
    requires forall i | 0 <= i < |zs| :: zs[i].score < e.score
    ensures Insert(e, zs) == zs + [e]
  {
    if zs != [] {
      GoesLast(zs[1..], e);
    }
  }

  /** Appending the next event to the log of a run. */
  lemma AppendGrowsLog(events: seq<Cached>, e: Cached)
    requires forall i | 0 <= i < |events| :: events[i].seqNo < e.seqNo
    ensures ZAdd(Stored(events), Entry(e.seqNo, Member(e.seqNo, e.payload))) == Stored(events + [e])
  {
    var zs := Stored(events);
    forall i | 0 <= i < |zs| ensures zs[i].member != Member(e.seqNo, e.payload) {
      MembersDiffer(events[i], e);
    }
    NothingToDrop(zs, Member(e.seqNo, e.payload));
    GoesLast(zs, Entry(e.seqNo, Member(e.seqNo, e.payload)));
  }

  /** A repeated append changes nothing. */
  lemma AppendTwiceIsOnce(zs: seq<Entry>, e: Entry)
    ensures ZAdd(ZAdd(zs, e), e) == ZAdd(zs, e)
  {
    WithoutDrops(zs, e.member);
    InsertThenDrop(Without(zs, e.member), e);
  }

  lemma {:induction false} WithoutDrops(zs: seq<Entry>, member: seq<byte>)
    ensures forall i | 0 <= i < |Without(zs, member)| :: Without(zs, member)[i].member != member
  {
    if zs != [] {
      WithoutDrops(zs[1..], member);
    }
  }

  lemma {:induction false} InsertThenDrop(zs: seq<Entry>, e: Entry)
    requires forall i | 0 <= i < |zs| :: zs[i].member != e.member
    ensures Without(Insert(e, zs), e.member) == zs
  {
    NothingToDrop(zs, e.member);
    if zs != [] && !Before(e, zs[0]) {
      InsertThenDrop(zs[1..], e);
      assert Insert(e, zs)[1..] == Insert(e, zs[1..]);
      assert zs == [zs[0]] + zs[1..];
    } else {
      assert ([e] + zs)[1..] == zs;
    }
  }

  lemma {:induction false} AboveOfStored(events: seq<Cached>, since: nat, k: nat)
    requires k <= |events|
    requires forall i | 0 <= i < |events| :: events[i].seqNo <= since <==> i < k
    ensures Above(Stored(events), since) == Stored(events[k..])
    decreases |events|
  {
    if events != [] {
      assert Stored(events)[1..] == Stored(events[1..]);
      AboveOfStored(events[1..], since, if k > 0 then k - 1 else 0);
      assert events[k..] == if k > 0 then events[1..][k - 1..] else [events[0]] + events[1..];
      assert Stored([events[0]] + events[1..]) == [Stored(events)[0]] + Stored(events[1..]);
    }
  }

  lemma {:induction false} DecodedOfStored(events: seq<Cached>)
    ensures Decoded(Stored(events)) == events
  {
    if events != [] {
      var n := |events| - 1;
      assert Stored(events)[..n] == Stored(events[..n]);
      DecodedOfStored(events[..n]);
      MemberRoundTrip(events[n].seqNo, events[n].payload);
      assert events == events[..n] + [events[n]];
    }
  }

  /** Replay after `since` is the rest of the log. */
  lemma ReplayIsRest(events: seq<Cached>, since: nat)
    requires Numbered(events)
    ensures Decoded(Above(Stored(events), since)) == if since <= |events| then events[since..] else []
  {
    var k := if since <= |events| then since else |events|;
    AboveOfStored(events, since, k);
    DecodedOfStored(events[k..]);
  }

  lemma {:induction false} AboveIsPart(zs: seq<Entry>, since: nat)
    ensures forall z | z in Above(zs, since) :: z in zs
  {
    if zs != [] {
      AboveIsPart(zs[1..], since);
    }
  }

  /** What entries of a stored log decode to is in the log. */
  lemma {:induction false} DecodedIsPart(zs: seq<Entry>, events: seq<Cached>)
    requires forall z | z in zs :: z in Stored(events)
    ensures forall e | e in Decoded(zs) :: e in events
  {
    if zs != [] {
      var n := |zs| - 1;
      assert forall z | z in zs[..n] :: z in zs;
      DecodedIsPart(zs[..n], events);
      assert zs[n] in Stored(events);
      var i :| 0 <= i < |events| && Stored(events)[i] == zs[n];
      MemberRoundTrip(events[i].seqNo, events[i].payload);
    }
  }

  /** If the numbering restarts, as it does when a run id is used twice, both events stay and replay no longer tells
      the runs apart. */
  lemma ReusedNumbersPileUp(a: Cached, b: Cached)
    requires a.seqNo == b.seqNo > 0 && a.payload != b.payload
    ensures var log := Decoded(Above(ZAdd(ZAdd([], Entry(a.seqNo, Member(a.seqNo, a.payload))),
                                          Entry(b.seqNo, Member(b.seqNo, b.payload))), 0));
            |log| == 2 && multiset(log) == multiset{a, b} && !Numbered(log)
  {
    MembersDiffer(a, b);
    MemberRoundTrip(a.seqNo, a.payload);
    MemberRoundTrip(b.seqNo, b.payload);
    hide Unmember, Member, ZAdd, Above, Decoded, Before;
    var x, y := Entry(a.seqNo, Member(a.seqNo, a.payload)), Entry(b.seqNo, Member(b.seqNo, b.payload));
    TwoEntries(x, y);
    TwoReplayed(x, y);
    TwoReplayed(y, x);
  }

  lemma TwoEntries(x: Entry, y: Entry)
    requires x.member != y.member
    ensures ZAdd(ZAdd([], x), y) == if Before(y, x) then [y, x] else [x, y]
  {
    hide LessBytes;
    assert ZAdd([], x) == [x];
    NothingToDrop([x], y.member);
    assert Insert(y, []) == [y];
    assert Insert(y, [x]) == if Before(y, x) then [y] + [x] else [x] + Insert(y, [x][1..]);
    assert [x][1..] == [];
  }

  lemma TwoReplayed(x: Entry, y: Entry)
    requires x.score > 0 && y.score > 0 && Unmember(x.member).Some? && Unmember(y.member).Some?
    ensures Decoded(Above([x, y], 0)) == [Unmember(x.member).value, Unmember(y.member).value]
  {
    hide Unmember;
    assert [x, y][1..] == [y] && [y][1..] == [];
    assert [x, y][..1] == [x] && [x][..0] == [];
    assert Above([y], 0) == [y];
    assert Above([x, y], 0) == [x, y];
    assert Decoded([x]) == [Unmember(x.member).value];
  }
}
