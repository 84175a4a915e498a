/** Go's string order and the whitespace rules of its `strings` and `unicode` packages. */
module Strings {
  import opened Wrappers

  /** Go's `<` on strings: byte order, which on UTF-8 is code-point order. */
  predicate Less(a: string, b: string) {
    if b == "" then false
    else if a == "" then true
    else if a[0] != b[0] then a[0] < b[0]
    else Less(a[1..], b[1..])
  }

  lemma {:induction false} LessIrreflexive(a: string)
    ensures !Less(a, a)
  {
    if a != "" {
      LessIrreflexive(a[1..]);
    }
  }

  lemma {:induction false} LessTotal(a: string, b: string)
    ensures a == b || Less(a, b) || Less(b, a)
  {
    if a != "" && b != "" && a[0] == b[0] {
      LessTotal(a[1..], b[1..]);
      assert a == [a[0]] + a[1..] && b == [b[0]] + b[1..];
    }
  }

  lemma {:induction false} LessTransitive(a: string, b: string, c: string)
    requires Less(a, b) && Less(b, c)
    ensures Less(a, c)
  {
    if a != "" && a[0] == b[0] == c[0] {
      LessTransitive(a[1..], b[1..], c[1..]);
    }
  }

  lemma LessAsymmetric(a: string, b: string)
    requires Less(a, b)
    ensures !Less(b, a)
  {
    if Less(b, a) {
      LessTransitive(a, b, a);
      LessIrreflexive(a);
    }
  }

  /** `a` is less than `b` exactly if it is a proper initial part of it, or smaller at the first place where they differ. */
  lemma {:induction false} LessIsFirstDifference(a: string, b: string)
    ensures Less(a, b) <==> a < b || exists k | 0 <= k < |a| && k < |b| :: a[..k] == b[..k] && a[k] < b[k]
  {
    if a != "" && b != "" && a[0] == b[0] {
      LessIsFirstDifference(a[1..], b[1..]);
      assert a == [a[0]] + a[1..] && b == [b[0]] + b[1..];
      if k :| 0 <= k < |a[1..]| && k < |b[1..]| && a[1..][..k] == b[1..][..k] && a[1..][k] < b[1..][k] {
        assert a[..k + 1] == [a[0]] + a[1..][..k] && b[..k + 1] == [b[0]] + b[1..][..k];
        assert a[k + 1] < b[k + 1];
      }
      if k :| 0 <= k < |a| && k < |b| && a[..k] == b[..k] && a[k] < b[k] {
        assert a[1..][..k - 1] == a[..k][1..] && b[1..][..k - 1] == b[..k][1..];
        assert a[1..][k - 1] < b[1..][k - 1];
      }
    } else if a != "" && b != "" {
      assert a[..0] == b[..0];
    }
  }

  ghost predicate Sorted(s: seq<string>) {
    forall i, j | 0 <= i < j < |s| :: !Less(s[j], s[i])
  }

  ghost predicate NoDuplicates<T(!new)>(s: seq<T>) {
    forall i, j | 0 <= i < j < |s| :: s[i] != s[j]
  }

  function Insert(x: string, s: seq<string>): (r: seq<string>)
    requires Sorted(s)
    ensures Sorted(r)
    ensures multiset(r) == multiset(s) + multiset{x}
  {
    if s == [] || !Less(s[0], x) then
      if s != [] then NotLessThanSorted(x, s); [x] + s else [x]
    else
      var rest := Insert(x, s[1..]);
      InsertFurther(x, s, rest);
      [s[0]] + rest
  }

  lemma InsertFurther(x: string, s: seq<string>, rest: seq<string>)
    requires Sorted(s) && s != [] && Less(s[0], x)
    requires Sorted(rest) && multiset(rest) == multiset(s[1..]) + multiset{x}
    ensures Sorted([s[0]] + rest) && multiset([s[0]] + rest) == multiset(s) + multiset{x}
  {
    assert s == [s[0]] + s[1..];
    LessAsymmetric(s[0], x);
    forall y | y in rest ensures !Less(y, s[0]) {
      assert y in multiset(rest);
      assert y == x || y in s[1..];
    }
  }

  lemma NotLessThanSorted(x: string, s: seq<string>)
    requires Sorted(s) && s != [] && !Less(s[0], x)
    ensures forall i | 0 <= i < |s| :: !Less(s[i], x)
  {
    forall i | 0 <= i < |s| ensures !Less(s[i], x) {
      if Less(s[i], x) {
        LessTotal(x, s[0]);
        if x != s[0] {
          LessTransitive(s[i], x, s[0]);
        }
      }
    }
  }

  /** `sort.Strings`. */
  function Sort(s: seq<string>): (r: seq<string>)
    ensures Sorted(r)
    ensures multiset(r) == multiset(s)
  {
    if s == [] then []
    else
      assert s == [s[0]] + s[1..];
      Insert(s[0], Sort(s[1..]))
  }

  /** `unicode.IsSpace`. */
  predicate IsSpace(c: char) {
    || '\t' <= c <= '\r'
    || c == ' ' || c == '\U{85}' || c == '\U{A0}' || c == '\U{1680}'
    || '\U{2000}' <= c <= '\U{200A}'
    || c == '\U{2028}' || c == '\U{2029}' || c == '\U{202F}' || c == '\U{205F}' || c == '\U{3000}'
  }

  predicate Blank(s: string) {
    forall c | c in s :: IsSpace(c)
  }

  function TrimLeft(s: string): string {
    if s != "" && IsSpace(s[0]) then TrimLeft(s[1..]) else s
  }

  function TrimRight(s: string): string {
    if s != "" && IsSpace(s[|s| - 1]) then TrimRight(s[..|s| - 1]) else s
  }

  /** `strings.TrimSpace`. */
  function TrimSpace(s: string): string {
    TrimRight(TrimLeft(s))
  }

  /** Not empty, and neither end is white space: exactly what `TrimSpace` leaves alone, the empty string apart. */
  predicate Tight(s: string) {
    s != "" && !IsSpace(s[0]) && !IsSpace(s[|s| - 1])
  }

  lemma {:induction false} TrimLeftDrops(s: string) returns (k: nat)
    ensures k <= |s| && TrimLeft(s) == s[k..] && Blank(s[..k])
    ensures TrimLeft(s) == "" || !IsSpace(TrimLeft(s)[0])
  {
    k := 0;
    if s != "" && IsSpace(s[0]) {
      k := TrimLeftDrops(s[1..]);
      assert s[..k + 1] == [s[0]] + s[1..][..k];
      k := k + 1;
    }
  }

  lemma {:induction false} TrimRightDrops(s: string) returns (k: nat)
    ensures k <= |s| && TrimRight(s) == s[..k] && Blank(s[k..])
    ensures TrimRight(s) == "" || !IsSpace(TrimRight(s)[k - 1])
  {
    k := |s|;
    if s != "" && IsSpace(s[|s| - 1]) {
      k := TrimRightDrops(s[..|s| - 1]);
      assert s[k..] == s[..|s| - 1][k..] + [s[|s| - 1]];
    }
  }

  /** Trimming keeps a contiguous window, drops only white space, and leaves a tight or empty string. */
  lemma TrimSpaceKeepsWindow(s: string) returns (i: nat, j: nat)
    ensures i <= j <= |s| && TrimSpace(s) == s[i..j]
    ensures Blank(s[..i]) && Blank(s[j..])
    ensures TrimSpace(s) == "" || Tight(TrimSpace(s))
    ensures TrimSpace(s) == "" <==> Blank(s)
  {
    i := TrimLeftDrops(s);
    var k := TrimRightDrops(s[i..]);
    j := i + k;
    assert s[i..][..k] == s[i..j];
    assert s[i..][k..] == s[j..];
    assert s == s[..i] + s[i..j] + s[j..];
  }

  lemma TrimSpaceKeepsStart(s: string) returns (rest: string)
    requires s != "" && !IsSpace(s[0])
    ensures TrimSpace(s) + rest == s && Blank(rest)
  {
    var k := TrimRightDrops(s);
    rest := s[k..];
  }

  lemma TightUntouched(s: string)
    requires Tight(s)
    ensures TrimSpace(s) == s
  {
  }

  // ---- what a text says, white space apart ----

  /** A text without its white space. */
  function Solid(s: string): string {
    if s == "" then "" else Solid(s[..|s| - 1]) + if IsSpace(s[|s| - 1]) then "" else [s[|s| - 1]]
  }

  function SolidAll(ps: seq<string>): string {
    if ps == [] then "" else SolidAll(ps[..|ps| - 1]) + Solid(ps[|ps| - 1])
  }

  /** `Solid` keeps exactly the other characters, in order. */
  lemma {:induction false} SolidPicks(s: string) returns (at: seq<nat>)
    ensures Picks(at, |s|, i => 0 <= i < |s| && !IsSpace(s[i]))
    ensures |Solid(s)| == |at| && forall k | 0 <= k < |at| :: Solid(s)[k] == s[at[k]]
  {
    hide *;
    LastSolid(s);
    at := [];
    if s == "" {
      NoPicks(i => 0 <= i < |s| && !IsSpace(s[i]));
    } else {
      var n := |s| - 1;
      at := SolidPicks(s[..n]);
      PicksWithin(at, n, i => 0 <= i < n && !IsSpace(s[..n][i]));
      PicksNext(at, n, i => 0 <= i < n && !IsSpace(s[..n][i]), i => 0 <= i < |s| && !IsSpace(s[i]));
      if !IsSpace(s[n]) {
        at := at + [n];
      }
    }
  }

  lemma LastSolid(s: string)
    ensures s == "" ==> Solid(s) == ""
    ensures s != "" ==>
              var n := |s| - 1;
              Solid(s) == if IsSpace(s[n]) then Solid(s[..n]) else Solid(s[..n]) + [s[n]]
  {
  }

  lemma {:induction false} SolidConcat(a: string, b: string)
    ensures Solid(a + b) == Solid(a) + Solid(b)
  {
    if b == "" {
      assert a + b == a;
    } else {
      assert (a + b)[..|a + b| - 1] == a + b[..|b| - 1];
      SolidConcat(a, b[..|b| - 1]);
    }
  }

  lemma {:induction false} SolidBlank(s: string)
    requires Blank(s)
    ensures Solid(s) == ""
  {
    if s != "" {
      assert s[|s| - 1] in s;
      SolidBlank(s[..|s| - 1]);
    }
  }

  lemma SolidTrim(s: string)
    ensures Solid(TrimSpace(s)) == Solid(s)
  {
    var i, j := TrimSpaceKeepsWindow(s);
    assert s == s[..i] + s[i..j] + s[j..];
    SolidConcat(s[..i] + s[i..j], s[j..]);
    SolidConcat(s[..i], s[i..j]);
    SolidBlank(s[..i]);
    SolidBlank(s[j..]);
  }

  lemma SolidAround(a: string, gap: string, b: string)
    requires Blank(gap)
    ensures Solid(a + gap + b) == Solid(a) + Solid(b)
  {
    hide *;
    SolidBlank(gap);
    SolidConcat(a, gap);
    SolidConcat(a + gap, b);
    assert Solid(a) + "" == Solid(a);
  }

  lemma {:induction false} SolidAllConcat(a: seq<string>, b: seq<string>)
    ensures SolidAll(a + b) == SolidAll(a) + SolidAll(b)
  {
    if b == [] {
      assert a + b == a;
    } else {
      hide Solid;
      var n := |b| - 1;
      assert (a + b)[..|a + b| - 1] == a + b[..n] && (a + b)[|a + b| - 1] == b[n];
      SolidAllConcat(a, b[..n]);
      Associates(SolidAll(a), SolidAll(b[..n]), Solid(b[n]));
    }
  }

  lemma SolidAllSnoc(a: seq<string>, p: string)
    ensures SolidAll(a + [p]) == SolidAll(a) + Solid(p)
  {
    assert (a + [p])[..|a|] == a;
  }

  lemma SolidAllCons(p: string, a: seq<string>)
    ensures SolidAll([p] + a) == Solid(p) + SolidAll(a)
  {
    SolidAllConcat([p], a);
    SolidAllSnoc([], p);
    assert [] + [p] == [p];
  }

  // ---- words ----

  /** `strings.Fields`: the maximal runs without white space. */
  function Fields(s: string): seq<string>
    decreases |s|
  {
    if s == "" then []
    else if IsSpace(s[0]) then Fields(s[1..])
    else
      var k := WordEnd(s, 0);
      [s[..k]] + Fields(s[k..])
  }

  /** End of the run without white space that starts at `i`. */
  function WordEnd(s: string, i: nat): (k: nat)
    requires i <= |s|
    ensures i <= k <= |s|
    ensures i < |s| && !IsSpace(s[i]) ==> i < k
    ensures forall j | i <= j < k :: !IsSpace(s[j])
    ensures k < |s| ==> IsSpace(s[k])
    decreases |s| - i
  {
    if i < |s| && !IsSpace(s[i]) then WordEnd(s, i + 1) else i
  }

  /** `strings.Join(words, " ")`. */
  function JoinWords(words: seq<string>): string {
    if words == [] then ""
    else if |words| == 1 then words[0]
    else words[0] + " " + JoinWords(words[1..])
  }

  /** Words as `Fields` leaves them. */
  ghost predicate IsWord(w: string) {
    w != "" && forall c | c in w :: !IsSpace(c)
  }

  ghost predicate AreWords(ws: seq<string>) {
    forall w | w in ws :: IsWord(w)
  }

  lemma {:induction false} FieldsAreWords(s: string)
    ensures AreWords(Fields(s))
    decreases |s|
  {
    if s != "" {
      if IsSpace(s[0]) {
        FieldsAreWords(s[1..]);
      } else {
        var k := WordEnd(s, 0);
        FieldsAreWords(s[k..]);
        assert IsWord(s[..k]);
      }
    }
  }

  /** The words are all there, in order. */
  lemma {:induction false} FieldsAreSolid(s: string)
    ensures SolidAll(Fields(s)) == Solid(s)
    decreases |s|
  {
    if s == "" {
    } else if IsSpace(s[0]) {
      FieldsAreSolid(s[1..]);
      assert s == [s[0]] + s[1..];
      SolidAround("", [s[0]], s[1..]);
      assert "" + [s[0]] == [s[0]] && Solid("") + Solid(s[1..]) == Solid(s[1..]);
    } else {
      var k := WordEnd(s, 0);
      FieldsAreSolid(s[k..]);
      SolidAllCons(s[..k], Fields(s[k..]));
      assert s == s[..k] + s[k..];
      SolidConcat(s[..k], s[k..]);
      hide SolidAll, Solid, IsSpace, WordEnd;
    }
  }

  lemma {:induction false} JoinedWordsAreSolid(words: seq<string>)
    ensures Solid(JoinWords(words)) == SolidAll(words)
  {
    if words != [] {
      assert words == [words[0]] + words[1..];
      SolidAllCons(words[0], words[1..]);
      if |words| == 1 {
        assert SolidAll(words[1..]) == "";
      } else {
        JoinedWordsAreSolid(words[1..]);
        SolidAround(words[0], " ", JoinWords(words[1..]));
        hide Solid, SolidAll;
      }
    }
  }

  /** Trimming changes no word. */
  lemma FieldsOfTrimmed(s: string)
    ensures Fields(TrimSpace(s)) == Fields(s)
  {
    FieldsOfTrimmedLeft(s);
    FieldsOfTrimmedRight(TrimLeft(s));
  }

  lemma {:induction false} FieldsOfTrimmedLeft(s: string)
    ensures Fields(TrimLeft(s)) == Fields(s)
  {
    if s != "" && IsSpace(s[0]) {
      FieldsOfTrimmedLeft(s[1..]);
    }
  }

  lemma {:induction false} FieldsOfTrimmedRight(s: string)
    ensures Fields(TrimRight(s)) == Fields(s)
  {
    if s != "" && IsSpace(s[|s| - 1]) {
      var n := |s| - 1;
      FieldsOfTrimmedRight(s[..n]);
      FieldsBeforeSpace(s[..n], s[n]);
      assert s == s[..n] + [s[n]];
    }
  }

  lemma WordBeforeSpace(s: string, c: char)
    requires s != "" && !IsSpace(s[0]) && IsSpace(c)
    ensures WordEnd(s + [c], 0) == WordEnd(s, 0)
  {
    var longer, k := s + [c], WordEnd(s, 0);
    var m := WordEnd(longer, 0);
    hide IsSpace;
    assert forall j | 0 <= j < |s| :: longer[j] == s[j];
    assert IsSpace(longer[k]) && m >= k;
  }

  lemma {:induction false} FieldsBeforeSpace(s: string, c: char)
    requires IsSpace(c)
    ensures Fields(s + [c]) == Fields(s)
    decreases |s|
  {
    var longer := s + [c];
    if s == "" {
      assert longer[1..] == "";
    } else if IsSpace(s[0]) {
      FieldsBeforeSpace(s[1..], c);
      assert longer[1..] == s[1..] + [c];
    } else {
      var k := WordEnd(s, 0);
      WordBeforeSpace(s, c);
      hide IsSpace, WordEnd;
      FieldsBeforeSpace(s[k..], c);
      assert longer[k..] == s[k..] + [c] && longer[..k] == s[..k];
    }
  }

  // ---- strings put together ----

  function Concat(parts: seq<string>): string {
    if parts == [] then "" else Concat(parts[..|parts| - 1]) + parts[|parts| - 1]
  }

  lemma ConcatSnoc(parts: seq<string>, p: string)
    ensures Concat(parts + [p]) == Concat(parts) + p
  {
    assert (parts + [p])[..|parts|] == parts;
  }

  lemma {:induction false} ConcatAddsUp(a: seq<string>, b: seq<string>)
    ensures Concat(a + b) == Concat(a) + Concat(b)
    ensures |a| == 1 ==> Concat(a) == a[0]
  {
    if b == [] {
      assert a + b == a;
    } else {
      assert (a + b)[..|a + b| - 1] == a + b[..|b| - 1];
      ConcatAddsUp(a, b[..|b| - 1]);
    }
  }
}
