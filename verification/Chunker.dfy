/** Splitting text into bounded chunks: windows over long paragraphs, greedy packing of short ones. */
module Chunker {
  import opened Wrappers
  import opened Strings

  // ---- long paragraphs ----

  datatype Window = Window(lo: nat, hi: nat)

  /** No white space at positions lo..hi. */
  ghost predicate NoSpace(rs: string, lo: nat, hi: nat)
    requires hi <= |rs|
  {
    forall i | lo <= i < hi :: !IsSpace(rs[i])
  }

  /** The window at `lo`: to the end if that fits, otherwise cut after the last white space of its second half,
      otherwise `maxChars` long. */
  ghost predicate IsWindow(rs: string, w: Window, maxChars: nat) {
    && w.lo < w.hi <= |rs|
    && if |rs| - w.lo <= maxChars then w.hi == |rs|
       else
         && w.lo + maxChars / 2 < w.hi <= w.lo + maxChars
         && NoSpace(rs, w.hi, w.lo + maxChars)
         && (IsSpace(rs[w.hi - 1]) || (w.hi == w.lo + maxChars && NoSpace(rs, w.lo + maxChars / 2, w.hi)))
  }

  /** Windows that follow each other from the start of the text, each beginning `overlap` before the previous end. */
  ghost predicate IsChain(rs: string, ws: seq<Window>, maxChars: nat, overlap: nat) {
    ws != [] ==>
      var n := |ws| - 1;
      && IsChain(rs, ws[..n], maxChars, overlap)
      && IsWindow(rs, ws[n], maxChars)
      && if n == 0 then ws[n].lo == 0 else ws[n - 1].hi < |rs| && ws[n].lo == ws[n - 1].hi - overlap
  }

  lemma {:induction false} ChainAt(rs: string, ws: seq<Window>, maxChars: nat, overlap: nat, i: nat)
    requires IsChain(rs, ws, maxChars, overlap) && i < |ws|
    ensures IsWindow(rs, ws[i], maxChars) && IsChain(rs, ws[..i + 1], maxChars, overlap)
    ensures i > 0 ==> ws[i - 1].hi < |rs| && ws[i].lo == ws[i - 1].hi - overlap
  {
    if i < |ws| - 1 {
      ChainAt(rs, ws[..|ws| - 1], maxChars, overlap, i);
      assert ws[..|ws| - 1][..i + 1] == ws[..i + 1];
    } else {
      assert ws[..i + 1] == ws;
    }
  }

  ghost predicate IsTiling(rs: string, ws: seq<Window>, maxChars: nat, overlap: nat) {
    && IsChain(rs, ws, maxChars, overlap)
    && if rs == "" then ws == [] else ws != [] && ws[|ws| - 1].hi == |rs|
  }

  function Slice(rs: string, lo: nat, hi: nat): string {
    if lo <= hi <= |rs| then rs[lo..hi] else ""
  }

  /** The window's text, trimmed. */
  function Pieces(rs: string, ws: seq<Window>): seq<string> {
    seq(|ws|, i requires 0 <= i < |ws| => TrimSpace(Slice(rs, ws[i].lo, ws[i].hi)))
  }

  /** The text with each window's leading overlap dropped. */
  function Reassemble(rs: string, ws: seq<Window>, overlap: nat): string {
    if ws == [] then ""
    else
      var n := |ws| - 1;
      Reassemble(rs, ws[..n], overlap) + Slice(rs, if n == 0 then ws[n].lo else ws[n].lo + overlap, ws[n].hi)
  }

  /** Where the inner loop stops: after the last white space in (lo, end], or at `end` if there is none. */
  method FindCut(rs: string, lo: nat, end: nat) returns (cut: nat)
    requires lo < end <= |rs|
    ensures lo < cut <= end
    ensures NoSpace(rs, cut, end)
    ensures IsSpace(rs[cut - 1]) || (cut == end && NoSpace(rs, lo, end))
  {
    cut := end;
    while cut > lo
      invariant lo <= cut <= end
      invariant NoSpace(rs, cut, end)
    {
      if IsSpace(rs[cut - 1]) {
        return;
      }
      cut := cut - 1;
    }
    cut := end;
  }

  lemma PiecesSnoc(rs: string, ws: seq<Window>, w: Window)
    requires w.lo <= w.hi <= |rs|
    ensures Pieces(rs, ws + [w]) == Pieces(rs, ws) + [TrimSpace(rs[w.lo..w.hi])]
  {
  }

  lemma ChainSnoc(rs: string, ws: seq<Window>, maxChars: nat, overlap: nat, w: Window)
    requires IsChain(rs, ws, maxChars, overlap) && IsWindow(rs, w, maxChars)
    requires if ws == [] then w.lo == 0 else ws[|ws| - 1].hi < |rs| && w.lo == ws[|ws| - 1].hi - overlap
    ensures IsChain(rs, ws + [w], maxChars, overlap)
  {
    assert (ws + [w])[..|ws|] == ws;
  }

  lemma NoWindows(rs: string, maxChars: nat, overlap: nat)
    ensures IsChain(rs, [], maxChars, overlap) && Pieces(rs, []) == []
  {
  }

  method SplitLong(rs: string, maxChars: nat, overlap: nat) returns (out: seq<string>, ghost ws: seq<Window>)
    requires maxChars >= 1 && overlap <= maxChars / 2
    ensures IsTiling(rs, ws, maxChars, overlap) && out == Pieces(rs, ws)
    ensures forall w | IsTiling(rs, w, maxChars, overlap) :: out == Pieces(rs, w)
  {
    out, ws := CutWindows(rs, maxChars, overlap);
    forall w | IsTiling(rs, w, maxChars, overlap) ensures w == ws {
      TilingIsUnique(rs, w, ws, maxChars, overlap);
    }
  }

  /** The cutting loop. */
  method CutWindows(rs: string, maxChars: nat, overlap: nat) returns (out: seq<string>, ghost ws: seq<Window>)
    requires maxChars >= 1 && overlap <= maxChars / 2
    ensures IsTiling(rs, ws, maxChars, overlap) && out == Pieces(rs, ws)
  {
    hide IsSpace, TrimSpace, NoSpace, Pieces, IsChain;
    out, ws := [], [];
    var start := 0;
    NoWindows(rs, maxChars, overlap);
    while start < |rs|
      invariant IsChain(rs, ws, maxChars, overlap)
      invariant start < |rs| || rs == ""
      invariant if ws == [] then start == 0 else ws[|ws| - 1].hi < |rs| && start == ws[|ws| - 1].hi - overlap
      invariant out == Pieces(rs, ws)
      decreases |rs| - start
    {
      var end := start + maxChars;
      if end > |rs| {
        end := |rs|;
      }
      if end < |rs| {
        end := FindCut(rs, start + maxChars / 2, end);
      }
      out := out + [TrimSpace(rs[start..end])];
      PiecesSnoc(rs, ws, Window(start, end));
      ChainSnoc(rs, ws, maxChars, overlap, Window(start, end));
      ws := ws + [Window(start, end)];
      if end >= |rs| {
        return;
      }
      start := end - overlap;
    }
  }

  /** The windows are determined: there is only one tiling. */
  lemma {:induction false} TilingsAgree(rs: string, ws: seq<Window>, ws': seq<Window>, maxChars: nat, overlap: nat, n: nat)
    requires IsTiling(rs, ws, maxChars, overlap) && IsTiling(rs, ws', maxChars, overlap)
    requires n <= |ws|
    ensures n <= |ws'| && ws[..n] == ws'[..n]
  {
    hide IsWindow;
    if n > 0 {
      TilingsAgree(rs, ws, ws', maxChars, overlap, n - 1);
      ChainAt(rs, ws, maxChars, overlap, n - 1);
      if n > 1 {
        assert ws[n - 2] == ws[..n - 1][n - 2] == ws'[..n - 1][n - 2] == ws'[n - 2];
      }
      ChainAt(rs, ws', maxChars, overlap, n - 1);
      WindowEndsAgree(rs, ws[n - 1], ws'[n - 1], maxChars);
      assert ws[..n] == ws[..n - 1] + [ws[n - 1]];
      assert ws'[..n] == ws'[..n - 1] + [ws'[n - 1]];
    }
  }

  lemma WindowEndsAgree(rs: string, w: Window, w': Window, maxChars: nat)
    requires IsWindow(rs, w, maxChars) && IsWindow(rs, w', maxChars) && w.lo == w'.lo
    ensures w == w'
  {
  }

  lemma TilingIsUnique(rs: string, ws: seq<Window>, ws': seq<Window>, maxChars: nat, overlap: nat)
    requires IsTiling(rs, ws, maxChars, overlap) && IsTiling(rs, ws', maxChars, overlap)
    ensures ws == ws'
  {
    TilingsAgree(rs, ws, ws', maxChars, overlap, |ws|);
    TilingsAgree(rs, ws', ws, maxChars, overlap, |ws'|);
  }

  /** Dropping the overlaps gives back exactly the part of the text covered so far. */
  lemma {:induction false} ChainReassembles(rs: string, ws: seq<Window>, maxChars: nat, overlap: nat)
    requires IsChain(rs, ws, maxChars, overlap) && overlap <= maxChars / 2 && ws != []
    ensures ws[|ws| - 1].hi <= |rs|
    ensures Reassemble(rs, ws, overlap) == rs[..ws[|ws| - 1].hi]
  {
    hide *;
    var n := |ws| - 1;
    if n == 0 {
      OnlyWindow(rs, ws, maxChars, overlap);
    } else {
      LastWindow(rs, ws, maxChars, overlap);
      ReassembleLast(rs, ws, overlap);
      ChainReassembles(rs, ws[..n], maxChars, overlap);
      assert ws[..n][n - 1] == ws[n - 1];
      assert rs[..ws[n].hi] == rs[..ws[n - 1].hi] + rs[ws[n - 1].hi..ws[n].hi];
    }
  }

  lemma {:induction false} OnlyWindow(rs: string, ws: seq<Window>, maxChars: nat, overlap: nat)
    requires IsChain(rs, ws, maxChars, overlap) && |ws| == 1
    ensures ws[0].hi <= |rs| && Reassemble(rs, ws, overlap) == rs[..ws[0].hi]
  {
    hide IsSpace, NoSpace;
    assert Reassemble(rs, ws[..0], overlap) == "";
  }

  lemma {:induction false} LastWindow(rs: string, ws: seq<Window>, maxChars: nat, overlap: nat)
    requires IsChain(rs, ws, maxChars, overlap) && overlap <= maxChars / 2 && |ws| > 1
    ensures var n := |ws| - 1;
            IsChain(rs, ws[..n], maxChars, overlap) && ws[n].lo + overlap == ws[n - 1].hi && ws[n - 1].hi <= ws[n].hi <= |rs|
  {
    hide IsSpace, NoSpace;
  }

  lemma {:induction false} ReassembleLast(rs: string, ws: seq<Window>, overlap: nat)
    requires |ws| > 1 && ws[|ws| - 1].lo + overlap <= ws[|ws| - 1].hi <= |rs|
    ensures var n := |ws| - 1;
            Reassemble(rs, ws, overlap) == Reassemble(rs, ws[..n], overlap) + rs[ws[n].lo + overlap..ws[n].hi]
  {
  }

  lemma TilingReassembles(rs: string, ws: seq<Window>, maxChars: nat, overlap: nat)
    requires IsTiling(rs, ws, maxChars, overlap) && overlap <= maxChars / 2
    ensures Reassemble(rs, ws, overlap) == rs
  {
    if rs != "" {
      ChainReassembles(rs, ws, maxChars, overlap);
    }
  }

  /** Each further window starts at least maxChars/2 + 1 - overlap later, which bounds their number. */
  lemma {:induction false} WindowStartsAdvance(rs: string, ws: seq<Window>, maxChars: nat, overlap: nat)
    requires IsChain(rs, ws, maxChars, overlap) && ws != []
    ensures ws[|ws| - 1].lo >= (|ws| - 1) * (maxChars / 2 + 1 - overlap)
  {
    var n := |ws| - 1;
    if n > 0 {
      WindowStartsAdvance(rs, ws[..n], maxChars, overlap);
      var step := maxChars / 2 + 1 - overlap;
      assert n * step == (n - 1) * step + step;
    }
  }

  lemma WindowCountIsBounded(rs: string, ws: seq<Window>, maxChars: nat, overlap: nat)
    requires IsTiling(rs, ws, maxChars, overlap) && overlap <= maxChars / 2 && rs != ""
    ensures |ws| <= 1 + (|rs| - 1) / (maxChars / 2 + 1 - overlap)
  {
    WindowStartsAdvance(rs, ws, maxChars, overlap);
    DivideBound(|ws| - 1, |rs| - 1, maxChars / 2 + 1 - overlap);
  }

  lemma DivideBound(n: nat, m: nat, step: nat)
    requires step >= 1 && n * step <= m
    ensures n <= m / step
  {
    var q := m / step;
    assert m == q * step + m % step;
    assert (q + 1) * step == q * step + step;
    assert n * step < (q + 1) * step;
    SmallerFactor(n, q + 1, step);
  }

  lemma SmallerFactor(a: int, b: int, step: nat)
    requires a * step < b * step
    ensures a < b
  {
    if a >= b {
      ProductMonotone(b, a, step);
    }
  }

  lemma ProductMonotone(a: int, b: int, step: nat)
    requires a <= b
    ensures a * step <= b * step
  {
    assert (b - a) * step >= 0;
    assert b * step == a * step + (b - a) * step;
  }

  /** Past half of maxChars the loop can stand still: on this text it starts over at 0 forever. */
  lemma LargeOverlapStandsStill(maxChars: nat, overlap: nat) returns (rs: string, w: Window)
    requires maxChars >= 1 && overlap > maxChars / 2
    ensures IsWindow(rs, w, maxChars) && w.lo == 0 && w.hi < |rs|
    ensures w.hi - overlap <= 0
  {
    var h := maxChars / 2;
    rs := seq(maxChars + 1, i => if i == h then ' ' else 'x');
    w := Window(0, h + 1);
  }

  // ---- short paragraphs ----

  /** Paragraphs joined by blank lines, as the builder accumulates them. */
  function Join(ps: seq<string>): string {
    if ps == [] then ""
    else if |ps| == 1 then ps[0]
    else Join(ps[..|ps| - 1]) + "\n\n" + ps[|ps| - 1]
  }

  function Width(ps: seq<string>): nat {
    if ps == [] then 0 else Width(ps[..|ps| - 1]) + |ps[|ps| - 1]| + 2
  }

  lemma {:induction false} JoinLength(ps: seq<string>)
    requires ps != []
    ensures |Join(ps)| == Width(ps) - 2
  {
    if |ps| > 1 {
      JoinLength(ps[..|ps| - 1]);
    }
  }

  lemma {:induction false} WidthConcat(a: seq<string>, b: seq<string>)
    ensures Width(a + b) == Width(a) + Width(b)
  {
    if b == [] {
      assert a + b == a;
    } else {
      assert (a + b)[..|a + b| - 1] == a + b[..|b| - 1];
      WidthConcat(a, b[..|b| - 1]);
    }
  }

  /** A run of paragraphs inside another is no wider when joined. */
  lemma JoinOfSliceIsShorter(ps: seq<string>, a: nat, b: nat, c: nat, d: nat)
    requires a <= b < c <= d <= |ps|
    ensures |Join(ps[b..c])| <= |Join(ps[a..d])|
  {
    assert ps[a..d] == ps[a..b] + ps[b..c] + ps[c..d];
    WidthConcat(ps[a..b] + ps[b..c], ps[c..d]);
    WidthConcat(ps[a..b], ps[b..c]);
    JoinLength(ps[b..c]);
    JoinLength(ps[a..d]);
  }

  lemma {:induction false} JoinIsTight(ps: seq<string>)
    requires ps != [] && forall i | 0 <= i < |ps| :: Tight(ps[i])
    ensures Tight(Join(ps))
  {
    if |ps| > 1 {
      JoinIsTight(ps[..|ps| - 1]);
    }
  }

  lemma ShorterJoinEndsEarlier(ps: seq<string>, a: nat, b: nat, c: nat, d: nat)
    requires a <= b <= |ps| && a <= c < d <= |ps|
    requires |Join(ps[a..b])| < |Join(ps[c..d])|
    ensures b < d
  {
    if b >= d {
      JoinOfSliceIsShorter(ps, a, c, d, b);
    }
  }

  function Flatten(gs: seq<seq<string>>): seq<string> {
    if gs == [] then [] else Flatten(gs[..|gs| - 1]) + gs[|gs| - 1]
  }

  /** An order-preserving grouping of paragraphs into chunks that fit. */
  ghost predicate IsGrouping(ps: seq<string>, gs: seq<seq<string>>, maxChars: nat) {
    && Flatten(gs) == ps
    && forall i | 0 <= i < |gs| :: gs[i] != [] && |Join(gs[i])| <= maxChars
  }

  /** Each group could not have taken the first paragraph of the next. */
  ghost predicate IsGreedy(gs: seq<seq<string>>, maxChars: nat) {
    gs != [] ==>
      var n := |gs| - 1;
      && IsGreedy(gs[..n], maxChars)
      && gs[n] != []
      && (n > 0 ==> |Join(gs[n - 1] + [gs[n][0]])| > maxChars)
  }

  lemma {:induction false} GreedyAt(gs: seq<seq<string>>, maxChars: nat, i: nat)
    requires IsGreedy(gs, maxChars) && i < |gs|
    ensures gs[i] != [] && (i > 0 ==> |Join(gs[i - 1] + [gs[i][0]])| > maxChars)
  {
    if i < |gs| - 1 {
      GreedyAt(gs[..|gs| - 1], maxChars, i);
    }
  }

  /** Paragraphs covered by the first k groups. */
  function Covered(gs: seq<seq<string>>, k: nat): nat
    requires k <= |gs|
  {
    if k == 0 then 0 else Covered(gs, k - 1) + |gs[k - 1]|
  }

  lemma {:induction false} FlattenPrefix(gs: seq<seq<string>>, k: nat)
    requires k <= |gs|
    ensures Flatten(gs[..k]) <= Flatten(gs)
    ensures |Flatten(gs[..k])| == Covered(gs, k)
    decreases |gs|
  {
    if k == |gs| {
      assert gs[..k] == gs;
      if k > 0 {
        FlattenPrefix(gs[..k - 1], k - 1);
        CoveredPrefix(gs, k - 1, k - 1);
        assert gs[..k - 1][..k - 1] == gs[..k - 1];
      }
    } else {
      var front := gs[..|gs| - 1];
      FlattenPrefix(front, k);
      CoveredPrefix(gs, |gs| - 1, k);
      assert front[..k] == gs[..k];
    }
  }

  lemma {:induction false} CoveredPrefix(gs: seq<seq<string>>, n: nat, k: nat)
    requires k <= n <= |gs|
    ensures Covered(gs[..n], k) == Covered(gs, k)
  {
    if k > 0 {
      CoveredPrefix(gs, n, k - 1);
    }
  }

  /** The k-th group is a slice of the paragraphs. */
  lemma GroupIsSlice(gs: seq<seq<string>>, k: nat)
    requires k < |gs|
    ensures Covered(gs, k + 1) <= |Flatten(gs)|
    ensures Flatten(gs)[Covered(gs, k)..Covered(gs, k + 1)] == gs[k]
  {
    FlattenPrefix(gs, k);
    FlattenPrefix(gs, k + 1);
    assert gs[..k + 1][..k] == gs[..k];
    assert Flatten(gs[..k + 1]) == Flatten(gs[..k]) + gs[k];
  }

  /** Greedy stays ahead: after k groups it has placed at least as many paragraphs as any other grouping. */
  lemma {:induction false} GreedyStaysAhead(ps: seq<string>, gs: seq<seq<string>>, hs: seq<seq<string>>, maxChars: nat, k: nat)
    requires IsGrouping(ps, gs, maxChars) && IsGreedy(gs, maxChars) && IsGrouping(ps, hs, maxChars)
    requires k <= |hs| && k < |gs|
    ensures Covered(gs, k) >= Covered(hs, k)
  {
    hide Join, Flatten, IsGreedy;
    if k > 0 {
      GreedyStaysAhead(ps, gs, hs, maxChars, k - 1);
      var a, b := Covered(hs, k - 1), Covered(hs, k);
      var c, d := Covered(gs, k - 1), Covered(gs, k);
      GroupIsSlice(hs, k - 1);
      GroupIsSlice(gs, k - 1);
      GroupIsSlice(gs, k);
      GreedyAt(gs, maxChars, k);
      GreedyAt(gs, maxChars, k - 1);
      assert gs[k][0] == ps[d];
      assert ps[c..d + 1] == gs[k - 1] + [ps[d]];
      ShorterJoinEndsEarlier(ps, a, b, c, d + 1);
    }
  }

  /** No order-preserving grouping into fitting chunks uses fewer chunks than the greedy one. */
  lemma GreedyIsOptimal(ps: seq<string>, gs: seq<seq<string>>, hs: seq<seq<string>>, maxChars: nat)
    requires IsGrouping(ps, gs, maxChars) && IsGreedy(gs, maxChars) && IsGrouping(ps, hs, maxChars)
    ensures |gs| <= |hs|
  {
    if |hs| < |gs| {
      var k := |hs|;
      GreedyStaysAhead(ps, gs, hs, maxChars, k);
      FlattenPrefix(hs, k);
      assert hs[..k] == hs;
      GroupIsSlice(gs, k);
    }
  }

  // ---- splitting a document ----

  predicate BlankLineAt(s: string, k: nat) {
    k + 1 < |s| && s[k] == '\n' && s[k + 1] == '\n'
  }

  /** First position at or after `i` of a blank line, or the length. */
  function FirstBlankLine(s: string, i: nat): (k: nat)
    requires i <= |s|
    ensures i <= k <= |s|
    ensures k < |s| ==> BlankLineAt(s, k)
    ensures forall j | i <= j < k :: !BlankLineAt(s, j)
    decreases |s| - i
  {
    if i + 1 >= |s| then |s|
    else if BlankLineAt(s, i) then i
    else FirstBlankLine(s, i + 1)
  }

  /** `strings.Split(s, "\n\n")`. */
  function Split(s: string): (r: seq<string>)
    ensures r != []
    decreases |s|
  {
    var k := FirstBlankLine(s, 0);
    if k == |s| then [s] else [s[..k]] + Split(s[k + 2..])
  }

  lemma {:induction false} JoinCons(p: string, ps: seq<string>)
    requires ps != []
    ensures Join([p] + ps) == p + "\n\n" + Join(ps)
  {
    var n := |ps| - 1;
    assert ([p] + ps)[..n + 1] == [p] + ps[..n];
    if n > 0 {
      JoinCons(p, ps[..n]);
    } else {
      assert Join([p] + ps) == Join([p]) + "\n\n" + ps[0];
    }
  }

  lemma {:induction false} SplitLosesNothing(s: string)
    ensures Join(Split(s)) == s
    decreases |s|
  {
    var k := FirstBlankLine(s, 0);
    if k < |s| {
      SplitLosesNothing(s[k + 2..]);
      JoinCons(s[..k], Split(s[k + 2..]));
      assert s == s[..k] + "\n\n" + s[k + 2..];
    }
  }

  /** A paragraph holds no blank line, and only the last may end in a newline: the text is cut at the first blank line,
      then at the first one in what follows it, and so on. */
  ghost predicate IsCut(ps: seq<string>) {
    && (forall i, j: nat | 0 <= i < |ps| :: !BlankLineAt(ps[i], j))
    && forall i | 0 <= i < |ps| - 1 && ps[i] != "" :: ps[i][|ps[i]| - 1] != '\n'
  }

  lemma {:induction false} SplitCutsEverywhere(s: string)
    ensures IsCut(Split(s))
    decreases |s|
  {
    var k := FirstBlankLine(s, 0);
    if k < |s| {
      SplitCutsEverywhere(s[k + 2..]);
      var rest := Split(s[k + 2..]);
      assert Split(s) == [s[..k]] + rest;
      forall i, j: nat | 0 <= i < |Split(s)| ensures !BlankLineAt(Split(s)[i], j) {
        if i == 0 && BlankLineAt(s[..k], j) {
          assert BlankLineAt(s, j);
        }
      }
      assert k > 0 ==> !BlankLineAt(s, k - 1);
    }
  }

  /** What `Split` returns is determined: the one list of paragraphs that makes up the text and is cut like this. */
  lemma {:induction false} SplitIsUnique(s: string, ps: seq<string>)
    requires ps != [] && Join(ps) == s && IsCut(ps)
    ensures ps == Split(s)
    decreases |ps|
  {
    var k := FirstBlankLine(s, 0);
    if |ps| == 1 {
      assert s == ps[0] && !BlankLineAt(ps[0], k);
    } else {
      var p, rest := ps[0], ps[1..];
      assert ps == [p] + rest;
      JoinCons(p, rest);
      assert BlankLineAt(s, |p|);
      forall j | 0 <= j < |p| ensures !BlankLineAt(s, j) {
        assert !BlankLineAt(p, j);
      }
      assert k == |p| && s[..k] == p && s[k + 2..] == Join(rest);
      SplitIsUnique(s[k + 2..], rest);
    }
  }

  /** The paragraphs that count: trimmed, blank ones dropped. */
  function Kept(ps: seq<string>): seq<string> {
    if ps == [] then []
    else Kept(ps[..|ps| - 1]) + if TrimSpace(ps[|ps| - 1]) == "" then [] else [TrimSpace(ps[|ps| - 1])]
  }

  /** Exactly the paragraphs that are not blank, each trimmed, in their order. */
  lemma {:induction false} KeptPicks(ps: seq<string>) returns (at: seq<nat>)
    ensures Picks(at, |ps|, i => 0 <= i < |ps| && !Blank(ps[i]))
    ensures |Kept(ps)| == |at| && forall k | 0 <= k < |at| :: Kept(ps)[k] == TrimSpace(ps[at[k]])
  {
    at := [];
    if ps != [] {
      var n := |ps| - 1;
      at := KeptPicks(ps[..n]);
      var i, j := TrimSpaceKeepsWindow(ps[n]);
      PicksNext(at, n, i => 0 <= i < n && !Blank(ps[..n][i]), i => 0 <= i < |ps| && !Blank(ps[i]));
      hide Blank, TrimSpace, Tight, Picks;
      if !Blank(ps[n]) {
        at := at + [n];
      }
    }
  }

  /** A run of packed groups followed by one over-long paragraph and its windows. */
  datatype Segment = Segment(groups: seq<seq<string>>, long: string, ws: seq<Window>)
  datatype Layout = Layout(segments: seq<Segment>, tail: seq<seq<string>>)

  function Joins(gs: seq<seq<string>>): seq<string> {
    seq(|gs|, i requires 0 <= i < |gs| => Join(gs[i]))
  }

  function SegmentParagraphs(segments: seq<Segment>): seq<string> {
    if segments == [] then []
    else
      var seg := segments[|segments| - 1];
      SegmentParagraphs(segments[..|segments| - 1]) + Flatten(seg.groups) + [seg.long]
  }

  function SegmentChunks(segments: seq<Segment>): seq<string> {
    if segments == [] then []
    else
      var seg := segments[|segments| - 1];
      SegmentChunks(segments[..|segments| - 1]) + Joins(seg.groups) + Pieces(seg.long, seg.ws)
  }

  function Paragraphs(layout: Layout): seq<string> {
    SegmentParagraphs(layout.segments) + Flatten(layout.tail)
  }

  function Chunks(layout: Layout): seq<string> {
    SegmentChunks(layout.segments) + Joins(layout.tail)
  }

  /** Groups that fit, packed greedily, of tight paragraphs. */
  ghost predicate IsPacked(gs: seq<seq<string>>, maxChars: nat) {
    && IsGreedy(gs, maxChars)
    && forall i | 0 <= i < |gs| :: |Join(gs[i])| <= maxChars && forall p | p in gs[i] :: Tight(p)
  }

  ghost predicate IsLaidOut(layout: Layout, maxChars: nat, overlap: nat) {
    && IsPacked(layout.tail, maxChars)
    && forall seg | seg in layout.segments ::
         && IsPacked(seg.groups, maxChars)
         && Tight(seg.long) && |seg.long| > maxChars
         && IsTiling(seg.long, seg.ws, maxChars, overlap)
  }

  /** Packed groups are an optimal grouping of their paragraphs. */
  lemma PackedUsesFewestChunks(gs: seq<seq<string>>, hs: seq<seq<string>>, maxChars: nat)
    requires IsPacked(gs, maxChars) && IsGrouping(Flatten(gs), hs, maxChars)
    ensures |gs| <= |hs|
  {
    forall i | 0 <= i < |gs| ensures gs[i] != [] {
      GreedyAt(gs, maxChars, i);
    }
    GreedyIsOptimal(Flatten(gs), gs, hs, maxChars);
  }

  lemma PieceFits(rs: string, ws: seq<Window>, maxChars: nat, overlap: nat, i: nat)
    requires IsTiling(rs, ws, maxChars, overlap) && i < |ws|
    ensures |Pieces(rs, ws)[i]| <= maxChars
    ensures Pieces(rs, ws)[i] == "" <==> Blank(Slice(rs, ws[i].lo, ws[i].hi))
  {
    ChainAt(rs, ws, maxChars, overlap, i);
    var a, b := TrimSpaceKeepsWindow(rs[ws[i].lo..ws[i].hi]);
  }

  /** No chunk is longer than maxChars. */
  lemma {:induction false} SegmentChunksFit(segments: seq<Segment>, maxChars: nat, overlap: nat, c: string)
    requires IsLaidOut(Layout(segments, []), maxChars, overlap) && c in SegmentChunks(segments)
    ensures |c| <= maxChars
  {
    var n := |segments| - 1;
    var seg := segments[n];
    assert seg in segments;
    if c in SegmentChunks(segments[..n]) {
      SegmentChunksFit(segments[..n], maxChars, overlap, c);
    } else if c in Joins(seg.groups) {
      var i :| 0 <= i < |seg.groups| && c == Joins(seg.groups)[i];
    } else {
      var i :| 0 <= i < |seg.ws| && c == Pieces(seg.long, seg.ws)[i];
      PieceFits(seg.long, seg.ws, maxChars, overlap, i);
    }
  }

  lemma ChunksFit(layout: Layout, maxChars: nat, overlap: nat)
    requires IsLaidOut(layout, maxChars, overlap)
    ensures forall c | c in Chunks(layout) :: |c| <= maxChars
  {
    forall c | c in Chunks(layout) ensures |c| <= maxChars {
      if c in Joins(layout.tail) {
        var i :| 0 <= i < |layout.tail| && c == Joins(layout.tail)[i];
      } else {
        SegmentChunksFit(layout.segments, maxChars, overlap, c);
      }
    }
  }

  // ---- nothing but white space is lost ----

  lemma {:induction false} JoinIsSolid(ps: seq<string>)
    ensures Solid(Join(ps)) == SolidAll(ps)
  {
    if ps != [] {
      var n := |ps| - 1;
      JoinIsSolid(ps[..n]);
      if n == 0 {
        assert SolidAll(ps[..0]) == "";
      } else {
        SolidAround(Join(ps[..n]), "\n\n", ps[n]);
        hide Solid;
      }
    }
  }

  lemma {:induction false} KeptIsSolid(ps: seq<string>)
    ensures SolidAll(Kept(ps)) == SolidAll(ps)
  {
    if ps != [] {
      var n := |ps| - 1;
      KeptIsSolid(ps[..n]);
      SolidTrim(ps[n]);
      assert Kept(ps[..n]) + [] == Kept(ps[..n]) && Solid("") == "";
      SolidAllSnoc(Kept(ps[..n]), TrimSpace(ps[n]));
    }
  }

  lemma {:induction false} JoinsAreSolid(gs: seq<seq<string>>)
    ensures SolidAll(Joins(gs)) == SolidAll(Flatten(gs))
  {
    if gs != [] {
      var n := |gs| - 1;
      JoinsAreSolid(gs[..n]);
      assert Joins(gs) == Joins(gs[..n]) + [Join(gs[n])];
      SolidAllSnoc(Joins(gs[..n]), Join(gs[n]));
      JoinIsSolid(gs[n]);
      SolidAllConcat(Flatten(gs[..n]), gs[n]);
    }
  }

  /** Without overlap the pieces have the characters of the windows put together. */
  lemma {:induction false} PiecesAreSolid(rs: string, ws: seq<Window>)
    ensures SolidAll(Pieces(rs, ws)) == Solid(Reassemble(rs, ws, 0))
  {
    if ws != [] {
      var n := |ws| - 1;
      PiecesAreSolid(rs, ws[..n]);
      PieceIsSolid(rs, ws);
      hide *;
    }
  }

  lemma PieceIsSolid(rs: string, ws: seq<Window>)
    requires ws != []
    ensures var n := |ws| - 1;
            var piece := Slice(rs, ws[n].lo, ws[n].hi);
            && SolidAll(Pieces(rs, ws)) == SolidAll(Pieces(rs, ws[..n])) + Solid(piece)
            && Solid(Reassemble(rs, ws, 0)) == Solid(Reassemble(rs, ws[..n], 0)) + Solid(piece)
  {
    hide Solid, SolidAll, TrimSpace, Slice, IsSpace;
    var n := |ws| - 1;
    var piece := Slice(rs, ws[n].lo, ws[n].hi);
    assert Reassemble(rs, ws, 0) == Reassemble(rs, ws[..n], 0) + piece;
    SolidConcat(Reassemble(rs, ws[..n], 0), piece);
    assert Pieces(rs, ws) == Pieces(rs, ws[..n]) + [TrimSpace(piece)];
    SolidAllSnoc(Pieces(rs, ws[..n]), TrimSpace(piece));
    SolidTrim(piece);
  }

  lemma {:induction false} SegmentsAreSolid(segments: seq<Segment>, maxChars: nat)
    requires forall seg | seg in segments :: IsTiling(seg.long, seg.ws, maxChars, 0)
    ensures SolidAll(SegmentChunks(segments)) == SolidAll(SegmentParagraphs(segments))
  {
    if segments != [] {
      var n := |segments| - 1;
      var front, seg := segments[..n], segments[n];
      assert seg in segments;
      SegmentsAreSolid(front, maxChars);
      SolidAllConcat(SegmentChunks(front) + Joins(seg.groups), Pieces(seg.long, seg.ws));
      SolidAllConcat(SegmentChunks(front), Joins(seg.groups));
      SolidAllConcat(SegmentParagraphs(front), Flatten(seg.groups));
      SolidAllSnoc(SegmentParagraphs(front) + Flatten(seg.groups), seg.long);
      JoinsAreSolid(seg.groups);
      PiecesAreSolid(seg.long, seg.ws);
      TilingReassembles(seg.long, seg.ws, maxChars, 0);
      hide *;
    }
  }

  /** Without overlap the chunks say what the text says, character for character, white space apart. */
  lemma ChunksLoseNothing(content: string, layout: Layout, maxChars: nat)
    requires IsLaidOut(layout, maxChars, 0) && Paragraphs(layout) == Kept(Split(content))
    ensures SolidAll(Chunks(layout)) == Solid(content)
  {
    hide IsTiling, IsPacked;
    SegmentsAreSolid(layout.segments, maxChars);
    JoinsAreSolid(layout.tail);
    SolidAllConcat(SegmentChunks(layout.segments), Joins(layout.tail));
    SolidAllConcat(SegmentParagraphs(layout.segments), Flatten(layout.tail));
    KeptIsSolid(Split(content));
    JoinIsSolid(Split(content));
    SplitLosesNothing(content);
    hide *;
  }

  // ---- the layout is determined ----

  /** Two packings of the same paragraphs are the same. */
  lemma PackingIsUnique(gs: seq<seq<string>>, hs: seq<seq<string>>, maxChars: nat)
    requires IsPacked(gs, maxChars) && IsPacked(hs, maxChars) && Flatten(gs) == Flatten(hs)
    ensures gs == hs
  {
    PackedIsGrouping(gs, maxChars);
    PackedIsGrouping(hs, maxChars);
    hide IsGrouping, IsGreedy, Flatten, Join, Tight;
    GreedyIsOptimal(Flatten(gs), gs, hs, maxChars);
    GreedyIsOptimal(Flatten(gs), hs, gs, maxChars);
    forall k | 0 <= k < |gs| ensures gs[k] == hs[k] {
      CoveredAlike(gs, hs, maxChars, k);
      CoveredAlike(gs, hs, maxChars, k + 1);
      GroupIsSlice(gs, k);
      GroupIsSlice(hs, k);
    }
  }

  lemma PackedIsGrouping(gs: seq<seq<string>>, maxChars: nat)
    requires IsPacked(gs, maxChars)
    ensures IsGrouping(Flatten(gs), gs, maxChars)
  {
    forall i | 0 <= i < |gs| ensures gs[i] != [] {
      GreedyAt(gs, maxChars, i);
    }
  }

  lemma CoveredAlike(gs: seq<seq<string>>, hs: seq<seq<string>>, maxChars: nat, k: nat)
    requires IsPacked(gs, maxChars) && IsPacked(hs, maxChars) && Flatten(gs) == Flatten(hs)
    requires |gs| == |hs| && k <= |gs|
    ensures Covered(gs, k) == Covered(hs, k)
  {
    PackedIsGrouping(gs, maxChars);
    PackedIsGrouping(hs, maxChars);
    hide IsGrouping, Flatten;
    if k < |gs| {
      GreedyStaysAhead(Flatten(gs), gs, hs, maxChars, k);
      GreedyStaysAhead(Flatten(gs), hs, gs, maxChars, k);
    } else {
      FlattenPrefix(gs, k);
      FlattenPrefix(hs, k);
      assert gs[..k] == gs && hs[..k] == hs;
    }
  }

  predicate AllFit(ps: seq<string>, maxChars: nat) {
    forall p | p in ps :: |p| <= maxChars
  }

  predicate EndsLong(ps: seq<string>, maxChars: nat) {
    ps != [] ==> |ps[|ps| - 1]| > maxChars
  }

  lemma MemberFits(g: seq<string>, p: string)
    requires p in g
    ensures |p| <= |Join(g)|
  {
    var i :| 0 <= i < |g| && g[i] == p;
    assert g[i..i + 1] == [p] && g[0..|g|] == g;
    JoinOfSliceIsShorter(g, 0, i, i + 1, |g|);
  }

  lemma {:induction false} PackedFits(gs: seq<seq<string>>, maxChars: nat)
    requires IsPacked(gs, maxChars)
    ensures AllFit(Flatten(gs), maxChars)
  {
    if gs != [] {
      var n := |gs| - 1;
      assert forall i | 0 <= i < n :: gs[..n][i] == gs[i];
      PackedFits(gs[..n], maxChars);
      forall p | p in gs[n] ensures |p| <= maxChars {
        MemberFits(gs[n], p);
      }
    }
  }

  /** Where the paragraphs that fit begin at the end of a list is determined. */
  lemma SplitAgrees(a: seq<string>, b: seq<string>, c: seq<string>, d: seq<string>, maxChars: nat)
    requires a + b == c + d && AllFit(b, maxChars) && AllFit(d, maxChars) && EndsLong(a, maxChars) && EndsLong(c, maxChars)
    ensures a == c && b == d
  {
    NotLonger(a, b, c, d, maxChars);
    NotLonger(c, d, a, b, maxChars);
    assert a == (a + b)[..|a|] && c == (c + d)[..|c|];
    assert b == (a + b)[|a|..] && d == (c + d)[|c|..];
  }

  lemma NotLonger(a: seq<string>, b: seq<string>, c: seq<string>, d: seq<string>, maxChars: nat)
    requires a + b == c + d && AllFit(d, maxChars) && EndsLong(a, maxChars)
    ensures |a| <= |c|
  {
    if |a| > |c| {
      LastFits(a, b, c, d, maxChars);
    }
  }

  lemma LastFits(a: seq<string>, b: seq<string>, c: seq<string>, d: seq<string>, maxChars: nat)
    requires a + b == c + d && AllFit(d, maxChars) && |a| > |c|
    ensures |a[|a| - 1]| <= maxChars
  {
    assert (a + b)[|a| - 1] == a[|a| - 1];
    assert (c + d)[|a| - 1] == d[|a| - 1 - |c|];
    assert d[|a| - 1 - |c|] in d;
  }

  lemma SegmentsEndLong(segments: seq<Segment>, maxChars: nat, overlap: nat)
    requires IsLaidOut(Layout(segments, []), maxChars, overlap)
    ensures EndsLong(SegmentParagraphs(segments), maxChars)
    ensures segments == [] <==> SegmentParagraphs(segments) == []
  {
    if segments != [] {
      assert segments[|segments| - 1] in segments;
    }
  }

  lemma {:induction false} SegmentsAreUnique(ss: seq<Segment>, ts: seq<Segment>, maxChars: nat, overlap: nat)
    requires IsLaidOut(Layout(ss, []), maxChars, overlap) && IsLaidOut(Layout(ts, []), maxChars, overlap)
    requires SegmentParagraphs(ss) == SegmentParagraphs(ts)
    ensures ss == ts
  {
    hide *;
    SegmentsEndLong(ss, maxChars, overlap);
    SegmentsEndLong(ts, maxChars, overlap);
    if ss != [] && ts != [] {
      var m, n := |ss| - 1, |ts| - 1;
      var s, t := ss[m], ts[n];
      LastSegment(ss, maxChars, overlap);
      LastSegment(ts, maxChars, overlap);
      SameButLast(SegmentParagraphs(ss[..m]) + Flatten(s.groups), s.long, SegmentParagraphs(ts[..n]) + Flatten(t.groups), t.long);
      SegmentsEndLong(ss[..m], maxChars, overlap);
      SegmentsEndLong(ts[..n], maxChars, overlap);
      PackedFits(s.groups, maxChars);
      PackedFits(t.groups, maxChars);
      SplitAgrees(SegmentParagraphs(ss[..m]), Flatten(s.groups), SegmentParagraphs(ts[..n]), Flatten(t.groups), maxChars);
      PackingIsUnique(s.groups, t.groups, maxChars);
      TilingIsUnique(s.long, s.ws, t.ws, maxChars, overlap);
      SegmentsAreUnique(ss[..m], ts[..n], maxChars, overlap);
      assert ss == ss[..m] + [s] && ts == ts[..n] + [t];
    }
  }

  lemma LastSegment(segments: seq<Segment>, maxChars: nat, overlap: nat)
    requires segments != [] && IsLaidOut(Layout(segments, []), maxChars, overlap)
    ensures var n := |segments| - 1;
            var seg := segments[n];
            && SegmentParagraphs(segments) == SegmentParagraphs(segments[..n]) + Flatten(seg.groups) + [seg.long]
            && IsPacked(seg.groups, maxChars) && IsTiling(seg.long, seg.ws, maxChars, overlap)
            && IsLaidOut(Layout(segments[..n], []), maxChars, overlap)
  {
    hide IsPacked, IsTiling, Tight, Flatten;
    assert segments[|segments| - 1] in segments;
    assert forall seg | seg in segments[..|segments| - 1] :: seg in segments;
  }

  lemma SameButLast(a: seq<string>, x: string, b: seq<string>, y: string)
    requires a + [x] == b + [y]
    ensures a == b && x == y
  {
    assert |a| == |b|;
    assert a == (a + [x])[..|a|] && b == (b + [y])[..|b|];
    assert x == (a + [x])[|a|] && y == (b + [y])[|b|];
  }

  /** The paragraphs determine the layout, and with it the chunks. */
  lemma LayoutIsUnique(l: Layout, m: Layout, maxChars: nat, overlap: nat)
    requires IsLaidOut(l, maxChars, overlap) && IsLaidOut(m, maxChars, overlap) && Paragraphs(l) == Paragraphs(m)
    ensures l == m
  {
    NothingPacked(maxChars);
    hide IsPacked, IsTiling, SegmentParagraphs, Flatten, Tight, IsGreedy;
    SegmentsEndLong(l.segments, maxChars, overlap);
    SegmentsEndLong(m.segments, maxChars, overlap);
    PackedFits(l.tail, maxChars);
    PackedFits(m.tail, maxChars);
    SplitAgrees(SegmentParagraphs(l.segments), Flatten(l.tail), SegmentParagraphs(m.segments), Flatten(m.tail), maxChars);
    PackingIsUnique(l.tail, m.tail, maxChars);
    SegmentsAreUnique(l.segments, m.segments, maxChars, overlap);
  }

  // Steps of the packing loop. `gs` are the closed groups of the current run and `g` the group being built.

  function Open(gs: seq<seq<string>>, g: seq<string>): seq<seq<string>> {
    if g == [] then gs else gs + [g]
  }

  lemma StartGroup(gs: seq<seq<string>>, p: string, maxChars: nat)
    requires IsPacked(gs, maxChars) && Tight(p) && |p| <= maxChars
    requires gs != [] ==> |Join(gs[|gs| - 1] + [p])| > maxChars
    ensures IsPacked(gs + [[p]], maxChars)
    ensures Flatten(gs + [[p]]) == Flatten(gs) + [p]
    ensures Joins(gs + [[p]]) == Joins(gs) + [p]
  {
    assert (gs + [[p]])[..|gs|] == gs;
  }

  lemma GrowGroup(gs: seq<seq<string>>, g: seq<string>, p: string, maxChars: nat)
    requires g != [] && IsPacked(gs + [g], maxChars) && Tight(p)
    requires |Join(g)| + |p| + 2 <= maxChars
    ensures IsPacked(gs + [g + [p]], maxChars)
    ensures Flatten(gs + [g + [p]]) == Flatten(gs + [g]) + [p]
    ensures Join(g + [p]) == Join(g) + "\n\n" + p
  {
    var old', new' := gs + [g], gs + [g + [p]];
    assert old'[..|gs|] == gs && new'[..|gs|] == gs;
    assert (g + [p])[..|g|] == g;
    hide Tight, IsSpace;
    forall i | 0 <= i < |new'| ensures |Join(new'[i])| <= maxChars && forall q | q in new'[i] :: Tight(q) {
      if i < |gs| {
        assert new'[i] == old'[i];
      } else {
        assert old'[i] == g;
      }
    }
  }

  /** Writing the open group out: trimming a join of tight paragraphs changes nothing. */
  lemma FlushWritesJoin(g: seq<string>)
    requires forall p | p in g :: Tight(p)
    ensures TrimSpace(Join(g)) == Join(g)
    ensures Join(g) == "" <==> g == []
  {
    if g != [] {
      forall i | 0 <= i < |g| ensures Tight(g[i]) {
        assert g[i] in g;
      }
      JoinIsTight(g);
      TightUntouched(Join(g));
    }
  }

  /** Between two paragraphs: `kept` have been laid out, of which the open group `g` is still to be written. */
  ghost predicate Packing(kept: seq<string>, chunks: seq<string>, segments: seq<Segment>, gs: seq<seq<string>>, g: seq<string>,
                          maxChars: nat, overlap: nat)
  {
    && IsLaidOut(Layout(segments, Open(gs, g)), maxChars, overlap)
    && SegmentParagraphs(segments) + Flatten(Open(gs, g)) == kept
    && chunks == SegmentChunks(segments) + Joins(gs)
    && (forall p | p in g :: Tight(p))
    && (g == [] ==> gs == [])
  }

  lemma PackingStarts(maxChars: nat, overlap: nat)
    ensures Packing([], [], [], [], [], maxChars, overlap) && Join([]) == "" && Kept([]) == []
  {
    NothingPacked(maxChars);
  }

  lemma PacksLong(kept: seq<string>, chunks: seq<string>, segments: seq<Segment>, gs: seq<seq<string>>, g: seq<string>,
                  para: string, ws: seq<Window>, maxChars: nat, overlap: nat)
    requires Packing(kept, chunks, segments, gs, g, maxChars, overlap)
    requires Tight(para) && |para| > maxChars && IsTiling(para, ws, maxChars, overlap)
    ensures var flushed := if g == [] then chunks else chunks + [Join(g)];
            Packing(kept + [para], flushed + Pieces(para, ws), segments + [Segment(Open(gs, g), para, ws)], [], [], maxChars, overlap)
  {
    hide IsTiling, IsPacked, Tight, Pieces;
    NothingPacked(maxChars);
    JoinsOpen(gs, g);
    SegmentSnoc(segments, Segment(Open(gs, g), para, ws));
    hide Joins, Flatten, SegmentParagraphs, SegmentChunks;
  }

  lemma PacksFirst(kept: seq<string>, chunks: seq<string>, segments: seq<Segment>, para: string, maxChars: nat, overlap: nat)
    requires Packing(kept, chunks, segments, [], [], maxChars, overlap) && Tight(para) && |para| <= maxChars
    ensures Packing(kept + [para], chunks, segments, [], [para], maxChars, overlap)
  {
    hide IsTiling, IsPacked, Tight;
    NothingPacked(maxChars);
    StartGroup([], para, maxChars);
    hide Joins, Flatten, SegmentParagraphs, SegmentChunks;
  }

  lemma PacksNext(kept: seq<string>, chunks: seq<string>, segments: seq<Segment>, gs: seq<seq<string>>, g: seq<string>,
                  para: string, maxChars: nat, overlap: nat)
    requires Packing(kept, chunks, segments, gs, g, maxChars, overlap) && Tight(para) && |para| <= maxChars
    requires g != [] && |Join(g)| + |para| + 2 > maxChars
    ensures Packing(kept + [para], chunks + [Join(g)], segments, gs + [g], [para], maxChars, overlap)
  {
    hide IsTiling, IsPacked, Tight;
    JoinWidth(g, para);
    JoinsOpen(gs, g);
    StartGroup(gs + [g], para, maxChars);
    hide Joins, Flatten, SegmentParagraphs, SegmentChunks;
  }

  lemma PacksMore(kept: seq<string>, chunks: seq<string>, segments: seq<Segment>, gs: seq<seq<string>>, g: seq<string>,
                  para: string, maxChars: nat, overlap: nat)
    requires Packing(kept, chunks, segments, gs, g, maxChars, overlap) && Tight(para)
    requires g != [] && |Join(g)| + |para| + 2 <= maxChars
    ensures Packing(kept + [para], chunks, segments, gs, g + [para], maxChars, overlap)
    ensures Join(g + [para]) == Join(g) + "\n\n" + para
  {
    hide IsTiling, IsPacked, Tight;
    GrowGroup(gs, g, para, maxChars);
    hide Joins, Flatten, SegmentParagraphs, SegmentChunks;
  }

  lemma PackingEnds(kept: seq<string>, chunks: seq<string>, segments: seq<Segment>, gs: seq<seq<string>>, g: seq<string>,
                    maxChars: nat, overlap: nat)
    requires Packing(kept, chunks, segments, gs, g, maxChars, overlap)
    ensures var layout := Layout(segments, Open(gs, g));
            && IsLaidOut(layout, maxChars, overlap) && Paragraphs(layout) == kept
            && Chunks(layout) == if g == [] then chunks else chunks + [Join(g)]
  {
    hide IsLaidOut, Flatten, SegmentParagraphs, SegmentChunks;
    JoinsOpen(gs, g);
  }

  /** The open group, trimmed, is its join, and blank only if there is none. */
  lemma OpenGroupIsTight(kept: seq<string>, chunks: seq<string>, segments: seq<Segment>, gs: seq<seq<string>>, g: seq<string>,
                         maxChars: nat, overlap: nat)
    requires Packing(kept, chunks, segments, gs, g, maxChars, overlap)
    ensures TrimSpace(Join(g)) == Join(g) && (Join(g) == "" <==> g == [])
    ensures g == [] ==> gs == []
  {
    FlushWritesJoin(g);
  }

  method SplitText(content: string, maxChars: nat, overlap: nat) returns (chunks: seq<string>, ghost layout: Layout)
    requires maxChars >= 1 && overlap <= maxChars / 2
    ensures IsLaidOut(layout, maxChars, overlap)
    ensures Paragraphs(layout) == Kept(Split(content))
    ensures chunks == Chunks(layout)
    ensures forall l: Layout | IsLaidOut(l, maxChars, overlap) && Paragraphs(l) == Kept(Split(content)) :: chunks == Chunks(l)
    ensures overlap == 0 ==> SolidAll(chunks) == Solid(content)
  {
    hide *;
    var paragraphs := Split(content);
    chunks := [];
    var cur := "";
    ghost var segments: seq<Segment> := [];
    ghost var gs: seq<seq<string>>, g: seq<string> := [], [];
    PackingStarts(maxChars, overlap);
    for k := 0 to |paragraphs|
      invariant Packing(Kept(paragraphs[..k]), chunks, segments, gs, g, maxChars, overlap)
      invariant cur == Join(g)
    {
      ghost var kept := Kept(paragraphs[..k]);
      var para := TrimSpace(paragraphs[k]);
      KeptSnoc(paragraphs, k);
      ParagraphIsTight(paragraphs[k]);
      OpenGroupIsTight(kept, chunks, segments, gs, g, maxChars, overlap);
      if para == "" {
        assert kept + [] == kept;
        continue;
      }
      if |para| > maxChars {
        ghost var chunks0 := chunks;
        if TrimSpace(cur) != "" {
          chunks := chunks + [TrimSpace(cur)];
        }
        var pieces, ws := SplitLong(para, maxChars, overlap);
        chunks := chunks + pieces;
        PacksLong(kept, chunks0, segments, gs, g, para, ws, maxChars, overlap);
        segments, gs, g, cur := segments + [Segment(Open(gs, g), para, ws)], [], [], "";
        PackingStarts(maxChars, overlap);
        continue;
      }
      JoinOne(para);
      if |cur| > 0 && |cur| + |para| + 2 > maxChars {
        PacksNext(kept, chunks, segments, gs, g, para, maxChars, overlap);
        chunks := chunks + [TrimSpace(cur)];
        gs, g, cur := gs + [g], [para], para;
      } else if |cur| > 0 {
        PacksMore(kept, chunks, segments, gs, g, para, maxChars, overlap);
        g, cur := g + [para], cur + "\n\n" + para;
      } else {
        PacksFirst(kept, chunks, segments, para, maxChars, overlap);
        g, cur := [para], para;
      }
    }
    assert paragraphs[..|paragraphs|] == paragraphs;
    OpenGroupIsTight(Kept(paragraphs), chunks, segments, gs, g, maxChars, overlap);
    PackingEnds(Kept(paragraphs), chunks, segments, gs, g, maxChars, overlap);
    if TrimSpace(cur) != "" {
      chunks := chunks + [TrimSpace(cur)];
    }
    layout := Layout(segments, Open(gs, g));
    if overlap == 0 {
      ChunksLoseNothing(content, layout, maxChars);
    }
    forall l: Layout | IsLaidOut(l, maxChars, overlap) && Paragraphs(l) == Kept(paragraphs) ensures l == layout {
      LayoutIsUnique(l, layout, maxChars, overlap);
    }
  }

  lemma NothingPacked(maxChars: nat)
    ensures IsPacked([], maxChars) && Flatten([]) == [] && Join([]) == "" && Joins([]) == []
    ensures SegmentParagraphs([]) == [] && SegmentChunks([]) == [] && Kept([]) == []
  {
  }

  lemma KeptSnoc(ps: seq<string>, k: nat)
    requires k < |ps|
    ensures Kept(ps[..k + 1]) == Kept(ps[..k]) + if TrimSpace(ps[k]) == "" then [] else [TrimSpace(ps[k])]
  {
    assert ps[..k + 1][..k] == ps[..k];
  }

  lemma ParagraphIsTight(p: string)
    ensures TrimSpace(p) == "" || Tight(TrimSpace(p))
  {
    var i, j := TrimSpaceKeepsWindow(p);
  }

  lemma JoinsOpen(gs: seq<seq<string>>, g: seq<string>)
    ensures Joins(Open(gs, g)) == if g == [] then Joins(gs) else Joins(gs) + [Join(g)]
  {
  }

  lemma JoinOne(p: string)
    ensures Join([p]) == p
  {
  }

  lemma JoinWidth(g: seq<string>, p: string)
    requires g != []
    ensures |Join(g + [p])| == |Join(g)| + |p| + 2
  {
    JoinLength(g);
    JoinLength(g + [p]);
    WidthConcat(g, [p]);
  }

  lemma SegmentSnoc(segments: seq<Segment>, seg: Segment)
    ensures SegmentParagraphs(segments + [seg]) == SegmentParagraphs(segments) + Flatten(seg.groups) + [seg.long]
    ensures SegmentChunks(segments + [seg]) == SegmentChunks(segments) + Joins(seg.groups) + Pieces(seg.long, seg.ws)
  {
    assert (segments + [seg])[..|segments|] == segments;
  }
}
