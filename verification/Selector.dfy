/** Skill selection: a keyword scorer, and a cache in front of it that must not be noticed. */
module Selector {
  import opened Wrappers
  import opened Strings

  /** Go's case and category tables. */
  datatype Tables = Tables(lower: char -> char, letterOrDigit: char -> bool)
  {
    /** Lower case is final, and case mapping leaves white space alone. */
    ghost predicate Sane() {
      && (forall c :: lower(lower(c)) == lower(c))
      && (forall c :: IsSpace(lower(c)) == IsSpace(c))
      && lower(' ') == ' '
    }
  }

  // ---- queries ----

  /** `strings.ToLower` */
  function ToLower(t: Tables, s: string): (r: string)
    ensures |r| == |s|
  {
    seq(|s|, i requires 0 <= i < |s| => t.lower(s[i]))
  }

  function Normalize(t: Tables, q: string): string {
    JoinWords(Fields(ToLower(t, TrimSpace(q))))
  }

  ghost predicate IsLower(t: Tables, s: string) {
    forall c | c in s :: t.lower(c) == c
  }

  ghost predicate AreLower(t: Tables, ws: seq<string>) {
    forall w | w in ws :: IsLower(t, w)
  }

  lemma {:induction false} FieldsAreLower(t: Tables, s: string)
    requires IsLower(t, s)
    ensures AreLower(t, Fields(s))
    decreases |s|
  {
    if s != "" {
      if IsSpace(s[0]) {
        FieldsAreLower(t, s[1..]);
      } else {
        FieldsAreLower(t, s[WordEnd(s, 0)..]);
      }
    }
  }

  lemma WordEndsAtSpace(w: string, rest: string)
    requires IsWord(w) && (rest == "" || IsSpace(rest[0]))
    ensures WordEnd(w + rest, 0) == |w|
  {
    assert forall i | 0 <= i < |w| :: (w + rest)[i] == w[i] && w[i] in w;
    assert rest != "" ==> (w + rest)[|w|] == rest[0];
  }

  /** Joining words and splitting again gives the words back. */
  lemma {:induction false} FieldsOfJoined(ws: seq<string>)
    requires AreWords(ws)
    ensures Fields(JoinWords(ws)) == ws
  {
    if ws != [] {
      var w, joined := ws[0], JoinWords(ws);
      assert w in ws && AreWords(ws[1..]);
      FieldsOfJoined(ws[1..]);
      var rest := if |ws| == 1 then "" else " " + JoinWords(ws[1..]);
      assert joined == w + rest;
      WordEndsAtSpace(w, rest);
      assert w[0] in w && joined[0] == w[0];
      assert joined[..|w|] == w && joined[|w|..] == rest;
      if |ws| > 1 {
        assert rest[1..] == JoinWords(ws[1..]);
      }
    }
  }

  lemma {:induction false} JoinedIsTight(ws: seq<string>)
    requires AreWords(ws) && ws != []
    ensures Tight(JoinWords(ws))
  {
    var w := ws[0];
    assert w in ws && w[0] in w && w[|w| - 1] in w;
    if |ws| > 1 {
      assert AreWords(ws[1..]);
      JoinedIsTight(ws[1..]);
    }
  }

  lemma {:induction false} JoinedIsLower(t: Tables, ws: seq<string>)
    requires AreLower(t, ws) && t.Sane()
    ensures IsLower(t, JoinWords(ws))
  {
    if ws != [] {
      assert ws[0] in ws && AreLower(t, ws[1..]);
      JoinedIsLower(t, ws[1..]);
    }
  }

  lemma LowerIsLower(t: Tables, s: string)
    requires t.Sane()
    ensures IsLower(t, ToLower(t, s))
  {
  }

  lemma LowerStays(t: Tables, s: string)
    requires IsLower(t, s)
    ensures ToLower(t, s) == s
  {
    assert forall i | 0 <= i < |s| :: s[i] in s;
  }

  /** A normalized query is its own normal form. */
  lemma NormalizeIsIdempotent(t: Tables, q: string)
    requires t.Sane()
    ensures Normalize(t, Normalize(t, q)) == Normalize(t, q)
  {
    var s := ToLower(t, TrimSpace(q));
    var ws := Fields(s);
    LowerIsLower(t, TrimSpace(q));
    FieldsAreWords(s);
    FieldsAreLower(t, s);
    JoinedIsLower(t, ws);
    if ws != [] {
      JoinedIsTight(ws);
      TightUntouched(JoinWords(ws));
    }
    LowerStays(t, JoinWords(ws));
    FieldsOfJoined(ws);
  }

  /** What a normal form is: the query's characters in lower case, in words with one space between them. */
  lemma NormalizeKeepsLetters(t: Tables, q: string)
    requires t.Sane()
    ensures Solid(Normalize(t, q)) == ToLower(t, Solid(q))
    ensures exists ws :: AreWords(ws) && Normalize(t, q) == JoinWords(ws)
  {
    var s := ToLower(t, TrimSpace(q));
    FieldsAreWords(s);
    FieldsAreSolid(s);
    JoinedWordsAreSolid(Fields(s));
    LowerKeepsSpaces(t, TrimSpace(q));
    SolidTrim(q);
  }

  lemma {:induction false} LowerKeepsSpaces(t: Tables, s: string)
    requires t.Sane()
    ensures Solid(ToLower(t, s)) == ToLower(t, Solid(s))
  {
    if s != "" {
      var n := |s| - 1;
      LowerKeepsSpaces(t, s[..n]);
      assert ToLower(t, s)[..n] == ToLower(t, s[..n]);
    }
  }

  lemma LowerTrims(t: Tables, s: string)
    requires t.Sane()
    ensures ToLower(t, TrimSpace(s)) == TrimSpace(ToLower(t, s))
  {
    LowerTrimsLeft(t, s);
    LowerTrimsRight(t, TrimLeft(s));
  }

  lemma {:induction false} LowerTrimsLeft(t: Tables, s: string)
    requires t.Sane()
    ensures ToLower(t, TrimLeft(s)) == TrimLeft(ToLower(t, s))
  {
    if s != "" && IsSpace(s[0]) {
      LowerTrimsLeft(t, s[1..]);
      assert ToLower(t, s)[1..] == ToLower(t, s[1..]);
    }
  }

  lemma {:induction false} LowerTrimsRight(t: Tables, s: string)
    requires t.Sane()
    ensures ToLower(t, TrimRight(s)) == TrimRight(ToLower(t, s))
  {
    if s != "" && IsSpace(s[|s| - 1]) {
      var n := |s| - 1;
      LowerTrimsRight(t, s[..n]);
      assert ToLower(t, s)[..n] == ToLower(t, s[..n]);
    }
  }

  /** Two queries have the same normal form exactly if they consist of the same words, case apart. */
  lemma SameNormalFormSameWords(t: Tables, q: string, q': string)
    requires t.Sane()
    ensures Normalize(t, q) == Normalize(t, q') <==> Fields(ToLower(t, q)) == Fields(ToLower(t, q'))
  {
    LowerTrims(t, q);
    LowerTrims(t, q');
    FieldsOfTrimmed(ToLower(t, q));
    FieldsOfTrimmed(ToLower(t, q'));
    FieldsAreWords(ToLower(t, q));
    FieldsAreWords(ToLower(t, q'));
    FieldsOfJoined(Fields(ToLower(t, q)));
    FieldsOfJoined(Fields(ToLower(t, q')));
  }

  // ---- the scorer ----

  datatype Skill = Skill(name: string, description: string, path: string, content: string)

  function Contains(s: string, sub: string): bool {
    sub <= s || (s != "" && Contains(s[1..], sub))
  }

  predicate OccursAt(s: string, sub: string, i: nat) {
    i + |sub| <= |s| && s[i..i + |sub|] == sub
  }

  lemma OccursFurther(s: string, sub: string, i: nat)
    ensures OccursAt(s, sub, 0) <==> sub <= s
    ensures s != "" ==> (OccursAt(s, sub, i + 1) <==> OccursAt(s[1..], sub, i))
    ensures s == "" && OccursAt(s, sub, i) ==> i == 0
  {
    if s != "" && i + 1 + |sub| <= |s| {
      assert s[1..][i..i + |sub|] == s[i + 1..i + 1 + |sub|];
    }
    if |sub| <= |s| {
      assert s[0..|sub|] == s[..|sub|];
    }
  }

  lemma {:induction false} ContainsFinds(s: string, sub: string)
    ensures Contains(s, sub) <==> exists i: nat :: OccursAt(s, sub, i)
  {
    OccursFurther(s, sub, 0);
    if s != "" {
      ContainsFinds(s[1..], sub);
    }
    assert Contains(s, sub) <==> sub <= s || (s != "" && Contains(s[1..], sub));
    hide OccursAt, Contains;
    if i: nat :| OccursAt(s, sub, i) {
      OccursFurther(s, sub, i);
      if i > 0 {
        OccursFurther(s, sub, i - 1);
      }
    }
    if s != "" {
      if i: nat :| OccursAt(s[1..], sub, i) {
        OccursFurther(s, sub, i);
      }
    }
  }

  predicate IsPartChar(t: Tables, c: char) {
    t.letterOrDigit(c) || c == '_' || c == '-'
  }

  function PartEnd(t: Tables, s: string, i: nat): (k: nat)
    requires i <= |s|
    ensures i <= k <= |s|
    ensures i < |s| && IsPartChar(t, s[i]) ==> i < k
    ensures forall j | i <= j < k :: IsPartChar(t, s[j])
    ensures k < |s| ==> !IsPartChar(t, s[k])
    decreases |s| - i
  {
    if i < |s| && IsPartChar(t, s[i]) then PartEnd(t, s, i + 1) else i
  }

  /** The maximal runs of letters, digits, `_` and `-`. */
  function Parts(t: Tables, s: string): seq<string>
    decreases |s|
  {
    if s == "" then []
    else if !IsPartChar(t, s[0]) then Parts(t, s[1..])
    else
      var k := PartEnd(t, s, 0);
      [s[..k]] + Parts(t, s[k..])
  }

  /** The characters of the parts: all that may occur in one, in order. */
  function PartChars(t: Tables, s: string): string {
    if s == "" then "" else PartChars(t, s[..|s| - 1]) + if IsPartChar(t, s[|s| - 1]) then [s[|s| - 1]] else []
  }

  lemma {:induction false} PartCharsConcat(t: Tables, a: string, b: string)
    ensures PartChars(t, a + b) == PartChars(t, a) + PartChars(t, b)
  {
    if b == "" {
      assert a + b == a;
    } else {
      var n := |b| - 1;
      assert (a + b)[..|a + b| - 1] == a + b[..n] && (a + b)[|a + b| - 1] == b[n];
      PartCharsConcat(t, a, b[..n]);
      Associates(PartChars(t, a), PartChars(t, b[..n]), if IsPartChar(t, b[n]) then [b[n]] else []);
    }
  }

  lemma {:induction false} PartCharsOfRun(t: Tables, s: string)
    requires forall c | c in s :: IsPartChar(t, c)
    ensures PartChars(t, s) == s
  {
    if s != "" {
      assert s[|s| - 1] in s;
      PartCharsOfRun(t, s[..|s| - 1]);
      assert s == s[..|s| - 1] + [s[|s| - 1]];
    }
  }

  lemma PartCharsSkip(t: Tables, s: string)
    requires s != "" && !IsPartChar(t, s[0])
    ensures PartChars(t, s) == PartChars(t, s[1..])
  {
    assert s == [s[0]] + s[1..];
    PartCharsConcat(t, [s[0]], s[1..]);
    assert PartChars(t, [s[0]]) == "" && "" + PartChars(t, s[1..]) == PartChars(t, s[1..]);
  }

  lemma PartCharsRun(t: Tables, s: string, k: nat)
    requires k <= |s| && forall j | 0 <= j < k :: IsPartChar(t, s[j])
    ensures PartChars(t, s) == s[..k] + PartChars(t, s[k..])
  {
    hide PartChars, IsPartChar;
    PartCharsOfRun(t, s[..k]);
    PartCharsConcat(t, s[..k], s[k..]);
    assert s == s[..k] + s[k..];
  }

  /** The parts are runs, none empty, and together they hold every character that may occur in one, in order. */
  lemma {:induction false} PartsHoldAll(t: Tables, s: string)
    ensures Concat(Parts(t, s)) == PartChars(t, s)
    ensures forall p | p in Parts(t, s) :: p != "" && forall c | c in p :: IsPartChar(t, c)
    decreases |s|
  {
    if s == "" {
    } else if !IsPartChar(t, s[0]) {
      PartsHoldAll(t, s[1..]);
      PartCharsSkip(t, s);
      hide Concat, PartChars;
    } else {
      var k := PartEnd(t, s, 0);
      PartsHoldAll(t, s[k..]);
      ConcatAddsUp([s[..k]], Parts(t, s[k..]));
      PartCharsRun(t, s, k);
      hide Concat, PartChars;
    }
  }

  predicate IsDash(c: char) {
    c == '_' || c == '-'
  }

  /** `strings.Trim(part, "_-")` */
  function TrimDashes(s: string): string
    decreases |s|
  {
    if s != "" && IsDash(s[0]) then TrimDashes(s[1..])
    else if s != "" && IsDash(s[|s| - 1]) then TrimDashes(s[..|s| - 1])
    else s
  }

  /** The distinct trimmed parts of two characters or more, in order of first appearance. */
  function Distinct(parts: seq<string>): seq<string> {
    if parts == [] then []
    else
      var front, p := Distinct(parts[..|parts| - 1]), TrimDashes(parts[|parts| - 1]);
      if |p| < 2 || p in front then front else front + [p]
  }

  /** What trimming leaves has no dash at either end, and what it drops is dashes. */
  lemma {:induction false} TrimDashesKeepsWindow(s: string) returns (i: nat, j: nat)
    ensures i <= j <= |s| && TrimDashes(s) == s[i..j]
    ensures i < j ==> !IsDash(s[i]) && !IsDash(s[j - 1])
    ensures (forall k | 0 <= k < i :: IsDash(s[k])) && forall k | j <= k < |s| :: IsDash(s[k])
    decreases |s|
  {
    if s != "" && IsDash(s[0]) {
      i, j := TrimDashesKeepsWindow(s[1..]);
      assert s[1..][i..j] == s[i + 1..j + 1];
      assert forall k | 1 <= k <= i :: s[1..][k - 1] == s[k];
      assert forall k | j + 1 <= k < |s| :: s[1..][k - 1] == s[k];
      i, j := i + 1, j + 1;
    } else if s != "" && IsDash(s[|s| - 1]) {
      i, j := TrimDashesKeepsWindow(s[..|s| - 1]);
      assert s[..|s| - 1][i..j] == s[i..j];
    } else {
      i, j := 0, |s|;
    }
  }

  /** A token of some parts: what one of them is trimmed to, if two characters are left. */
  ghost predicate IsTokenOf(parts: seq<string>, p: string) {
    |p| >= 2 && exists i: nat :: IsTrimmedTo(parts, i, p)
  }

  predicate IsTrimmedTo(parts: seq<string>, i: nat, p: string) {
    i < |parts| && TrimDashes(parts[i]) == p
  }

  /** Each token once, and nothing else. */
  lemma {:induction false} DistinctHoldsTokensOnce(parts: seq<string>)
    ensures forall p :: multiset(Distinct(parts))[p] == if IsTokenOf(parts, p) then 1 else 0
  {
    if parts != [] {
      var n := |parts| - 1;
      var front, last := Distinct(parts[..n]), TrimDashes(parts[n]);
      DistinctHoldsTokensOnce(parts[..n]);
      forall p ensures IsTokenOf(parts, p) <==> IsTokenOf(parts[..n], p) || (|p| >= 2 && p == last) {
        if |p| >= 2 && p == last {
          assert IsTrimmedTo(parts, n, p);
        }
        if IsTokenOf(parts[..n], p) {
          var i: nat :| IsTrimmedTo(parts[..n], i, p);
          assert IsTrimmedTo(parts, i, p);
        }
        if IsTokenOf(parts, p) {
          var i: nat :| IsTrimmedTo(parts, i, p);
          assert i < n ==> IsTrimmedTo(parts[..n], i, p);
        }
      }
      assert last in front <==> last in multiset(front);
      hide IsTokenOf, TrimDashes;
    }
  }

  method Tokenize(t: Tables, q: string) returns (tokens: seq<string>)
    ensures tokens == Sort(Distinct(Parts(t, q)))
    ensures Sorted(tokens)
    ensures multiset(tokens) == multiset(Distinct(Parts(t, q)))
    ensures forall p :: multiset(tokens)[p] == if IsTokenOf(Parts(t, q), p) then 1 else 0
  {
    DistinctHoldsTokensOnce(Parts(t, q));
    hide IsTokenOf, TrimDashes, Parts;
    var parts := Parts(t, q);
    var seen: set<string>, out: seq<string> := {}, [];
    for i := 0 to |parts|
      invariant out == Distinct(parts[..i])
      invariant forall p :: p in seen <==> p in out
    {
      assert parts[..i + 1][..i] == parts[..i];
      var part := TrimDashes(parts[i]);
      if |part| < 2 {
        continue;
      }
      if part in seen {
        continue;
      }
      seen := seen + {part};
      out := out + [part];
    }
    assert parts[..|parts|] == parts;
    tokens := Sort(out);
  }

  /** Length in bytes, encoded as UTF-8. */
  function Utf8Length(s: string): nat {
    if s == "" then 0
    else
      var c := s[0];
      (if c < '\U{80}' then 1 else if c < '\U{800}' then 2 else if c < '\U{10000}' then 3 else 4) + Utf8Length(s[1..])
  }

  /** Every character takes one to four bytes, and ASCII ones take one. */
  lemma {:induction false} Utf8LengthFits(s: string)
    ensures |s| <= Utf8Length(s) <= 4 * |s|
    ensures Utf8Length(s) == |s| <==> forall c | c in s :: c < '\U{80}'
    ensures (forall c | c in s :: c >= '\U{10000}') ==> Utf8Length(s) == 4 * |s|
    ensures (forall c | c in s :: '\U{800}' <= c < '\U{10000}') ==> Utf8Length(s) == 3 * |s|
    ensures (forall c | c in s :: '\U{80}' <= c < '\U{800}') ==> Utf8Length(s) == 2 * |s|
  {
    if s != "" {
      Utf8LengthFits(s[1..]);
      assert s[0] in s && forall c | c in s[1..] :: c in s;
      assert forall c | c in s :: c == s[0] || c in s[1..];
    }
  }

  lemma {:induction false} Utf8LengthAddsUp(a: string, b: string)
    ensures Utf8Length(a + b) == Utf8Length(a) + Utf8Length(b)
  {
    if a == "" {
      assert a + b == b;
    } else {
      assert (a + b)[1..] == a[1..] + b;
      Utf8LengthAddsUp(a[1..], b);
    }
  }

  /** What one token is worth. */
  function Points(tk: string, name: string, desc: string, content: string): nat {
    if tk == name then 10
    else if Contains(name, tk) then 6
    else if Contains(desc, tk) then 3
    else if Utf8Length(tk) >= 4 && Contains(content, tk) then 1
    else 0
  }

  /** The points by the best place a token is found in: 10 for the whole name, then 6 for a part of it, 3 for the description,
      1 for the content, which only tokens of four bytes are looked for in. */
  lemma PointsByPlace(tk: string, name: string, desc: string, content: string)
    ensures Points(tk, name, desc, content) == 10 <==> tk == name
    ensures Points(tk, name, desc, content) == 6 <==> tk != name && Contains(name, tk)
    ensures Points(tk, name, desc, content) == 3 <==> !Contains(name, tk) && Contains(desc, tk)
    ensures Points(tk, name, desc, content) == 1 <==>
            !Contains(name, tk) && !Contains(desc, tk) && Utf8Length(tk) >= 4 && Contains(content, tk)
    ensures Points(tk, name, desc, content) > 0 <==> IsFound(tk, name, desc, content)
  {
    assert Contains(name, name);
    hide Utf8Length;
  }

  function Sum(tokens: seq<string>, name: string, desc: string, content: string): nat {
    if tokens == [] then 0
    else Sum(tokens[..|tokens| - 1], name, desc, content) + Points(tokens[|tokens| - 1], name, desc, content)
  }

  function Score(t: Tables, query: string, tokens: seq<string>, sk: Skill): nat {
    var name := ToLower(t, sk.name);
    (if |name| >= 3 && Contains(query, name) then 12 else 0)
    + Sum(tokens, name, ToLower(t, sk.description), ToLower(t, sk.content))
  }

  /** A token found in the name, in the description or, if it has four bytes, in the content. */
  predicate IsFound(tk: string, name: string, desc: string, content: string) {
    Contains(name, tk) || Contains(desc, tk) || (Utf8Length(tk) >= 4 && Contains(content, tk))
  }

  lemma {:induction false} SumCountsFinds(tokens: seq<string>, name: string, desc: string, content: string)
    ensures Sum(tokens, name, desc, content) > 0 <==> exists tk :: tk in tokens && IsFound(tk, name, desc, content)
    ensures Sum(tokens, name, desc, content) <= 10 * |tokens|
  {
    if tokens != [] {
      var n := |tokens| - 1;
      SumCountsFinds(tokens[..n], name, desc, content);
      assert tokens[n] in tokens;
      assert Points(tokens[n], name, desc, content) > 0 <==> IsFound(tokens[n], name, desc, content);
      hide Points, IsFound;
      assert forall tk :: tk in tokens <==> tk in tokens[..n] || tk == tokens[n];
    }
  }

  /** A skill scores exactly if its name, of three characters or more, is in the query or one of the tokens is found in it. */
  lemma ScoresExactlyIfFound(t: Tables, query: string, tokens: seq<string>, sk: Skill)
    ensures Score(t, query, tokens, sk) > 0 <==>
            || (|sk.name| >= 3 && Contains(query, ToLower(t, sk.name)))
            || exists tk :: tk in tokens && IsFound(tk, ToLower(t, sk.name), ToLower(t, sk.description), ToLower(t, sk.content))
    ensures Score(t, query, tokens, sk) <= 12 + 10 * |tokens|
    ensures Score(t, query, tokens, sk) - Sum(tokens, ToLower(t, sk.name), ToLower(t, sk.description), ToLower(t, sk.content)) ==
            if |sk.name| >= 3 && Contains(query, ToLower(t, sk.name)) then 12 else 0
  {
    SumCountsFinds(tokens, ToLower(t, sk.name), ToLower(t, sk.description), ToLower(t, sk.content));
    hide Sum, IsFound, Contains;
  }

  method ScoreSkill(t: Tables, query: string, tokens: seq<string>, sk: Skill) returns (score: nat)
    ensures score == Score(t, query, tokens, sk)
  {
    hide Contains, Utf8Length;
    var name, desc, content := ToLower(t, sk.name), ToLower(t, sk.description), ToLower(t, sk.content);
    score := 0;
    if |name| >= 3 && Contains(query, name) {
      score := score + 12;
    }
    ghost var base := score;
    for i := 0 to |tokens|
      invariant score == base + Sum(tokens[..i], name, desc, content)
    {
      assert tokens[..i + 1][..i] == tokens[..i];
      var tk := tokens[i];
      if tk == name {
        score := score + 10;
      } else if Contains(name, tk) {
        score := score + 6;
      } else if Contains(desc, tk) {
        score := score + 3;
      } else if Utf8Length(tk) >= 4 && Contains(content, tk) {
        score := score + 1;
      }
    }
    assert tokens[..|tokens|] == tokens;
  }

  // ---- ranking ----

  datatype Scored = Scored(skill: Skill, score: nat)

  /** Higher scores first, then by name, then by path. */
  predicate Before(a: Scored, b: Scored) {
    if a.score != b.score then a.score > b.score
    else if a.skill.name != b.skill.name then Less(a.skill.name, b.skill.name)
    else Less(a.skill.path, b.skill.path)
  }

  lemma BeforeMeans(a: Scored, b: Scored)
    ensures Before(a, b) <==>
            || a.score > b.score
            || (a.score == b.score && Less(a.skill.name, b.skill.name))
            || (a.score == b.score && a.skill.name == b.skill.name && Less(a.skill.path, b.skill.path))
  {
    LessIrreflexive(a.skill.name);
  }

  ghost predicate Ranked(ms: seq<Scored>) {
    forall i, j | 0 <= i < j < |ms| :: !Before(ms[j], ms[i])
  }

  lemma NotBeforeTransitive(a: Scored, b: Scored, c: Scored)
    requires !Before(b, a) && !Before(c, b)
    ensures !Before(c, a)
  {
    LessIsOrder(a.skill.name, b.skill.name, c.skill.name);
    LessIsOrder(a.skill.path, b.skill.path, c.skill.path);
  }

  /** What ranking needs of the string order, for any three strings. */
  lemma LessIsOrder(a: string, b: string, c: string)
    ensures a == b || Less(a, b) || Less(b, a)
    ensures b == c || Less(b, c) || Less(c, b)
    ensures Less(a, b) && Less(b, c) ==> Less(a, c)
    ensures Less(a, c) ==> !Less(c, a)
    ensures !Less(a, a)
    ensures !Less(b, a) && !Less(c, b) ==> !Less(c, a)
  {
    LessTotal(a, b);
    LessTotal(b, c);
    LessIrreflexive(a);
    if Less(a, b) && Less(b, c) {
      LessTransitive(a, b, c);
    }
    if Less(a, c) {
      LessAsymmetric(a, c);
    }
  }

  function InsertRanked(x: Scored, ms: seq<Scored>): seq<Scored> {
    if ms == [] || !Before(ms[0], x) then [x] + ms else [ms[0]] + InsertRanked(x, ms[1..])
  }

  /** `sort.SliceStable`: ranked, and equals keep their order. */
  function Rank(ms: seq<Scored>): seq<Scored> {
    if ms == [] then [] else InsertRanked(ms[0], Rank(ms[1..]))
  }

  lemma {:induction false} InsertKeepsRank(x: Scored, ms: seq<Scored>)
    requires Ranked(ms)
    ensures Ranked(InsertRanked(x, ms))
    ensures multiset(InsertRanked(x, ms)) == multiset(ms) + multiset{x}
  {
    if ms == [] {
    } else if !Before(ms[0], x) {
      forall j | 0 <= j < |ms| ensures !Before(ms[j], x) {
        if j > 0 {
          NotBeforeTransitive(x, ms[0], ms[j]);
        }
      }
    } else {
      var rest := InsertRanked(x, ms[1..]);
      InsertKeepsRank(x, ms[1..]);
      assert ms == [ms[0]] + ms[1..];
      BeforeAsymmetric(ms[0], x);
      forall j | 0 <= j < |rest| ensures !Before(rest[j], ms[0]) {
        assert rest[j] in multiset(rest);
        assert rest[j] == x || rest[j] in ms[1..];
      }
    }
  }

  lemma BeforeAsymmetric(a: Scored, b: Scored)
    requires Before(a, b)
    ensures !Before(b, a)
  {
    LessIsOrder(a.skill.name, b.skill.name, a.skill.name);
    LessIsOrder(b.skill.name, a.skill.name, b.skill.name);
    LessIsOrder(a.skill.path, b.skill.path, a.skill.path);
    LessIsOrder(b.skill.path, a.skill.path, b.skill.path);
  }

  lemma {:induction false} RankRanks(ms: seq<Scored>)
    ensures Ranked(Rank(ms)) && multiset(Rank(ms)) == multiset(ms)
  {
    if ms != [] {
      RankRanks(ms[1..]);
      InsertKeepsRank(ms[0], Rank(ms[1..]));
      assert ms == [ms[0]] + ms[1..];
    }
  }

  /** Ranked alike: same score, name and path. */
  predicate Alike(a: Scored, b: Scored) {
    a.score == b.score && a.skill.name == b.skill.name && a.skill.path == b.skill.path
  }

  function Peers(ms: seq<Scored>, m: Scored): seq<Scored> {
    if ms == [] then [] else (if Alike(ms[0], m) then [ms[0]] else []) + Peers(ms[1..], m)
  }

  lemma {:induction false} InsertIsStable(x: Scored, ms: seq<Scored>, m: Scored)
    ensures Peers(InsertRanked(x, ms), m) == (if Alike(x, m) then [x] else []) + Peers(ms, m)
  {
    if ms != [] && Before(ms[0], x) {
      LessIrreflexive(x.skill.name);
      LessIrreflexive(x.skill.path);
      InsertIsStable(x, ms[1..], m);
      assert InsertRanked(x, ms)[1..] == InsertRanked(x, ms[1..]);
      hide Before, Less;
    } else {
      assert ([x] + ms)[1..] == ms;
    }
  }

  /** Those ranked alike stay in the order they came in. */
  lemma {:induction false} RankIsStable(ms: seq<Scored>, m: Scored)
    ensures Peers(Rank(ms), m) == Peers(ms, m)
  {
    if ms != [] {
      RankIsStable(ms[1..], m);
      InsertIsStable(ms[0], Rank(ms[1..]), m);
    }
  }

  /** The skills that score at all, with their scores. */
  function Matches(t: Tables, query: string, tokens: seq<string>, skills: seq<Skill>): seq<Scored> {
    if skills == [] then []
    else
      var n := |skills| - 1;
      var score := Score(t, query, tokens, skills[n]);
      Matches(t, query, tokens, skills[..n]) + if score > 0 then [Scored(skills[n], score)] else []
  }

  /** Exactly those that score, in order, with their scores. */
  lemma {:induction false} MatchesPick(t: Tables, query: string, tokens: seq<string>, skills: seq<Skill>) returns (at: seq<nat>)
    ensures Picks(at, |skills|, i => 0 <= i < |skills| && Score(t, query, tokens, skills[i]) > 0)
    ensures |Matches(t, query, tokens, skills)| == |at|
    ensures forall k | 0 <= k < |at| ::
              Matches(t, query, tokens, skills)[k] == Scored(skills[at[k]], Score(t, query, tokens, skills[at[k]]))
  {
    hide *;
    LastMatch(t, query, tokens, skills);
    at := [];
    if skills == [] {
      NoPicks(i => 0 <= i < |skills| && Score(t, query, tokens, skills[i]) > 0);
    } else {
      var n := |skills| - 1;
      at := MatchesPick(t, query, tokens, skills[..n]);
      PicksWithin(at, n, i => 0 <= i < n && Score(t, query, tokens, skills[..n][i]) > 0);
      PicksNext(at, n, i => 0 <= i < n && Score(t, query, tokens, skills[..n][i]) > 0,
                i => 0 <= i < |skills| && Score(t, query, tokens, skills[i]) > 0);
      if Score(t, query, tokens, skills[n]) > 0 {
        at := at + [n];
      }
    }
  }

  lemma LastMatch(t: Tables, query: string, tokens: seq<string>, skills: seq<Skill>)
    ensures skills == [] ==> Matches(t, query, tokens, skills) == []
    ensures skills != [] ==>
              var n := |skills| - 1;
              var score := Score(t, query, tokens, skills[n]);
              Matches(t, query, tokens, skills) == Matches(t, query, tokens, skills[..n]) + if score > 0 then [Scored(skills[n], score)] else []
  {
    hide Score;
  }

  function Skills(ms: seq<Scored>): seq<Skill> {
    seq(|ms|, i requires 0 <= i < |ms| => ms[i].skill)
  }

  function MatchesOf(t: Tables, skills: seq<Skill>, query: string): seq<Scored> {
    var q := Normalize(t, query);
    Matches(t, q, Sort(Distinct(Parts(t, q))), skills)
  }

  /** What the rule selector returns. */
  function RuleSelect(t: Tables, skills: seq<Skill>, topK: int, query: string): seq<Skill> {
    if Normalize(t, query) == "" || topK <= 0 then []
    else
      var ranked := Rank(MatchesOf(t, skills, query));
      Skills(if topK <= |ranked| then ranked[..topK] else ranked)
  }

  method FindMatches(t: Tables, q: string, tokens: seq<string>, skills: seq<Skill>) returns (matches: seq<Scored>)
    ensures matches == Matches(t, q, tokens, skills)
  {
    hide Score;
    matches := [];
    for i := 0 to |skills|
      invariant matches == Matches(t, q, tokens, skills[..i])
    {
      assert skills[..i + 1][..i] == skills[..i];
      var score := ScoreSkill(t, q, tokens, skills[i]);
      if score > 0 {
        matches := matches + [Scored(skills[i], score)];
      }
    }
    assert skills[..|skills|] == skills;
  }

  method RuleSelectorSelect(t: Tables, skills: seq<Skill>, limit: int, query: string) returns (out: seq<Skill>)
    ensures out == RuleSelect(t, skills, limit, query)
    ensures Blank(query) || limit <= 0 ==> out == []
    ensures limit >= 0 ==> |out| <= limit
  {
    var i0, j0 := TrimSpaceKeepsWindow(query);
    BlankIsNothing(t, query);
    if limit >= 0 {
      AtMostTopK(t, skills, limit, query);
    }
    var topK := limit;
    if topK < 0 {
      topK := 0;
    }
    NoSkillsNoMatches(t, query);
    hide Skills, MatchesOf, Distinct, Parts, Sort, Normalize, Matches, Rank;
    var q := Normalize(t, query);
    if q == "" || topK == 0 || |skills| == 0 {
      return [];
    }
    var tokens := Tokenize(t, q);
    var matches := FindMatches(t, q, tokens, skills);
    MatchesFound(t, skills, query);
    out := TakeTop(Rank(matches), topK);
  }

  lemma AtMostTopK(t: Tables, skills: seq<Skill>, topK: int, query: string)
    requires topK >= 0
    ensures |RuleSelect(t, skills, topK, query)| <= topK
  {
    hide Normalize, MatchesOf, Rank;
  }

  lemma BlankIsNothing(t: Tables, query: string)
    ensures TrimSpace(query) == "" ==> Normalize(t, query) == ""
  {
  }

  lemma NoSkillsNoMatches(t: Tables, query: string)
    ensures MatchesOf(t, [], query) == [] && Rank([]) == [] && Skills([]) == []
  {
  }

  lemma MatchesFound(t: Tables, skills: seq<Skill>, query: string)
    ensures MatchesOf(t, skills, query) == Matches(t, Normalize(t, query), Sort(Distinct(Parts(t, Normalize(t, query)))), skills)
  {
  }

  method TakeTop(ranked: seq<Scored>, limit: nat) returns (out: seq<Skill>)
    ensures out == Skills(if limit <= |ranked| then ranked[..limit] else ranked)
  {
    var topK := if limit > |ranked| then |ranked| else limit;
    out := [];
    for i := 0 to topK
      invariant |out| == i && forall k | 0 <= k < i :: out[k] == ranked[k].skill
    {
      out := out + [ranked[i].skill];
    }
  }

  /** The result is the best of the matches, best first: nothing left out ranks before anything returned. */
  lemma SelectsTheBest(t: Tables, skills: seq<Skill>, topK: nat, query: string) returns (picked: seq<Scored>, rest: seq<Scored>)
    requires Normalize(t, query) != ""
    ensures RuleSelect(t, skills, topK, query) == Skills(picked) && Ranked(picked)
    ensures multiset(picked) + multiset(rest) == multiset(MatchesOf(t, skills, query))
    ensures |picked| <= topK && (rest != [] ==> |picked| == topK)
    ensures forall p, r | p in picked && r in rest :: !Before(r, p) && r.score <= p.score
    ensures forall i, j | 0 <= i < j < |picked| :: picked[i].score >= picked[j].score
  {
    var ms := Rank(MatchesOf(t, skills, query));
    RankRanks(MatchesOf(t, skills, query));
    hide Normalize, MatchesOf, Rank, Before;
    var k := if topK <= |ms| then topK else |ms|;
    picked, rest := ms[..k], ms[k..];
    assert ms == picked + rest;
    forall p, r | p in picked && r in rest ensures !Before(r, p) && r.score <= p.score {
      var i :| 0 <= i < k && ms[i] == p;
      var j :| k <= j < |ms| && ms[j] == r;
      BeforeMeans(r, p);
    }
    forall i, j | 0 <= i < j < |picked| ensures picked[i].score >= picked[j].score {
      BeforeMeans(ms[j], ms[i]);
    }
  }

  /** The selector sees no more of a query than its normal form. */
  lemma RuleSelectRespectsNormalForm(t: Tables, skills: seq<Skill>, topK: int)
    requires t.Sane()
    ensures Respects(t, Ruled(t, skills, topK))
  {
    forall q ensures RuleSelect(t, skills, topK, Normalize(t, q)) == RuleSelect(t, skills, topK, q) {
      NormalizeIsIdempotent(t, q);
    }
  }

  /** The rule selector as the selector behind a cache. */
  function Ruled(t: Tables, skills: seq<Skill>, topK: int): string -> Option<seq<Skill>> {
    q => Some(RuleSelect(t, skills, topK, q))
  }

  /** A selector, None being its error, that answers a query as it answers its normal form. */
  ghost predicate Respects(t: Tables, next: string -> Option<seq<Skill>>) {
    forall q :: next(Normalize(t, q)) == next(q)
  }

  // ---- the cache ----

  datatype Entry = Entry(expires: int, hitAt: int, skills: seq<Skill>)

  /** A call of another goroutine, down to its two critical sections; a store follows a successful selection. */
  datatype Op = Look(query: string, now: int) | Keep(query: string, now: int)

  class CachedSelector {
    const t: Tables
    const next: string -> Option<seq<Skill>>
    const ttl: int
    const capacity: int
    var entries: map<string, Entry>
    /** How often the selector behind has been asked. */
    var asked: nat

    /** Every entry is what the selector behind would answer now. */
    ghost predicate Valid()
      reads this
    {
      && Respects(t, next)
      && (capacity > 0 ==> |entries| <= capacity)
      && forall k | k in entries :: next(k) == Some(entries[k].skills)
    }

    constructor (t: Tables, next: string -> Option<seq<Skill>>, ttl: int, capacity: int)
      requires Respects(t, next)
      ensures Valid() && entries == map[]
      ensures this.t == t && this.next == next && this.ttl == ttl && this.capacity == capacity
    {
      this.t, this.next, this.ttl, this.capacity := t, next, ttl, capacity;
      entries, asked := map[], 0;
    }

    method AskNext(query: string) returns (r: Option<seq<Skill>>)
      modifies this`asked
      ensures r == next(query) && asked == old(asked) + 1
    {
      r := next(query);
      asked := asked + 1;
    }

    /** The first critical section: an entry is served only before it expires, and is then marked as just used. */
    method Lookup(query: string, now: int) returns (hit: Option<seq<Skill>>)
      requires Valid()
      modifies this`entries
      ensures Valid()
      ensures hit.Some? <==> Normalize(t, query) in old(entries) && now < old(entries)[Normalize(t, query)].expires
      ensures hit.Some? ==> hit == next(query)
      ensures entries == if hit.Some? then old(entries)[Normalize(t, query) := old(entries)[Normalize(t, query)].(hitAt := now)]
                         else old(entries)
    {
      var key := Normalize(t, query);
      if key in entries && now < entries[key].expires {
        assert next(key) == Some(entries[key].skills);
        hit := Some(entries[key].skills);
        SameDomain(entries, key, entries[key].(hitAt := now));
        entries := entries[key := entries[key].(hitAt := now)];
        return;
      }
      hit := None;
    }

    /** The second: the answer is kept under the query's key, and the least recently used entries go. */
    method Store(query: string, now: int, skills: seq<Skill>)
      requires Valid() && capacity > 0 && next(query) == Some(skills)
      modifies this`entries
      ensures Valid()
      ensures IsEvicted(old(entries)[Normalize(t, query) := Entry(now + ttl, now, skills)], entries, capacity)
    {
      var key := Normalize(t, query);
      var grown := entries[key := Entry(now + ttl, now, skills)];
      assert next(key) == Some(skills);
      entries := Evict(grown, capacity);
    }

    /** What other goroutines do meanwhile. */
    method Others(ops: seq<Op>)
      requires Valid() && capacity > 0
      modifies this
      ensures Valid() && (ops == [] ==> entries == old(entries) && asked == old(asked))
    {
      for i := 0 to |ops|
        invariant Valid() && (i == 0 ==> entries == old(entries) && asked == old(asked))
      {
        match ops[i] {
          case Look(query, now) =>
            var hit := Lookup(query, now);
          case Keep(query, now) =>
            var selected := AskNext(query);
            if selected.Some? {
              Store(query, now, selected.value);
            }
        }
      }
    }

    /** A call at time `now`, with others in between its two critical sections: always what the selector behind says. That one
        is asked exactly if there is no entry that has not expired; undisturbed, its answer is then kept. */
    method Select(query: string, now: int, between: seq<Op>) returns (r: Option<seq<Skill>>)
      requires Valid()
      modifies this
      ensures Valid() && r == next(query)
      ensures var key := Normalize(t, query);
              var hits := ttl > 0 && capacity > 0 && key in old(entries) && now < old(entries)[key].expires;
              && (hits ==> asked == old(asked) && entries == old(entries)[key := old(entries)[key].(hitAt := now)])
              && (!hits && between == [] ==> asked == old(asked) + 1)
              && (!hits && between == [] && ttl > 0 && capacity > 0 && r.Some? ==>
                    IsEvicted(old(entries)[key := Entry(now + ttl, now, r.value)], entries, capacity))
    {
      if ttl <= 0 || capacity <= 0 {
        r := AskNext(query);
        return;
      }
      var hit := Lookup(query, now);
      if hit.Some? {
        return hit;
      }
      Others(between);
      r := AskNext(query);
      if r.Some? {
        Store(query, now, r.value);
      }
    }
  }

  datatype Request = Request(query: string, now: int, between: seq<Op>)

  /** Over any sequence of calls, clocks and interleavings the cache goes unnoticed and stays within its capacity. */
  method CacheIsUnnoticed(t: Tables, skills: seq<Skill>, topK: int, ttl: int, capacity: int, calls: seq<Request>)
    returns (answers: seq<Option<seq<Skill>>>)
    requires t.Sane()
    ensures |answers| == |calls|
    ensures forall i | 0 <= i < |calls| :: answers[i] == Some(RuleSelect(t, skills, topK, calls[i].query))
  {
    RuleSelectRespectsNormalForm(t, skills, topK);
    hide RuleSelect, Normalize, Respects, IsSpace, Tables.Sane;
    var next := Ruled(t, skills, topK);
    var cache := new CachedSelector(t, next, ttl, capacity);
    answers := [];
    for i := 0 to |calls|
      invariant cache.Valid() && cache.next == next && fresh(cache)
      invariant |answers| == i && forall k | 0 <= k < i :: answers[k] == next(calls[k].query)
    {
      var r := cache.Select(calls[i].query, calls[i].now, calls[i].between);
      answers := answers + [r];
    }
  }

  lemma SameDomain(m: map<string, Entry>, k: string, e: Entry)
    requires k in m
    ensures |m[k := e]| == |m|
  {
    assert m[k := e].Keys == m.Keys;
  }

  /** Nothing is changed, no more is dropped than must be, and what is dropped was used no later than what stays. */
  ghost predicate IsEvicted(before: map<string, Entry>, after: map<string, Entry>, capacity: nat) {
    && (forall k | k in after :: k in before && after[k] == before[k])
    && |after| == (if |before| <= capacity then |before| else capacity)
    && forall k, d | k in after && d in before && d !in after :: before[d].hitAt <= after[k].hitAt
  }

  method Evict(before: map<string, Entry>, capacity: nat) returns (entries: map<string, Entry>)
    ensures IsEvicted(before, entries, capacity)
  {
    entries := before;
    while |entries| > capacity
      invariant forall k | k in entries :: k in before && entries[k] == before[k]
      invariant |entries| <= |before| && (|before| <= capacity ==> |entries| == |before|)
      invariant |before| > capacity ==> |entries| >= capacity
      invariant forall k, d | k in entries && d in before && d !in entries :: before[d].hitAt <= entries[k].hitAt
      decreases |entries|
    {
      var oldest := Oldest(entries);
      Dropped(entries, oldest);
      entries := entries - {oldest};
    }
  }

  lemma Dropped(m: map<string, Entry>, k: string)
    requires k in m
    ensures |m - {k}| == |m| - 1
  {
    assert (m - {k}).Keys == m.Keys - {k};
  }

  /** The scan over the entries, in whatever order the map yields them. */
  method Oldest(entries: map<string, Entry>) returns (oldest: string)
    requires |entries| > 0
    ensures oldest in entries && forall k | k in entries :: entries[oldest].hitAt <= entries[k].hitAt
  {
    var todo := entries.Keys;
    assert |todo| > 0;
    var first := true;
    oldest := "";
    while todo != {}
      invariant todo <= entries.Keys
      invariant first ==> todo == entries.Keys
      invariant !first ==> oldest in entries && forall k | k in entries && k !in todo :: entries[oldest].hitAt <= entries[k].hitAt
      decreases todo
    {
      var k :| k in todo;
      if first || entries[k].hitAt < entries[oldest].hitAt {
        first, oldest := false, k;
      }
      todo := todo - {k};
    }
  }
}
