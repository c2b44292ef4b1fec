/** Text helpers: Unicode white space, trimming, words. */
module Text {

  /** The code points with the White_Space property. */
  predicate IsSpace(c: char) {
    || '\U{0009}' <= c <= '\U{000D}' || c == ' ' || c == '\U{0085}' || c == '\U{00A0}' || c == '\U{1680}'
    || '\U{2000}' <= c <= '\U{200A}' || c == '\U{2028}' || c == '\U{2029}' || c == '\U{202F}'
    || c == '\U{205F}' || c == '\U{3000}'
  }

  /** The same code points by number. */
  lemma SpaceIff(c: char)
    ensures IsSpace(c)
       <==> c as int in {9, 10, 11, 12, 13, 32, 133, 160, 5760, 8192, 8193, 8194, 8195, 8196, 8197, 8198, 8199, 8200, 8201, 8202,
                         8232, 8233, 8239, 8287, 12288}
  {
  }

  function TrimStart(s: string): string {
    if s != [] && IsSpace(s[0]) then TrimStart(s[1..]) else s
  }

  function TrimEnd(s: string): string {
    if s != [] && IsSpace(s[|s| - 1]) then TrimEnd(s[..|s| - 1]) else s
  }

  function Trim(s: string): string {
    TrimEnd(TrimStart(s))
  }

  predicate AllSpace(s: string) {
    forall i :: 0 <= i < |s| ==> IsSpace(s[i])
  }

  predicate NoSpaceAtEnd(s: string) {
    s != [] ==> !IsSpace(s[|s| - 1])
  }

  predicate NoSpaceAtStart(s: string) {
    s != [] ==> !IsSpace(s[0])
  }

  predicate CutAt(t: string, s: string, i: nat, j: nat) {
    i <= j <= |s| && t == s[i..j] && AllSpace(s[..i]) && AllSpace(s[j..])
  }

  /** `t` is one stretch of `s`, unchanged, with only white space before and after it. */
  ghost predicate StretchOf(t: string, s: string) {
    exists i: nat, j: nat :: CutAt(t, s, i, j)
  }

  lemma {:induction false} TrimStartCuts(s: string) returns (i: nat)
    ensures i <= |s| && TrimStart(s) == s[i..] && AllSpace(s[..i]) && NoSpaceAtStart(s[i..])
  {
    i := 0;
    if s != [] && IsSpace(s[0]) {
      var k := TrimStartCuts(s[1..]);
      i := k + 1;
      assert s[1..][k..] == s[i..];
      assert s[..i] == [s[0]] + s[1..][..k];
    }
  }

  lemma {:induction false} TrimEndCuts(s: string)
    ensures TrimEnd(s) <= s && AllSpace(s[|TrimEnd(s)|..]) && NoSpaceAtEnd(TrimEnd(s))
  {
    if s != [] && IsSpace(s[|s| - 1]) {
      TrimEndCuts(s[..|s| - 1]);
      var n := |TrimEnd(s)|;
      assert s[n..] == s[..|s| - 1][n..] + [s[|s| - 1]];
    }
  }

  lemma TrimCuts(s: string)
    ensures StretchOf(Trim(s), s) && NoSpaceAtStart(Trim(s)) && NoSpaceAtEnd(Trim(s))
  {
    var i := TrimStartCuts(s);
    TrimEndCuts(s[i..]);
    var j := i + |Trim(s)|;
    assert Trim(s) == s[i..j] && s[i..][|Trim(s)|..] == s[j..];
    assert CutAt(Trim(s), s, i, j);
  }

  lemma OutsideIsSpace(s: string, i: nat, j: nat, p: nat)
    requires i <= j <= |s| && AllSpace(s[..i]) && AllSpace(s[j..]) && p < |s|
    ensures p < i || p >= j ==> IsSpace(s[p])
  {
    if p < i { assert s[..i][p] == s[p]; }
    if p >= j { assert s[j..][p - j] == s[p]; }
  }

  /** A stretch that starts and ends with visible characters is within every other. */
  lemma StretchInside(t: string, u: string, s: string, i: nat, j: nat, k: nat, l: nat)
    requires CutAt(t, s, i, j) && t != [] && NoSpaceAtStart(t) && NoSpaceAtEnd(t) && CutAt(u, s, k, l)
    ensures k <= i && j <= l
  {
    assert s[i] == t[0] && s[j - 1] == t[|t| - 1];
    OutsideIsSpace(s, k, l, i);
    OutsideIsSpace(s, k, l, j - 1);
  }

  lemma StretchesAgree(t: string, u: string, s: string)
    requires StretchOf(t, s) && NoSpaceAtStart(t) && NoSpaceAtEnd(t)
    requires StretchOf(u, s) && NoSpaceAtStart(u) && NoSpaceAtEnd(u)
    requires t != []
    ensures t == u
  {
    var i: nat, j: nat :| CutAt(t, s, i, j);
    var k: nat, l: nat :| CutAt(u, s, k, l);
    StretchInside(t, u, s, i, j, k, l);
    StretchInside(u, t, s, k, l, i, j);
  }

  /** Trimming takes away the white space at both ends and nothing else. */
  lemma TrimIff(t: string, s: string)
    ensures t == Trim(s) <==> StretchOf(t, s) && NoSpaceAtStart(t) && NoSpaceAtEnd(t)
  {
    TrimCuts(s);
    if StretchOf(t, s) && NoSpaceAtStart(t) && NoSpaceAtEnd(t) {
      if t != [] { StretchesAgree(t, Trim(s), s); } else if Trim(s) != [] { StretchesAgree(Trim(s), t, s); }
    }
  }

  /** Nothing is left of a text exactly when it is all white space. */
  lemma BlankIff(s: string)
    ensures Trim(s) == [] <==> AllSpace(s)
  {
    TrimIff([], s);
    if AllSpace(s) { assert CutAt([], s, |s|, |s|); }
    if StretchOf([], s) {
      var i: nat, j: nat :| CutAt([], s, i, j);
      assert s == s[..i] + s[i..];
    }
  }

  // ---- Words ----

  /** How many characters of `s` come before its first white space. */
  function WordEnd(s: string): (n: nat)
    ensures n <= |s|
    ensures forall i :: 0 <= i < n ==> !IsSpace(s[i])
    ensures n < |s| ==> IsSpace(s[n])
  {
    if s == [] || IsSpace(s[0]) then 0 else 1 + WordEnd(s[1..])
  }

  /** The maximal runs without white space, in order. */
  function Words(s: string): seq<string>
    decreases |s|
  {
    if s == [] then []
    else if IsSpace(s[0]) then Words(s[1..])
    else [s[..WordEnd(s)]] + Words(s[WordEnd(s)..])
  }

  predicate IsWord(w: string) {
    w != [] && forall i :: 0 <= i < |w| ==> !IsSpace(w[i])
  }

  function JoinWords(ws: seq<string>): string {
    if ws == [] then [] else if |ws| == 1 then ws[0] else ws[0] + [' '] + JoinWords(ws[1..])
  }

  lemma {:induction false} WordsAreWords(s: string)
    ensures forall i :: 0 <= i < |Words(s)| ==> IsWord(Words(s)[i])
    decreases |s|
  {
    if s != [] {
      if IsSpace(s[0]) { WordsAreWords(s[1..]); } else { WordsAreWords(s[WordEnd(s)..]); }
    }
  }

  lemma {:induction false} WordEndOf(w: string, rest: string)
    requires forall i :: 0 <= i < |w| ==> !IsSpace(w[i])
    requires rest == [] || IsSpace(rest[0])
    ensures WordEnd(w + rest) == |w|
  {
    if w == [] {
      assert w + rest == rest;
    } else {
      assert (w + rest)[1..] == w[1..] + rest;
      WordEndOf(w[1..], rest);
    }
  }

  lemma WordsStep(w: string, rest: string)
    requires IsWord(w) && (rest == [] || IsSpace(rest[0]))
    ensures Words(w + rest) == [w] + Words(rest)
  {
    WordEndOf(w, rest);
    assert (w + rest)[..|w|] == w && (w + rest)[|w|..] == rest;
  }

  lemma WordsOfLine(w: string, line: string)
    requires IsWord(w)
    ensures Words(w + [' '] + line) == [w] + Words(line)
  {
    var rest := [' '] + line;
    assert w + [' '] + line == w + rest;
    WordsStep(w, rest);
    assert rest[1..] == line;
  }

  lemma WordsOfWord(w: string)
    requires IsWord(w)
    ensures Words(w) == [w]
  {
    assert w + [] == w;
    WordsStep(w, []);
  }

  /** Joining words by single blanks and splitting again gives the words back. */
  lemma {:induction false} WordsOfJoin(ws: seq<string>)
    requires forall i :: 0 <= i < |ws| ==> IsWord(ws[i])
    ensures Words(JoinWords(ws)) == ws
  {
    if |ws| == 1 {
      WordsOfWord(ws[0]);
    } else if |ws| > 1 {
      WordsOfJoin(ws[1..]);
      WordsOfLine(ws[0], JoinWords(ws[1..]));
      assert ws == [ws[0]] + ws[1..];
    }
  }

  /** A word stands at `a`, with white space or an end of the text on either side. */
  predicate RunAt(s: string, w: string, a: nat) {
    && a + |w| <= |s| && s[a..a + |w|] == w && IsWord(w)
    && (a > 0 ==> IsSpace(s[a - 1])) && (a + |w| < |s| ==> IsSpace(s[a + |w|]))
  }

  /** The visible characters are those of the words at these places. */
  ghost predicate Covered(s: string, ws: seq<string>, at: seq<nat>)
    requires |ws| == |at|
  {
    forall p :: 0 <= p < |s| && !IsSpace(s[p]) ==> exists i :: 0 <= i < |at| && at[i] <= p < at[i] + |ws[i]|
  }

  ghost predicate AreRuns(s: string, ws: seq<string>, at: seq<nat>) {
    && |ws| == |at|
    && (forall i :: 0 <= i < |at| ==> RunAt(s, ws[i], at[i]))
    && (forall i, j :: 0 <= i < j < |at| ==> at[i] + |ws[i]| < at[j])
  }

  ghost predicate IsSplit(s: string, ws: seq<string>, at: seq<nat>) {
    AreRuns(s, ws, at) && Covered(s, ws, at)
  }

  function Shifted(at: seq<nat>, n: nat): seq<nat> {
    seq(|at|, i requires 0 <= i < |at| => at[i] + n)
  }

  lemma RunShifts(s: string, n: nat, w: string, a: nat)
    requires n <= |s| && RunAt(s[n..], w, a) && (a == 0 && n > 0 ==> IsSpace(s[n - 1]))
    ensures RunAt(s, w, a + n)
  {
    assert s[a + n..a + n + |w|] == s[n..][a..a + |w|];
    if a > 0 { assert s[n..][a - 1] == s[a + n - 1]; }
  }

  lemma SplitSkips(s: string, ws: seq<string>, at: seq<nat>)
    requires s != [] && IsSpace(s[0]) && IsSplit(s[1..], ws, at)
    ensures IsSplit(s, ws, Shifted(at, 1))
  {
    var to := Shifted(at, 1);
    forall i | 0 <= i < |at| ensures RunAt(s, ws[i], to[i]) { RunShifts(s, 1, ws[i], at[i]); }
    forall p | 0 <= p < |s| && !IsSpace(s[p]) ensures exists i :: 0 <= i < |to| && to[i] <= p < to[i] + |ws[i]| {
      assert s[1..][p - 1] == s[p];
      var i :| 0 <= i < |at| && at[i] <= p - 1 < at[i] + |ws[i]|;
      assert to[i] <= p < to[i] + |ws[i]|;
    }
  }

  lemma LaterRun(s: string, n: nat, w: string, a: nat)
    requires n <= |s| && RunAt(s[n..], w, a) && (n < |s| ==> IsSpace(s[n]))
    ensures a > 0 && RunAt(s, w, a + n)
  {
    assert !IsSpace(w[0]) && s[n..][a] == w[0];
    RunShifts(s, n, w, a);
  }

  lemma CoveredTakes(s: string, n: nat, ws: seq<string>, at: seq<nat>)
    requires n <= |s| && |ws| == |at| && Covered(s[n..], ws, at)
    ensures Covered(s, [s[..n]] + ws, [0] + Shifted(at, n))
  {
    var all, to := [s[..n]] + ws, [0] + Shifted(at, n);
    forall p | 0 <= p < |s| && !IsSpace(s[p]) ensures exists i :: 0 <= i < |to| && to[i] <= p < to[i] + |all[i]| {
      if p < n {
        assert to[0] <= p < to[0] + |all[0]|;
      } else {
        assert s[n..][p - n] == s[p];
        var i :| 0 <= i < |at| && at[i] <= p - n < at[i] + |ws[i]|;
        assert to[i + 1] <= p < to[i + 1] + |all[i + 1]|;
      }
    }
  }

  lemma RunsTake(s: string, n: nat, ws: seq<string>, at: seq<nat>, all: seq<string>, to: seq<nat>)
    requires 0 < n <= |s| && IsWord(s[..n]) && (n < |s| ==> IsSpace(s[n])) && AreRuns(s[n..], ws, at)
    requires |all| == |to| == |at| + 1 && all[0] == s[..n] && to[0] == 0
    requires forall i :: 0 < i < |to| ==> all[i] == ws[i - 1] && to[i] == at[i - 1] + n
    ensures AreRuns(s, all, to)
  {
    forall i | 0 <= i < |to| ensures RunAt(s, all[i], to[i]) && (i > 0 ==> n < to[i]) {
      if i > 0 { LaterRun(s, n, ws[i - 1], at[i - 1]); }
    }
    forall i, j | 0 <= i < j < |to| ensures to[i] + |all[i]| < to[j] {
      if i > 0 { assert at[i - 1] + |ws[i - 1]| < at[j - 1]; }
    }
  }

  lemma SplitTakes(s: string, n: nat, ws: seq<string>, at: seq<nat>)
    requires 0 < n <= |s| && IsWord(s[..n]) && (n < |s| ==> IsSpace(s[n])) && IsSplit(s[n..], ws, at)
    ensures IsSplit(s, [s[..n]] + ws, [0] + Shifted(at, n))
  {
    RunsTake(s, n, ws, at, [s[..n]] + ws, [0] + Shifted(at, n));
    CoveredTakes(s, n, ws, at);
  }

  /** The words of a text are its maximal runs without white space, all of them, in order. */
  lemma {:induction false} WordsAreRuns(s: string) returns (at: seq<nat>)
    ensures IsSplit(s, Words(s), at)
    decreases |s|
  {
    if s == [] {
      at := [];
    } else if IsSpace(s[0]) {
      var rest := WordsAreRuns(s[1..]);
      SplitSkips(s, Words(s[1..]), rest);
      at := Shifted(rest, 1);
    } else {
      var n := WordEnd(s);
      var rest := WordsAreRuns(s[n..]);
      SplitTakes(s, n, Words(s[n..]), rest);
      at := [0] + Shifted(rest, n);
    }
  }

  // ---- Case ----

  /** Lower case of the ASCII letters; other characters stay. */
  function Lower(c: char): char {
    if 'A' <= c <= 'Z' then c - 'A' + 'a' else c
  }

  predicate IsLetter(c: char) {
    'a' <= c <= 'z' || 'A' <= c <= 'Z'
  }

  /** Two characters fold alike exactly when they are the same, or the same letter in either case. */
  lemma LowerIff(a: char, b: char)
    ensures Lower(a) == Lower(b) <==> a == b || (IsLetter(a) && IsLetter(b) && (a as int - b as int == 32 || b as int - a as int == 32))
  {
  }

  function LowerText(s: string): string {
    if s == [] then [] else [Lower(s[0])] + LowerText(s[1..])
  }

  lemma {:induction false} LowerTextAt(s: string)
    ensures |LowerText(s)| == |s|
    ensures forall i :: 0 <= i < |s| ==> LowerText(s)[i] == Lower(s[i])
  {
    if s != [] { LowerTextAt(s[1..]); }
  }

  function LowerAll(ws: seq<string>): seq<string> {
    if ws == [] then [] else [LowerText(ws[0])] + LowerAll(ws[1..])
  }

  lemma {:induction false} LowerConcat(a: string, b: string)
    ensures LowerText(a + b) == LowerText(a) + LowerText(b)
  {
    if a == [] {
      assert a + b == b;
    } else {
      assert (a + b)[1..] == a[1..] + b;
      LowerConcat(a[1..], b);
    }
  }

  lemma {:induction false} LowerJoin(ws: seq<string>)
    ensures LowerText(JoinWords(ws)) == JoinWords(LowerAll(ws))
  {
    if |ws| > 1 {
      LowerJoin(ws[1..]);
      LowerConcat(ws[0] + [' '], JoinWords(ws[1..]));
      LowerConcat(ws[0], [' ']);
      assert LowerAll(ws)[1..] == LowerAll(ws[1..]);
      assert LowerText([' ']) == [' '];
    }
  }

  lemma {:induction false} LowerWordsAreWords(ws: seq<string>)
    requires forall i :: 0 <= i < |ws| ==> IsWord(ws[i])
    ensures |LowerAll(ws)| == |ws|
    ensures forall i :: 0 <= i < |ws| ==> IsWord(LowerAll(ws)[i])
  {
    if ws != [] {
      LowerTextAt(ws[0]);
      assert IsWord(ws[0]);
      LowerWordsAreWords(ws[1..]);
    }
  }
}
