/**
 The self-report a recall model appends to its answer, and how it is split off again.
 The JSON reader is a parameter.
 */
module RecallFooter {
  import opened Prelude
  import opened Text

  const TAG_OPEN: string := "<memory_meta>"
  const TAG_CLOSE: string := "</memory_meta>"

  datatype Number = Finite(value: real) | NotFinite

  /** What the JSON reader makes of a payload. */
  datatype RawMeta = RawMeta(found: Option<bool>, uncertainty: Option<Number>)

  datatype Meta = Meta(found: Option<bool>, uncertainty: Option<real>)

  type Reader = string -> Option<RawMeta>

  // ---- Searching ----

  predicate OccursAt(s: string, tag: string, i: nat) {
    i + |tag| <= |s| && s[i..i + |tag|] == tag
  }

  predicate Occurs(s: string, tag: string) {
    exists i: nat :: i <= |s| && OccursAt(s, tag, i)
  }

  /** The last occurrence of `tag` that starts before `bound`. */
  function FindLast(s: string, tag: string, bound: nat): (r: Option<nat>)
    ensures r.Some? ==> r.value < bound && OccursAt(s, tag, r.value)
    ensures forall i: nat :: i < bound && OccursAt(s, tag, i) ==> r.Some? && i <= r.value
  {
    if bound == 0 then None
    else if OccursAt(s, tag, bound - 1) then Some(bound - 1)
    else FindLast(s, tag, bound - 1)
  }

  function RFind(s: string, tag: string): Option<nat> {
    FindLast(s, tag, |s| + 1)
  }

  function FindFirst(s: string, c: char, from: nat): (r: Option<nat>)
    requires from <= |s|
    ensures r.Some? ==> from <= r.value < |s| && s[r.value] == c
    decreases |s| - from
  {
    if from == |s| then None else if s[from] == c then Some(from) else FindFirst(s, c, from + 1)
  }

  function FindLastChar(s: string, c: char, bound: nat): (r: Option<nat>)
    requires bound <= |s|
    ensures r.Some? ==> r.value < bound && s[r.value] == c
  {
    if bound == 0 then None else if s[bound - 1] == c then Some(bound - 1) else FindLastChar(s, c, bound - 1)
  }

  // ---- Splitting ----

  /** The text from the first opening to the last closing brace, read as JSON. */
  function ReadPayload(read: Reader, text: string): Option<RawMeta> {
    match (FindFirst(text, '{', 0), FindLastChar(text, '}', |text|))
    case (Some(start), Some(end)) => if end < start then None else read(text[start..end + 1])
    case _ => None
  }

  function MetaOf(read: Reader, payload: string): Option<Meta> {
    match ReadPayload(read, payload)
    case None => None
    case Some(raw) =>
      Some(Meta(raw.found,
                match raw.uncertainty case Some(Finite(value)) => Some(Clamp(value)) case _ => None))
  }

  function JoinParts(before: string, after: string): string {
    if before != [] && after != [] then before + ['\n'] + after
    else if before != [] then before
    else after
  }

  /** Where the tags of a block start. */
  datatype Span = Span(open: nat, close: nat)

  /** The last closing tag, and the last opening tag before it. */
  function Block(content: string): (r: Option<Span>)
    ensures r.Some? ==> r.value.open + |TAG_OPEN| <= r.value.close && r.value.close + |TAG_CLOSE| <= |content|
  {
    match RFind(content, TAG_CLOSE)
    case None => None
    case Some(close) =>
      match RFind(content[..close], TAG_OPEN)
      case None => None
      case Some(open) => Some(Span(open, close))
  }

  function SplitRecallMeta(read: Reader, content: string): (string, Option<Meta>) {
    match Block(content)
    case None => (TrimEnd(content), None)
    case Some(span) =>
      (JoinParts(Trim(content[..span.open]), Trim(content[span.close + |TAG_CLOSE|..])),
       MetaOf(read, content[span.open + |TAG_OPEN|..span.close]))
  }

  // ---- What the tags look like ----

  /** A tag starts with its only `<`. */
  predicate TagLike(tag: string) {
    |tag| > 0 && tag[0] == '<' && forall i :: 1 <= i < |tag| ==> tag[i] != '<'
  }

  lemma TagsAreTagLike()
    ensures TagLike(TAG_OPEN) && TagLike(TAG_CLOSE)
  {
  }

  // ---- Nothing is lost ----

  /** The visible characters. */
  function Solid(s: string): string {
    if s == [] then [] else Solid(s[..|s| - 1]) + if IsSpace(s[|s| - 1]) then [] else [s[|s| - 1]]
  }

  lemma {:induction false} SolidConcat(a: string, b: string)
    ensures Solid(a + b) == Solid(a) + Solid(b)
  {
    if b == [] {
      assert a + b == a;
    } else {
      SolidConcat(a, b[..|b| - 1]);
      assert (a + b)[..|a + b| - 1] == a + b[..|b| - 1];
    }
  }

  lemma {:induction false} SolidTrimEnd(s: string)
    ensures Solid(TrimEnd(s)) == Solid(s)
  {
    if s != [] && IsSpace(s[|s| - 1]) { SolidTrimEnd(s[..|s| - 1]); }
  }

  lemma {:induction false} SolidTrimStart(s: string)
    ensures Solid(TrimStart(s)) == Solid(s)
  {
    if s != [] && IsSpace(s[0]) {
      SolidTrimStart(s[1..]);
      SolidConcat([s[0]], s[1..]);
      assert s == [s[0]] + s[1..];
      assert [s[0]][..0] == [];
    }
  }

  lemma SolidTrim(s: string)
    ensures Solid(Trim(s)) == Solid(s)
  {
    SolidTrimStart(s);
    SolidTrimEnd(TrimStart(s));
  }

  lemma FivePieces(s: string, a: nat, b: nat, c: nat, d: nat)
    requires a <= b <= c <= d <= |s|
    ensures s == s[..a] + s[a..b] + s[b..c] + s[c..d] + s[d..]
  {
  }

  lemma BlockCuts(content: string)
    requires Block(content).Some?
    ensures var span := Block(content).value;
            content == content[..span.open] + TAG_OPEN + content[span.open + |TAG_OPEN|..span.close] + TAG_CLOSE
                       + content[span.close + |TAG_CLOSE|..]
  {
    var span := Block(content).value;
    assert OccursAt(content, TAG_CLOSE, span.close);
    assert OccursAt(content[..span.close], TAG_OPEN, span.open);
    assert content[..span.close][span.open..span.open + |TAG_OPEN|] == content[span.open..span.open + |TAG_OPEN|];
    FivePieces(content, span.open, span.open + |TAG_OPEN|, span.close, span.close + |TAG_CLOSE|);
  }

  /** Splitting takes out one block at most, the last. The text before it and the text after it are in the
      answer character by character, up to the white space at their ends, with a line break between them when
      neither is blank. Without a block, the text loses the white space at its end and nothing else. */
  lemma NothingIsLost(read: Reader, content: string)
    ensures var answer := SplitRecallMeta(read, content).0;
            Block(content).None? ==>
              && SplitRecallMeta(read, content).1 == None
              && answer <= content && AllSpace(content[|answer|..]) && NoSpaceAtEnd(answer)
    ensures var answer := SplitRecallMeta(read, content).0;
            Block(content).Some? ==>
              var span := Block(content).value;
              var before, after := content[..span.open], content[span.close + |TAG_CLOSE|..];
              && content == before + TAG_OPEN + content[span.open + |TAG_OPEN|..span.close] + TAG_CLOSE + after
              && (AllSpace(before) ==> StretchOf(answer, after))
              && (AllSpace(after) ==> StretchOf(answer, before))
              && (!AllSpace(before) && !AllSpace(after) ==>
                    exists first, second ::
                      && answer == first + ['\n'] + second
                      && StretchOf(first, before) && StretchOf(second, after)
                      && NoSpaceAtEnd(first) && NoSpaceAtStart(second))
              && NoSpaceAtStart(answer) && NoSpaceAtEnd(answer)
  {
    match Block(content)
    case None => TrimEndCuts(content);
    case Some(span) =>
      BlockCuts(content);
      var before, after := content[..span.open], content[span.close + |TAG_CLOSE|..];
      TrimCuts(before);
      TrimCuts(after);
      BlankIff(before);
      BlankIff(after);
      assert SplitRecallMeta(read, content).0 == JoinParts(Trim(before), Trim(after));
      if AllSpace(before) && AllSpace(after) { TrimIff([], before); }
  }

  // ---- The round trip ----

  function WithFooter(answer: string, payload: string): string {
    answer + ['\n'] + TAG_OPEN + payload + TAG_CLOSE
  }

  /** The opening tags of a text that ends in `TAG_OPEN + payload` are its own and those in the payload. */
  lemma OpenIn(front: string, payload: string, i: nat)
    requires OccursAt(front + TAG_OPEN + payload, TAG_OPEN, i) && i > |front|
    ensures i >= |front| + |TAG_OPEN| && OccursAt(payload, TAG_OPEN, i - |front| - |TAG_OPEN|)
  {
    var s := front + TAG_OPEN + payload;
    TagsAreTagLike();
    assert s[i] == s[i..i + |TAG_OPEN|][0] == '<';
    forall j | |front| < j < |front| + |TAG_OPEN| ensures s[j] != '<' {
      assert s[j] == TAG_OPEN[j - |front|];
    }
    var k := i - |front| - |TAG_OPEN|;
    assert payload[k..k + |TAG_OPEN|] == s[i..i + |TAG_OPEN|];
  }

  lemma OpenInPayload(front: string, payload: string, k: nat)
    requires OccursAt(payload, TAG_OPEN, k)
    ensures OccursAt(front + TAG_OPEN + payload, TAG_OPEN, |front| + |TAG_OPEN| + k)
  {
    var s := front + TAG_OPEN + payload;
    var i := |front| + |TAG_OPEN| + k;
    assert s[i..i + |TAG_OPEN|] == payload[k..k + |TAG_OPEN|];
  }

  /** The block of an answer with a footer ends where the content does, and starts at the footer exactly when
      the payload holds no opening tag. */
  lemma FooterBlock(answer: string, payload: string)
    ensures var content, front := WithFooter(answer, payload), answer + ['\n'];
            && Block(content).Some?
            && Block(content).value.close == |front| + |TAG_OPEN| + |payload|
            && (!Occurs(payload, TAG_OPEN) ==> Block(content).value.open == |front|)
            && (Occurs(payload, TAG_OPEN) ==> Block(content).value.open >= |front| + |TAG_OPEN|)
  {
    var content, front := WithFooter(answer, payload), answer + ['\n'];
    var close := |front| + |TAG_OPEN| + |payload|;
    assert content[close..close + |TAG_CLOSE|] == TAG_CLOSE;
    assert OccursAt(content, TAG_CLOSE, close);
    assert RFind(content, TAG_CLOSE) == Some(close);
    var s := content[..close];
    assert s == front + TAG_OPEN + payload;
    assert s[|front|..|front| + |TAG_OPEN|] == TAG_OPEN;
    assert OccursAt(s, TAG_OPEN, |front|);
    var open := RFind(s, TAG_OPEN).value;
    if open > |front| {
      OpenIn(front, payload, open);
    }
    if Occurs(payload, TAG_OPEN) {
      var k: nat :| k <= |payload| && OccursAt(payload, TAG_OPEN, k);
      OpenInPayload(front, payload, k);
    }
  }

  lemma {:induction false} TrimStartLine(s: string)
    ensures TrimStart(s + ['\n']) == if TrimStart(s) == [] then [] else TrimStart(s) + ['\n']
  {
    if s == [] {
      assert s + ['\n'] == ['\n'];
      assert ['\n'][1..] == [];
    } else if IsSpace(s[0]) {
      assert (s + ['\n'])[1..] == s[1..] + ['\n'];
      TrimStartLine(s[1..]);
    }
  }

  lemma TrimLine(s: string)
    ensures Trim(s + ['\n']) == Trim(s)
  {
    TrimStartLine(s);
    var t := TrimStart(s);
    assert (t + ['\n'])[..|t|] == t;
  }

  /** Splitting undoes the footer: the answer comes back trimmed, whatever tags it holds, and the payload is
      read as it was written, exactly when the payload holds no opening tag. */
  lemma FooterRoundTrip(read: Reader, answer: string, payload: string)
    ensures SplitRecallMeta(read, WithFooter(answer, payload)).0 == Trim(answer) <==> !Occurs(payload, TAG_OPEN)
    ensures !Occurs(payload, TAG_OPEN) ==> SplitRecallMeta(read, WithFooter(answer, payload)).1 == MetaOf(read, payload)
  {
    var content, front := WithFooter(answer, payload), answer + ['\n'];
    FooterBlock(answer, payload);
    var open, close := Block(content).value.open, Block(content).value.close;
    assert content[close + |TAG_CLOSE|..] == [];
    assert Trim([]) == [];
    var before := content[..open];
    if !Occurs(payload, TAG_OPEN) {
      assert before == front;
      TrimLine(answer);
      assert content[open + |TAG_OPEN|..close] == payload;
    } else {
      var rest := content[|front| + |TAG_OPEN|..open];
      assert before == front + TAG_OPEN + rest;
      LongerIsDifferent(answer, rest);
      assert SplitRecallMeta(read, content).0 == Trim(before);
    }
  }

  lemma LongerIsDifferent(answer: string, rest: string)
    ensures Trim(answer + ['\n'] + TAG_OPEN + rest) != Trim(answer)
  {
    var longer := answer + ['\n'] + TAG_OPEN + rest;
    SolidTrim(longer);
    SolidTrim(answer);
    SolidConcat(answer, ['\n']);
    SolidConcat(answer + ['\n'], TAG_OPEN);
    SolidConcat(answer + ['\n'] + TAG_OPEN, rest);
    SolidTag();
  }

  lemma SolidTag()
    ensures Solid(TAG_OPEN) != []
  {
    TagsAreTagLike();
    SolidConcat(TAG_OPEN[..1], TAG_OPEN[1..]);
    assert TAG_OPEN == TAG_OPEN[..1] + TAG_OPEN[1..];
    assert TAG_OPEN[..1][..0] == [] && TAG_OPEN[..1][0] == '<';
  }

  // ---- Which block, and what it reports ----

  /** This closing tag is the last of all, and this opening tag the last before it. */
  ghost predicate IsLastBlock(content: string, open: nat, close: nat) {
    && OccursAt(content, "</memory_meta>", close)
    && (forall i: nat :: i > close ==> !OccursAt(content, "</memory_meta>", i))
    && OccursAt(content, "<memory_meta>", open) && open + 13 <= close
    && (forall i: nat :: i > open && i + 13 <= close ==> !OccursAt(content, "<memory_meta>", i))
  }

  lemma OccursBefore(content: string, close: nat, i: nat)
    requires close <= |content|
    ensures OccursAt(content[..close], TAG_OPEN, i) <==> OccursAt(content, TAG_OPEN, i) && i + |TAG_OPEN| <= close
  {
    if i + |TAG_OPEN| <= close { assert content[..close][i..i + |TAG_OPEN|] == content[i..i + |TAG_OPEN|]; }
  }

  lemma BlockIsLast(content: string)
    requires Block(content).Some?
    ensures IsLastBlock(content, Block(content).value.open, Block(content).value.close)
  {
    var close := Block(content).value.close;
    forall i: nat ensures OccursAt(content[..close], TAG_OPEN, i) <==> OccursAt(content, TAG_OPEN, i) && i + |TAG_OPEN| <= close {
      OccursBefore(content, close, i);
    }
  }

  /** The block that is split off is the one whose closing tag is the last of all and whose opening tag is the last
      before it; there is none exactly when no such pair of tags exists. */
  lemma BlockIff(content: string, open: nat, close: nat)
    ensures Block(content) == Some(Span(open, close)) <==> IsLastBlock(content, open, close)
  {
    if Block(content).Some? { BlockIsLast(content); }
    if IsLastBlock(content, open, close) {
      assert RFind(content, TAG_CLOSE) == Some(close);
      OccursBefore(content, close, open);
      var found := RFind(content[..close], TAG_OPEN).value;
      OccursBefore(content, close, found);
    }
  }

  predicate FirstCharAt(s: string, c: char, i: nat) {
    i < |s| && s[i] == c && forall j :: 0 <= j < i ==> s[j] != c
  }

  predicate LastCharAt(s: string, c: char, i: nat) {
    i < |s| && s[i] == c && forall j :: i < j < |s| ==> s[j] != c
  }

  lemma {:induction false} FindFirstIs(s: string, c: char, from: nat, i: nat)
    requires from <= |s| && forall j :: 0 <= j < from ==> s[j] != c
    ensures FindFirst(s, c, from) == Some(i) <==> FirstCharAt(s, c, i)
    decreases |s| - from
  {
    if from < |s| && s[from] != c { FindFirstIs(s, c, from + 1, i); }
  }

  lemma {:induction false} FindLastIs(s: string, c: char, bound: nat, i: nat)
    requires bound <= |s| && forall j :: bound <= j < |s| ==> s[j] != c
    ensures FindLastChar(s, c, bound) == Some(i) <==> LastCharAt(s, c, i)
  {
    if bound > 0 && s[bound - 1] != c { FindLastIs(s, c, bound - 1, i); }
  }

  /** A reported number is kept when it lies between 0 and 1, moved to the nearer of the two when not, and left out when
      it is not finite. */
  predicate IsReported(kept: Option<real>, raw: Option<Number>) {
    match raw
    case Some(Finite(x)) =>
      && kept.Some? && 0.0 <= kept.value <= 1.0
      && (0.0 <= x <= 1.0 ==> kept.value == x) && (x < 0.0 ==> kept.value == 0.0) && (x > 1.0 ==> kept.value == 1.0)
    case _ => kept.None?
  }

  /** The payload runs from the first opening to the last closing brace, and is readable. */
  ghost predicate Reports(read: Reader, payload: string, first: nat, last: nat, meta: Meta) {
    && FirstCharAt(payload, '{', first) && LastCharAt(payload, '}', last) && first <= last
    && read(payload[first..last + 1]).Some?
    && var raw := read(payload[first..last + 1]).value;
       meta.found == raw.found && IsReported(meta.uncertainty, raw.uncertainty)
  }

  /** A footer reports exactly what stands between its first opening and its last closing brace; prose and fences around
      the braces do not matter, and without such a stretch, or when it cannot be read, nothing is reported. */
  lemma MetaIff(read: Reader, payload: string, meta: Meta)
    ensures MetaOf(read, payload) == Some(meta) <==> exists first: nat, last: nat :: Reports(read, payload, first, last, meta)
  {
    var first, last := FindFirst(payload, '{', 0), FindLastChar(payload, '}', |payload|);
    if first.Some? && last.Some? {
      FindFirstIs(payload, '{', 0, first.value);
      FindLastIs(payload, '}', |payload|, last.value);
      if MetaOf(read, payload) == Some(meta) { assert Reports(read, payload, first.value, last.value, meta); }
    }
    if a: nat, b: nat :| Reports(read, payload, a, b, meta) {
      FindFirstIs(payload, '{', 0, a);
      FindLastIs(payload, '}', |payload|, b);
    }
  }
}
