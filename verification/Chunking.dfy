/** Paragraph-aware chunking of runbooks (app/knowledge/chunking.py). */
module Chunking {
  import opened Bounds
  import opened Text

  const NEWLINE := '\n'
  const PARAGRAPH_BREAK := "\n\n"
  const SPACE := " "

  datatype Chunk = Chunk(index: nat, content: string, contentHash: string)

  // ---- Groupings

  /** A group that may become one piece of text: within the limit, or a single unit. */
  predicate Admissible(group: seq<string>, separator: string, limit: nat) {
    |group| == 1 || (|group| > 1 && |Join(separator, group)| <= limit)
  }

  /** An order-preserving grouping of the units. */
  predicate IsGrouping(groups: seq<seq<string>>, units: seq<string>, separator: string, limit: nat) {
    Concat(groups) == units && forall i :: 0 <= i < |groups| ==> Admissible(groups[i], separator, limit)
  }

  /** The longest admissible prefix with at least `n` units. */
  function LongestPrefix(units: seq<string>, separator: string, limit: nat, n: nat): (k: nat)
    requires 1 <= n <= |units|
    ensures n <= k <= |units|
    decreases |units| - n
  {
    if n < |units| && |Join(separator, units[..n + 1])| <= limit
    then LongestPrefix(units, separator, limit, n + 1)
    else n
  }

  function Greedy(units: seq<string>, separator: string, limit: nat): (groups: seq<seq<string>>)
    decreases |units|
  {
    if units == [] then []
    else
      var n := LongestPrefix(units, separator, limit, 1);
      [units[..n]] + Greedy(units[n..], separator, limit)
  }

  function JoinAll(separator: string, groups: seq<seq<string>>): (texts: seq<string>)
    ensures |texts| == |groups|
    ensures forall i :: 0 <= i < |groups| ==> texts[i] == Join(separator, groups[i])
  {
    seq(|groups|, i requires 0 <= i < |groups| => Join(separator, groups[i]))
  }

  lemma {:induction false} JoinDrop(separator: string, parts: seq<string>, n: nat)
    requires n < |parts|
    ensures |Join(separator, parts[n..])| <= |Join(separator, parts)|
  {
    if n > 0 {
      JoinDrop(separator, parts[1..], n - 1);
      assert parts[1..][n - 1..] == parts[n..];
    } else {
      assert parts[0..] == parts;
    }
  }

  lemma {:induction false} JoinTake(separator: string, parts: seq<string>, n: nat)
    requires 0 < n <= |parts|
    ensures |Join(separator, parts[..n])| <= |Join(separator, parts)|
    decreases |parts| - n
  {
    if n < |parts| {
      JoinTake(separator, parts, n + 1);
      assert parts[..n + 1] == parts[..n] + [parts[n]];
      JoinSnoc(separator, parts[..n], parts[n]);
    } else {
      assert parts[..n] == parts;
    }
  }

  /** A shorter start of a group that fits also fits, so the greedy prefix reaches it. */
  lemma {:induction false} PrefixReached(units: seq<string>, separator: string, limit: nat, n: nat, m: nat)
    requires 1 <= n <= m <= |units| && Admissible(units[..m], separator, limit)
    ensures LongestPrefix(units, separator, limit, n) >= m
    decreases m - n
  {
    if n < m {
      assert units[..m][..n + 1] == units[..n + 1];
      JoinTake(separator, units[..m], n + 1);
      PrefixReached(units, separator, limit, n + 1, m);
    }
  }

  lemma {:induction false} PrefixAdmissible(units: seq<string>, separator: string, limit: nat, n: nat)
    requires 1 <= n <= |units| && Admissible(units[..n], separator, limit)
    ensures Admissible(units[..LongestPrefix(units, separator, limit, n)], separator, limit)
    decreases |units| - n
  {
    if n < |units| && |Join(separator, units[..n + 1])| <= limit {
      PrefixAdmissible(units, separator, limit, n + 1);
    }
  }

  lemma {:induction false} GreedyIsGrouping(units: seq<string>, separator: string, limit: nat)
    ensures IsGrouping(Greedy(units, separator, limit), units, separator, limit)
    decreases |units|
  {
    if units != [] {
      var n := LongestPrefix(units, separator, limit, 1);
      PrefixAdmissible(units, separator, limit, 1);
      GreedyIsGrouping(units[n..], separator, limit);
      assert units == units[..n] + units[n..];
    }
  }

  /** Any grouping, with its first `k` units removed, is a grouping with no more groups. */
  lemma {:induction false} DropUnits(groups: seq<seq<string>>, units: seq<string>, separator: string, limit: nat,
                                     k: nat)
    returns (rest: seq<seq<string>>)
    requires IsGrouping(groups, units, separator, limit) && k <= |units|
    ensures IsGrouping(rest, units[k..], separator, limit) && |rest| <= |groups|
    decreases |groups|
  {
    if k == 0 {
      assert units[0..] == units;
      rest := groups;
    } else {
      var first := groups[0];
      assert units == first + Concat(groups[1..]);
      if k < |first| {
        JoinDrop(separator, first, k);
        rest := [first[k..]] + groups[1..];
        assert rest[1..] == groups[1..];
        assert units[k..] == first[k..] + Concat(groups[1..]);
      } else {
        rest := DropUnits(groups[1..], Concat(groups[1..]), separator, limit, k - |first|);
        assert units[k..] == Concat(groups[1..])[k - |first|..];
      }
    }
  }

  /** No order-preserving grouping has fewer groups than the greedy one. */
  lemma {:induction false} GreedyIsMinimal(groups: seq<seq<string>>, units: seq<string>, separator: string, limit: nat)
    requires IsGrouping(groups, units, separator, limit)
    ensures |Greedy(units, separator, limit)| <= |groups|
    decreases |units|
  {
    if units != [] {
      var first := groups[0];
      var n := LongestPrefix(units, separator, limit, 1);
      assert units == first + Concat(groups[1..]);
      assert units[..|first|] == first;
      PrefixReached(units, separator, limit, 1, |first|);
      var tail := Concat(groups[1..]);
      assert IsGrouping(groups[1..], tail, separator, limit);
      var rest := DropUnits(groups[1..], tail, separator, limit, n - |first|);
      assert tail[n - |first|..] == units[n..];
      GreedyIsMinimal(rest, units[n..], separator, limit);
    }
  }

  /** A group under construction that still fits is the start of the next greedy group. */
  lemma GreedyStarts(current: seq<string>, rest: seq<string>, separator: string, limit: nat)
    requires Admissible(current, separator, limit)
    requires rest == [] || |Join(separator, current + [rest[0]])| > limit
    ensures Greedy(current + rest, separator, limit) == [current] + Greedy(rest, separator, limit)
  {
    var units := current + rest;
    assert units[..|current|] == current && units[|current|..] == rest;
    PrefixReached(units, separator, limit, 1, |current|);
    var n := LongestPrefix(units, separator, limit, 1);
    if n > |current| {
      PrefixAdmissible(units, separator, limit, 1);
      assert units[..n][..|current| + 1] == current + [rest[0]];
      JoinTake(separator, units[..n], |current| + 1);
    }
  }

  /** After `i` units the closed groups are greedy groups and the open one starts the next. */
  ghost predicate InProgress(units: seq<string>, separator: string, limit: nat, i: nat,
                             done: seq<seq<string>>, current: seq<string>) {
    && i <= |units|
    && Greedy(units, separator, limit) == done + Greedy(current + units[i..], separator, limit)
    && if current == [] then i == 0 else Admissible(current, separator, limit)
  }

  lemma StartGroups(units: seq<string>, separator: string, limit: nat)
    ensures InProgress(units, separator, limit, 0, [], [])
  {
    assert [] + units[0..] == units;
    assert [] + Greedy(units, separator, limit) == Greedy(units, separator, limit);
  }

  lemma AddUnit(units: seq<string>, separator: string, limit: nat, i: nat, done: seq<seq<string>>, current: seq<string>)
    requires i < |units| && InProgress(units, separator, limit, i, done, current)
    ensures current == [] || |Join(separator, current + [units[i]])| <= limit
            ==> InProgress(units, separator, limit, i + 1, done, current + [units[i]])
    ensures current != [] && |Join(separator, current + [units[i]])| > limit
            ==> InProgress(units, separator, limit, i + 1, done + [current], [units[i]])
  {
    assert current + units[i..] == current + [units[i]] + units[i + 1..];
    if current != [] && |Join(separator, current + [units[i]])| > limit {
      GreedyStarts(current, units[i..], separator, limit);
      assert [units[i]] + units[i + 1..] == units[i..];
    }
  }

  lemma EndGroups(units: seq<string>, separator: string, limit: nat, done: seq<seq<string>>, current: seq<string>)
    requires InProgress(units, separator, limit, |units|, done, current)
    ensures Greedy(units, separator, limit) == if current == [] then done else done + [current]
  {
    assert current + units[|units|..] == current + [];
    if current != [] {
      GreedyStarts(current, [], separator, limit);
    }
  }

  // ---- Paragraphs

  function SpaceRun(s: string, i: nat): (e: nat)
    requires i <= |s|
    ensures i <= e <= |s| && AllSpace(s[i..e])
    ensures e < |s| ==> !IsSpace(s[e])
    decreases |s| - i
  {
    if i == |s| || !IsSpace(s[i]) then i
    else
      var e := SpaceRun(s, i + 1);
      assert s[i..e] == [s[i]] + s[i + 1..e];
      e
  }

  /** One past the last newline in `s[i..e]`, or `i` if there is none. */
  function AfterLastNewline(s: string, i: nat, e: nat): (j: nat)
    requires i <= e <= |s|
    ensures i <= j <= e
    ensures j > i ==> s[j - 1] == NEWLINE
    ensures forall k :: j <= k < e ==> s[k] != NEWLINE
    decreases e - i
  {
    if e == i then i else if s[e - 1] == NEWLINE then e else AfterLastNewline(s, i, e - 1)
  }

  /** End of the match of newline, white space, newline that starts at `i`, or `i` if none
      does: the run of white space is taken whole and given back to its last newline. */
  function BreakEnd(s: string, i: nat): (j: nat)
    requires i < |s|
    ensures j == i || (i + 2 <= j <= |s| && AllSpace(s[i..j]))
  {
    if s[i] != NEWLINE then i
    else
      var e := SpaceRun(s, i + 1);
      var j := AfterLastNewline(s, i + 1, e);
      if j == i + 1 then i
      else
        assert forall m :: i < m < j ==> s[m] == s[i + 1..e][m - i - 1];
        j
  }

  function FirstBreak(s: string, i: nat): (k: nat)
    requires i <= |s|
    ensures i <= k <= |s|
    ensures k < |s| ==> BreakEnd(s, k) > k
    ensures forall m :: i <= m < k ==> BreakEnd(s, m) == m
    decreases |s| - i
  {
    if i == |s| || BreakEnd(s, i) > i then i else FirstBreak(s, i + 1)
  }

  /** The content split at its paragraph breaks. */
  function Pieces(s: string): (pieces: seq<string>)
    ensures pieces != []
    decreases |s|
  {
    var k := FirstBreak(s, 0);
    if k == |s| then [s] else [s[..k]] + Pieces(s[BreakEnd(s, k)..])
  }

  function NonEmptyStripped(pieces: seq<string>): seq<string> {
    if pieces == [] then []
    else (if Strip(pieces[0]) != [] then [Strip(pieces[0])] else []) + NonEmptyStripped(pieces[1..])
  }

  function Paragraphs(content: string): seq<string> { NonEmptyStripped(Pieces(content)) }

  /** Runs of words no longer than the limit, except for a single longer word. */
  function SplitParagraph(paragraph: string, limit: nat): seq<string> {
    JoinAll(SPACE, Greedy(Words(paragraph), SPACE, limit))
  }

  function UnitsOf(paragraph: string, limit: nat): seq<string> {
    if |paragraph| <= limit then [paragraph] else SplitParagraph(paragraph, limit)
  }

  function Units(paragraphs: seq<string>, limit: nat): seq<string> {
    if paragraphs == [] then [] else UnitsOf(paragraphs[0], limit) + Units(paragraphs[1..], limit)
  }

  function Texts(content: string, limit: nat): seq<string> {
    JoinAll(PARAGRAPH_BREAK, Greedy(Units(Paragraphs(content), limit), PARAGRAPH_BREAK, limit))
  }

  function Chunks(hash: string -> string, content: string, limit: nat): (chunks: seq<Chunk>)
    ensures |chunks| == |Texts(content, limit)|
    ensures forall i :: 0 <= i < |chunks| ==>
      chunks[i] == Chunk(i, Texts(content, limit)[i], hash(Texts(content, limit)[i]))
  {
    var texts := Texts(content, limit);
    seq(|texts|, i requires 0 <= i < |texts| => Chunk(i, texts[i], hash(texts[i])))
  }

  // ---- Conservation

  lemma {:induction false} PiecesKeepWords(s: string)
    ensures Concat(WordLists(Pieces(s))) == Words(s)
    decreases |s|
  {
    hide Words, FirstBreak, BreakEnd;
    var k := FirstBreak(s, 0);
    if k == |s| {
      assert WordLists([s]) == [Words(s)];
      assert Concat([Words(s)]) == Words(s) + Concat([]);
    } else {
      var e := BreakEnd(s, k);
      PiecesKeepWords(s[e..]);
      assert WordLists(Pieces(s)) == [Words(s[..k])] + WordLists(Pieces(s[e..]));
      GapHasNoWords(s, k, e);
    }
  }

  lemma GapHasNoWords(s: string, k: nat, e: nat)
    requires k < e <= |s| && AllSpace(s[k..e])
    ensures Words(s) == Words(s[..k]) + Words(s[e..])
  {
    hide Words, IsSpace, AllSpace;
    var before, gap, rest := s[..k], s[k..e], s[e..];
    assert s == before + (gap + rest);
    StartsWithSpace(gap, rest);
    WordsSplit(before, gap + rest);
    WordsAfterSpace(gap, rest);
  }

  lemma StartsWithSpace(gap: string, rest: string)
    requires gap != [] && AllSpace(gap)
    ensures IsSpace((gap + rest)[0])
  {
    hide IsSpace;
    assert (gap + rest)[0] == gap[0];
  }

  lemma {:induction false} StripRightKeepsWords(s: string)
    ensures Words(StripRight(s)) == Words(s)
    decreases |s|
  {
    if s != [] && IsSpace(s[|s| - 1]) {
      var init, last := s[..|s| - 1], [s[|s| - 1]];
      StripRightKeepsWords(init);
      assert s == init + last;
      WordsSplit(init, last);
      WordsOfSpace(last);
    }
  }

  lemma {:induction false} StripKeepsWords(s: string)
    ensures Words(Strip(s)) == Words(s)
    decreases |s|
  {
    if s == [] || !IsSpace(s[0]) {
      StripRightKeepsWords(s);
    } else {
      StripKeepsWords(s[1..]);
    }
  }

  /** The words of one more text in front. */
  lemma WordListsCons(first: string, rest: seq<string>)
    ensures Concat(WordLists([first] + rest)) == Words(first) + Concat(WordLists(rest))
  {
    hide Words;
    var r := WordLists([first] + rest);
    assert r[0] == Words(first);
    assert r[1..] == WordLists(rest);
  }

  lemma {:induction false} ParagraphsKeepWords(pieces: seq<string>)
    ensures Concat(WordLists(NonEmptyStripped(pieces))) == Concat(WordLists(pieces))
  {
    hide Words, Strip, Concat;
    if pieces == [] {
      assert NonEmptyStripped(pieces) == pieces;
    } else {
      var rest := NonEmptyStripped(pieces[1..]);
      ParagraphsKeepWords(pieces[1..]);
      StripKeepsWords(pieces[0]);
      assert pieces == [pieces[0]] + pieces[1..];
      WordListsCons(pieces[0], pieces[1..]);
      if Strip(pieces[0]) != [] {
        WordListsCons(Strip(pieces[0]), rest);
      } else {
        assert NonEmptyStripped(pieces) == rest;
        NoWords();
      }
    }
  }

  lemma NoWords()
    ensures Words([]) == []
  {
  }

  lemma WordListsConcat(a: seq<string>, b: seq<string>)
    ensures Concat(WordLists(a + b)) == Concat(WordLists(a)) + Concat(WordLists(b))
  {
    hide Words, Concat;
    var r, t := WordLists(a + b), WordLists(a) + WordLists(b);
    assert |r| == |t|;
    forall i | 0 <= i < |r| ensures r[i] == t[i] {
      assert r[i] == Words((a + b)[i]);
    }
    assert r == t;
    ConcatAppend(WordLists(a), WordLists(b));
  }

  /** The joined groups have the words of the units, in order. */
  lemma {:induction false} JoinAllKeepsWords(separator: string, groups: seq<seq<string>>)
    requires separator != [] && AllSpace(separator)
    ensures Concat(WordLists(JoinAll(separator, groups))) == Concat(WordLists(Concat(groups)))
  {
    if groups != [] {
      JoinAllKeepsWords(separator, groups[1..]);
      WordsOfJoin(separator, groups[0]);
      WordListsConcat(groups[0], Concat(groups[1..]));
      assert WordLists(JoinAll(separator, groups))[1..] == WordLists(JoinAll(separator, groups[1..]));
    }
  }

  lemma {:induction false} WordsOfWords(words: seq<string>)
    requires forall i :: 0 <= i < |words| ==> IsWord(words[i])
    ensures Concat(WordLists(words)) == words
  {
    if words != [] {
      WordsOfWords(words[1..]);
      WordsOfWord(words[0]);
      assert WordLists(words)[1..] == WordLists(words[1..]);
    }
  }

  lemma UnitsOfKeepWords(paragraph: string, limit: nat)
    ensures Concat(WordLists(UnitsOf(paragraph, limit))) == Words(paragraph)
  {
    hide Words, Greedy;
    if |paragraph| <= limit {
      assert WordLists([paragraph]) == [Words(paragraph)];
      assert Concat([Words(paragraph)]) == Words(paragraph) + Concat([]);
    } else {
      JoinAllKeepsWords(SPACE, Greedy(Words(paragraph), SPACE, limit));
      GreedyIsGrouping(Words(paragraph), SPACE, limit);
      WordsOfWords(Words(paragraph));
    }
  }

  lemma {:induction false} UnitsKeepWords(paragraphs: seq<string>, limit: nat)
    ensures Concat(WordLists(Units(paragraphs, limit))) == Concat(WordLists(paragraphs))
  {
    hide Words, UnitsOf;
    if paragraphs != [] {
      UnitsKeepWords(paragraphs[1..], limit);
      UnitsOfKeepWords(paragraphs[0], limit);
      WordListsConcat(UnitsOf(paragraphs[0], limit), Units(paragraphs[1..], limit));
      assert WordLists(paragraphs) == [Words(paragraphs[0])] + WordLists(paragraphs[1..]);
    }
  }

  /** The words of all chunks, in order, are the words of the document. */
  lemma ChunksKeepWords(content: string, limit: nat)
    ensures Concat(WordLists(Texts(content, limit))) == Words(content)
  {
    var units := Units(Paragraphs(content), limit);
    JoinAllKeepsWords(PARAGRAPH_BREAK, Greedy(units, PARAGRAPH_BREAK, limit));
    GreedyIsGrouping(units, PARAGRAPH_BREAK, limit);
    UnitsKeepWords(Paragraphs(content), limit);
    ParagraphsKeepWords(Pieces(content));
    PiecesKeepWords(content);
  }

  lemma {:induction false} StripRightStarts(s: string)
    requires s != [] && !IsSpace(s[0])
    ensures StripRight(s) != [] && StripRight(s)[0] == s[0]
  {
    if IsSpace(s[|s| - 1]) {
      StripRightStarts(s[..|s| - 1]);
    }
  }

  lemma {:induction false} StrippedHasWord(s: string)
    ensures Strip(s) != [] ==> Words(Strip(s)) != []
  {
    hide IsSpace;
    if s != [] {
      if IsSpace(s[0]) {
        StrippedHasWord(s[1..]);
      } else {
        StripRightStarts(s);
      }
    }
  }

  lemma {:induction false} ParagraphsHaveWords(pieces: seq<string>)
    ensures NonEmptyStripped(pieces) != [] ==> Concat(WordLists(NonEmptyStripped(pieces))) != []
  {
    hide Words, Strip;
    if pieces != [] {
      ParagraphsHaveWords(pieces[1..]);
      StrippedHasWord(pieces[0]);
      var kept := NonEmptyStripped(pieces);
      if Strip(pieces[0]) != [] {
        assert WordLists(kept)[0] == Words(kept[0]) && kept[0] == Strip(pieces[0]);
        assert Concat(WordLists(kept)) == Words(kept[0]) + Concat(WordLists(kept)[1..]);
      } else {
        assert kept == NonEmptyStripped(pieces[1..]);
      }
    }
  }

  /** A document has no chunk exactly when it has no word. */
  lemma NoChunkIffNoWord(content: string, limit: nat)
    ensures Texts(content, limit) == [] <==> Words(content) == []
  {
    hide Words, Strip, Pieces;
    ChunksKeepWords(content, limit);
    ParagraphsHaveWords(Pieces(content));
    ParagraphsKeepWords(Pieces(content));
    PiecesKeepWords(content);
    assert Paragraphs(content) == [] ==> Units(Paragraphs(content), limit) == [];
    assert Texts(content, limit) == [] ==> WordLists(Texts(content, limit)) == [];
  }

  // ---- Size

  ghost predicate Fits(text: string, limit: nat) { text != [] && (|text| <= limit || IsWord(text)) }

  lemma SplitFits(paragraph: string, limit: nat)
    ensures forall i :: 0 <= i < |SplitParagraph(paragraph, limit)| ==> Fits(SplitParagraph(paragraph, limit)[i], limit)
  {
    var groups := Greedy(Words(paragraph), SPACE, limit);
    GreedyIsGrouping(Words(paragraph), SPACE, limit);
    forall i | 0 <= i < |groups| ensures Fits(Join(SPACE, groups[i]), limit) {
      GroupMembers(groups, i);
      assert groups[i][0] in Words(paragraph);
    }
  }

  lemma {:induction false} GroupMembers<T>(groups: seq<seq<T>>, i: nat)
    requires i < |groups|
    ensures forall x :: x in groups[i] ==> x in Concat(groups)
  {
    if i > 0 {
      GroupMembers(groups[1..], i - 1);
    }
  }

  lemma {:induction false} UnitsFit(paragraphs: seq<string>, limit: nat)
    requires forall i :: 0 <= i < |paragraphs| ==> paragraphs[i] != []
    ensures forall u :: u in Units(paragraphs, limit) ==> Fits(u, limit)
  {
    if paragraphs != [] {
      UnitsFit(paragraphs[1..], limit);
      SplitFits(paragraphs[0], limit);
      assert forall u :: u in Units(paragraphs, limit) ==>
        u in UnitsOf(paragraphs[0], limit) || u in Units(paragraphs[1..], limit);
    }
  }

  lemma {:induction false} ParagraphsNonEmpty(pieces: seq<string>)
    ensures forall i :: 0 <= i < |NonEmptyStripped(pieces)| ==> NonEmptyStripped(pieces)[i] != []
  {
    if pieces != [] {
      ParagraphsNonEmpty(pieces[1..]);
    }
  }

  /** Every chunk has text and fits the limit unless it is one longer word. */
  lemma ChunksFit(content: string, limit: nat)
    ensures forall i :: 0 <= i < |Texts(content, limit)| ==> Fits(Texts(content, limit)[i], limit)
  {
    var units := Units(Paragraphs(content), limit);
    var groups := Greedy(units, PARAGRAPH_BREAK, limit);
    ParagraphsNonEmpty(Pieces(content));
    UnitsFit(Paragraphs(content), limit);
    GreedyIsGrouping(units, PARAGRAPH_BREAK, limit);
    forall i | 0 <= i < |groups| ensures Fits(Join(PARAGRAPH_BREAK, groups[i]), limit) {
      GroupMembers(groups, i);
      assert groups[i][0] in units;
    }
  }

  /** Every way of packing the same units in order needs at least as many chunks, and every
      way of splitting an oversized paragraph needs at least as many parts. */
  lemma FewestChunks(content: string, limit: nat, groups: seq<seq<string>>, paragraph: string, parts: seq<seq<string>>)
    requires IsGrouping(groups, Units(Paragraphs(content), limit), PARAGRAPH_BREAK, limit)
    requires IsGrouping(parts, Words(paragraph), SPACE, limit)
    ensures |Texts(content, limit)| <= |groups|
    ensures |SplitParagraph(paragraph, limit)| <= |parts|
  {
    GreedyIsMinimal(groups, Units(Paragraphs(content), limit), PARAGRAPH_BREAK, limit);
    GreedyIsMinimal(parts, Words(paragraph), SPACE, limit);
  }

  /** No group of the greedy packing has room for the unit after it. */
  lemma {:induction false} GreedyTakesMost(units: seq<string>, separator: string, limit: nat, i: nat)
    requires i + 1 < |Greedy(units, separator, limit)|
    ensures var groups := Greedy(units, separator, limit);
            groups[i] != [] && groups[i + 1] != [] && |Join(separator, groups[i] + [groups[i + 1][0]])| > limit
    decreases |units|
  {
    hide Join;
    var n := LongestPrefix(units, separator, limit, 1);
    var groups := Greedy(units, separator, limit);
    if i > 0 {
      GreedyTakesMost(units[n..], separator, limit, i - 1);
    } else {
      assert units[n..] != [] && groups[1] == units[n..][..LongestPrefix(units[n..], separator, limit, 1)];
      assert units[..n] + [units[n]] == units[..n + 1];
      LongestStops(units, separator, limit, 1);
    }
  }

  lemma {:induction false} LongestStops(units: seq<string>, separator: string, limit: nat, n: nat)
    requires 1 <= n <= |units| && LongestPrefix(units, separator, limit, n) < |units|
    ensures |Join(separator, units[..LongestPrefix(units, separator, limit, n) + 1])| > limit
    decreases |units| - n
  {
    hide Join;
    if |Join(separator, units[..n + 1])| <= limit {
      LongestStops(units, separator, limit, n + 1);
    }
  }

  // ---- Text

  /** A run of white space that starts and ends with a newline. */
  predicate IsBreak(gap: string) {
    |gap| >= 2 && gap[0] == NEWLINE && gap[|gap| - 1] == NEWLINE && AllSpace(gap)
  }

  /** Some stretch of the text is a paragraph break. */
  ghost predicate HasBreak(s: string) { exists i, j :: 0 <= i <= j <= |s| && IsBreak(s[i..j]) }

  /** The pieces with the gaps between them. */
  function Woven(pieces: seq<string>, gaps: seq<string>): string
    requires |pieces| == |gaps| + 1
  {
    if gaps == [] then pieces[0] else pieces[0] + gaps[0] + Woven(pieces[1..], gaps[1..])
  }

  lemma BreakIsFound(s: string, i: nat, j: nat)
    requires i <= j <= |s| && IsBreak(s[i..j])
    ensures BreakEnd(s, i) > i
  {
    hide IsSpace;
    assert s[i] == s[i..j][0] && s[j - 1] == s[i..j][j - i - 1];
    assert forall k :: i <= k < j ==> s[k] == s[i..j][k - i];
  }

  /** The piece before the first break has none. */
  lemma FirstHasNoBreak(s: string)
    ensures !HasBreak(s[..FirstBreak(s, 0)])
  {
    hide BreakEnd;
    var k := FirstBreak(s, 0);
    if HasBreak(s[..k]) {
      var i, j :| 0 <= i <= j <= k && IsBreak(s[..k][i..j]);
      assert s[..k][i..j] == s[i..j];
      BreakIsFound(s, i, j);
    }
  }

  lemma BreakIsBreak(s: string, i: nat)
    requires i < |s| && BreakEnd(s, i) > i
    ensures IsBreak(s[i..BreakEnd(s, i)])
  {
    hide IsSpace;
    var e := SpaceRun(s, i + 1);
    var j := AfterLastNewline(s, i + 1, e);
    assert s[i..j][j - i - 1] == s[j - 1];
  }

  /** A document falls into pieces without a break, between which stand breaks and nothing
      else. */
  lemma {:induction false} PiecesAreSplit(s: string) returns (gaps: seq<string>)
    ensures |Pieces(s)| == |gaps| + 1 && Woven(Pieces(s), gaps) == s
    ensures forall k :: 0 <= k < |gaps| ==> IsBreak(gaps[k])
    ensures forall k :: 0 <= k < |Pieces(s)| ==> !HasBreak(Pieces(s)[k])
    decreases |s|
  {
    hide BreakEnd, FirstBreak, IsBreak, HasBreak;
    var k := FirstBreak(s, 0);
    FirstHasNoBreak(s);
    if k == |s| {
      gaps := [];
      assert s[..k] == s;
    } else {
      var e := BreakEnd(s, k);
      BreakIsBreak(s, k);
      var rest := PiecesAreSplit(s[e..]);
      gaps := [s[k..e]] + rest;
      assert gaps[1..] == rest && Pieces(s)[1..] == Pieces(s[e..]);
      assert s == s[..k] + s[k..e] + s[e..];
    }
  }

  /** A piece of space alone is dropped, and any other stripped. */
  lemma PieceIsStripped(piece: string)
    ensures NonEmptyStripped([piece]) == if AllSpace(piece) then [] else [Strip(piece)]
  {
    hide Strip, IsSpace;
    assert [piece][1..] == [];
    var before, after := StripTrims(piece);
    if Strip(piece) == [] {
      assert piece == before + after;
    } else {
      assert piece[|before|] == Strip(piece)[0];
    }
  }

  /** The paragraphs come in the order of the pieces. */
  lemma {:induction false} ParagraphsInOrder(before: seq<string>, after: seq<string>)
    ensures NonEmptyStripped(before + after) == NonEmptyStripped(before) + NonEmptyStripped(after)
  {
    hide Strip;
    if before == [] {
      assert before + after == after;
    } else {
      var all := before + after;
      assert all[0] == before[0] && all[1..] == before[1..] + after;
      ParagraphsInOrder(before[1..], after);
      var first := if Strip(before[0]) != [] then [Strip(before[0])] else [];
      assert NonEmptyStripped(all) == first + NonEmptyStripped(all[1..]);
      assert NonEmptyStripped(before) == first + NonEmptyStripped(before[1..]);
      hide NonEmptyStripped;
      Regroup(first, NonEmptyStripped(before[1..]), NonEmptyStripped(after));
    }
  }

  /** A paragraph within the limit is one unit, word for word; the units of a longer one, joined
      by spaces, are its words joined by spaces. */
  lemma UnitsOfParagraphs(paragraph: string, limit: nat)
    ensures |paragraph| <= limit ==> UnitsOf(paragraph, limit) == [paragraph]
    ensures |paragraph| > limit ==> Join(SPACE, UnitsOf(paragraph, limit)) == Join(SPACE, Words(paragraph))
  {
    hide Words, Greedy, Join;
    if |paragraph| > limit {
      GreedyIsGrouping(Words(paragraph), SPACE, limit);
      JoinOfJoins(SPACE, Greedy(Words(paragraph), SPACE, limit));
    }
  }

  lemma {:induction false} FittingParagraphsStay(paragraphs: seq<string>, limit: nat)
    requires forall k :: 0 <= k < |paragraphs| ==> |paragraphs[k]| <= limit
    ensures Units(paragraphs, limit) == paragraphs
  {
    if paragraphs != [] {
      FittingParagraphsStay(paragraphs[1..], limit);
    }
  }

  lemma {:induction false} JoinAppend(separator: string, a: seq<string>, b: seq<string>)
    requires a != [] && b != []
    ensures Join(separator, a + b) == Join(separator, a) + separator + Join(separator, b)
    decreases |b|
  {
    var last := b[|b| - 1];
    if |b| == 1 {
      assert b == [last];
      JoinSnoc(separator, a, last);
    } else {
      var init := b[..|b| - 1];
      JoinAppend(separator, a, init);
      assert b == init + [last] && a + b == (a + init) + [last];
      hide Join;
      JoinSnoc(separator, init, last);
      JoinSnoc(separator, a + init, last);
    }
  }

  /** Joining the joined groups is joining what they hold. */
  lemma {:induction false} JoinOfJoins(separator: string, groups: seq<seq<string>>)
    requires forall k :: 0 <= k < |groups| ==> groups[k] != []
    ensures Join(separator, JoinAll(separator, groups)) == Join(separator, Concat(groups))
  {
    if groups != [] {
      var rest := groups[1..];
      JoinOfJoins(separator, rest);
      assert JoinAll(separator, groups) == [Join(separator, groups[0])] + JoinAll(separator, rest);
      if rest == [] {
        assert Concat(groups) == groups[0] && JoinAll(separator, groups) == [Join(separator, groups[0])];
      } else {
        assert Concat(rest) != [];
        JoinAppend(separator, groups[0], Concat(rest));
        hide JoinAll;
        JoinAppend(separator, [Join(separator, groups[0])], JoinAll(separator, rest));
      }
    }
  }

  /** The chunks joined by blank lines are the units joined by blank lines; where every
      paragraph fits, they are the paragraphs of the document, word for word. */
  lemma ChunksRejoin(content: string, limit: nat)
    ensures Join(PARAGRAPH_BREAK, Texts(content, limit)) == Join(PARAGRAPH_BREAK, Units(Paragraphs(content), limit))
    ensures (forall p :: p in Paragraphs(content) ==> |p| <= limit) ==>
      Join(PARAGRAPH_BREAK, Texts(content, limit)) == Join(PARAGRAPH_BREAK, Paragraphs(content))
  {
    hide Join, Greedy, Pieces, NonEmptyStripped;
    var units := Units(Paragraphs(content), limit);
    GreedyIsGrouping(units, PARAGRAPH_BREAK, limit);
    JoinOfJoins(PARAGRAPH_BREAK, Greedy(units, PARAGRAPH_BREAK, limit));
    if forall p :: p in Paragraphs(content) ==> |p| <= limit {
      FittingParagraphsStay(Paragraphs(content), limit);
    }
  }

  // ---- The loops of the original

  method SplitOversizedParagraph(paragraph: string, limit: nat) returns (parts: seq<string>)
    ensures parts == SplitParagraph(paragraph, limit)
  {
    var words := Words(paragraph);
    parts := [];
    var current: seq<string> := [];
    var currentLength := 0;
    ghost var done: seq<seq<string>> := [];
    StartGroups(words, SPACE, limit);
    for i := 0 to |words|
      invariant parts == JoinAll(SPACE, done)
      invariant InProgress(words, SPACE, limit, i, done, current)
      invariant currentLength == |Join(SPACE, current)|
    {
      var word := words[i];
      var added := |word| + if current != [] then 1 else 0;
      AddUnit(words, SPACE, limit, i, done, current);
      JoinSnoc(SPACE, current, word);
      if current != [] && currentLength + added > limit {
        parts := parts + [Join(SPACE, current)];
        done := done + [current];
        current := [word];
        currentLength := |word|;
      } else {
        current := current + [word];
        currentLength := currentLength + added;
      }
    }
    EndGroups(words, SPACE, limit, done, current);
    if current != [] {
      parts := parts + [Join(SPACE, current)];
    }
  }

  method ChunkDocument(hash: string -> string, content: string, limit: nat) returns (chunks: seq<Chunk>)
    ensures chunks == Chunks(hash, content, limit)
  {
    var paragraphs := Paragraphs(content);
    var units := AllUnits(paragraphs, limit);
    ParagraphsNonEmpty(Pieces(content));
    UnitsFit(paragraphs, limit);
    var packed := Pack(units, limit);
    chunks := seq(|packed|, i requires 0 <= i < |packed| => Chunk(i, packed[i], hash(packed[i])));
  }

  method AllUnits(paragraphs: seq<string>, limit: nat) returns (units: seq<string>)
    ensures units == Units(paragraphs, limit)
  {
    hide UnitsOf;
    units := [];
    for i := 0 to |paragraphs|
      invariant units + Units(paragraphs[i..], limit) == Units(paragraphs, limit)
    {
      var added := UnitsOfParagraph(paragraphs[i], limit);
      assert Units(paragraphs[i..], limit) == added + Units(paragraphs[i + 1..], limit);
      units := units + added;
    }
  }

  method UnitsOfParagraph(paragraph: string, limit: nat) returns (units: seq<string>)
    ensures units == UnitsOf(paragraph, limit)
  {
    if |paragraph| <= limit {
      units := [paragraph];
    } else {
      units := SplitOversizedParagraph(paragraph, limit);
    }
  }

  method Pack(units: seq<string>, limit: nat) returns (packed: seq<string>)
    requires forall u :: u in units ==> u != []
    ensures packed == JoinAll(PARAGRAPH_BREAK, Greedy(units, PARAGRAPH_BREAK, limit))
  {
    packed := [];
    var current := "";
    ghost var done: seq<seq<string>>, group: seq<string> := [], [];
    StartGroups(units, PARAGRAPH_BREAK, limit);
    for i := 0 to |units|
      invariant packed == JoinAll(PARAGRAPH_BREAK, done)
      invariant current == Join(PARAGRAPH_BREAK, group) && (current == "" <==> group == [])
      invariant InProgress(units, PARAGRAPH_BREAK, limit, i, done, group)
    {
      var unit := units[i];
      assert unit in units;
      var candidate := if current == "" then unit else current + PARAGRAPH_BREAK + unit;
      AddUnit(units, PARAGRAPH_BREAK, limit, i, done, group);
      JoinSnoc(PARAGRAPH_BREAK, group, unit);
      if current != "" && |candidate| > limit {
        packed := packed + [current];
        done := done + [group];
        current, group := unit, [unit];
      } else {
        current, group := candidate, group + [unit];
      }
    }
    EndGroups(units, PARAGRAPH_BREAK, limit, done, group);
    if current != "" {
      packed := packed + [current];
    }
  }
}
