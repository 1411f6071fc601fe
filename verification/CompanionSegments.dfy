/**
 Cutting a companion's answer into the messages that are sent: at the delimiters the lexer wrote or, without any, at
 paragraphs or sentences, with every message bounded in length.
 */
module CompanionSegments {
  import opened Common
  import opened Text
  import opened CompanionLexer

  ghost predicate Bounded(parts: seq<string>, limit: nat) {
    forall i | 0 <= i < |parts| :: |parts[i]| <= limit
  }

  /** Both lists show the same characters in the same order. */
  ghost predicate SameVisible(a: seq<string>, b: seq<string>) {
    Visible(Flat(a)) == Visible(Flat(b))
  }

  lemma FlatOne(s: string)
    ensures Flat([s]) == s
  {
    assert Flat([s]) == Flat([]) + s;
  }

  lemma VisibleAppend(parts: seq<string>, part: string)
    ensures Visible(Flat(parts + [part])) == Visible(Flat(parts)) + Visible(part)
  {
    FlatAppend(parts, part);
    VisibleConcat(Flat(parts), part);
  }

  lemma VisibleAppendAll(a: seq<string>, b: seq<string>)
    ensures Visible(Flat(a + b)) == Visible(Flat(a)) + Visible(Flat(b))
  {
    FlatConcat(a, b);
    VisibleConcat(Flat(a), Flat(b));
  }

  // ---------- long messages ----------

  predicate IsBreak(c: char) {
    || c == '\U{3002}' || c == '\U{FF01}' || c == '\U{FF1F}' || c == '!' || c == '?' || c == '.' || c == ','
    || c == '\U{FF0C}' || c == '\U{3001}' || c == ';' || c == '\U{FF1B}' || c == ' '
  }

  /** Where a text that is too long is cut: after the last break in the second half, or at the limit. */
  ghost predicate IsCut(runes: string, limit: nat, cut: nat) {
    && limit / 2 < cut <= limit < |runes|
    && (cut < limit ==> IsBreak(runes[cut - 1]))
    && (forall i | cut <= i < limit :: !IsBreak(runes[i]))
    && (cut == limit && !IsBreak(runes[limit - 1]) ==> forall i | limit / 2 <= i < limit :: !IsBreak(runes[i]))
  }

  /** The search for the last break, from position `i` down. */
  function CutFrom(runes: string, limit: nat, i: int): nat
    requires i < limit < |runes|
    decreases i
  {
    if i < limit / 2 then limit else if IsBreak(runes[i]) then i + 1 else CutFrom(runes, limit, i - 1)
  }

  function CutOf(runes: string, limit: nat): (cut: nat)
    requires 1 <= limit < |runes|
    ensures IsCut(runes, limit, cut)
  {
    CutFromIsCut(runes, limit, limit - 1);
    CutFrom(runes, limit, limit - 1)
  }

  lemma {:induction false} CutFromIsCut(runes: string, limit: nat, i: int)
    requires 1 <= limit < |runes| && limit / 2 - 1 <= i < limit
    requires forall j | i < j < limit :: !IsBreak(runes[j])
    ensures IsCut(runes, limit, CutFrom(runes, limit, i))
    decreases i
  {
    if i >= limit / 2 && !IsBreak(runes[i]) {
      CutFromIsCut(runes, limit, i - 1);
    }
  }

  /** There is only one such place. */
  lemma CutIsUnique(runes: string, limit: nat, cut: nat)
    requires 1 <= limit && IsCut(runes, limit, cut)
    ensures cut == CutOf(runes, limit)
  {
    assert IsCut(runes, limit, CutOf(runes, limit));
  }

  method FindCut(runes: string, limit: nat) returns (cut: nat)
    requires 1 <= limit < |runes|
    ensures cut == CutOf(runes, limit)
  {
    var i := limit - 1;
    while i >= limit / 2
      invariant limit / 2 - 1 <= i < limit
      invariant CutFrom(runes, limit, i) == CutOf(runes, limit)
    {
      if IsBreak(runes[i]) {
        return i + 1;
      }
      i := i - 1;
    }
    cut := limit;
  }

  /** The pieces of a text: cut off one by one until the rest fits, each without surrounding white space. */
  function Chopped(runes: string, limit: nat): seq<string>
    requires 1 <= limit
    decreases |runes|
  {
    if |runes| <= limit then (if TrimSpace(runes) != "" then [TrimSpace(runes)] else [])
    else
      var cut := CutOf(runes, limit);
      [TrimSpace(runes[..cut])] + Chopped(runes[cut..], limit)
  }

  function Hard(text: string, limit: nat): seq<string>
    requires 1 <= limit
  {
    if |text| <= limit then [text] else Chopped(text, limit)
  }

  method HardSplit(text: string, limit: nat) returns (segments: seq<string>)
    requires 1 <= limit
    ensures segments == Hard(text, limit)
  {
    if |text| <= limit {
      return [text];
    }
    hide TrimSpace, CutOf;
    segments := [];
    var runes := text;
    while |runes| > limit
      invariant segments + Chopped(runes, limit) == Chopped(text, limit)
      decreases |runes|
    {
      var cut := FindCut(runes, limit);
      AssociateParts(segments, [TrimSpace(runes[..cut])], Chopped(runes[cut..], limit));
      segments := segments + [TrimSpace(runes[..cut])];
      runes := runes[cut..];
    }
    var tail := TrimSpace(runes);
    if tail != "" {
      segments := segments + [tail];
    }
  }

  /** Nothing visible is lost, and every piece fits. */
  lemma {:induction false} ChoppedKeeps(runes: string, limit: nat)
    requires 1 <= limit
    ensures Visible(Flat(Chopped(runes, limit))) == Visible(runes) && Bounded(Chopped(runes, limit), limit)
    decreases |runes|
  {
    hide Visible, Flat, TrimSpace, IsBreak;
    if |runes| <= limit {
      VisibleTrim(runes);
      FlatOne(TrimSpace(runes));
      NothingShown();
    } else {
      var cut := CutOf(runes, limit);
      ChoppedKeeps(runes[cut..], limit);
      ChopShows(runes, cut, Chopped(runes[cut..], limit));
    }
  }

  lemma ChopShows(runes: string, cut: nat, rest: seq<string>)
    requires cut <= |runes| && Visible(Flat(rest)) == Visible(runes[cut..])
    ensures Visible(Flat([TrimSpace(runes[..cut])] + rest)) == Visible(runes)
  {
    hide Visible, Flat, TrimSpace;
    var piece := TrimSpace(runes[..cut]);
    VisibleTrim(runes[..cut]);
    VisibleAppendAll([piece], rest);
    FlatOne(piece);
    VisibleConcat(runes[..cut], runes[cut..]);
    assert runes == runes[..cut] + runes[cut..];
  }

  /** There are no more pieces than cuts past the middle allow. */
  lemma {:induction false} ChoppedIsShort(runes: string, limit: nat)
    requires 1 <= limit
    ensures |Chopped(runes, limit)| * (limit / 2 + 1) <= |runes| + limit
    decreases |runes|
  {
    hide TrimSpace, IsBreak;
    if |runes| > limit {
      var cut := CutOf(runes, limit);
      var rest := Chopped(runes[cut..], limit);
      assert |Chopped(runes, limit)| == |rest| + 1;
      assert cut >= limit / 2 + 1;
      hide Chopped, CutOf, IsCut;
      ChoppedIsShort(runes[cut..], limit);
      OneMore(|rest|, limit / 2 + 1);
    } else {
      assert |Chopped(runes, limit)| <= 1;
      OneMore(0, limit / 2 + 1);
    }
  }

  lemma HardKeeps(text: string, limit: nat)
    requires 1 <= limit
    ensures Visible(Flat(Hard(text, limit))) == Visible(text) && Bounded(Hard(text, limit), limit)
  {
    hide Visible, Flat, Chopped;
    FlatOne(text);
    ChoppedKeeps(text, limit);
  }

  lemma OneMore(n: nat, k: nat)
    ensures (n + 1) * k == n * k + k
  {
  }

  lemma NothingShown()
    ensures Visible("") == "" == Visible(Flat([]))
  {
  }

  // ---------- short messages ----------

  /** No segment after the first is shorter than `least` if it would fit behind the one before it. */
  ghost predicate Settled(result: seq<string>, least: nat, limit: nat) {
    |result| <= 1 ||
    var init, last := result[..|result| - 1], result[|result| - 1];
    && Settled(init, least, limit)
    && (|last| < least ==> |init[|init| - 1]| + 1 + |last| > limit)
  }

  /** A segment shorter than `least` joins the one before it when both fit. */
  function Merged(segments: seq<string>, least: nat, limit: nat): seq<string> {
    if segments == [] then []
    else MergeNext(Merged(segments[..|segments| - 1], least, limit), segments[|segments| - 1], least, limit)
  }

  predicate Joins(result: seq<string>, segment: string, least: nat, limit: nat) {
    result != [] && |segment| < least && |result[|result| - 1] + " " + segment| <= limit
  }

  function MergeNext(result: seq<string>, segment: string, least: nat, limit: nat): seq<string> {
    if Joins(result, segment, least, limit)
    then result[..|result| - 1] + [result[|result| - 1] + " " + segment]
    else result + [segment]
  }

  method MergeShortSegments(segments: seq<string>, least: nat, limit: nat) returns (result: seq<string>)
    ensures result == Merged(segments, least, limit)
  {
    result := [];
    for k := 0 to |segments|
      invariant result == Merged(segments[..k], least, limit)
    {
      var segment := segments[k];
      assert segments[..k + 1][..k] == segments[..k];
      if |result| > 0 && |segment| < least {
        var merged := result[|result| - 1] + " " + segment;
        if |merged| <= limit {
          result := result[..|result| - 1] + [merged];
          continue;
        }
      }
      result := result + [segment];
    }
    assert segments[..|segments|] == segments;
  }

  /** Merging loses nothing visible, keeps the bound, and leaves no short segment that would fit behind its predecessor. */
  lemma {:induction false} MergedKeeps(segments: seq<string>, least: nat, limit: nat)
    ensures SameVisible(Merged(segments, least, limit), segments)
    ensures Bounded(segments, limit) ==> Bounded(Merged(segments, least, limit), limit)
    ensures Settled(Merged(segments, least, limit), least, limit) && |Merged(segments, least, limit)| <= |segments|
  {
    hide Visible, Flat, Settled;
    if segments == [] {
      NothingSettled(least, limit);
    } else {
      var init, last := segments[..|segments| - 1], segments[|segments| - 1];
      MergedKeeps(init, least, limit);
      assert segments == init + [last];
      VisibleAppend(init, last);
      MergeNextKeeps(Merged(init, least, limit), last, least, limit);
    }
  }

  lemma MergeNextKeeps(result: seq<string>, last: string, least: nat, limit: nat)
    requires Settled(result, least, limit)
    ensures var next := MergeNext(result, last, least, limit);
            && Visible(Flat(next)) == Visible(Flat(result)) + Visible(last)
            && (Bounded(result, limit) && |last| <= limit ==> Bounded(next, limit))
            && Settled(next, least, limit) && |next| <= |result| + 1
  {
    hide Visible, Flat, Settled;
    if Joins(result, last, least, limit) {
      MergedShows(result, last);
      MergedSettles(result, result[|result| - 1] + " " + last, least, limit);
    } else {
      VisibleAppend(result, last);
      AppendedSettles(result, last, least, limit);
    }
  }

  lemma NothingSettled(least: nat, limit: nat)
    ensures Settled([], least, limit)
  {
  }

  lemma MergedSettles(result: seq<string>, merged: string, least: nat, limit: nat)
    requires result != [] && Settled(result, least, limit) && |merged| >= |result[|result| - 1]|
    ensures Settled(result[..|result| - 1] + [merged], least, limit)
  {
    var init, last := result[..|result| - 1], result[|result| - 1];
    var next := init + [merged];
    assert next[..|next| - 1] == init && next[|next| - 1] == merged;
    assert |init| > 0 && |last| < least ==> |init[|init| - 1]| + 1 + |last| > limit;
    SettledStep(init, merged, least, limit);
  }

  lemma SettledStep(init: seq<string>, last: string, least: nat, limit: nat)
    requires |init| > 0 ==> Settled(init, least, limit) && (|last| < least ==> |init[|init| - 1]| + 1 + |last| > limit)
    ensures Settled(init + [last], least, limit)
  {
    var next := init + [last];
    assert next[..|next| - 1] == init && next[|next| - 1] == last;
  }

  lemma AppendedSettles(result: seq<string>, segment: string, least: nat, limit: nat)
    requires Settled(result, least, limit)
    requires result != [] && |segment| < least ==> |result[|result| - 1]| + 1 + |segment| > limit
    ensures Settled(result + [segment], least, limit)
  {
    SettledStep(result, segment, least, limit);
  }

  lemma MergedShows(result: seq<string>, segment: string)
    requires result != []
    ensures var merged := result[|result| - 1] + " " + segment;
            Visible(Flat(result[..|result| - 1] + [merged])) == Visible(Flat(result)) + Visible(segment)
  {
    var init, last := result[..|result| - 1], result[|result| - 1];
    VisibleConcat(last + " ", segment);
    VisibleConcat(last, " ");
    assert Visible(" ") == "" + Visible("");
    VisibleAppend(init, last + " " + segment);
    VisibleConcat(Flat(init), last);
    Associate(Visible(Flat(init)), Visible(last), Visible(segment));
  }

  /** The non-blank parts, each cut to size. */
  function Pieces(parts: seq<string>): seq<string> {
    if parts == [] then []
    else
      var before, text := Pieces(parts[..|parts| - 1]), TrimSpace(parts[|parts| - 1]);
      if text != "" then before + Hard(text, 80) else before
  }

  method SplitAndBound(parts: seq<string>) returns (result: seq<string>)
    ensures result == Merged(Pieces(parts), 2, 80)
    ensures SameVisible(result, parts) && Bounded(result, 80)
  {
    hide TrimSpace, Hard, Merged, Visible, Flat;
    var segments: seq<string> := [];
    for k := 0 to |parts|
      invariant segments == Pieces(parts[..k])
    {
      var text := TrimSpace(parts[k]);
      assert parts[..k + 1][..k] == parts[..k];
      if text != "" {
        var pieces := HardSplit(text, 80);
        segments := segments + pieces;
      }
    }
    assert parts[..|parts|] == parts;
    PiecesKeep(parts);
    MergedKeeps(segments, 2, 80);
    result := MergeShortSegments(segments, 2, 80);
  }

  lemma {:induction false} PiecesKeep(parts: seq<string>)
    ensures SameVisible(Pieces(parts), parts) && Bounded(Pieces(parts), 80)
  {
    hide Visible, Flat, TrimSpace, Hard;
    if parts != [] {
      var init, last := parts[..|parts| - 1], parts[|parts| - 1];
      PiecesKeep(init);
      VisibleAppend(init, last);
      assert parts == init + [last];
      VisibleTrim(last);
      NothingShown();
      if TrimSpace(last) != "" {
        HardKeeps(TrimSpace(last), 80);
        VisibleAppendAll(Pieces(init), Hard(TrimSpace(last), 80));
      }
    }
  }

  // ---------- paragraphs and sentences ----------

  function SkipNewlines(s: string): (t: string)
    ensures |t| <= |s| && (s != "" && s[0] == '\n' ==> |t| < |s|)
    ensures t != "" ==> t[0] != '\n'
  {
    if s != "" && s[0] == '\n' then SkipNewlines(s[1..]) else s
  }

  lemma {:induction false} SkippedAreInvisible(s: string)
    ensures Visible(SkipNewlines(s)) == Visible(s)
  {
    if s != "" && s[0] == '\n' {
      SkippedAreInvisible(s[1..]);
    }
  }

  /** Pieces between blank lines. */
  function Paragraphs(text: string): seq<string>
    decreases |text|
  {
    match Index(text, "\n\n")
    case None => [text]
    case Some(k) =>
      assert text[k] == text[k..k + 2][0];
      [text[..k]] + Paragraphs(SkipNewlines(text[k..]))
  }

  lemma ParagraphsStep(text: string, k: nat)
    requires Index(text, "\n\n") == Some(k)
    ensures k <= |text| && |SkipNewlines(text[k..])| < |text|
    ensures Paragraphs(text) == [text[..k]] + Paragraphs(SkipNewlines(text[k..]))
  {
    assert text[k] == text[k..k + 2][0];
  }

  lemma AssociateParts(a: seq<string>, b: seq<string>, c: seq<string>)
    ensures a + (b + c) == a + b + c
  {
  }

  method SplitParagraphs(text: string) returns (parts: seq<string>)
    ensures parts == Paragraphs(text)
  {
    parts := [];
    var remaining := text;
    while true
      invariant parts + Paragraphs(remaining) == Paragraphs(text)
      decreases |remaining|
    {
      var index := Index(remaining, "\n\n");
      if index.None? {
        return parts + [remaining];
      }
      hide Paragraphs, SkipNewlines, HasAt;
      var k := index.value;
      ParagraphsStep(remaining, k);
      AssociateParts(parts, [remaining[..k]], Paragraphs(SkipNewlines(remaining[k..])));
      parts := parts + [remaining[..k]];
      remaining := SkipNewlines(remaining[k..]);
    }
  }

  /** Nothing visible is lost, no paragraph holds a blank line, and a single paragraph is the whole text. */
  lemma {:induction false} ParagraphsKeep(text: string)
    ensures Visible(Flat(Paragraphs(text))) == Visible(text) && Free(Paragraphs(text), "\n\n")
    ensures Paragraphs(text) != [] && (|Paragraphs(text)| == 1 ==> Paragraphs(text)[0] == text)
    decreases |text|
  {
    hide Visible, Flat, Contains, SkipNewlines;
    FlatOne(text);
    var index := Index(text, "\n\n");
    if index.Some? {
      var k := index.value;
      var rest := SkipNewlines(text[k..]);
      assert text[k] == text[k..k + 2][0];
      ParagraphsKeep(rest);
      FirstIsFree(text, k, "\n\n");
      SkippedAreInvisible(text[k..]);
      VisibleAppendAll([text[..k]], Paragraphs(rest));
      FlatOne(text[..k]);
      VisibleConcat(text[..k], text[k..]);
      assert text == text[..k] + text[k..];
    }
  }

  /** Where a long text may be cut, and where a sentence may end. */
  lemma BreaksAndEnds(c: char, text: string)
    ensures IsBreak(c) <==> c in {'\U{3002}', '\U{FF01}', '\U{FF1F}', '!', '?', '.', ',', '\U{FF0C}', '\U{3001}', ';',
                                  '\U{FF1B}', ' '}
    ensures EndsSentence([c] + text, 0) <==>
            c in {'\U{3002}', '\U{FF01}', '\U{FF1F}', '!', '?'} || (c == '.' && (text == "" || text[0] == ' '))
  {
  }

  /** Whether a sentence ends at position `i`: a full stop only in front of a space or at the end. */
  predicate EndsSentence(runes: string, i: nat)
    requires i < |runes|
  {
    var r := runes[i];
    || r == '\U{3002}' || r == '\U{FF01}' || r == '\U{FF1F}' || r == '!' || r == '?'
    || (r == '.' && (i + 1 == |runes| || runes[i + 1] == ' '))
  }

  /** `lo..hi` is one sentence: it ends at the first sentence end, or with the text. */
  ghost predicate Sentence(text: string, lo: nat, hi: nat) {
    && lo < hi <= |text|
    && (forall i | lo <= i < hi - 1 :: !EndsSentence(text, i))
    && (hi < |text| ==> EndsSentence(text, hi - 1))
  }

  /** The parts are the sentences of the first `end` characters. */
  ghost predicate Sentences(text: string, parts: seq<string>, end: nat) {
    if parts == [] then end == 0
    else
      var last := parts[|parts| - 1];
      && |last| <= end
      && Sentence(text, end - |last|, end) && text[end - |last|..end] == last
      && Sentences(text, parts[..|parts| - 1], end - |last|)
  }

  method SplitSentences(text: string) returns (result: seq<string>)
    ensures Flat(result) == text && Sentences(text, result, |text|)
  {
    hide Flat, Sentences, EndsSentence;
    NoSentences(text);
    result := [];
    var current := "";
    var i := 0;
    ghost var start := 0;
    while i < |text|
      invariant start <= i <= |text|
      invariant Flat(result) == text[..start] && current == text[start..i]
      invariant Sentences(text, result, start)
      invariant forall j | start <= j < i :: !EndsSentence(text, j)
    {
      current := current + [text[i]];
      assert current == text[start..i + 1];
      if EndsSentence(text, i) {
        AddSentence(text, result, start, i + 1);
        result := result + [current];
        current := "";
        start := i + 1;
      }
      i := i + 1;
    }
    if |current| > 0 {
      AddSentence(text, result, start, |text|);
      result := result + [current];
    }
    assert text[..|text|] == text;
  }

  lemma NoSentences(text: string)
    ensures Flat([]) == text[..0] && Sentences(text, [], 0)
  {
  }

  lemma AddSentence(text: string, parts: seq<string>, lo: nat, hi: nat)
    requires Sentence(text, lo, hi) && Flat(parts) == text[..lo] && Sentences(text, parts, lo)
    ensures Flat(parts + [text[lo..hi]]) == text[..hi] && Sentences(text, parts + [text[lo..hi]], hi)
  {
    FlatAppend(parts, text[lo..hi]);
    assert text[..hi] == text[..lo] + text[lo..hi];
    assert (parts + [text[lo..hi]])[..|parts|] == parts;
  }

  // ---------- the whole answer ----------

  /** The parts of a text without delimiters: its paragraphs, or its sentences if it is one long paragraph. */
  ghost predicate FallbackParts(text: string, parts: seq<string>) {
    if |Paragraphs(text)| == 1 && |text| > 80 then Flat(parts) == text && Sentences(text, parts, |text|)
    else parts == Paragraphs(text)
  }

  /**
   Nothing visible is lost or reordered. Every message has at most 80 characters, except that a text without
   delimiters is sent whole when, and only when, its parts would need more than three messages.
   */
  method SplitCompanion(input: string, delimiter: string) returns (segments: seq<string>, ghost parts: seq<string>)
    requires delimiter != ""
    ensures Separates(delimiter) ==> Visible(Flat(segments)) == Between(input, delimiter)
    ensures var text := TrimSpace(input);
            var bounded := Merged(Pieces(parts), 2, 80);
            && Bounded(bounded, 80)
            && (text == "" ==> segments == [])
            && (text != "" && Contains(text, delimiter) ==> parts == Split(text, delimiter) && segments == bounded)
            && (text != "" && !Contains(text, delimiter) ==>
                  FallbackParts(text, parts) && segments == if |bounded| > 3 then [text] else bounded)
  {
    hide Pieces, Merged, Visible, Flat, Between, Separates, TrimSpace, Paragraphs, Sentences, Split;
    var text := TrimSpace(input);
    if Separates(delimiter) {
      BetweenTrim(input, delimiter);
      SplitKeepsVisible(input, delimiter);
    }
    if text == "" {
      parts := [];
      BoundedPieces([]);
      NothingBetween(delimiter);
      return [], parts;
    }
    if Index(text, delimiter).Some? {
      parts := Split(text, delimiter);
      segments := SplitAndBound(Split(text, delimiter));
      return;
    }
    BetweenOfFree(text, delimiter);
    ParagraphsKeep(text);
    var found := SplitParagraphs(text);
    if |found| == 1 && |text| > 80 {
      found := SplitSentences(text);
    }
    parts := found;
    segments := SplitAndBound(found);
    if |segments| > 3 {
      FlatOne(text);
      segments := [text];
    }
  }

  lemma BoundedPieces(parts: seq<string>)
    ensures Bounded(Merged(Pieces(parts), 2, 80), 80)
  {
    hide Pieces, Merged, Visible, Flat;
    PiecesKeep(parts);
    MergedKeeps(Pieces(parts), 2, 80);
  }

  lemma NothingBetween(d: string)
    requires d != ""
    ensures Between("", d) == "" == Visible(Flat([]))
  {
  }

  /**
   Lexing and splitting together: the messages show what is stored, and each has at most 80 characters unless the answer
   has no delimiter and its parts would need more than three messages. Then it is sent whole.
   */
  method CompanionMessages(text: string, uuid: string) returns (lexed: Lexed, segments: seq<string>, ghost parts: seq<string>)
    requires IsUuid(uuid)
    ensures lexed.storageText == Storage(Tokens(text))
    ensures !Contains(text, Delimiter(uuid)) ==> Visible(Flat(segments)) == Visible(lexed.storageText)
    ensures var input := TrimSpace(lexed.segmenterInput);
            var whole := input != "" && !Contains(input, Delimiter(uuid)) && |Merged(Pieces(parts), 2, 80)| > 3;
            && (input != "" && !Contains(input, Delimiter(uuid)) ==> FallbackParts(input, parts))
            && if whole then segments == [input] else Bounded(segments, 80)
  {
    hide Pieces, Merged, Visible, Flat, Between, TrimSpace, FallbackParts, Contains, Split, IsUuid;
    DelimiterIsQuiet(uuid);
    lexed := LexCompanion(text, uuid);
    segments, parts := SplitCompanion(lexed.segmenterInput, lexed.delimiter);
  }
}
