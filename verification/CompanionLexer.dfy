/**
 Reading a companion's answer, once, left to right. What is read is described by tokens; the two texts the lexer
 writes (the input of the segmenter and the text that is stored) are renderings of the same tokens.
 */
module CompanionLexer {
  import opened Common
  import opened Text
  import opened CompanionMarkers

  /** A stretch of the answer: copied, a fence line's marker, a send marker (alone on its line or inline), or escaped. */
  datatype Token =
    | Plain(text: string)
    | Fence(text: string)
    | LineMarker(text: string)
    | Marker(text: string)
    | Escaped(text: string)

  datatype Lexed = Lexed(segmenterInput: string, storageText: string, delimiter: string)

  function Toggle(fence: Option<string>, marker: string): Option<string> {
    if fence.None? then Some(marker) else if fence.value == marker then None else fence
  }

  function Slice(text: string, i: nat, end: nat): (s: string)
    requires i < end <= |text|
    ensures s != "" && HasAt(text, i, s) && i + |s| == end
  {
    text[i..end]
  }

  /** What stands at position `i`, given the open fence. */
  function NextToken(text: string, i: nat, fence: Option<string>): (t: Token)
    requires i < |text|
    ensures t.text != "" && HasAt(text, i, t.text)
  {
    if LineStart(text, i) && OpensFence(text, i) then Fence(Slice(text, i, i + 3))
    else if fence.Some? then Plain(Slice(text, i, i + 1))
    else if LineMarkerEnd(text, i).Some? then LineMarker(Slice(text, i, LineMarkerEnd(text, i).value))
    else if MarkerEnd(text, i).Some? then
      var marker := Slice(text, i, MarkerEnd(text, i).value);
      if Backslashes(text, i) % 2 == 1 then Escaped(marker) else Marker(marker)
    else Plain(Slice(text, i, i + 1))
  }

  function Position(tokens: seq<Token>): nat {
    if tokens == [] then 0 else Position(tokens[..|tokens| - 1]) + |tokens[|tokens| - 1].text|
  }

  function OpenFence(tokens: seq<Token>): Option<string> {
    if tokens == [] then None
    else
      var before := OpenFence(tokens[..|tokens| - 1]);
      match tokens[|tokens| - 1]
      case Fence(marker) => Toggle(before, marker)
      case _ => before
  }

  /** The tokens of a front part of the answer. */
  ghost predicate Lexes(text: string, tokens: seq<Token>) {
    tokens == [] ||
    var init := tokens[..|tokens| - 1];
    && Lexes(text, init)
    && Position(init) < |text|
    && tokens[|tokens| - 1] == NextToken(text, Position(init), OpenFence(init))
  }

  /** Reads on from `tokens` to the end. */
  function Run(text: string, tokens: seq<Token>): seq<Token>
    requires Position(tokens) <= |text|
    decreases |text| - Position(tokens)
  {
    if Position(tokens) == |text| then tokens
    else
      var next := NextToken(text, Position(tokens), OpenFence(tokens));
      assert (tokens + [next])[..|tokens|] == tokens;
      Run(text, tokens + [next])
  }

  function Tokens(text: string): seq<Token> {
    Run(text, [])
  }

  lemma {:induction false} RunLexes(text: string, tokens: seq<Token>)
    requires Position(tokens) <= |text| && Lexes(text, tokens)
    ensures Lexes(text, Run(text, tokens)) && Position(Run(text, tokens)) == |text|
    decreases |text| - Position(tokens)
  {
    hide NextToken;
    if Position(tokens) < |text| {
      var next := NextToken(text, Position(tokens), OpenFence(tokens));
      assert (tokens + [next])[..|tokens|] == tokens;
      RunLexes(text, tokens + [next]);
    }
  }

  lemma TokensLex(text: string)
    ensures Lexes(text, Tokens(text)) && Position(Tokens(text)) == |text|
  {
    RunLexes(text, []);
  }

  lemma {:induction false} LexesPrefix(text: string, tokens: seq<Token>, k: nat)
    requires Lexes(text, tokens) && k <= |tokens|
    ensures Lexes(text, tokens[..k]) && Position(tokens[..k]) <= Position(tokens) <= |text|
    ensures k < |tokens| ==>
              Position(tokens[..k]) < |text| &&
              tokens[k] == NextToken(text, Position(tokens[..k]), OpenFence(tokens[..k]))
  {
    hide NextToken;
    if k < |tokens| {
      var init := tokens[..|tokens| - 1];
      LexesPrefix(text, init, k);
      assert init[..k] == tokens[..k];
    } else {
      assert tokens[..k] == tokens;
      if tokens != [] {
        LexesPrefix(text, tokens[..k - 1], k - 1);
      }
    }
  }

  // ---------- what is written ----------

  function DropSlash(s: string): string {
    if s != "" && s[|s| - 1] == '\\' then s[..|s| - 1] else s
  }

  function AppendLast(gaps: seq<string>, s: string): (r: seq<string>)
    requires gaps != []
    ensures r != []
  {
    gaps[..|gaps| - 1] + [gaps[|gaps| - 1] + s]
  }

  function DropLastSlash(gaps: seq<string>): (r: seq<string>)
    requires gaps != []
    ensures r != []
  {
    gaps[..|gaps| - 1] + [DropSlash(gaps[|gaps| - 1])]
  }

  function Write(gaps: seq<string>, t: Token): (r: seq<string>)
    requires gaps != []
    ensures r != []
  {
    match t
    case Plain(s) => AppendLast(gaps, s)
    case Fence(s) => AppendLast(gaps, s)
    case Escaped(s) => AppendLast(DropLastSlash(gaps), s)
    case Marker(_) => gaps + [""]
    case LineMarker(_) => gaps + ["\n"]
  }

  function Store(before: string, t: Token): string {
    match t
    case Plain(s) => before + s
    case Fence(s) => before + s
    case Escaped(s) => DropSlash(before) + s
    case Marker(_) => before + "\n"
    case LineMarker(_) => before
  }

  /** The pieces of the segmenter's input, between its delimiters. */
  function Gaps(tokens: seq<Token>): (gaps: seq<string>)
    ensures gaps != []
  {
    if tokens == [] then [""] else Write(Gaps(tokens[..|tokens| - 1]), tokens[|tokens| - 1])
  }

  function Storage(tokens: seq<Token>): string {
    if tokens == [] then "" else Store(Storage(tokens[..|tokens| - 1]), tokens[|tokens| - 1])
  }

  function Delimiter(uuid: string): string {
    "\U{1E}companion-send:" + uuid + "\U{1F}"
  }

  predicate IsUuid(s: string) {
    |s| == 36 && forall i | 0 <= i < |s| :: '0' <= s[i] <= '9' || 'a' <= s[i] <= 'f' || s[i] == '-'
  }

  method RemoveLastSlash(value: string) returns (r: string)
    ensures r == DropSlash(value)
  {
    r := value;
    if |value| > 0 && value[|value| - 1] == '\\' {
      r := value[..|value| - 1];
    }
  }

  /** Builders for both texts. A fence is open exactly when `fence` holds its marker. */
  method LexCompanion(text: string, uuid: string) returns (lexed: Lexed)
    ensures lexed.delimiter == Delimiter(uuid)
    ensures lexed.segmenterInput == Join(Gaps(Tokens(text)), Delimiter(uuid))
    ensures lexed.storageText == Storage(Tokens(text))
    ensures IsUuid(uuid) && !Contains(text, Delimiter(uuid)) ==>
              Between(lexed.segmenterInput, Delimiter(uuid)) == Visible(lexed.storageText)
  {
    hide Reading, MarkerEnd, LineMarkerEnd, Backslashes, IsUuid, Delimiter;
    var delimiter := Delimiter(uuid);
    var segmenter, storage := "", "";
    var inFence, fence := false, "";
    var i := 0;
    ghost var tokens: seq<Token> := [];
    StartReading(text, delimiter);
    while i < |text|
      invariant i <= |text|
      invariant Reading(text, tokens, delimiter, i, FenceOf(inFence, fence), segmenter, storage)
    {
      ghost var next := NextToken(text, i, FenceOf(inFence, fence));
      WriteToken(text, tokens, delimiter, i, FenceOf(inFence, fence), segmenter, storage);
      tokens := tokens + [next];
      if LineStart(text, i) && OpensFence(text, i) {
        var marker := text[i..i + 3];
        if !inFence {
          inFence, fence := true, marker;
        } else if marker == fence {
          inFence, fence := false, "";
        }
        segmenter, storage := segmenter + marker, storage + marker;
        i := i + 3;
        continue;
      }
      if !inFence {
        var end := SingleMarkerLineEnd(text, i);
        if end.Some? {
          segmenter := segmenter + delimiter + "\n";
          i := end.value;
          continue;
        }
        end := DoubleMarkerEnd(text, i);
        if end.Some? {
          var odd := OddEscapes(text, i);
          if odd {
            segmenter := RemoveLastSlash(segmenter);
            storage := RemoveLastSlash(storage);
            segmenter := segmenter + text[i..end.value];
            storage := storage + text[i..end.value];
          } else {
            segmenter, storage := segmenter + delimiter, storage + "\n";
          }
          i := end.value;
          continue;
        }
      }
      assert text[i..i + 1] == [text[i]];
      segmenter, storage := segmenter + [text[i]], storage + [text[i]];
      i := i + 1;
    }
    DoneReading(text, tokens, delimiter, FenceOf(inFence, fence), segmenter, storage);
    if IsUuid(uuid) && !Contains(text, delimiter) {
      SegmenterShowsStorage(text, uuid);
    }
    lexed := Lexed(segmenter, storage, delimiter);
  }

  function FenceOf(inFence: bool, fence: string): Option<string> {
    if inFence then Some(fence) else None
  }

  /** The state of the lexer after some tokens. */
  ghost predicate Reading(text: string, tokens: seq<Token>, d: string, i: nat, fence: Option<string>,
                          segmenter: string, storage: string)
  {
    && i == Position(tokens) <= |text|
    && Lexes(text, tokens) && Run(text, tokens) == Tokens(text)
    && fence == OpenFence(tokens)
    && segmenter == Join(Gaps(tokens), d)
    && storage == Storage(tokens)
  }

  lemma StartReading(text: string, d: string)
    ensures Reading(text, [], d, 0, None, "", "")
  {
    assert Join([""], d) == "";
  }

  lemma DoneReading(text: string, tokens: seq<Token>, d: string, fence: Option<string>, segmenter: string, storage: string)
    requires Reading(text, tokens, d, |text|, fence, segmenter, storage)
    ensures segmenter == Join(Gaps(Tokens(text)), d) && storage == Storage(Tokens(text))
  {
  }

  // ---------- one token ----------

  ghost predicate EndsInSlash(s: string) {
    s != "" && s[|s| - 1] == '\\'
  }

  /** A backslash in front of the next character was read by itself. */
  lemma TokenBeforeSlash(text: string, i: nat, fence: Option<string>)
    requires i < |text|
    ensures var t := NextToken(text, i, fence);
            i + |t.text| < |text| && text[i + |t.text| - 1] == '\\' ==> t == Plain("\\")
  {
    hide MarkerEnd, Backslashes, ControlLine;
    var t := NextToken(text, i, fence);
    var end := i + |t.text|;
    match t {
      case Plain(s) => assert s == [text[i]];
      case Fence(s) => assert s == "```" || s == "~~~"; assert text[i..end][2] == text[i + 2];
      case LineMarker(s) =>
      case Marker(s) => MarkerCharacters(text, i, end - 1);
      case Escaped(s) => MarkerCharacters(text, i, end - 1);
    }
  }

  lemma EscapeHasSlash(text: string, i: nat, fence: Option<string>)
    requires i < |text|
    ensures NextToken(text, i, fence).Escaped? ==> i > 0 && text[i - 1] == '\\'
  {
    hide MarkerEnd, LineMarkerEnd;
  }

  lemma EscapeFollowsSlash(text: string, tokens: seq<Token>)
    requires Lexes(text, tokens) && Position(tokens) < |text|
    ensures NextToken(text, Position(tokens), OpenFence(tokens)).Escaped? ==>
              tokens != [] && tokens[|tokens| - 1] == Plain("\\")
  {
    hide NextToken;
    EscapeHasSlash(text, Position(tokens), OpenFence(tokens));
    if tokens != [] {
      var init := tokens[..|tokens| - 1];
      TokenBeforeSlash(text, Position(init), OpenFence(init));
    }
  }

  lemma SlashIsWritten(tokens: seq<Token>)
    requires tokens != [] && tokens[|tokens| - 1] == Plain("\\")
    ensures EndsInSlash(Gaps(tokens)[|Gaps(tokens)| - 1]) && EndsInSlash(Storage(tokens))
  {
  }

  lemma JoinAppend(gaps: seq<string>, s: string, d: string)
    requires gaps != []
    ensures Join(AppendLast(gaps, s), d) == Join(gaps, d) + s
    ensures Flat(AppendLast(gaps, s)) == Flat(gaps) + s
  {
    var init, last := gaps[..|gaps| - 1], gaps[|gaps| - 1];
    assert AppendLast(gaps, s)[..|gaps| - 1] == init;
    Associate(Lead(init, d), last, s);
    Associate(Flat(init), last, s);
  }

  lemma JoinDrop(gaps: seq<string>, d: string)
    requires gaps != [] && EndsInSlash(gaps[|gaps| - 1])
    ensures Join(DropLastSlash(gaps), d) == DropSlash(Join(gaps, d)) && EndsInSlash(Join(gaps, d))
    ensures Flat(DropLastSlash(gaps)) == DropSlash(Flat(gaps)) && EndsInSlash(Flat(gaps))
  {
    var init, last := gaps[..|gaps| - 1], gaps[|gaps| - 1];
    assert DropLastSlash(gaps)[..|gaps| - 1] == init;
    DropAfter(Lead(init, d), last);
    DropAfter(Flat(init), last);
  }

  lemma DropAfter(a: string, b: string)
    requires EndsInSlash(b)
    ensures DropSlash(a + b) == a + DropSlash(b) && EndsInSlash(a + b)
  {
  }

  lemma JoinOpen(gaps: seq<string>, s: string, d: string)
    requires gaps != []
    ensures Join(gaps + [s], d) == Join(gaps, d) + d + s
  {
    assert (gaps + [s])[..|gaps|] == gaps;
  }

  lemma JoinClosed(gaps: seq<string>, d: string)
    requires gaps != []
    ensures Join(gaps + [""], d) == Join(gaps, d) + d
  {
    JoinOpen(gaps, "", d);
  }

  /** What one token adds to the segmenter's input. */
  function WriteText(segmenter: string, t: Token, d: string): string {
    match t
    case Plain(s) => segmenter + s
    case Fence(s) => segmenter + s
    case Escaped(s) => DropSlash(segmenter) + s
    case Marker(_) => segmenter + d
    case LineMarker(_) => segmenter + d + "\n"
  }

  lemma SnocFields(tokens: seq<Token>, next: Token)
    ensures Position(tokens + [next]) == Position(tokens) + |next.text|
    ensures OpenFence(tokens + [next]) == if next.Fence? then Toggle(OpenFence(tokens), next.text) else OpenFence(tokens)
    ensures Gaps(tokens + [next]) == Write(Gaps(tokens), next) && Storage(tokens + [next]) == Store(Storage(tokens), next)
  {
    hide Write, Store;
    assert (tokens + [next])[..|tokens|] == tokens;
  }

  lemma SnocLexes(text: string, tokens: seq<Token>, next: Token)
    requires Lexes(text, tokens) && Position(tokens) < |text| && next == NextToken(text, Position(tokens), OpenFence(tokens))
    ensures Lexes(text, tokens + [next]) && Position(tokens + [next]) <= |text|
    ensures Run(text, tokens) == Run(text, tokens + [next])
  {
    hide NextToken, OpenFence;
    assert (tokens + [next])[..|tokens|] == tokens;
  }

  lemma WriteToken(text: string, tokens: seq<Token>, d: string, i: nat, fence: Option<string>,
                   segmenter: string, storage: string)
    requires Reading(text, tokens, d, i, fence, segmenter, storage) && i < |text|
    ensures var next := NextToken(text, i, fence);
            && i + |next.text| <= |text|
            && Reading(text, tokens + [next], d, i + |next.text|,
                       if next.Fence? then Toggle(fence, next.text) else fence,
                       WriteText(segmenter, next, d), Store(storage, next))
  {
    hide NextToken, Lexes, Position, OpenFence, Gaps, Storage, Run, Tokens, Join, Write, Store, WriteText;
    var next := NextToken(text, i, fence);
    SnocFields(tokens, next);
    SnocLexes(text, tokens, next);
    WriteGaps(text, tokens, next, d);
  }

  lemma WriteGaps(text: string, tokens: seq<Token>, next: Token, d: string)
    requires Lexes(text, tokens) && Position(tokens) < |text|
    requires next == NextToken(text, Position(tokens), OpenFence(tokens))
    ensures Join(Write(Gaps(tokens), next), d) == WriteText(Join(Gaps(tokens), d), next, d)
  {
    hide NextToken, Lexes, Position, OpenFence, Gaps, Join, DropSlash, AppendLast, DropLastSlash;
    var gaps := Gaps(tokens);
    match next {
      case Plain(s) => JoinAppend(gaps, s, d);
      case Fence(s) => JoinAppend(gaps, s, d);
      case Escaped(s) =>
        EscapeFollowsSlash(text, tokens);
        SlashIsWritten(tokens);
        JoinDrop(gaps, d);
        JoinAppend(DropLastSlash(gaps), s, d);
      case Marker(_) => JoinClosed(gaps, d);
      case LineMarker(_) => JoinOpen(gaps, "\n", d);
    }
  }

  // ---------- both texts show the same characters ----------

  lemma VisibleDropSlash(s: string)
    requires EndsInSlash(s)
    ensures Visible(s) == Visible(DropSlash(s)) + "\\"
  {
    assert s == DropSlash(s) + "\\";
    VisibleConcat(DropSlash(s), "\\");
    assert Visible("\\") == "\\" + Visible("");
  }

  lemma Cancel(a: string, b: string, c: string)
    requires a + c == b + c
    ensures a == b
  {
    assert |a| == |b|;
    assert a == (a + c)[..|a|];
    assert b == (b + c)[..|a|];
  }

  lemma VisibleAfterDrop(a: string, b: string)
    requires EndsInSlash(a) && EndsInSlash(b) && Visible(a) == Visible(b)
    ensures Visible(DropSlash(a)) == Visible(DropSlash(b))
  {
    VisibleDropSlash(a);
    VisibleDropSlash(b);
    Cancel(Visible(DropSlash(a)), Visible(DropSlash(b)), "\\");
  }

  lemma VisibleSpace(s: string, space: string)
    requires space == "" || space == "\n"
    ensures Visible(s + space) == Visible(s)
  {
    VisibleConcat(s, space);
    assert Visible("\n") == "" + Visible("");
  }

  /** For every answer, the segments and the stored text show the same characters in the same order. */
  lemma {:induction false} SegmentsShowStorage(text: string, tokens: seq<Token>)
    requires Lexes(text, tokens)
    ensures Visible(Flat(Gaps(tokens))) == Visible(Storage(tokens))
  {
    hide NextToken;
    if tokens == [] {
      assert Flat([""]) == Flat([]) + "";
    } else {
      var init, next := tokens[..|tokens| - 1], tokens[|tokens| - 1];
      SegmentsShowStorage(text, init);
      var gaps, before := Gaps(init), Storage(init);
      match next {
        case Plain(s) =>
          AppendVisible(gaps, before, s);
        case Fence(s) =>
          AppendVisible(gaps, before, s);
        case Escaped(s) =>
          EscapeFollowsSlash(text, init);
          SlashIsWritten(init);
          JoinDrop(gaps, "");
          VisibleAfterDrop(Flat(gaps), before);
          AppendVisible(DropLastSlash(gaps), DropSlash(before), s);
        case Marker(_) =>
          FlatAppend(gaps, "");
          VisibleSpace(Flat(gaps), "");
          VisibleSpace(before, "\n");
        case LineMarker(_) =>
          FlatAppend(gaps, "\n");
          VisibleSpace(Flat(gaps), "\n");
      }
    }
  }

  lemma AppendVisible(gaps: seq<string>, before: string, s: string)
    requires gaps != [] && Visible(Flat(gaps)) == Visible(before)
    ensures Visible(Flat(AppendLast(gaps, s))) == Visible(before + s)
  {
    JoinAppend(gaps, s, "");
    VisibleConcat(Flat(gaps), s);
    VisibleConcat(before, s);
  }

  // ---------- no segment holds the delimiter ----------

  /** A delimiter no recognised marker or line end can be part of. */
  ghost predicate Quiet(d: string) {
    && Separates(d)
    && forall i | 0 <= i < |d| :: d[i] != '\n' && !IsOpenBracket(d[i])
  }

  lemma DelimiterIsQuiet(uuid: string)
    requires IsUuid(uuid)
    ensures Quiet(Delimiter(uuid))
  {
    var d := Delimiter(uuid);
    var prefix := "\U{1E}companion-send:";
    assert |d| == 16 + 36 + 1;
    forall i | 0 <= i < |d| ensures d[i] != '\n' && !IsOpenBracket(d[i]) && (i >= 1 ==> d[i] != d[0]) {
      if i < 16 {
        assert d[i] == prefix[i];
      } else if i < 52 {
        assert d[i] == uuid[i - 16];
      }
    }
  }

  /** The end of `g` is copied from the answer, up to a character that is in no delimiter. */
  ghost predicate Clean(g: string, text: string, pos: nat, d: string, k: nat) {
    && k <= |g| && k <= pos <= |text|
    && g[|g| - k..] == text[pos - k..pos]
    && !Contains(g[..|g| - k], d)
    && (k < |g| ==> g[|g| - k - 1] !in d)
  }

  lemma CleanIsFree(g: string, text: string, pos: nat, d: string, k: nat)
    requires Clean(g, text, pos, d, k) && !Contains(text, d) && d != ""
    ensures !Contains(g, d)
  {
    ContainedPart(text, pos - k, pos, d);
    forall p: nat ensures !HasAt(g, p, d) {
      OccurrenceAround(g, |g| - k, d, p);
    }
  }

  /** An occurrence lies in front of a cut, behind it, or across it. */
  lemma OccurrenceAround(g: string, cut: nat, d: string, p: nat)
    requires cut <= |g| && d != ""
    ensures HasAt(g, p, d) ==> Contains(g[..cut], d) || Contains(g[cut..], d) || (cut > 0 && g[cut - 1] in d)
  {
    if HasAt(g, p, d) {
      if p + |d| <= cut {
        assert g[..cut][p..p + |d|] == g[p..p + |d|];
        assert HasAt(g[..cut], p, d);
      } else if cut <= p {
        assert g[cut..][p - cut..p - cut + |d|] == g[p..p + |d|];
        assert HasAt(g[cut..], p - cut, d);
      } else {
        assert g[p..p + |d|][cut - 1 - p] == g[cut - 1];
      }
    }
  }

  lemma CleanCopy(g: string, text: string, pos: nat, d: string, k: nat, s: string)
    requires Clean(g, text, pos, d, k) && HasAt(text, pos, s)
    ensures Clean(g + s, text, pos + |s|, d, k + |s|)
  {
    var cut := |g| - k;
    assert (g + s)[cut..] == g[cut..] + s;
    assert text[pos - k..pos + |s|] == text[pos - k..pos] + s;
    assert (g + s)[..cut] == g[..cut];
  }

  lemma NotAtTheEnd(g: string, c: char, d: string)
    requires !Contains(g, d) && c !in d && d != ""
    ensures !Contains(g + [c], d)
  {
    forall p: nat ensures !HasAt(g + [c], p, d) {
      OccurrenceBeforeEnd(g, c, d, p);
    }
  }

  lemma OccurrenceBeforeEnd(g: string, c: char, d: string, p: nat)
    requires d != ""
    ensures HasAt(g + [c], p, d) ==> HasAt(g, p, d) || c in d
  {
    if HasAt(g + [c], p, d) {
      if p + |d| == |g| + 1 {
        assert (g + [c])[p..p + |d|][|d| - 1] == c;
      } else {
        assert (g + [c])[p..p + |d|] == g[p..p + |d|];
      }
    }
  }

  lemma CleanEscape(g: string, text: string, pos: nat, d: string, s: string)
    requires !Contains(g, d) && d != "" && HasAt(text, pos, s) && s != "" && s[0] !in d
    ensures Clean(DropSlash(g) + s, text, pos + |s|, d, |s| - 1)
  {
    var kept := DropSlash(g);
    ContainedPart(g, 0, |kept|, d);
    assert g[0..|kept|] == kept;
    NotAtTheEnd(kept, s[0], d);
    var r := kept + s;
    assert r[..|kept| + 1] == kept + [s[0]];
    assert r[|kept| + 1..] == s[1..];
    assert text[pos + 1..pos + |s|] == s[1..];
  }

  lemma CleanFresh(text: string, pos: nat, d: string)
    requires Quiet(d) && pos <= |text|
    ensures Clean("", text, pos, d, 0) && Clean("\n", text, pos, d, 0)
  {
    assert !Contains("", d);
    NotAtTheEnd("", '\n', d);
    assert "" + ['\n'] == "\n" == "\n"[..1];
    assert ""[..0] == "";
  }

  ghost predicate CleanEnd(g: string, text: string, pos: nat, d: string) {
    exists k: nat :: Clean(g, text, pos, d, k)
  }

  ghost predicate CleanGaps(gaps: seq<string>, text: string, pos: nat, d: string) {
    && gaps != []
    && Free(gaps, d)
    && CleanEnd(gaps[|gaps| - 1], text, pos, d)
  }

  lemma {:induction false} GapsAreClean(text: string, tokens: seq<Token>, d: string)
    requires Lexes(text, tokens) && Quiet(d) && !Contains(text, d)
    ensures CleanGaps(Gaps(tokens), text, Position(tokens), d)
  {
    hide NextToken, Write, CleanGaps, Contains, Quiet;
    if tokens == [] {
      FirstGapIsClean(text, d);
    } else {
      var init := tokens[..|tokens| - 1];
      GapsAreClean(text, init, d);
      WriteKeepsClean(text, Gaps(init), Position(init), OpenFence(init), d);
    }
  }

  lemma FirstGapIsClean(text: string, d: string)
    requires Quiet(d) && !Contains(text, d)
    ensures CleanGaps([""], text, 0, d)
  {
    CleanFresh(text, 0, d);
    CleanIsFree("", text, 0, d, 0);
    assert CleanEnd("", text, 0, d);
  }

  lemma WriteKeepsClean(text: string, gaps: seq<string>, pos: nat, fence: Option<string>, d: string)
    requires Quiet(d) && !Contains(text, d) && pos < |text|
    requires CleanGaps(gaps, text, pos, d)
    ensures var next := NextToken(text, pos, fence);
            CleanGaps(Write(gaps, next), text, pos + |next.text|, d)
  {
    hide LineMarkerEnd, MarkerEnd, Backslashes, Contains, CleanGaps, Quiet, OpensFence, AppendLast, DropLastSlash;
    QuietIsNotEmpty(d);
    match NextToken(text, pos, fence) {
      case Plain(s) => CopyKeepsClean(text, gaps, pos, d, s);
      case Fence(s) => CopyKeepsClean(text, gaps, pos, d, s);
      case Escaped(s) =>
        assert s[0] == text[pos..pos + |s|][0];
        EscapeKeepsClean(text, gaps, pos, d, s);
      case Marker(s) => Opened(gaps, "", text, pos, pos + |s|, d);
      case LineMarker(s) => Opened(gaps, "\n", text, pos, pos + |s|, d);
    }
  }

  lemma LastIsClean(gaps: seq<string>, text: string, pos: nat, d: string) returns (k: nat)
    requires CleanGaps(gaps, text, pos, d)
    ensures gaps != [] && Free(gaps, d) && Clean(gaps[|gaps| - 1], text, pos, d, k)
  {
    k :| Clean(gaps[|gaps| - 1], text, pos, d, k);
  }

  lemma CopyKeepsClean(text: string, gaps: seq<string>, pos: nat, d: string, s: string)
    requires d != "" && !Contains(text, d) && CleanGaps(gaps, text, pos, d) && HasAt(text, pos, s)
    ensures CleanGaps(AppendLast(gaps, s), text, pos + |s|, d)
  {
    hide Clean, HasAt, Contains, Free, CleanGaps;
    var k := LastIsClean(gaps, text, pos, d);
    var last := gaps[|gaps| - 1];
    CleanCopy(last, text, pos, d, k, s);
    Replaced(gaps, last + s, text, pos + |s|, d, k + |s|);
  }

  lemma EscapeKeepsClean(text: string, gaps: seq<string>, pos: nat, d: string, s: string)
    requires Quiet(d) && !Contains(text, d) && CleanGaps(gaps, text, pos, d) && HasAt(text, pos, s)
    requires s != "" && IsOpenBracket(s[0])
    ensures CleanGaps(AppendLast(DropLastSlash(gaps), s), text, pos + |s|, d)
  {
    var last := gaps[|gaps| - 1];
    CleanEscape(last, text, pos, d, s);
    assert AppendLast(DropLastSlash(gaps), s) == gaps[..|gaps| - 1] + [DropSlash(last) + s];
    Replaced(gaps, DropSlash(last) + s, text, pos + |s|, d, |s| - 1);
  }

  lemma Replaced(gaps: seq<string>, g: string, text: string, pos: nat, d: string, k: nat)
    requires gaps != [] && Free(gaps, d) && d != "" && !Contains(text, d) && Clean(g, text, pos, d, k)
    ensures CleanGaps(gaps[..|gaps| - 1] + [g], text, pos, d)
  {
    hide Clean, Contains;
    CleanIsFree(g, text, pos, d, k);
    assert CleanEnd(g, text, pos, d);
  }

  lemma QuietIsNotEmpty(d: string)
    requires Quiet(d)
    ensures d != ""
  {
  }

  lemma Opened(gaps: seq<string>, g: string, text: string, before: nat, pos: nat, d: string)
    requires CleanGaps(gaps, text, before, d) && Quiet(d) && !Contains(text, d) && pos <= |text|
    requires g == "" || g == "\n"
    ensures CleanGaps(gaps + [g], text, pos, d)
  {
    hide Clean, Contains, Quiet;
    CleanFresh(text, pos, d);
    QuietIsNotEmpty(d);
    CleanIsFree(g, text, pos, d, 0);
    assert CleanEnd(g, text, pos, d);
  }

  /** Outside its delimiters the segmenter's input shows what is stored. */
  lemma SegmenterShowsStorage(text: string, uuid: string)
    requires IsUuid(uuid) && !Contains(text, Delimiter(uuid))
    ensures Between(Join(Gaps(Tokens(text)), Delimiter(uuid)), Delimiter(uuid)) == Visible(Storage(Tokens(text)))
  {
    DelimiterIsQuiet(uuid);
    TokensLex(text);
    GapsAreClean(text, Tokens(text), Delimiter(uuid));
    BetweenJoin(Gaps(Tokens(text)), Delimiter(uuid));
    SegmentsShowStorage(text, Tokens(text));
  }

  // ---------- fences ----------

  /** The fence open just before position `i`, read off the lines of the answer alone. */
  ghost function FenceBefore(text: string, i: nat): Option<string>
    requires i <= |text|
  {
    if i == 0 then None
    else
      var before := FenceBefore(text, i - 1);
      if LineStart(text, i - 1) && OpensFence(text, i - 1) then Toggle(before, text[i - 1..i + 2]) else before
  }

  lemma {:induction false} NoFenceInside(text: string, a: nat, b: nat)
    requires a <= b <= |text|
    requires forall i | a <= i < b :: !(LineStart(text, i) && OpensFence(text, i))
    ensures FenceBefore(text, b) == FenceBefore(text, a)
  {
    if a < b {
      NoFenceInside(text, a, b - 1);
    }
  }

  lemma FenceIsForeign(text: string, i: nat)
    requires OpensFence(text, i)
    ensures Foreign(text[i]) && text[i] != '\n' && text[i + 1] != '\n'
  {
    assert text[i..i + 3][0] == text[i] && text[i..i + 3][1] == text[i + 1];
  }

  lemma NoFenceInToken(text: string, pos: nat, fence: Option<string>, i: nat)
    requires pos < |text|
    requires pos < i < pos + |NextToken(text, pos, fence).text|
    ensures !(LineStart(text, i) && OpensFence(text, i))
  {
    hide MarkerEnd, Backslashes, ControlLine;
    if OpensFence(text, i) {
      FenceIsForeign(text, i);
    }
    match NextToken(text, pos, fence) {
      case Plain(_) =>
      case Fence(_) => FenceIsForeign(text, pos);
      case LineMarker(_) =>
      case Marker(s) => MarkerCharacters(text, pos, i);
      case Escaped(s) => MarkerCharacters(text, pos, i);
    }
  }

  lemma FenceAfterToken(text: string, pos: nat)
    requires pos < |text|
    ensures var before := FenceBefore(text, pos);
            var next := NextToken(text, pos, before);
            FenceBefore(text, pos + |next.text|) == if next.Fence? then Toggle(before, next.text) else before
  {
    hide OpensFence, MarkerEnd, LineMarkerEnd, Backslashes;
    var before := FenceBefore(text, pos);
    var next := NextToken(text, pos, before);
    forall i | pos + 1 <= i < pos + |next.text| ensures !(LineStart(text, i) && OpensFence(text, i)) {
      NoFenceInToken(text, pos, before, i);
    }
    NoFenceInside(text, pos + 1, pos + |next.text|);
    assert next.Fence? <==> LineStart(text, pos) && OpensFence(text, pos);
  }

  /** The lexer's fence is the one the lines open and close. */
  lemma {:induction false} OpenFenceIsFenceBefore(text: string, tokens: seq<Token>)
    requires Lexes(text, tokens)
    ensures Position(tokens) <= |text| && OpenFence(tokens) == FenceBefore(text, Position(tokens))
  {
    hide NextToken;
    if tokens != [] {
      var init := tokens[..|tokens| - 1];
      OpenFenceIsFenceBefore(text, init);
      FenceAfterToken(text, Position(init));
    }
  }

  /** The open segment ends with everything read since `a`. */
  ghost predicate EndsWith(g: string, text: string, a: nat, b: nat) {
    a <= b <= |text| && b - a <= |g| && g[|g| - (b - a)..] == text[a..b]
  }

  ghost predicate Fenced(text: string, a: nat, b: nat) {
    a <= b <= |text| && forall i | a < i <= b :: FenceBefore(text, i).Some?
  }

  function LastGap(tokens: seq<Token>): string {
    Gaps(tokens)[|Gaps(tokens)| - 1]
  }

  /** While a fence is open everything is copied into one segment; no marker cuts it. */
  lemma {:induction false} FencedTextIsCopied(text: string, tokens: seq<Token>, a: nat)
    requires Lexes(text, tokens) && Position(tokens) <= |text| && Fenced(text, a, Position(tokens))
    ensures EndsWith(LastGap(tokens), text, a, Position(tokens))
  {
    hide NextToken, FenceBefore;
    var b := Position(tokens);
    if a < b {
      var init := tokens[..|tokens| - 1];
      var pos := Position(init);
      var next := NextToken(text, pos, OpenFence(init));
      OpenFenceIsFenceBefore(text, tokens);
      OpenFenceIsFenceBefore(text, init);
      assert FenceBefore(text, b).Some?;
      FenceCopies(text, pos, OpenFence(init));
      CopiedGap(tokens);
      hide LastGap, HasAt, EndsWith;
      if a <= pos {
        FencedTextIsCopied(text, init, a);
        SliceGrows(text, a, pos, next.text);
        EndsAfter(LastGap(init), next.text, text, a, pos, b);
      } else {
        EndsInside(LastGap(init), next.text, text, a, pos, b);
      }
    }
  }

  lemma CopiedGap(tokens: seq<Token>)
    requires tokens != [] && (tokens[|tokens| - 1].Plain? || tokens[|tokens| - 1].Fence?)
    ensures LastGap(tokens) == LastGap(tokens[..|tokens| - 1]) + tokens[|tokens| - 1].text
  {
  }

  lemma SliceGrows(text: string, a: nat, pos: nat, s: string)
    requires a <= pos && HasAt(text, pos, s)
    ensures text[a..pos + |s|] == text[a..pos] + s
  {
  }

  lemma FenceCopies(text: string, pos: nat, fence: Option<string>)
    requires pos < |text|
    ensures var t := NextToken(text, pos, fence); (t.Plain? || t.Fence?) || fence.None?
  {
    hide MarkerEnd, LineMarkerEnd, Backslashes;
  }

  lemma EndsInside(g: string, s: string, text: string, a: nat, pos: nat, b: nat)
    requires pos < a <= b <= |text| && b == pos + |s| && HasAt(text, pos, s)
    ensures EndsWith(g + s, text, a, b)
  {
    assert text[a..b] == s[a - pos..];
  }

  lemma EndsAfter(g: string, s: string, text: string, a: nat, pos: nat, b: nat)
    requires EndsWith(g, text, a, pos) && b <= |text| && b == pos + |s| && text[a..b] == text[a..pos] + s
    ensures EndsWith(g + s, text, a, b)
  {
    assert (g + s)[|g + s| - (b - a)..] == g[|g| - (pos - a)..] + s;
  }

  // ---------- finished segments ----------

  /** Segment `m` of the first pieces is, with possibly more behind it, segment `m` of the later ones. */
  ghost predicate Grows(a: seq<string>, b: seq<string>) {
    a != [] && |a| <= |b| && a[|a| - 1] <= b[|a| - 1]
  }

  lemma AppendGrows(a: seq<string>, gaps: seq<string>, s: string)
    requires Grows(a, gaps)
    ensures Grows(a, AppendLast(gaps, s)) && Grows(a, gaps + [s])
  {
  }

  lemma AppendThenDrop(gaps: seq<string>)
    requires gaps != []
    ensures DropLastSlash(AppendLast(gaps, "\\")) == gaps
  {
    var last := gaps[|gaps| - 1];
    assert DropSlash(last + "\\") == last;
  }

  /** Text read while a fence is open is not taken back by an escape that comes later. */
  lemma {:induction false} GapsOnlyGrow(text: string, tokens: seq<Token>, k: nat)
    requires Lexes(text, tokens) && k <= |tokens| && OpenFence(tokens[..k]).Some?
    ensures Grows(Gaps(tokens[..k]), Gaps(tokens))
  {
    hide NextToken;
    if k == |tokens| {
      assert tokens[..k] == tokens;
    } else {
      var init, next := tokens[..|tokens| - 1], tokens[|tokens| - 1];
      assert init[..k] == tokens[..k];
      GapsOnlyGrow(text, init, k);
      match next {
        case Plain(s) => AppendGrows(Gaps(tokens[..k]), Gaps(init), s);
        case Fence(s) => AppendGrows(Gaps(tokens[..k]), Gaps(init), s);
        case Marker(_) => AppendGrows(Gaps(tokens[..k]), Gaps(init), "");
        case LineMarker(_) => AppendGrows(Gaps(tokens[..k]), Gaps(init), "\n");
        case Escaped(s) =>
          EscapeFollowsSlash(text, init);
          FenceCopies(text, Position(init), OpenFence(init));
          assert k < |init|;
          var earlier := init[..|init| - 1];
          assert earlier[..k] == tokens[..k];
          GapsOnlyGrow(text, earlier, k);
          AppendThenDrop(Gaps(earlier));
          AppendGrows(Gaps(tokens[..k]), Gaps(earlier), s);
      }
    }
  }

  /** Every stretch of fenced text is found whole inside one segment of the finished answer. */
  lemma FencedTextStaysTogether(text: string, k: nat, a: nat) returns (m: nat, at: nat)
    requires k <= |Tokens(text)|
    requires var b := Position(Tokens(text)[..k]); b <= |text| && a < b && Fenced(text, a, b)
    ensures var b := Position(Tokens(text)[..k]);
            m < |Gaps(Tokens(text))| && HasAt(Gaps(Tokens(text))[m], at, text[a..b])
  {
    hide Tokens, Lexes, FenceBefore, Gaps, Position;
    var all := Tokens(text);
    var front := all[..k];
    TokensLex(text);
    LexesPrefix(text, all, k);
    OpenFenceIsFenceBefore(text, front);
    FencedTextIsCopied(text, front, a);
    GapsOnlyGrow(text, all, k);
    m := |Gaps(front)| - 1;
    at := |LastGap(front)| - (Position(front) - a);
  }
}
