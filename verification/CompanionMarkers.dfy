/**
 Recognising the markers that ask for an answer to be sent in several messages: an inline `[[SEND]]`, a line that
 holds only `[SEND]`, their bracket and spacing variants, and the fences that protect text from both.
 */
module CompanionMarkers {
  import opened Common
  import opened Text

  // ---------- recognisers ----------

  predicate IsOpenBracket(c: char) {
    c == '[' || c == '\U{FF3B}' || c == '\U{3010}' || c == '\U{3014}'
  }

  predicate IsCloseBracket(c: char) {
    c == ']' || c == '\U{FF3D}' || c == '\U{3011}' || c == '\U{3015}'
  }

  /** Characters a marker may contain without being changed by them: white space and zero-width characters. */
  predicate Ignored(c: char) {
    IsSpace(c) || c == '\U{200B}' || c == '\U{200C}' || c == '\U{200D}' || c == '\U{FEFF}'
  }

  /** Bracket variants and the letters of a marker; other cased letters are as unlike a marker in either case. */
  function Canonical(c: char): char {
    if IsOpenBracket(c) then '['
    else if IsCloseBracket(c) then ']'
    else if 'a' <= c <= 'z' then (c as int - 32) as char
    else if c == '\U{017F}' then 'S'
    else c
  }

  function Kept(c: char): string {
    if Ignored(c) then "" else [Canonical(c)]
  }

  function Normalize(s: string): string {
    if s == "" then "" else Normalize(s[..|s| - 1]) + Kept(s[|s| - 1])
  }

  predicate LineStart(text: string, i: nat)
    requires i <= |text|
  {
    i == 0 || text[i - 1] == '\n'
  }

  predicate OpensFence(text: string, i: nat) {
    HasAt(text, i, "```") || HasAt(text, i, "~~~")
  }

  function Backslashes(text: string, i: nat): nat
    requires i <= |text|
  {
    if i > 0 && text[i - 1] == '\\' then 1 + Backslashes(text, i - 1) else 0
  }

  function LineEnd(text: string, start: nat): (end: nat)
    requires start <= |text|
    ensures start <= end <= |text|
    ensures forall i | start <= i < end :: text[i] != '\n'
    ensures end < |text| ==> text[end] == '\n'
    decreases |text| - start
  {
    if start == |text| || text[start] == '\n' then start else LineEnd(text, start + 1)
  }

  predicate Quoted(line: string) {
    line != "" && line[0] == '>'
  }

  predicate Listed(line: string) {
    && |line| >= 2
    && (line[0] == '-' || line[0] == '*' || line[0] == '+')
    && (line[1] == ' ' || line[1] == '\t')
  }

  /** A line that holds only a single-bracket marker, inside any quote and list prefixes. */
  predicate ControlLine(line: string)
    decreases |line|
  {
    if Quoted(line) then ControlLine(TrimSpace(line[1..]))
    else if Listed(line) then ControlLine(TrimSpace(line[2..]))
    else Normalize(line) == "[SEND]"
  }

  function LineMarkerEnd(text: string, start: nat): (r: Option<nat>)
    requires start <= |text|
    ensures r.Some? ==> start < r.value <= |text|
  {
    var end := LineEnd(text, start);
    if LineStart(text, start) && ControlLine(TrimSpace(text[start..end]))
    then Some(if end < |text| then end + 1 else end)
    else None
  }

  function Utf8Size(c: char): nat {
    if c < '\U{80}' then 1 else if c < '\U{800}' then 2 else if c < '\U{10000}' then 3 else 4
  }

  function Bytes(s: string): nat {
    if s == "" then 0 else Bytes(s[..|s| - 1]) + Utf8Size(s[|s| - 1])
  }

  /** The first place after `end` where the text from `start` reads as an inline marker. */
  function FirstEnd(text: string, start: nat, end: nat): (r: Option<nat>)
    requires start <= end <= |text|
    ensures r.Some? ==> end < r.value <= |text|
    decreases |text| - end
  {
    if end == |text| || Bytes(text[start..end]) > 80 then None
    else if Normalize(text[start..end + 1]) == "[[SEND]]" then Some(end + 1)
    else FirstEnd(text, start, end + 1)
  }

  function MarkerEnd(text: string, start: nat): (r: Option<nat>)
    requires start < |text|
    ensures r.Some? ==> start < r.value <= |text| && IsOpenBracket(text[start])
  {
    if IsOpenBracket(text[start]) then FirstEnd(text, start, start) else None
  }

  /** Which characters stand for the brackets and letters of a marker. */
  lemma MarkerCharactersAre(c: char)
    ensures Canonical(c) == '[' <==> c in {'[', '\U{FF3B}', '\U{3010}', '\U{3014}'}
    ensures Canonical(c) == ']' <==> c in {']', '\U{FF3D}', '\U{3011}', '\U{3015}'}
    ensures Canonical(c) == 'S' <==> c in {'S', 's', '\U{017F}'}
    ensures Canonical(c) == 'E' <==> c in {'E', 'e'}
    ensures Canonical(c) == 'N' <==> c in {'N', 'n'}
    ensures Canonical(c) == 'D' <==> c in {'D', 'd'}
    ensures Ignored(c) <==> IsSpace(c) || c in {'\U{200B}', '\U{200C}', '\U{200D}', '\U{FEFF}'}
  {
  }

  /** Lines start at the beginning and behind each newline; fences, quotes and list items start with their own characters. */
  lemma LinesAndTheirStarts(a: string, c: char, d: char, rest: string)
    ensures LineStart(rest, 0) && (LineStart(a + [c] + rest, |a| + 1) <==> c == '\n')
    ensures OpensFence("```" + rest, 0) && OpensFence("~~~" + rest, 0)
    ensures OpensFence([c, d] + rest, 0) ==> c == d && c in {'`', '~'} && rest != "" && rest[0] == c
    ensures Quoted([c] + rest) <==> c == '>'
    ensures Listed([c, d] + rest) <==> c in {'-', '*', '+'} && d in {' ', '\t'}
  {
    assert (a + [c] + rest)[|a|] == c;
    if OpensFence([c, d] + rest, 0) {
      var front := ([c, d] + rest)[0..3];
      assert front == "```" || front == "~~~";
      assert front[0] == c && front[1] == d && front[2] == rest[0];
    }
  }

  /** A character takes one byte more from 2^7, 2^11 and 2^16 on. */
  lemma BytesOfCharacters(c: char)
    ensures 1 <= Utf8Size(c) <= 4
    ensures Utf8Size(c) >= 2 <==> c as int >= 128
    ensures Utf8Size(c) >= 3 <==> c as int >= 2048
    ensures Utf8Size(c) >= 4 <==> c as int >= 65536
  {
  }

  method OddEscapes(text: string, i: nat) returns (odd: bool)
    requires i <= |text|
    ensures odd == (Backslashes(text, i) % 2 == 1)
  {
    var count, j := 0, i as int - 1;
    while j >= 0 && text[j] == '\\'
      invariant -1 <= j < i || j == i - 1
      invariant count + Backslashes(text, j + 1) == Backslashes(text, i)
    {
      count := count + 1;
      j := j - 1;
    }
    odd := count % 2 == 1;
  }

  method SingleMarkerLineEnd(text: string, start: nat) returns (r: Option<nat>)
    requires start <= |text|
    ensures r == LineMarkerEnd(text, start)
  {
    if !LineStart(text, start) {
      return None;
    }
    var end := LineEnd(text, start);
    var line := TrimSpace(text[start..end]);
    while Quoted(line) || Listed(line)
      invariant ControlLine(line) == ControlLine(TrimSpace(text[start..end]))
      decreases |line|
    {
      if Quoted(line) {
        line := TrimSpace(line[1..]);
      } else {
        line := TrimSpace(line[2..]);
      }
    }
    if Normalize(line) != "[SEND]" {
      return None;
    }
    r := Some(if end < |text| then end + 1 else end);
  }

  method DoubleMarkerEnd(text: string, start: nat) returns (r: Option<nat>)
    requires start < |text|
    ensures r == MarkerEnd(text, start)
  {
    if !IsOpenBracket(text[start]) {
      return None;
    }
    var end := start;
    while end < |text| && Bytes(text[start..end]) <= 80
      invariant start <= end <= |text|
      invariant FirstEnd(text, start, end) == FirstEnd(text, start, start)
    {
      end := end + 1;
      if Normalize(text[start..end]) == "[[SEND]]" {
        return Some(end);
      }
    }
    r := None;
  }

  // ---------- what the recognisers accept ----------

  lemma {:induction false} NormalizeConcat(a: string, b: string)
    ensures Normalize(a + b) == Normalize(a) + Normalize(b)
  {
    if b == "" {
      assert a + b == a;
    } else {
      var init, last := b[..|b| - 1], b[|b| - 1];
      NormalizeConcat(a, init);
      assert (a + b)[..|a + b| - 1] == a + init && (a + b)[|a + b| - 1] == last;
      Associate(Normalize(a), Normalize(init), Kept(last));
    }
  }

  lemma {:induction false} NormalizeTrimRight(s: string)
    ensures Normalize(TrimRight(s)) == Normalize(s)
  {
    if s != "" && IsSpace(s[|s| - 1]) {
      NormalizeTrimRight(s[..|s| - 1]);
    }
  }

  lemma NormalizeFront(s: string)
    requires s != ""
    ensures Normalize(s) == Kept(s[0]) + Normalize(s[1..])
  {
    NormalizeConcat([s[0]], s[1..]);
    NormalizeOne(s[0]);
    hide Normalize, Kept;
    assert [s[0]] + s[1..] == s;
  }

  lemma NormalizeOne(c: char)
    ensures Normalize([c]) == Kept(c)
  {
    hide Kept;
    assert [c][..0] == "" && Normalize([c]) == Normalize("") + Kept(c);
  }

  lemma {:induction false} NormalizeTrim(s: string)
    ensures Normalize(TrimSpace(s)) == Normalize(s)
  {
    NormalizeTrimRight(TrimLeft(s));
    NormalizeTrimLeft(s);
  }

  lemma {:induction false} NormalizeTrimLeft(s: string)
    ensures Normalize(TrimLeft(s)) == Normalize(s)
  {
    if s != "" && IsSpace(s[0]) {
      NormalizeFront(s);
      NormalizeTrimLeft(s[1..]);
    }
  }

  /** A character that is not ignored is still there after normalisation. */
  lemma {:induction false} NormalizeKeeps(s: string, i: nat)
    requires i < |s| && !Ignored(s[i])
    ensures Canonical(s[i]) in Normalize(s)
  {
    if i < |s| - 1 {
      NormalizeKeeps(s[..|s| - 1], i);
    }
  }

  predicate Wrapper(c: char) {
    c == '>' || c == '-' || c == '*' || c == '+'
  }

  ghost predicate Wraps(w: string) {
    forall i | 0 <= i < |w| :: Wrapper(w[i])
  }

  lemma WrapperIsKept(line: string, k: nat, w: string, marker: string)
    requires (Quoted(line) && k == 1) || (Listed(line) && k == 2)
    requires Normalize(line[k..]) == w + marker
    ensures Normalize(line) == [line[0]] + w + marker && Wrapper(line[0])
  {
    NormalizeFront(line);
    WrapperIsItself(line[0]);
    if k == 2 {
      NormalizeFront(line[1..]);
      SpaceVanishes(line[1], Normalize(line[2..]));
    }
    Associate([line[0]], w, marker);
  }

  lemma WrapperIsItself(c: char)
    requires Wrapper(c)
    ensures Kept(c) == [c]
  {
  }

  lemma SpaceVanishes(c: char, s: string)
    requires IsSpace(c)
    ensures Kept(c) + s == s
  {
  }

  /** What is dropped with a control line is the marker and its quote and list characters, and no other text. */
  lemma {:induction false} OnlyMarkerLinesAreDropped(line: string) returns (w: string)
    requires ControlLine(line)
    ensures Normalize(line) == w + "[SEND]" && Wraps(w)
    decreases |line|
  {
    if Quoted(line) || Listed(line) {
      var k := if Quoted(line) then 1 else 2;
      var inner := OnlyMarkerLinesAreDropped(TrimSpace(line[k..]));
      NormalizeTrim(line[k..]);
      WrapperIsKept(line, k, inner, "[SEND]");
      w := [line[0]] + inner;
    } else {
      w := "";
    }
  }

  ghost predicate IsMarker(text: string, start: nat, end: nat) {
    && start < end <= |text|
    && Normalize(text[start..end]) == "[[SEND]]"
    && Bytes(text[start..end - 1]) <= 80
  }

  lemma LastSlice(text: string, start: nat, end: nat)
    requires start < end <= |text|
    ensures text[start..end] == text[start..end - 1] + [text[end - 1]]
  {
  }

  lemma {:induction false} BytesGrow(text: string, start: nat, a: nat, b: nat)
    requires start <= a <= b <= |text|
    ensures Bytes(text[start..a]) <= Bytes(text[start..b])
    decreases b
  {
    hide Bytes, Normalize;
    if a < b {
      BytesGrow(text, start, a, b - 1);
      LastSlice(text, start, b);
      SnocNormalized(text[start..b - 1], text[b - 1]);
    }
  }

  /** An inline marker is found exactly when one starts here, and the shortest one is taken. */
  lemma {:induction false} MarkerEndIsFirst(text: string, start: nat)
    requires start < |text|
    ensures MarkerEnd(text, start).Some? <==> IsOpenBracket(text[start]) && exists e :: IsMarker(text, start, e)
    ensures MarkerEnd(text, start).Some? ==>
              && IsMarker(text, start, MarkerEnd(text, start).value)
              && forall e | IsMarker(text, start, e) :: MarkerEnd(text, start).value <= e
  {
    FirstEndIsFirst(text, start, start);
  }

  lemma {:induction false} FirstEndIsFirst(text: string, start: nat, end: nat)
    requires start <= end <= |text|
    ensures var r := FirstEnd(text, start, end);
            && (r.Some? ==> IsMarker(text, start, r.value))
            && (forall e: nat | e > end && IsMarker(text, start, e) :: r.Some? && r.value <= e)
    decreases |text| - end
  {
    hide Bytes, Normalize;
    if end < |text| && Bytes(text[start..end]) <= 80 {
      assert IsMarker(text, start, end + 1) <==> Normalize(text[start..end + 1]) == "[[SEND]]";
      if !IsMarker(text, start, end + 1) {
        FirstEndIsFirst(text, start, end + 1);
      }
    } else {
      forall e: nat | e > end ensures !IsMarker(text, start, e) {
        NoMarkerBeyond(text, start, end, e);
      }
    }
  }

  lemma NoMarkerBeyond(text: string, start: nat, end: nat, e: nat)
    requires start <= end <= |text| && (end == |text| || Bytes(text[start..end]) > 80) && e > end
    ensures !IsMarker(text, start, e)
  {
    if e <= |text| {
      BytesGrow(text, start, end, e - 1);
    }
  }

  predicate Foreign(c: char) {
    c == '\\' || c == '`' || c == '~'
  }

  lemma ForeignIsKept(c: char)
    requires Foreign(c)
    ensures !Ignored(c) && Canonical(c) == c && c !in "[[SEND]]"
  {
  }

  /** No backslash and no fence character is part of an inline marker. */
  lemma MarkerCharacters(text: string, start: nat, i: nat)
    requires start < |text| && MarkerEnd(text, start).Some?
    requires start <= i < MarkerEnd(text, start).value
    ensures !Foreign(text[i])
  {
    FirstEndIsFirst(text, start, start);
    if Foreign(text[i]) {
      ForeignIsKept(text[i]);
      NormalizeKeeps(text[start..MarkerEnd(text, start).value], i - start);
    }
  }

  // ---------- how long a marker may be ----------

  lemma LastOfNormalized(init: string, c: char)
    requires Normalize(init) + Kept(c) == "[[SEND]]" && Normalize(init) != "[[SEND]]"
    ensures Canonical(c) == ']'
  {
    hide Normalize;
    var all := Normalize(init) + Kept(c);
    assert Kept(c) == "" ==> all == Normalize(init);
    assert all[|all| - 1] == Canonical(c);
  }

  lemma ShorterMarker(text: string, start: nat, end: nat)
    requires IsMarker(text, start, end)
    ensures Normalize(text[start..end]) == "[[SEND]]" && Bytes(text[start..end - 1]) <= 80
    ensures Normalize(text[start..end - 1]) == "[[SEND]]" ==> IsMarker(text, start, end - 1)
  {
    hide Normalize, Bytes;
    var init := text[start..end - 1];
    NothingNormalized();
    if Normalize(init) == "[[SEND]]" {
      assert init != "";
      BytesGrow(text, start, end - 2, end - 1);
    }
  }

  lemma TakenIsShortest(text: string, start: nat)
    requires start < |text| && MarkerEnd(text, start).Some?
    ensures var end := MarkerEnd(text, start).value; IsMarker(text, start, end) && !IsMarker(text, start, end - 1)
  {
    MarkerEndIsFirst(text, start);
    hide MarkerEnd, IsMarker;
  }

  /** The shortest marker ends with a closing bracket, so what is taken never exceeds 83 bytes. */
  lemma MarkersEndWithBracket(text: string, start: nat)
    requires start < |text| && MarkerEnd(text, start).Some?
    ensures var end := MarkerEnd(text, start).value;
            IsCloseBracket(text[end - 1]) && Bytes(text[start..end]) <= 83
  {
    hide MarkerEnd, IsMarker, Normalize, Bytes, IsCloseBracket;
    var end := MarkerEnd(text, start).value;
    TakenIsShortest(text, start);
    ShorterMarker(text, start, end);
    LastSlice(text, start, end);
    EndsClosed(text[start..end - 1], text[end - 1]);
  }

  lemma EndsClosed(init: string, last: char)
    requires Normalize(init + [last]) == "[[SEND]]" && Normalize(init) != "[[SEND]]" && Bytes(init) <= 80
    ensures IsCloseBracket(last) && Bytes(init + [last]) <= 83
  {
    SnocNormalized(init, last);
    hide Normalize, Bytes;
    LastOfNormalized(init, last);
  }

  function Spaces(n: nat): string {
    if n == 0 then "" else Spaces(n - 1) + " "
  }

  lemma {:induction false} SpacesVanish(n: nat)
    ensures |Spaces(n)| == n && Normalize(Spaces(n)) == "" && Bytes(Spaces(n)) == n
    ensures forall i | 0 <= i < n :: Spaces(n)[i] == ' '
  {
    if n > 0 {
      SpacesVanish(n - 1);
      assert Spaces(n)[..n - 1] == Spaces(n - 1);
    }
  }

  lemma {:induction false} BytesConcat(a: string, b: string)
    ensures Bytes(a + b) == Bytes(a) + Bytes(b)
  {
    if b == "" {
      assert a + b == a;
    } else {
      BytesConcat(a, b[..|b| - 1]);
      assert (a + b)[..|a + b| - 1] == a + b[..|b| - 1];
    }
  }

  /** A letter or bracket of a marker stands for itself and takes one byte. */
  predicate Literal(c: char) {
    c == '[' || c == ']' || 'A' <= c <= 'Z'
  }

  lemma LiteralIsKept(c: char)
    requires Literal(c)
    ensures Kept(c) == [c] && Utf8Size(c) == 1
  {
  }

  lemma SnocNormalized(s: string, c: char)
    ensures Normalize(s + [c]) == Normalize(s) + Kept(c) && Bytes(s + [c]) == Bytes(s) + Utf8Size(c)
  {
    hide Kept, Utf8Size;
    var t := s + [c];
    assert t[..|t| - 1] == s && t[|t| - 1] == c;
  }

  lemma NothingNormalized()
    ensures Normalize("") == "" && Bytes("") == 0
  {
  }

  lemma {:induction false} LiteralText(s: string)
    requires forall i | 0 <= i < |s| :: Literal(s[i])
    ensures Normalize(s) == s && Bytes(s) == |s|
  {
    hide Normalize, Bytes, Kept, Utf8Size, Literal;
    NothingNormalized();
    if s != "" {
      var init, last := s[..|s| - 1], s[|s| - 1];
      LiteralText(init);
      LiteralIsKept(last);
      SnocNormalized(init, last);
      assert s == init + [last];
    }
  }

  /** A recognised marker of 83 bytes: spaces up to the limit, then a closing bracket of three bytes. */
  lemma LongestMarker() returns (text: string)
    ensures |text| > 0 && MarkerEnd(text, 0) == Some(|text|) && Bytes(text) == 83
  {
    hide Normalize, Bytes, MarkerEnd, Spaces;
    var open, spaces := "[[SEND]", Spaces(73);
    LiteralText(open);
    SpacesVanish(73);
    NormalizeConcat(open, spaces);
    BytesConcat(open, spaces);
    assert open + "" == open;
    text := open + spaces + ['\U{FF3D}'];
    LongMarkerIsTaken(open + spaces, text);
  }

  lemma LongMarkerIsTaken(front: string, text: string)
    requires text == front + ['\U{FF3D}'] && |front| > 0 && front[0] == '['
    requires Normalize(front) == "[[SEND]" && Bytes(front) == 80
    ensures MarkerEnd(text, 0) == Some(|text|) && Bytes(text) == 83
  {
    SnocNormalized(front, '\U{FF3D}');
    assert "[[SEND]" + "]" == "[[SEND]]";
    MarkerEndIsFirst(text, 0);
    hide Normalize, Bytes, MarkerEnd;
    assert text[0..|text|] == text && text[0..|text| - 1] == front;
    assert IsMarker(text, 0, |text|);
    var end := MarkerEnd(text, 0).value;
    if end < |text| {
      assert text[0..end] == front[..end];
      NormalizeGrows(front, end);
    }
  }

  /** Longer texts normalise to longer ones. */
  lemma {:induction false} NormalizeGrows(s: string, k: nat)
    requires k <= |s|
    ensures |Normalize(s[..k])| <= |Normalize(s)|
  {
    if k == |s| {
      assert s[..k] == s;
    } else {
      NormalizeGrows(s[..|s| - 1], k);
      assert s[..|s| - 1][..k] == s[..k];
    }
  }
}
