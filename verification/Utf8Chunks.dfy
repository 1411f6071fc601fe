/**
 Splitting an oversized payload into chunks that can be recorded one by one. Strings are bytes; validity is the
 grammar of section 4 of RFC 3629.
 */
module Utf8Chunks {

  newtype byte = b: int | 0 <= b < 256

  predicate InRange(s: seq<byte>, i: nat, lo: byte, hi: byte) {
    i < |s| && lo <= s[i] <= hi
  }

  predicate Tail(s: seq<byte>, i: nat) {
    InRange(s, i, 0x80, 0xBF)
  }

  /** The length of the well-formed character at the front of `s`, or 0 when there is none. */
  function RuneLen(s: seq<byte>): (n: nat)
    ensures n <= 4 && n <= |s|
  {
    if InRange(s, 0, 0x00, 0x7F) then 1
    else if InRange(s, 0, 0xC2, 0xDF) && Tail(s, 1) then 2
    else if ThreeBytes(s) then 3
    else if FourBytes(s) then 4
    else 0
  }

  predicate ThreeBytes(s: seq<byte>) {
    && Tail(s, 2)
    && (|| (InRange(s, 0, 0xE0, 0xE0) && InRange(s, 1, 0xA0, 0xBF))
        || (InRange(s, 0, 0xE1, 0xEC) && Tail(s, 1))
        || (InRange(s, 0, 0xED, 0xED) && InRange(s, 1, 0x80, 0x9F))
        || (InRange(s, 0, 0xEE, 0xEF) && Tail(s, 1)))
  }

  predicate FourBytes(s: seq<byte>) {
    && Tail(s, 2) && Tail(s, 3)
    && (|| (InRange(s, 0, 0xF0, 0xF0) && InRange(s, 1, 0x90, 0xBF))
        || (InRange(s, 0, 0xF1, 0xF3) && Tail(s, 1))
        || (InRange(s, 0, 0xF4, 0xF4) && InRange(s, 1, 0x80, 0x8F)))
  }

  predicate Valid(s: seq<byte>) {
    s == [] || (RuneLen(s) > 0 && Valid(s[RuneLen(s)..]))
  }

  // ---------- validity is being encoded ----------

  function ToByte(v: int): byte
    requires 0 <= v < 256
  {
    v as byte
  }

  /** The encoding of one scalar value, as in the table of section 3 of RFC 3629. */
  function EncodeRune(c: char): (s: seq<byte>)
    ensures 1 <= |s| <= 4
  {
    var v := c as int;
    if v < 0x80 then [ToByte(v)]
    else if v < 0x800 then [ToByte(0xC0 + v / 64), ToByte(0x80 + v % 64)]
    else if v < 0x1_0000 then [ToByte(0xE0 + v / 4096), ToByte(0x80 + v / 64 % 64), ToByte(0x80 + v % 64)]
    else [ToByte(0xF0 + v / 262144), ToByte(0x80 + v / 4096 % 64), ToByte(0x80 + v / 64 % 64), ToByte(0x80 + v % 64)]
  }

  function EncodeText(text: string): seq<byte> {
    if text == "" then [] else EncodeRune(text[0]) + EncodeText(text[1..])
  }

  /** Every encoded scalar value is well formed, whatever follows it. */
  lemma EncodedRuneIsWellFormed(c: char, rest: seq<byte>)
    ensures RuneLen(EncodeRune(c) + rest) == |EncodeRune(c)|
  {
    var s, v := EncodeRune(c) + rest, c as int;
    assert forall i | 0 <= i < |EncodeRune(c)| :: s[i] == EncodeRune(c)[i];
    if v < 0x800 {
    } else if v < 0x1_0000 {
      LongRuneIsWellFormed(s, v);
      assert ThreeBytes(s);
    } else {
      LongRuneIsWellFormed(s, v);
      assert FourBytes(s);
    }
  }

  lemma LongRuneIsWellFormed(s: seq<byte>, v: int)
    requires |s| >= 3 && 0x800 <= v < 0x11_0000 && !(0xD800 <= v < 0xE000)
    requires v < 0x1_0000 ==> s[0] as int == 0xE0 + v / 4096 && s[1] as int == 0x80 + v / 64 % 64 && s[2] as int == 0x80 + v % 64
    requires v >= 0x1_0000 ==> |s| >= 4 && s[0] as int == 0xF0 + v / 262144 && s[1] as int == 0x80 + v / 4096 % 64
                               && s[2] as int == 0x80 + v / 64 % 64 && s[3] as int == 0x80 + v % 64
    ensures v < 0x1_0000 ==> ThreeBytes(s)
    ensures v >= 0x1_0000 ==> FourBytes(s)
  {
  }

  lemma Split64(q: int, r: int)
    requires 0 <= r < 64
    ensures (q * 64 + r) / 64 == q && (q * 64 + r) % 64 == r
  {
  }

  lemma Split4096(q: int, r: int)
    requires 0 <= r < 4096
    ensures (q * 4096 + r) / 4096 == q
  {
  }

  lemma Split262144(q: int, r: int)
    requires 0 <= r < 262144
    ensures (q * 262144 + r) / 262144 == q
  {
  }

  lemma Digits(a: int, b: int, c: int, d: int)
    requires 0 <= a && 0 <= b < 64 && 0 <= c < 64 && 0 <= d < 64
    ensures var v := a * 262144 + b * 4096 + c * 64 + d;
            v / 262144 == a && v / 4096 % 64 == b && v / 4096 == a * 64 + b && v / 64 % 64 == c && v / 64 == a * 4096 + b * 64 + c && v % 64 == d
  {
    var v := a * 262144 + b * 4096 + c * 64 + d;
    Split262144(a, b * 4096 + c * 64 + d);
    Split4096(a * 64 + b, c * 64 + d);
    Split64(a * 4096 + b * 64 + c, d);
    Split64(a * 64 + b, c);
    Split64(a, b);
    assert v == (a * 64 + b) * 4096 + (c * 64 + d) == (a * 4096 + b * 64 + c) * 64 + d;
    assert a * 4096 + b * 64 + c == (a * 64 + b) * 64 + c;
  }

  lemma TwoBytesAreEncoded(s: seq<byte>) returns (c: char)
    requires RuneLen(s) == 2
    ensures s[..2] == EncodeRune(c)
  {
    var a, d := s[0] as int - 0xC0, s[1] as int - 0x80;
    Digits(0, 0, a, d);
    c := (a * 64 + d) as char;
    hide RuneLen;
  }

  lemma ThreeBytesAreEncoded(s: seq<byte>) returns (c: char)
    requires RuneLen(s) == 3
    ensures s[..3] == EncodeRune(c)
  {
    var a, b, d := s[0] as int - 0xE0, s[1] as int - 0x80, s[2] as int - 0x80;
    Digits(0, a, b, d);
    var v := a * 4096 + b * 64 + d;
    assert 0x800 <= v < 0x1_0000 && !(0xD800 <= v < 0xE000);
    c := v as char;
    hide RuneLen;
  }

  lemma FourBytesAreEncoded(s: seq<byte>) returns (c: char)
    requires RuneLen(s) == 4
    ensures s[..4] == EncodeRune(c)
  {
    var a, b, e, d := s[0] as int - 0xF0, s[1] as int - 0x80, s[2] as int - 0x80, s[3] as int - 0x80;
    Digits(a, b, e, d);
    var v := a * 262144 + b * 4096 + e * 64 + d;
    assert 0x1_0000 <= v < 0x11_0000;
    c := v as char;
    hide RuneLen;
  }

  /** And nothing else is well formed. */
  lemma WellFormedIsEncoded(s: seq<byte>) returns (c: char)
    requires RuneLen(s) > 0
    ensures s[..RuneLen(s)] == EncodeRune(c)
  {
    if RuneLen(s) == 2 {
      c := TwoBytesAreEncoded(s);
    } else if RuneLen(s) == 3 {
      c := ThreeBytesAreEncoded(s);
    } else if RuneLen(s) == 4 {
      c := FourBytesAreEncoded(s);
    } else {
      c := s[0] as int as char;
    }
  }

  lemma {:induction false} EncodedIsValid(text: string)
    ensures Valid(EncodeText(text))
  {
    hide RuneLen, EncodeRune;
    if text != "" {
      var s, first := EncodeText(text), EncodeRune(text[0]);
      EncodedIsValid(text[1..]);
      EncodedRuneIsWellFormed(text[0], EncodeText(text[1..]));
      assert s[|first|..] == EncodeText(text[1..]);
    }
  }

  /** Bytes are valid exactly when they encode some text. */
  lemma {:induction false} ValidIsEncoded(s: seq<byte>)
    ensures Valid(s) <==> exists text :: s == EncodeText(text)
  {
    if text :| s == EncodeText(text) {
      EncodedIsValid(text);
    } else if Valid(s) {
      var text := Decoded(s);
      assert s == EncodeText(text);
    }
  }

  lemma {:induction false} Decoded(s: seq<byte>) returns (text: string)
    requires Valid(s)
    ensures s == EncodeText(text)
  {
    hide RuneLen, EncodeRune;
    text := "";
    if s != [] {
      var n := RuneLen(s);
      var c := WellFormedIsEncoded(s);
      var rest := Decoded(s[n..]);
      text := [c] + rest;
      assert text[1..] == rest && s == s[..n] + s[n..];
    }
  }

  /** The width a decoder consumes: malformed input advances by one byte. */
  function DecodeSize(s: seq<byte>): (n: nat)
    ensures n <= |s| && (s != [] ==> n > 0)
  {
    if s == [] then 0 else if RuneLen(s) > 0 then RuneLen(s) else 1
  }

  function Join(chunks: seq<seq<byte>>): seq<byte> {
    if chunks == [] then [] else Join(chunks[..|chunks| - 1]) + chunks[|chunks| - 1]
  }

  // ---------- where a valid string can be cut ----------

  /** The first character does not depend on what follows it. */
  lemma RuneLenOfPrefix(s: seq<byte>, k: nat)
    requires k <= |s|
    ensures RuneLen(s) <= k ==> RuneLen(s[..k]) == RuneLen(s)
    ensures RuneLen(s[..k]) > 0 ==> RuneLen(s[..k]) == RuneLen(s)
  {
  }

  /** What follows a valid prefix of a valid string is valid. */
  lemma {:induction false} ValidRest(s: seq<byte>, k: nat)
    requires k <= |s| && Valid(s) && Valid(s[..k])
    ensures Valid(s[k..])
  {
    hide Valid, RuneLen;
    assert s[0..] == s;
    if k > 0 {
      var n := FirstOfPrefix(s, k);
      ValidRest(s[n..], k - n);
      assert s[n..][k - n..] == s[k..];
    }
  }

  lemma FirstOfPrefix(s: seq<byte>, k: nat) returns (n: nat)
    requires 0 < k <= |s| && Valid(s) && Valid(s[..k])
    ensures 0 < n <= k && Valid(s[n..]) && Valid(s[n..][..k - n])
  {
    hide RuneLen;
    n := RuneLen(s);
    RuneLenOfPrefix(s, k);
    assert s[..k][n..] == s[n..][..k - n];
  }

  /** Below every position of a valid string there is a character boundary less than four bytes away. */
  lemma {:induction false} BoundaryNear(s: seq<byte>, m: nat) returns (k: nat)
    requires Valid(s) && m <= |s|
    ensures k <= m < k + 4 && Valid(s[..k])
  {
    hide RuneLen;
    k := 0;
    if 4 <= m {
      var n := RuneLen(s);
      var j := BoundaryNear(s[n..], m - n);
      k := n + j;
      RuneLenOfPrefix(s, k);
      assert s[..k][n..] == s[n..][..j];
    }
  }

  // ---------- the splitter ----------

  /** A chunk of whole characters within the limit, unless it is a single character that is longer by itself. */
  ghost predicate GoodChunk(chunk: seq<byte>, limit: nat) {
    && chunk != [] && Valid(chunk)
    && (|chunk| <= limit || (limit < 4 && RuneLen(chunk) == |chunk|))
  }

  /** The promise for a well-formed payload; only the last chunk may be short. */
  ghost predicate GoodChunks(chunks: seq<seq<byte>>, limit: nat) {
    && (forall i | 0 <= i < |chunks| :: GoodChunk(chunks[i], limit))
    && (forall i | 0 <= i < |chunks| - 1 :: |chunks[i]| + 4 > limit)
  }

  /** Backs off from `start + limit` to a character boundary, or forward over one character. */
  method ChunkEnd(value: seq<byte>, start: nat, limit: nat) returns (end: nat)
    requires start < |value| && 1 <= limit
    ensures start < end <= |value|
    ensures Valid(value[start..]) ==>
              GoodChunk(value[start..end], limit) && (end < |value| ==> end - start + 4 > limit)
  {
    hide Valid, RuneLen, DecodeSize;
    end := if start + limit > |value| then |value| else start + limit;
    var rest := value[start..];
    ghost var boundary := start;
    EmptyIsValid();
    assert value[start..start] == [];
    if Valid(rest) && end < |value| {
      var k := BoundaryNear(rest, limit);
      boundary := start + k;
      assert value[start..boundary] == rest[..k];
    }
    while end < |value| && end > start && !Valid(value[start..end])
      invariant boundary <= end <= |value| && end <= start + limit
      invariant Valid(rest) ==> Valid(value[start..boundary]) && (end < |value| ==> boundary - start + 4 > limit)
      decreases end
    {
      end := end - 1;
    }
    if end == |value| {
      assert value[start..end] == rest;
    }
    if end == start {
      end := end + DecodeSize(rest);
      OneCharacter(rest);
      assert value[start..end] == rest[..end - start];
    }
  }

  lemma EmptyIsValid()
    ensures Valid([])
  {
  }

  lemma OneCharacter(s: seq<byte>)
    requires s != []
    ensures Valid(s) ==> DecodeSize(s) == RuneLen(s) == RuneLen(s[..RuneLen(s)]) && Valid(s[..RuneLen(s)])
  {
    hide RuneLen;
    RuneLenOfPrefix(s, RuneLen(s));
    assert s[..RuneLen(s)][RuneLen(s)..] == [];
  }

  method SplitUtf8Chunks(value: seq<byte>, limit: int) returns (chunks: seq<seq<byte>>)
    ensures Join(chunks) == value
    ensures limit >= 1 && Valid(value) && value != [] ==> GoodChunks(chunks, limit)
    ensures limit >= 4 && Valid(value) ==> (|chunks| - 1) * (limit - 3) <= |value|
  {
    hide Valid, RuneLen;
    if limit < 1 || |value| <= limit {
      assert Join([value]) == Join([]) + value;
      return [value];
    }
    chunks := [];
    var start := 0;
    assert value[..0] == [] && value[0..] == value;
    while start < |value|
      invariant start <= |value|
      invariant Progress(value, start, chunks, limit)
    {
      var end := ChunkEnd(value, start, limit);
      Advance(value, start, end, chunks, limit);
      chunks := chunks + [value[start..end]];
      start := end;
    }
    assert value[..|value|] == value;
    if limit >= 4 && Valid(value) && value != [] {
      FewChunks(chunks, limit);
    }
  }

  /** What holds between two chunks: the chunks so far are the front of the payload, and all of them are full. */
  ghost predicate Progress(value: seq<byte>, start: nat, chunks: seq<seq<byte>>, limit: nat)
    requires start <= |value|
  {
    && Join(chunks) == value[..start]
    && (Valid(value) ==> Valid(value[start..]) && GoodChunks(chunks, limit))
    && (Valid(value) && start < |value| && chunks != [] ==> |chunks[|chunks| - 1]| + 4 > limit)
  }

  lemma Advance(value: seq<byte>, start: nat, end: nat, chunks: seq<seq<byte>>, limit: nat)
    requires start < end <= |value| && Progress(value, start, chunks, limit)
    requires Valid(value[start..]) ==>
               GoodChunk(value[start..end], limit) && (end < |value| ==> end - start + 4 > limit)
    ensures Progress(value, end, chunks + [value[start..end]], limit)
  {
    hide Valid, RuneLen;
    var next := chunks + [value[start..end]];
    assert next[..|next| - 1] == chunks;
    assert value[..start] + value[start..end] == value[..end];
    if Valid(value) {
      assert value[start..][..end - start] == value[start..end];
      assert value[start..][end - start..] == value[end..];
      ValidRest(value[start..], end - start);
    }
  }

  /** Full chunks add up, so there cannot be many of them. */
  lemma {:induction false} FullChunks(chunks: seq<seq<byte>>, m: nat)
    requires forall i | 0 <= i < |chunks| :: |chunks[i]| >= m
    ensures |chunks| * m <= |Join(chunks)|
  {
    if chunks != [] {
      FullChunks(chunks[..|chunks| - 1], m);
      assert |chunks| * m == (|chunks| - 1) * m + m;
    }
  }

  lemma FewChunks(chunks: seq<seq<byte>>, limit: nat)
    requires limit >= 4 && chunks != [] && GoodChunks(chunks, limit)
    ensures (|chunks| - 1) * (limit - 3) <= |Join(chunks)|
  {
    FullChunks(chunks[..|chunks| - 1], limit - 3);
  }
}
