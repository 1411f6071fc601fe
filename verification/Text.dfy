/**
 Text as sequences of Unicode scalar values: white space, searching and splitting on a delimiter, and the visible
 characters that splitting must not lose.
 */
module Text {
  import opened Common

  predicate IsSpace(c: char) {
    || '\t' <= c <= '\r' || c == ' ' || c == '\U{0085}' || c == '\U{00A0}' || c == '\U{1680}'
    || '\U{2000}' <= c <= '\U{200A}' || c == '\U{2028}' || c == '\U{2029}' || c == '\U{202F}' || c == '\U{205F}'
    || c == '\U{3000}'
  }

  /** The characters of `s` that are not white space, in order. */
  function Visible(s: string): string {
    if s == "" then "" else Shown(s[0]) + Visible(s[1..])
  }

  function Shown(c: char): string {
    if IsSpace(c) then "" else [c]
  }

  /** The white space of Unicode, character by character. */
  lemma SpacesAreUnicode(c: char)
    ensures IsSpace(c) <==>
            c in {'\t', '\n', '\U{000B}', '\U{000C}', '\r', ' ', '\U{0085}', '\U{00A0}', '\U{1680}', '\U{2000}', '\U{2001}',
                  '\U{2002}', '\U{2003}', '\U{2004}', '\U{2005}', '\U{2006}', '\U{2007}', '\U{2008}', '\U{2009}', '\U{200A}',
                  '\U{2028}', '\U{2029}', '\U{202F}', '\U{205F}', '\U{3000}'}
  {
  }

  /** Everything but white space is visible, as often as it occurs. */
  lemma {:induction false} VisibleCounts(s: string, c: char)
    ensures multiset(Visible(s))[c] == if IsSpace(c) then 0 else multiset(s)[c]
  {
    if s != "" {
      hide IsSpace;
      VisibleCounts(s[1..], c);
      var head, rest := Shown(s[0]), Visible(s[1..]);
      assert s == [s[0]] + s[1..] && multiset(s) == multiset{s[0]} + multiset(s[1..]);
      assert Visible(s) == head + rest && multiset(head + rest) == multiset(head) + multiset(rest);
    }
  }

  lemma Associate(a: string, b: string, c: string)
    ensures a + b + c == a + (b + c)
  {
  }

  lemma TailOfConcat(a: string, b: string)
    requires a != ""
    ensures (a + b)[0] == a[0] && (a + b)[1..] == a[1..] + b
  {
  }

  lemma {:induction false} VisibleConcat(a: string, b: string)
    ensures Visible(a + b) == Visible(a) + Visible(b)
  {
    if a == "" {
      assert a + b == b;
    } else {
      TailOfConcat(a, b);
      VisibleConcat(a[1..], b);
      Associate(Shown(a[0]), Visible(a[1..]), Visible(b));
    }
  }

  function TrimLeft(s: string): (t: string)
    ensures |t| <= |s|
  {
    if s != "" && IsSpace(s[0]) then TrimLeft(s[1..]) else s
  }

  function TrimRight(s: string): (t: string)
    ensures |t| <= |s|
  {
    if s != "" && IsSpace(s[|s| - 1]) then TrimRight(s[..|s| - 1]) else s
  }

  function TrimSpace(s: string): (t: string)
    ensures |t| <= |s|
  {
    TrimRight(TrimLeft(s))
  }

  /** Nothing but white space. */
  predicate Blank(s: string) {
    TrimSpace(s) == ""
  }

  lemma {:induction false} TrimLeftTrims(s: string) returns (front: string)
    ensures s == front + TrimLeft(s) && (forall c | c in front :: IsSpace(c))
    ensures TrimLeft(s) != "" ==> !IsSpace(TrimLeft(s)[0])
  {
    front := "";
    if s != "" && IsSpace(s[0]) {
      front := TrimLeftTrims(s[1..]);
      front := [s[0]] + front;
    }
  }

  lemma {:induction false} TrimRightTrims(s: string) returns (back: string)
    ensures s == TrimRight(s) + back && (forall c | c in back :: IsSpace(c))
    ensures TrimRight(s) != "" ==> !IsSpace(TrimRight(s)[|TrimRight(s)| - 1])
  {
    back := "";
    if s != "" && IsSpace(s[|s| - 1]) {
      back := TrimRightTrims(s[..|s| - 1]);
      back := back + [s[|s| - 1]];
    }
  }

  /** Trimming removes white space at both ends, all of it, and nothing else. */
  lemma TrimSpaceTrims(s: string) returns (front: string, back: string)
    ensures s == front + TrimSpace(s) + back && (forall c | c in front + back :: IsSpace(c))
    ensures var t := TrimSpace(s); t != "" ==> !IsSpace(t[0]) && !IsSpace(t[|t| - 1])
    ensures Blank(s) <==> forall c | c in s :: IsSpace(c)
  {
    front := TrimLeftTrims(s);
    back := TrimRightTrims(TrimLeft(s));
    var t := TrimSpace(s);
    hide IsSpace;
    assert s == front + (t + back) && t <= TrimLeft(s);
    if t != "" {
      assert t[0] == TrimLeft(s)[0] && t[0] in s;
    }
  }

  lemma SpaceIsInvisible(s: string, c: char)
    requires IsSpace(c)
    ensures Visible(s + [c]) == Visible(s)
  {
    VisibleConcat(s, [c]);
    assert Visible([c]) == Shown(c) + Visible("") == "";
  }

  lemma {:induction false} VisibleTrimRight(s: string)
    ensures Visible(TrimRight(s)) == Visible(s)
  {
    if s != "" && IsSpace(s[|s| - 1]) {
      var init, last := s[..|s| - 1], s[|s| - 1];
      VisibleTrimRight(init);
      SpaceIsInvisible(init, last);
      assert s == init + [last];
    }
  }

  lemma {:induction false} VisibleTrimLeft(s: string)
    ensures Visible(TrimLeft(s)) == Visible(s)
  {
    if s != "" && IsSpace(s[0]) {
      VisibleTrimLeft(s[1..]);
    }
  }

  lemma VisibleTrim(s: string)
    ensures Visible(TrimSpace(s)) == Visible(s)
  {
    VisibleTrimLeft(s);
    VisibleTrimRight(TrimLeft(s));
  }

  // ---------- lists of pieces ----------

  function Flat(parts: seq<string>): string {
    if parts == [] then "" else Flat(parts[..|parts| - 1]) + parts[|parts| - 1]
  }

  lemma FlatAppend(parts: seq<string>, part: string)
    ensures Flat(parts + [part]) == Flat(parts) + part
  {
    assert (parts + [part])[..|parts|] == parts;
  }

  lemma {:induction false} FlatConcat(a: seq<string>, b: seq<string>)
    ensures Flat(a + b) == Flat(a) + Flat(b)
  {
    if b == [] {
      assert a + b == a;
    } else {
      var init, last := b[..|b| - 1], b[|b| - 1];
      FlatConcat(a, init);
      assert (a + b)[..|a + b| - 1] == a + init && (a + b)[|a + b| - 1] == last;
      Associate(Flat(a), Flat(init), last);
    }
  }

  function Join(parts: seq<string>, d: string): string
    decreases |parts|, 1
  {
    if parts == [] then "" else Lead(parts[..|parts| - 1], d) + parts[|parts| - 1]
  }

  /** Everything a joined text holds in front of its last piece. */
  function Lead(init: seq<string>, d: string): string
    decreases |init|, 2
  {
    if init == [] then "" else Join(init, d) + d
  }

  lemma {:induction false} JoinFront(first: string, rest: seq<string>, d: string)
    requires rest != []
    ensures Join([first] + rest, d) == first + d + Join(rest, d)
  {
    var init, last := rest[..|rest| - 1], rest[|rest| - 1];
    assert ([first] + rest)[..|rest|] == [first] + init;
    if init == [] {
      assert Join([first], d) == first;
    } else {
      JoinFront(first, init, d);
      Associate(first + d, Join(init, d), d);
    }
    Associate(first + d, Lead(init, d), last);
  }

  // ---------- searching ----------

  predicate HasAt(s: string, p: nat, d: string) {
    p + |d| <= |s| && s[p..p + |d|] == d
  }

  ghost predicate Contains(s: string, d: string) {
    exists p: nat :: HasAt(s, p, d)
  }

  lemma ContainedPart(s: string, lo: nat, hi: nat, d: string)
    requires lo <= hi <= |s|
    ensures Contains(s[lo..hi], d) ==> Contains(s, d)
  {
    if Contains(s[lo..hi], d) {
      var p: nat :| HasAt(s[lo..hi], p, d);
      var found, same := s[lo..hi][p..p + |d|], s[lo + p..lo + p + |d|];
      assert |found| == |same| && forall i | 0 <= i < |d| :: found[i] == s[lo + p + i] == same[i];
      assert found == same;
      assert HasAt(s, lo + p, d);
    }
  }

  /** The first place where `d` occurs. */
  function Index(s: string, d: string): (r: Option<nat>)
    ensures r.Some? ==> HasAt(s, r.value, d) && forall p: nat | p < r.value :: !HasAt(s, p, d)
    ensures r.None? ==> !Contains(s, d)
  {
    if HasAt(s, 0, d) then Some(0)
    else if s == "" then None
    else
      var rest := Index(s[1..], d);
      assert forall p: nat | HasAt(s, p, d) :: p > 0 && HasAt(s[1..], p - 1, d) by {
        forall p: nat | HasAt(s, p, d) ensures p > 0 && HasAt(s[1..], p - 1, d) {
          assert s[1..][p - 1..p - 1 + |d|] == s[p..p + |d|];
        }
      }
      if rest.Some? then Some(rest.value + 1) else None
  }

  function Split(s: string, d: string): (parts: seq<string>)
    requires d != ""
    ensures parts != []
    decreases |s|
  {
    match Index(s, d)
    case None => [s]
    case Some(k) => [s[..k]] + Split(s[k + |d|..], d)
  }

  ghost predicate Free(parts: seq<string>, d: string) {
    forall i | 0 <= i < |parts| :: !Contains(parts[i], d)
  }

  lemma {:induction false} SplitIsFree(s: string, d: string)
    requires d != ""
    ensures Join(Split(s, d), d) == s && Free(Split(s, d), d)
    decreases |s|
  {
    var at := Index(s, d);
    if at.Some? {
      var first, after := s[..at.value], s[at.value + |d|..];
      SplitIsFree(after, d);
      FirstIsFree(s, at.value, d);
      PutFront(first, Split(after, d), d);
      Reassemble(s, at.value, d);
    }
  }

  lemma PutFront(first: string, rest: seq<string>, d: string)
    requires rest != [] && !Contains(first, d) && Free(rest, d)
    ensures Free([first] + rest, d) && Join([first] + rest, d) == first + d + Join(rest, d)
  {
    JoinFront(first, rest, d);
  }

  lemma Reassemble(s: string, k: nat, d: string)
    requires HasAt(s, k, d)
    ensures s[..k] + d + s[k + |d|..] == s
  {
  }

  lemma FirstIsFree(s: string, k: nat, d: string)
    requires HasAt(s, k, d) && d != "" && forall p: nat | p < k :: !HasAt(s, p, d)
    ensures !Contains(s[..k], d)
  {
    forall p: nat ensures HasAt(s[..k], p, d) ==> HasAt(s, p, d) && p < k {
      if HasAt(s[..k], p, d) {
        assert s[..k][p..p + |d|] == s[p..p + |d|];
      }
    }
  }

  // ---------- what is visible between delimiters ----------

  /** A delimiter whose first character occurs nowhere else in it, with no white space at either end. */
  ghost predicate Separates(d: string) {
    && d != ""
    && (forall i | 1 <= i < |d| :: d[i] != d[0])
    && !IsSpace(d[0]) && !IsSpace(d[|d| - 1])
  }

  /** The visible characters of `s` outside every occurrence of the delimiter. */
  function Between(s: string, d: string): string
    requires d != ""
    decreases |s|
  {
    if HasAt(s, 0, d) then Between(s[|d|..], d)
    else if s == "" then ""
    else Shown(s[0]) + Between(s[1..], d)
  }

  lemma FrontOfJoined(a: string, d: string, b: string)
    requires Separates(d) && a != ""
    ensures HasAt(a + (d + b), 0, d) ==> HasAt(a, 0, d)
  {
    var s := a + (d + b);
    if |d| <= |a| {
      assert s[..|d|] == a[..|d|];
    } else {
      assert s[..|d|][|a|] == d[0];
    }
  }

  lemma {:induction false} BetweenAround(a: string, d: string, b: string)
    requires Separates(d)
    ensures Between(a + (d + b), d) == Between(a, d) + Between(b, d)
    decreases |a|
  {
    if a == "" {
      assert a + (d + b) == d + b;
    } else if HasAt(a, 0, d) {
      var rest := a[|d|..];
      assert a == d + rest;
      BetweenAround(rest, d, b);
      Associate(d, rest, d + b);
    } else {
      FrontOfJoined(a, d, b);
      TailOfConcat(a, d + b);
      BetweenAround(a[1..], d, b);
      Associate(Shown(a[0]), Between(a[1..], d), Between(b, d));
    }
  }

  lemma {:induction false} BetweenOfFree(s: string, d: string)
    requires d != "" && !Contains(s, d)
    ensures Between(s, d) == Visible(s)
  {
    if s != "" {
      assert !HasAt(s, 0, d);
      ContainedPart(s, 1, |s|, d);
      assert s[1..|s|] == s[1..];
      BetweenOfFree(s[1..], d);
    }
  }

  /** Joining pieces that do not hold the delimiter hides nothing but the delimiter. */
  lemma {:induction false} BetweenJoin(parts: seq<string>, d: string)
    requires Separates(d) && Free(parts, d)
    ensures Between(Join(parts, d), d) == Visible(Flat(parts))
  {
    if parts != [] {
      var init, last := parts[..|parts| - 1], parts[|parts| - 1];
      BetweenOfFree(last, d);
      VisibleConcat(Flat(init), last);
      BetweenJoin(init, d);
      if init == [] {
        assert Join(parts, d) == last;
      } else {
        BetweenAround(Join(init, d), d, last);
        Associate(Join(init, d), d, last);
      }
    }
  }

  lemma {:induction false} BetweenSpaceAfter(s: string, c: char, d: string)
    requires Separates(d) && IsSpace(c)
    ensures Between(s + [c], d) == Between(s, d)
    decreases |s|
  {
    var t := s + [c];
    if HasAt(t, 0, d) {
      assert t[..|d|][|d| - 1] == d[|d| - 1];
      assert |d| <= |s|;
      assert s[..|d|] == t[..|d|];
      assert t[|d|..] == s[|d|..] + [c];
      BetweenSpaceAfter(s[|d|..], c, d);
    } else if s == "" {
      assert t[1..] == "" && Between("", d) == "";
    } else {
      assert |d| <= |s| ==> s[..|d|] == t[..|d|];
      assert t[1..] == s[1..] + [c];
      BetweenSpaceAfter(s[1..], c, d);
    }
  }

  lemma {:induction false} BetweenTrimRight(s: string, d: string)
    requires Separates(d)
    ensures Between(TrimRight(s), d) == Between(s, d)
  {
    if s != "" && IsSpace(s[|s| - 1]) {
      BetweenTrimRight(s[..|s| - 1], d);
      BetweenSpaceAfter(s[..|s| - 1], s[|s| - 1], d);
      assert s == s[..|s| - 1] + [s[|s| - 1]];
    }
  }

  lemma {:induction false} BetweenTrimLeft(s: string, d: string)
    requires Separates(d)
    ensures Between(TrimLeft(s), d) == Between(s, d)
  {
    if s != "" && IsSpace(s[0]) {
      BetweenTrimLeft(s[1..], d);
      assert |d| <= |s| ==> s[..|d|][0] == s[0];
    }
  }

  lemma BetweenTrim(s: string, d: string)
    requires Separates(d)
    ensures Between(TrimSpace(s), d) == Between(s, d)
  {
    BetweenTrimLeft(s, d);
    BetweenTrimRight(TrimLeft(s), d);
  }

  /** Splitting on the delimiter, after trimming, keeps the visible characters between delimiters. */
  lemma SplitKeepsVisible(s: string, d: string)
    requires Separates(d)
    ensures Visible(Flat(Split(TrimSpace(s), d))) == Between(s, d)
  {
    BetweenTrim(s, d);
    SplitIsFree(TrimSpace(s), d);
    BetweenJoin(Split(TrimSpace(s), d), d);
  }
}
