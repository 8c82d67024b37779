/** The Python `str` operations the core relies on: `upper`, `join`, `split` and `strip`. */
module Text {
  import opened Wrappers

  // ---------------------------------------------------------------- upper

  /** `str.upper` on one character; only ASCII letters are mapped. */
  function UpperChar(c: char): char {
    if 'a' <= c <= 'z' then (c as int - 'a' as int + 'A' as int) as char else c
  }

  function Upper(s: string): (r: string)
    ensures |r| == |s|
    ensures forall i :: 0 <= i < |s| ==> r[i] == UpperChar(s[i])
  {
    if s == [] then [] else [UpperChar(s[0])] + Upper(s[1..])
  }

  /** Upper-casing leaves no lower-case ASCII letter behind, so doing it twice changes nothing. */
  lemma UpperIdempotent(s: string)
    ensures Upper(Upper(s)) == Upper(s)
    ensures forall i :: 0 <= i < |s| ==> !('a' <= Upper(s)[i] <= 'z')
  {
  }

  // ---------------------------------------------------------------- join

  /** `sep.join(parts)`. */
  function Join(sep: string, parts: seq<string>): string
  {
    if parts == [] then ""
    else if |parts| == 1 then parts[0]
    else parts[0] + sep + Join(sep, parts[1..])
  }

  /** Joining one more part adds the separator and that part at the end. */
  lemma {:induction false} JoinSnoc(sep: string, parts: seq<string>, p: string)
    ensures Join(sep, parts + [p]) == if parts == [] then p else Join(sep, parts) + sep + p
  {
    if |parts| > 1 {
      assert (parts + [p])[1..] == parts[1..] + [p];
      JoinSnoc(sep, parts[1..], p);
    }
  }

  /** With a non-empty separator the join is empty exactly when there is no part,
      or a single part that is itself empty: two empty parts already give `sep`. */
  lemma JoinEmpty(sep: string, parts: seq<string>)
    requires sep != ""
    ensures Join(sep, parts) == "" <==> parts == [] || parts == [""]
  {
    if |parts| > 1 {
      assert |Join(sep, parts)| >= |sep|;
    }
  }

  // ---------------------------------------------------------------- split

  /** `d` occurs in `s` starting at index `i`. */
  predicate Occurs(s: string, d: string, i: int)
  {
    0 <= i && i + |d| <= |s| && s[i..i + |d|] == d
  }

  /** `s.find(d, k)`: the first occurrence of `d` at or after `k`. */
  function FindFrom(s: string, d: string, k: nat): (r: Option<nat>)
    decreases |s| - k
    ensures r.Some? ==> k <= r.value && Occurs(s, d, r.value)
    ensures r.Some? ==> forall j :: k <= j < r.value ==> !Occurs(s, d, j)
    ensures r.None? ==> forall j :: k <= j ==> !Occurs(s, d, j)
  {
    if k + |d| > |s| then None
    else if s[k..k + |d|] == d then Some(k)
    else FindFrom(s, d, k + 1)
  }

  /** `s.split(d)`: cut at every leftmost, non-overlapping occurrence of `d`. */
  function Split(s: string, d: string): (parts: seq<string>)
    requires d != ""
    decreases |s|
    ensures |parts| >= 1
    ensures Join(d, parts) == s
  {
    match FindFrom(s, d, 0)
    case None => [s]
    case Some(i) =>
      var rest := Split(s[i + |d|..], d);
      JoinAround(s, d, i, rest);
      [s[..i]] + rest
  }

  /** Cutting `s` at an occurrence of `d` and joining back gives `s`. */
  lemma JoinAround(s: string, d: string, i: nat, rest: seq<string>)
    requires Occurs(s, d, i) && |rest| >= 1 && Join(d, rest) == s[i + |d|..]
    ensures Join(d, [s[..i]] + rest) == s
  {
    JoinCons(d, s[..i], rest);
    Reassemble(s, d, i);
  }

  /** The text before an occurrence, the occurrence and the text after it make up `s`. */
  lemma Reassemble(s: string, d: string, i: nat)
    requires Occurs(s, d, i)
    ensures s[..i] + d + s[i + |d|..] == s
  {
    assert s[..i] + s[i..i + |d|] + s[i + |d|..] == s;
  }

  lemma JoinCons(sep: string, p: string, rest: seq<string>)
    requires rest != []
    ensures Join(sep, [p] + rest) == p + sep + Join(sep, rest)
  {
    assert ([p] + rest)[1..] == rest;
  }

  /** An occurrence in a suffix is an occurrence in the whole string, shifted. */
  lemma OccursInSuffix(s: string, d: string, k: nat, j: int)
    requires k <= |s|
    ensures Occurs(s[k..], d, j) <==> j >= 0 && Occurs(s, d, j + k)
  {
    if 0 <= j && j + |d| <= |s| - k {
      assert s[k..][j..j + |d|] == s[j + k..j + k + |d|];
    }
  }

  /** No part of a split contains the separator. */
  lemma {:induction false} SplitPartsFree(s: string, d: string, p: nat, j: int)
    requires d != ""
    requires p < |Split(s, d)|
    ensures !Occurs(Split(s, d)[p], d, j)
    decreases |s|
  {
    match FindFrom(s, d, 0)
    case None =>
    case Some(i) =>
      if p == 0 {
        if Occurs(s[..i], d, j) {
          assert s[..i][j..j + |d|] == s[j..j + |d|];
          assert Occurs(s, d, j);
        }
      } else {
        SplitPartsFree(s[i + |d|..], d, p - 1, j);
      }
  }

  /** The split has exactly two parts precisely when `d` occurs at some index `i`,
      nowhere before it, and nowhere at or after the end of that occurrence;
      the two parts are then the text before and after that occurrence. */
  lemma SplitInTwo(s: string, d: string)
    requires d != ""
    ensures |Split(s, d)| == 2 <==> exists i :: SoleOccurrence(s, d, i)
    ensures forall i :: SoleOccurrence(s, d, i) ==> Split(s, d) == [s[..i], s[i + |d|..]]
  {
    forall i | SoleOccurrence(s, d, i) ensures Split(s, d) == [s[..i], s[i + |d|..]] {
      SplitAtSole(s, d, i);
    }
    if |Split(s, d)| == 2 {
      SplitTwoIsSole(s, d);
    }
  }

  lemma SplitAtSole(s: string, d: string, i: int)
    requires d != ""
    requires SoleOccurrence(s, d, i)
    ensures Split(s, d) == [s[..i], s[i + |d|..]]
  {
    var f := FindFrom(s, d, 0);
    assert f == Some(i);
    var rest := s[i + |d|..];
    var g := FindFrom(rest, d, 0);
    if g.Some? {
      OccursInSuffix(s, d, i + |d|, g.value);
      assert false;
    }
  }

  lemma SplitTwoIsSole(s: string, d: string)
    requires d != ""
    requires |Split(s, d)| == 2
    ensures FindFrom(s, d, 0).Some? && SoleOccurrence(s, d, FindFrom(s, d, 0).value)
  {
    var i := FindFrom(s, d, 0).value;
    SplitFirstCut(s, d, i);
    if FindFrom(s[i + |d|..], d, 0).Some? {
      SplitAtLeastTwo(s[i + |d|..], d);
    }
    NoLaterOccurrence(s, d, i + |d|);
  }

  /** The first cut of a split is at the first occurrence. */
  lemma SplitFirstCut(s: string, d: string, i: nat)
    requires d != "" && FindFrom(s, d, 0) == Some(i)
    ensures Split(s, d) == [s[..i]] + Split(s[i + |d|..], d)
  {
  }

  /** No occurrence in the suffix from `k` means no occurrence in `s` from `k` on. */
  lemma NoLaterOccurrence(s: string, d: string, k: nat)
    requires k <= |s| && FindFrom(s[k..], d, 0).None?
    ensures forall j :: k <= j <= |s| ==> !Occurs(s, d, j)
  {
    forall j | k <= j <= |s| ensures !Occurs(s, d, j) {
      OccursInSuffix(s, d, k, j - k);
    }
  }

  /** `i` is the only place where a split on `d` cuts `s`. */
  predicate SoleOccurrence(s: string, d: string, i: int)
  {
    Occurs(s, d, i) &&
    (forall j :: 0 <= j < i ==> !Occurs(s, d, j)) &&
    (forall j :: i + |d| <= j <= |s| ==> !Occurs(s, d, j))
  }

  /** A string in which the separator occurs splits into at least two parts. */
  lemma SplitAtLeastTwo(s: string, d: string)
    requires d != ""
    requires FindFrom(s, d, 0).Some?
    ensures |Split(s, d)| >= 2
  {
  }

  // ---------------------------------------------------------------- strip

  /** The characters Python's `str.strip()` removes (`str.isspace`). */
  predicate IsSpace(c: char)
  {
    ('\t' <= c <= '\r') || ('\U{1C}' <= c <= ' ') || c == '\U{85}' || c == '\U{A0}' ||
    c == '\U{1680}' || ('\U{2000}' <= c <= '\U{200A}') || c == '\U{2028}' || c == '\U{2029}' ||
    c == '\U{202F}' || c == '\U{205F}' || c == '\U{3000}'
  }

  predicate AllSpace(s: string)
  {
    forall i :: 0 <= i < |s| ==> IsSpace(s[i])
  }

  /** Every character of `s` from index `lo` up to (excluding) `hi` is whitespace. */
  predicate SpaceIn(s: string, lo: int, hi: int)
    requires 0 <= lo <= hi <= |s|
  {
    forall k :: lo <= k < hi ==> IsSpace(s[k])
  }

  /** `str.lstrip()`: the longest suffix that does not start with whitespace. */
  function LStrip(s: string): (r: string)
    ensures |r| <= |s| && r == s[|s| - |r|..] && SpaceIn(s, 0, |s| - |r|)
    ensures r == [] || !IsSpace(r[0])
  {
    if s != [] && IsSpace(s[0]) then LStrip(s[1..]) else s
  }

  /** `str.rstrip()`: the longest prefix that does not end with whitespace. */
  function RStrip(s: string): (r: string)
    ensures |r| <= |s| && r == s[..|r|] && SpaceIn(s, |r|, |s|)
    ensures r == [] || !IsSpace(r[|r| - 1])
  {
    if s != [] && IsSpace(s[|s| - 1]) then RStrip(s[..|s| - 1]) else s
  }

  /** `r` is `s` with all leading and trailing whitespace removed. */
  ghost predicate StrippedOf(s: string, r: string)
  {
    exists i :: StrippedAt(s, r, i)
  }

  /** `r` is the part of `s` starting at `i`, with only whitespace around it. */
  predicate StrippedAt(s: string, r: string, i: int)
  {
    0 <= i && i + |r| <= |s| && s[i..i + |r|] == r &&
    SpaceIn(s, 0, i) && SpaceIn(s, i + |r|, |s|) &&
    (r == [] || (!IsSpace(r[0]) && !IsSpace(r[|r| - 1])))
  }

  /** `str.strip()`. */
  function Strip(s: string): (r: string)
    ensures StrippedOf(s, r)
    ensures r == [] <==> AllSpace(s)
  {
    StripBounds(s, LStrip(s), RStrip(LStrip(s)));
    StripEmpty(s);
    RStrip(LStrip(s))
  }

  /** Stripping the front and then the back of `s` leaves an infix with only whitespace around it. */
  lemma StripBounds(s: string, l: string, r: string)
    requires |l| <= |s| && l == s[|s| - |l|..] && SpaceIn(s, 0, |s| - |l|) && (l == [] || !IsSpace(l[0]))
    requires |r| <= |l| && r == l[..|r|] && SpaceIn(l, |r|, |l|) && (r == [] || !IsSpace(r[|r| - 1]))
    ensures StrippedAt(s, r, |s| - |l|)
  {
    var i := |s| - |l|;
    InfixOfSuffix(s, l, r, i);
    SpaceInSuffix(s, l, i, |r|);
    assert r != [] ==> r[0] == l[0];
  }

  lemma InfixOfSuffix(s: string, l: string, r: string, i: nat)
    requires i <= |s| && l == s[i..] && |r| <= |l| && r == l[..|r|]
    ensures s[i..i + |r|] == r
  {
    assert s[i..][..|r|] == s[i..i + |r|];
  }

  lemma SpaceInSuffix(s: string, l: string, i: nat, lo: nat)
    requires i <= |s| && l == s[i..] && lo <= |l| && SpaceIn(l, lo, |l|)
    ensures SpaceIn(s, i + lo, |s|)
  {
    forall k | i + lo <= k < |s| ensures IsSpace(s[k]) {
      assert s[k] == l[k - i];
    }
  }

  lemma StripEmpty(s: string)
    ensures RStrip(LStrip(s)) == [] <==> AllSpace(s)
  {
    var l := LStrip(s);
    if RStrip(l) == [] {
      assert l == [];
    }
  }

  /** Stripping twice is stripping once. */
  lemma StripIdempotent(s: string)
    ensures Strip(Strip(s)) == Strip(s)
  {
    var r := Strip(s);
    if r != [] {
      assert LStrip(r) == r;
      assert RStrip(r) == r;
    }
  }
}
