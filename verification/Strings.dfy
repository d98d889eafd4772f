/** The parts of Go's `strings` package that the broker relies on. */
module Strings {
  import opened Types

  // ---------------------------------------------------------------- Split and Join

  /** `strings.Split(s, sep)` for a separator of one character. */
  function Split(s: string, sep: char): (parts: seq<string>)
    ensures |parts| >= 1
  {
    if s == "" then [""]
    else
      var rest := Split(s[1..], sep);
      if s[0] == sep then [""] + rest else [[s[0]] + rest[0]] + rest[1..]
  }

  /** `strings.Join(parts, sep)` for a separator of one character. */
  function Join(parts: seq<string>, sep: char): string
  {
    if |parts| == 0 then ""
    else if |parts| == 1 then parts[0]
    else parts[0] + [sep] + Join(parts[1..], sep)
  }

  /** No part contains the separator. */
  ghost predicate SeparatorFree(parts: seq<string>, sep: char)
  {
    forall i :: 0 <= i < |parts| ==> sep !in parts[i]
  }

  lemma {:induction false} SplitIsSeparatorFree(s: string, sep: char)
    ensures SeparatorFree(Split(s, sep), sep)
  {
    if s == "" {
    } else {
      SplitIsSeparatorFree(s[1..], sep);
      var rest := Split(s[1..], sep);
      if s[0] != sep {
        assert Split(s, sep)[0] == [s[0]] + rest[0];
        forall i | 1 <= i < |Split(s, sep)| ensures sep !in Split(s, sep)[i] {
          assert Split(s, sep)[i] == rest[i];
        }
      }
    }
  }

  /** Prepending a character to the first part prepends it to the joined text. */
  lemma JoinExtendFirst(c: char, parts: seq<string>, sep: char)
    requires |parts| >= 1
    ensures Join([[c] + parts[0]] + parts[1..], sep) == [c] + Join(parts, sep)
  {
    var extended := [[c] + parts[0]] + parts[1..];
    assert extended[1..] == parts[1..];
    if |parts| > 1 {
      assert Join(extended, sep) == ([c] + parts[0]) + [sep] + Join(parts[1..], sep);
      assert Join(parts, sep) == parts[0] + [sep] + Join(parts[1..], sep);
    }
  }

  lemma {:induction false} JoinSplit(s: string, sep: char)
    ensures Join(Split(s, sep), sep) == s
  {
    if s == "" {
    } else {
      JoinSplit(s[1..], sep);
      var rest := Split(s[1..], sep);
      if s[0] == sep {
        assert ([""] + rest)[1..] == rest;
        assert Join([""] + rest, sep) == "" + [sep] + Join(rest, sep);
      } else {
        JoinExtendFirst(s[0], rest, sep);
      }
      assert s == [s[0]] + s[1..];
    }
  }

  /** Splitting text that starts with a separator-free part and a separator peels that part off. */
  lemma {:induction false} SplitPeel(part: string, rest: string, sep: char)
    requires sep !in part
    ensures Split(part + [sep] + rest, sep) == [part] + Split(rest, sep)
  {
    var whole := part + [sep] + rest;
    if part == "" {
      assert whole[1..] == rest;
    } else {
      assert whole[1..] == part[1..] + [sep] + rest;
      SplitPeel(part[1..], rest, sep);
      assert [part[0]] + part[1..] == part;
    }
  }

  lemma {:induction false} SplitWhole(part: string, sep: char)
    requires sep !in part
    ensures Split(part, sep) == [part]
  {
    if part == "" {
    } else {
      SplitWhole(part[1..], sep);
      assert [part[0]] + part[1..] == part;
    }
  }

  lemma {:induction false} SplitJoin(parts: seq<string>, sep: char)
    requires |parts| >= 1
    requires SeparatorFree(parts, sep)
    ensures Split(Join(parts, sep), sep) == parts
  {
    if |parts| == 1 {
      SplitWhole(parts[0], sep);
    } else {
      SplitJoin(parts[1..], sep);
      SplitPeel(parts[0], Join(parts[1..], sep), sep);
    }
  }

  function Count(s: string, c: char): nat
  {
    if s == "" then 0 else (if s[0] == c then 1 else 0) + Count(s[1..], c)
  }

  lemma {:induction false} SplitCounts(s: string, sep: char)
    ensures |Split(s, sep)| == Count(s, sep) + 1
  {
    if s == "" {
    } else {
      SplitCounts(s[1..], sep);
    }
  }

  // ---------------------------------------------------------------- Substrings

  predicate OccursAt(s: string, w: string, i: nat)
  {
    i + |w| <= |s| && s[i..i + |w|] == w
  }

  ghost predicate Occurs(s: string, w: string)
  {
    exists i :: OccursAt(s, w, i)
  }

  /** The first index of `w` in `s`, as `strings.Index` finds it. */
  function FirstIndex(s: string, w: string): (r: Option<nat>)
    ensures r.Some? ==> OccursAt(s, w, r.value) && forall j: nat :: j < r.value ==> !OccursAt(s, w, j)
    ensures r.None? ==> forall j: nat :: !OccursAt(s, w, j)
  {
    if |s| < |w| then None
    else if s[..|w|] == w then Some(0)
    else
      assert forall j: nat :: OccursAt(s, w, j) ==> j > 0 && OccursAt(s[1..], w, j - 1) by {
        forall j: nat | OccursAt(s, w, j) ensures j > 0 && OccursAt(s[1..], w, j - 1) {
          if j > 0 {
            assert s[1..][j - 1..j - 1 + |w|] == s[j..j + |w|];
          }
        }
      }
      match FirstIndex(s[1..], w)
      case None => None
      case Some(i) =>
        assert s[1..][i..i + |w|] == s[i + 1..i + 1 + |w|];
        Some(i + 1)
  }

  /** `strings.Replace(s, w, "", 1)` for a non-empty `w`. */
  function RemoveFirst(s: string, w: string): string
    requires w != ""
  {
    match FirstIndex(s, w)
    case None => s
    case Some(i) => s[..i] + s[i + |w|..]
  }

  /** No proper prefix of `w` is also a suffix of it: two occurrences of `w` never overlap. */
  ghost predicate Unbordered(w: string)
  {
    forall k :: 0 < k < |w| ==> w[..k] != w[|w| - k..]
  }

  /** A word whose first character occurs only once is unbordered. */
  lemma UniqueHeadUnbordered(w: string)
    requires w != ""
    requires w[0] !in w[1..]
    ensures Unbordered(w)
  {
    forall k | 0 < k < |w| ensures w[..k] != w[|w| - k..] {
      assert w[..k][0] == w[0];
      assert w[|w| - k..][0] == w[|w| - k] == w[1..][|w| - k - 1];
    }
  }

  /** An occurrence of `w` across the seam of `s + w` exhibits a border of `w`. */
  lemma SeamIsBorder(s: string, w: string, i: nat)
    requires i < |s| < i + |w|
    requires OccursAt(s + w, w, i)
    ensures !Unbordered(w)
  {
    var k := i + |w| - |s|;
    assert w[|w| - k..] == (s + w)[i..i + |w|][|w| - k..] == w[..k];
  }

  /** In `s + w` with `w` unbordered, `w` occurs inside `s` or at the end: never across the seam. */
  lemma NoSeamOccurrence(s: string, w: string, i: nat)
    requires Unbordered(w)
    requires OccursAt(s + w, w, i)
    requires i < |s|
    ensures OccursAt(s, w, i)
  {
    if i + |w| > |s| {
      SeamIsBorder(s, w, i);
    } else {
      assert (s + w)[i..i + |w|] == s[i..i + |w|];
    }
  }

  /** `v` is `w` written zero or more times. */
  predicate Repeats(v: string, w: string)
    requires w != ""
    decreases |v|
  {
    v == "" || (OccursAt(v, w, 0) && Repeats(v[|w|..], w))
  }

  lemma ShortCommuteIsBorder(v: string, w: string)
    requires 0 < |v| < |w|
    requires v + w == w + v
    ensures !Unbordered(w)
  {
    var k := |v|;
    assert w[..k] == (w + v)[..k] == (v + w)[..k] == v;
    assert w[|w| - k..] == (v + w)[|w|..] == (w + v)[|w|..] == v;
  }

  /** A word commutes with an unbordered `w` exactly when it repeats `w`. */
  lemma {:induction false} CommutesIffRepeats(v: string, w: string)
    requires Unbordered(w) && w != ""
    ensures v + w == w + v <==> Repeats(v, w)
    decreases |v|
  {
    if v == "" {
      assert v + w == w == w + v;
    } else if |v| < |w| {
      if v + w == w + v {
        ShortCommuteIsBorder(v, w);
      }
    } else {
      assert (v + w)[..|w|] == v[..|w|] && (w + v)[..|w|] == w;
      if OccursAt(v, w, 0) {
        var u := v[|w|..];
        assert v == w + u;
        CommutesIffRepeats(u, w);
        assert v + w == w + (u + w);
        assert (w + (u + w))[|w|..] == u + w && (w + v)[|w|..] == v == w + u;
      }
    }
  }

  lemma CutOut(t: string, i: nat, n: nat)
    requires i + n <= |t|
    ensures t[i..] == t[i..i + n] + t[i + n..]
  {
  }

  lemma CutInside(s: string, w: string, i: nat)
    requires i <= |s|
    ensures (s + w)[i..] == s[i..] + w && (s + w)[..i] == s[..i]
  {
  }

  lemma SamePrefix(p: string, a: string, b: string)
    ensures p + a == p + b <==> a == b
  {
    assert (p + a)[|p|..] == a && (p + b)[|p|..] == b;
  }

  /** Cutting `w` out of `s + w` at `i` shifts the rest of `s` left and keeps the `w` at the end. */
  lemma CutLeaves(s: string, w: string, i: nat)
    requires i <= |s| && OccursAt(s + w, w, i)
    ensures s[i..] + w == w + (s + w)[i + |w|..]
  {
    CutOut(s + w, i, |w|);
    CutInside(s, w, i);
  }

  /** Exactly when removing the first `w` from `s + w` gives `s` back, for every `w`: the part of `s` from
      that first `w` on commutes with `w`. */
  lemma RemoveFirstRestores(s: string, w: string) returns (i: nat)
    requires w != ""
    ensures FirstIndex(s + w, w) == Some(i) && i <= |s|
    ensures RemoveFirst(s + w, w) == s <==> s[i..] + w == w + s[i..]
  {
    assert OccursAt(s + w, w, |s|);
    i := FirstIndex(s + w, w).value;
    var tail := (s + w)[i + |w|..];
    CutLeaves(s, w, i);
    CutInside(s, w, i);
    CutOut(s, 0, i);
    SamePrefix(w, tail, s[i..]);
    SamePrefix(s[..i], tail, s[i..]);
  }

  lemma FirstIndexAtEnd(s: string, w: string)
    requires w != "" && Unbordered(w)
    requires FirstIndex(s, w).None?
    ensures FirstIndex(s + w, w) == Some(|s|)
  {
    assert OccursAt(s + w, w, |s|);
    var k := FirstIndex(s + w, w).value;
    if k < |s| {
      NoSeamOccurrence(s, w, k);
    }
  }

  lemma StillOccursAt(s: string, w: string, i: nat)
    requires OccursAt(s, w, i)
    ensures OccursAt(s + w, w, i)
  {
    assert (s + w)[i..i + |w|] == s[i..i + |w|];
  }

  lemma FirstIndexInside(s: string, w: string, i: nat)
    requires w != "" && Unbordered(w)
    requires FirstIndex(s, w) == Some(i)
    ensures FirstIndex(s + w, w) == Some(i)
  {
    StillOccursAt(s, w, i);
    NoSeamOccurrence(s, w, FirstIndex(s + w, w).value);
  }

  /** For an unbordered `w` the part of `s` from its first `w` on must be nothing but repetitions of `w`. */
  lemma RemoveFirstRestoresUnbordered(s: string, w: string)
    requires w != "" && Unbordered(w)
    ensures RemoveFirst(s + w, w) == s
            <==> match FirstIndex(s, w) case None => true case Some(i) => Repeats(s[i..], w)
  {
    var i := RemoveFirstRestores(s, w);
    match FirstIndex(s, w)
    case None => FirstIndexAtEnd(s, w);
    case Some(k) =>
      FirstIndexInside(s, w, k);
      CommutesIffRepeats(s[i..], w);
  }

  // ---------------------------------------------------------------- White space

  /** `unicode.IsSpace`. */
  predicate IsSpace(c: char)
  {
    var n := c as int;
    || 0x09 <= n <= 0x0d || n == 0x20 || n == 0x85 || n == 0xa0 || n == 0x1680
    || 0x2000 <= n <= 0x200a || n == 0x2028 || n == 0x2029 || n == 0x202f || n == 0x205f || n == 0x3000
  }

  /** The white space characters, one by one. */
  lemma IsSpaceIff(c: char)
    ensures IsSpace(c)
            <==> || c == '\t' || c == '\n' || c == '\U{0B}' || c == '\U{0C}' || c == '\r' || c == ' '
                 || c == '\U{85}' || c == '\U{A0}' || c == '\U{1680}'
                 || c == '\U{2000}' || c == '\U{2001}' || c == '\U{2002}' || c == '\U{2003}' || c == '\U{2004}'
                 || c == '\U{2005}' || c == '\U{2006}' || c == '\U{2007}' || c == '\U{2008}' || c == '\U{2009}'
                 || c == '\U{200A}' || c == '\U{2028}' || c == '\U{2029}' || c == '\U{202F}' || c == '\U{205F}'
                 || c == '\U{3000}'
  {
  }

  function TrimLeft(s: string): string
  {
    if s != "" && IsSpace(s[0]) then TrimLeft(s[1..]) else s
  }

  function TrimRight(s: string): string
  {
    if s != "" && IsSpace(s[|s| - 1]) then TrimRight(s[..|s| - 1]) else s
  }

  /** `strings.TrimSpace`. */
  function TrimSpace(s: string): string
  {
    TrimRight(TrimLeft(s))
  }

  /** The text has no white space at either end. */
  predicate Trimmed(s: string)
  {
    s != "" ==> !IsSpace(s[0]) && !IsSpace(s[|s| - 1])
  }

  lemma {:induction false} TrimLeftSuffix(s: string) returns (i: nat)
    ensures i <= |s| && TrimLeft(s) == s[i..]
    ensures forall k :: 0 <= k < i ==> IsSpace(s[k])
    ensures i < |s| ==> !IsSpace(s[i])
  {
    if s != "" && IsSpace(s[0]) {
      var j := TrimLeftSuffix(s[1..]);
      i := j + 1;
      assert s[1..][j..] == s[i..];
      assert forall k :: 1 <= k < i ==> s[k] == s[1..][k - 1];
    } else {
      i := 0;
    }
  }

  lemma {:induction false} TrimRightPrefix(s: string) returns (j: nat)
    ensures j <= |s| && TrimRight(s) == s[..j]
    ensures forall k :: j <= k < |s| ==> IsSpace(s[k])
    ensures 0 < j ==> !IsSpace(s[j - 1])
  {
    if s != "" && IsSpace(s[|s| - 1]) {
      var t := s[..|s| - 1];
      j := TrimRightPrefix(t);
      assert t[..j] == s[..j];
      assert forall k :: j <= k < |t| ==> s[k] == t[k];
    } else {
      j := |s|;
    }
  }

  /** Trimming removes exactly the white space at the two ends. */
  lemma TrimSpaceMeaning(s: string) returns (i: nat, j: nat)
    ensures i <= j <= |s| && TrimSpace(s) == s[i..j]
    ensures forall k :: 0 <= k < i || j <= k < |s| ==> IsSpace(s[k])
    ensures Trimmed(TrimSpace(s))
  {
    i := TrimLeftSuffix(s);
    var t := s[i..];
    var m := TrimRightPrefix(t);
    j := i + m;
    assert t[..m] == s[i..j];
    assert forall k :: j <= k < |s| ==> s[k] == t[k - i];
  }

  /** Trimmed text is left alone. */
  lemma TrimmedIsFixed(s: string)
    requires Trimmed(s)
    ensures TrimSpace(s) == s
  {
  }
}
