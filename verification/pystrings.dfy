/** The Python `str` operations the library uses: `find`, `in`, `replace`,
    slicing with possibly negative bounds and `split(sep)[0]`. Strings are
    sequences of code points; no encoding is involved. */
module PyStrings {

  /** `pat` occurs in `s` starting at index `i`. */
  predicate OccursAt(s: string, pat: string, i: int) {
    0 <= i && i + |pat| <= |s| && s[i..i + |pat|] == pat
  }

  lemma OccursAtTail(s: string, pat: string, i: int)
    requires |s| > 0 && 0 <= i
    ensures OccursAt(s[1..], pat, i) <==> OccursAt(s, pat, i + 1)
  {
    if i + |pat| <= |s| - 1 {
      assert s[1..][i..i + |pat|] == s[i + 1..i + 1 + |pat|];
    }
  }

  function FindFrom(s: string, pat: string, from: nat): (r: int)
    requires from <= |s|
    ensures r == -1 || (from <= r && OccursAt(s, pat, r))
    ensures r == -1 ==> forall i :: from <= i ==> !OccursAt(s, pat, i)
    ensures r >= 0 ==> forall i :: from <= i < r ==> !OccursAt(s, pat, i)
    decreases |s| - from
  {
    if OccursAt(s, pat, from) then from
    else if from + |pat| >= |s| then
      assert forall i :: from <= i ==> !OccursAt(s, pat, i) by {
        forall i | from < i
          ensures !OccursAt(s, pat, i)
        {
        }
      }
      -1
    else FindFrom(s, pat, from + 1)
  }

  /** `s.find(pat)`: the first index at which `pat` occurs, or -1. */
  function Find(s: string, pat: string): (r: int)
    ensures r == -1 <==> forall i :: 0 <= i ==> !OccursAt(s, pat, i)
    ensures r >= 0 ==> OccursAt(s, pat, r) && forall i :: 0 <= i < r ==> !OccursAt(s, pat, i)
  {
    FindFrom(s, pat, 0)
  }

  /** `pat in s`. */
  predicate Contains(s: string, pat: string) {
    Find(s, pat) >= 0
  }

  /** `s.replace(pat, rep)` for a non-empty `pat`: every occurrence, found
      left to right without overlap, is replaced. */
  function ReplaceAll(s: string, pat: string, rep: string): string
    requires |pat| > 0
    decreases |s|
  {
    if |s| < |pat| then s
    else if s[..|pat|] == pat then rep + ReplaceAll(s[|pat|..], pat, rep)
    else [s[0]] + ReplaceAll(s[1..], pat, rep)
  }

  /** Replacing never invents characters: each one comes from the input or
      from the replacement text. */
  lemma {:induction false} ReplaceAllChars(s: string, pat: string, rep: string, c: char)
    requires |pat| > 0
    requires c in ReplaceAll(s, pat, rep)
    ensures c in s || c in rep
    decreases |s|
  {
    if |s| < |pat| {
    } else if s[..|pat|] == pat {
      if c !in rep {
        ReplaceAllChars(s[|pat|..], pat, rep, c);
      }
    } else {
      if c != s[0] {
        ReplaceAllChars(s[1..], pat, rep, c);
      }
    }
  }

  /** A string in which the pattern does not occur is left as it is. */
  lemma {:induction false} ReplaceAllAbsent(s: string, pat: string, rep: string)
    requires |pat| > 0
    requires forall i :: 0 <= i ==> !OccursAt(s, pat, i)
    ensures ReplaceAll(s, pat, rep) == s
    decreases |s|
  {
    if |s| >= |pat| {
      assert !OccursAt(s, pat, 0);
      forall i | 0 <= i
        ensures !OccursAt(s[1..], pat, i)
      {
        OccursAtTail(s, pat, i);
      }
      ReplaceAllAbsent(s[1..], pat, rep);
      assert s == [s[0]] + s[1..];
    }
  }

  /** Removing a one-character pattern distributes over concatenation: no
      occurrence can straddle the seam. */
  lemma {:induction false} ReplaceCharAppend(a: string, b: string, c: char, rep: string)
    ensures ReplaceAll(a + b, [c], rep) == ReplaceAll(a, [c], rep) + ReplaceAll(b, [c], rep)
    decreases |a|
  {
    if |a| > 0 {
      assert (a + b)[1..] == a[1..] + b;
      assert (a + b)[..1] == a[..1];
      ReplaceCharAppend(a[1..], b, c, rep);
    } else {
      assert a + b == b;
    }
  }

  /** Python's normalisation of a slice bound against a length `n`: a
      negative bound counts from the end, and the result is clamped to
      `0..n`. */
  function SliceBound(i: int, n: nat): (r: nat)
    ensures r <= n
    ensures 0 <= i <= n ==> r == i
    ensures i < 0 && 0 <= i + n ==> r == i + n
  {
    if i < 0 then (if i + n < 0 then 0 else i + n)
    else if i > n then n
    else i
  }

  /** `s[start:stop]`. */
  function PySlice(s: string, start: int, stop: int): (r: string)
    ensures |r| <= |s|
    ensures SliceBound(start, |s|) < SliceBound(stop, |s|) ==> r == s[SliceBound(start, |s|)..SliceBound(stop, |s|)]
    ensures SliceBound(stop, |s|) <= SliceBound(start, |s|) ==> r == ""
  {
    var a := SliceBound(start, |s|);
    var b := SliceBound(stop, |s|);
    if a < b then s[a..b] else ""
  }

  /** `s.split(sep)[0]`: the text before the first occurrence of `sep`, or
      all of `s` when `sep` does not occur. (Python rejects an empty
      separator; the library only splits on a fixed non-empty one.) */
  function SplitFirst(s: string, sep: string): (r: string)
    requires |sep| > 0
    ensures r <= s
    ensures !Contains(s, sep) ==> r == s
    ensures Contains(s, sep) ==> r + sep <= s
    ensures forall i :: 0 <= i ==> !OccursAt(r, sep, i)
  {
    var k := Find(s, sep);
    if k < 0 then s
    else
      assert forall i :: 0 <= i ==> !OccursAt(s[..k], sep, i) by {
        forall i | 0 <= i && OccursAt(s[..k], sep, i)
          ensures false
        {
          assert s[..k][i..i + |sep|] == s[i..i + |sep|];
          assert OccursAt(s, sep, i);
        }
      }
      assert s[..k] + sep == s[..k + |sep|];
      s[..k]
  }

  /** When `pat` occurs right after `p` and nowhere that starts inside `p`,
      `find` reports the end of `p`. */
  lemma FindAfterPrefix(p: string, pat: string, rest: string)
    requires forall i | 0 <= i < |p| :: !OccursAt(p + pat + rest, pat, i)
    ensures Find(p + pat + rest, pat) == |p|
  {
    var s := p + pat + rest;
    assert s[|p|..|p| + |pat|] == pat;
    assert OccursAt(s, pat, |p|);
  }

  /** `split(sep)[0]` of a text whose first separator follows `p` is `p`. */
  lemma SplitFirstAfterPrefix(p: string, sep: string, rest: string)
    requires |sep| > 0
    requires forall i | 0 <= i < |p| :: !OccursAt(p + sep + rest, sep, i)
    ensures SplitFirst(p + sep + rest, sep) == p
  {
    FindAfterPrefix(p, sep, rest);
    assert (p + sep + rest)[..|p|] == p;
  }

  /** A one-character pattern occurs exactly where that character stands. */
  lemma OccursAtChar(s: string, c: char, i: int)
    requires 0 <= i < |s|
    ensures OccursAt(s, [c], i) <==> s[i] == c
  {
    assert s[i..i + 1] == [s[i]];
  }

  /** `find` of a character that `p` lacks, placed right after `p`. */
  lemma FindCharAfterPrefix(p: string, c: char, rest: string)
    requires c !in p
    ensures Find(p + [c] + rest, [c]) == |p|
  {
    var s := p + [c] + rest;
    forall i | 0 <= i < |p|
      ensures !OccursAt(s, [c], i)
    {
      OccursAtChar(s, c, i);
      assert s[i] == p[i];
    }
    FindAfterPrefix(p, [c], rest);
  }

  /** A one-character pattern absent from `s` leaves it as it is. */
  lemma ReplaceCharAbsent(s: string, c: char, rep: string)
    requires c !in s
    ensures ReplaceAll(s, [c], rep) == s
  {
    forall i | 0 <= i
      ensures !OccursAt(s, [c], i)
    {
      if i < |s| {
        OccursAtChar(s, c, i);
      }
    }
    ReplaceAllAbsent(s, [c], rep);
  }

  /** Replacing a character by a text without it removes it everywhere. */
  lemma {:induction false} ReplaceCharRemoves(s: string, c: char, rep: string)
    requires c !in rep
    ensures c !in ReplaceAll(s, [c], rep)
    decreases |s|
  {
    if |s| > 0 {
      ReplaceCharRemoves(s[1..], c, rep);
      if s[..1] != [c] {
        assert s[0] != c;
      }
    }
  }

  /** Scanning passes over a prefix at which no occurrence starts, and
      the replacement goes on from where the prefix ends. */
  lemma {:induction false} ReplaceAllSkip(a: string, b: string, pat: string, rep: string)
    requires |pat| > 0
    requires forall i | 0 <= i < |a| :: !OccursAt(a + b, pat, i)
    ensures ReplaceAll(a + b, pat, rep) == a + ReplaceAll(b, pat, rep)
    decreases |a|
  {
    if |a| > 0 {
      var s := a + b;
      if |s| < |pat| {
        assert ReplaceAll(b, pat, rep) == b;
      } else {
        assert !OccursAt(s, pat, 0);
        assert s[..|pat|] != pat;
        assert ReplaceAll(s, pat, rep) == [s[0]] + ReplaceAll(s[1..], pat, rep);
        assert s[1..] == a[1..] + b;
        forall i | 0 <= i < |a| - 1
          ensures !OccursAt(a[1..] + b, pat, i)
        {
          OccursAtTail(s, pat, i);
        }
        ReplaceAllSkip(a[1..], b, pat, rep);
        assert [s[0]] + (a[1..] + ReplaceAll(b, pat, rep)) == a + ReplaceAll(b, pat, rep);
      }
    } else {
      assert a + b == b;
    }
  }
}
