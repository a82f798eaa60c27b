/** The few functions of Go's `strings` package the setup code relies on:
    `Index`, `TrimRight(s, "\n")`, `TrimSpace` (over the ASCII white-space set)
    and `Split` / `Join` with the separator "\n". */
module Text {

  /** `pat` occurs in `s` starting at position `i`. */
  predicate OccursAt(s: string, pat: string, i: int)
  {
    0 <= i && i + |pat| <= |s| && s[i..i + |pat|] == pat
  }

  /** `pat` occurs nowhere in `s`. */
  ghost predicate Absent(s: string, pat: string)
  {
    forall j :: !OccursAt(s, pat, j)
  }

  lemma OccursInTail(s: string, pat: string, j: nat)
    requires |s| > 0
    ensures OccursAt(s[1..], pat, j) <==> OccursAt(s, pat, j + 1)
  {
    if j + |pat| <= |s| - 1 {
      assert s[1..][j..j + |pat|] == s[j + 1..j + 1 + |pat|];
    }
  }

  /** strings.Index: the position of the first occurrence of `pat` in `s`, or -1. */
  function IndexOf(s: string, pat: string): (r: int)
    ensures r == -1 || OccursAt(s, pat, r)
    ensures forall j :: 0 <= j && (r == -1 || j < r) ==> !OccursAt(s, pat, j)
    decreases |s|
  {
    if |s| < |pat| then -1
    else if s[..|pat|] == pat then 0
    else
      var k := IndexOf(s[1..], pat);
      forall j | 1 <= j ensures OccursAt(s, pat, j) <==> OccursAt(s[1..], pat, j - 1) {
        OccursInTail(s, pat, j - 1);
      }
      assert !OccursAt(s, pat, 0);
      if k == -1 then -1 else k + 1
  }

  /** An occurrence inside a slice is an occurrence in the whole string, shifted. */
  lemma OccursInSlice(s: string, pat: string, lo: int, hi: int, j: nat)
    requires 0 <= lo <= hi <= |s|
    ensures OccursAt(s[lo..hi], pat, j) ==> OccursAt(s, pat, lo + j)
    ensures OccursAt(s, pat, lo + j) && lo + j + |pat| <= hi ==> OccursAt(s[lo..hi], pat, j)
  {
    if j + |pat| <= hi - lo {
      var a, b := s[lo..hi][j..j + |pat|], s[lo + j..lo + j + |pat|];
      assert |a| == |b| && forall k :: 0 <= k < |a| ==> a[k] == s[lo + j + k] == b[k];
    }
  }

  /** strings.TrimRight(s, "\n"): `s` without its trailing newlines. */
  function TrimRightNewlines(s: string): (r: string)
    ensures |r| <= |s| && r == s[..|r|]
    ensures r == [] || r[|r| - 1] != '\n'
    ensures forall i :: |r| <= i < |s| ==> s[i] == '\n'
    decreases |s|
  {
    if |s| > 0 && s[|s| - 1] == '\n' then TrimRightNewlines(s[..|s| - 1]) else s
  }

  /** The white space strings.TrimSpace removes, restricted to ASCII. */
  predicate IsSpace(c: char)
  {
    c == ' ' || c == '\t' || c == '\n' || c == '\r' || c == '\U{000B}' || c == '\U{000C}'
  }

  /** Every character of `s` is white space. */
  predicate Blank(s: string)
  {
    forall i :: 0 <= i < |s| ==> IsSpace(s[i])
  }

  function TrimLeftSpace(s: string): (r: string)
    ensures |r| <= |s| && r == s[|s| - |r|..]
    ensures r == [] || !IsSpace(r[0])
    ensures forall i :: 0 <= i < |s| - |r| ==> IsSpace(s[i])
    decreases |s|
  {
    if |s| > 0 && IsSpace(s[0]) then TrimLeftSpace(s[1..]) else s
  }

  function TrimRightSpace(s: string): (r: string)
    ensures |r| <= |s| && r == s[..|r|]
    ensures r == [] || !IsSpace(r[|r| - 1])
    ensures forall i :: |r| <= i < |s| ==> IsSpace(s[i])
    decreases |s|
  {
    if |s| > 0 && IsSpace(s[|s| - 1]) then TrimRightSpace(s[..|s| - 1]) else s
  }

  /** strings.TrimSpace: empty exactly when the input is all white space. */
  function TrimSpace(s: string): (r: string)
    ensures r == "" <==> Blank(s)
  {
    var t := TrimRightSpace(s);
    var u := TrimLeftSpace(t);
    assert Blank(s) <==> Blank(t) by {
      assert forall i :: 0 <= i < |t| ==> s[i] == t[i];
    }
    u
  }

  /** strings.Join(ls, "\n"). */
  function JoinLines(ls: seq<string>): string
  {
    if |ls| == 0 then ""
    else if |ls| == 1 then ls[0]
    else ls[0] + "\n" + JoinLines(ls[1..])
  }

  /** The line contains no line break. */
  predicate SingleLine(line: string)
  {
    '\n' !in line
  }

  lemma NewlineOccurrence(s: string, j: int)
    ensures OccursAt(s, "\n", j) <==> (0 <= j < |s| && s[j] == '\n')
  {
    if 0 <= j < |s| {
      assert s[j..j + 1] == [s[j]];
    }
  }

  /** strings.Split(s, "\n"): the pieces between line breaks; there is always at least one. */
  function SplitLines(s: string): (r: seq<string>)
    ensures |r| >= 1
    ensures forall k :: 0 <= k < |r| ==> SingleLine(r[k])
    ensures JoinLines(r) == s
    decreases |s|
  {
    var i := IndexOf(s, "\n");
    if i == -1 then
      assert SingleLine(s) by {
        forall j | 0 <= j < |s| ensures s[j] != '\n' {
          NewlineOccurrence(s, j);
        }
      }
      [s]
    else
      NewlineOccurrence(s, i);
      assert SingleLine(s[..i]) by {
        forall j | 0 <= j < i ensures s[j] != '\n' {
          NewlineOccurrence(s, j);
        }
      }
      var rest := SplitLines(s[i + 1..]);
      assert s == s[..i] + "\n" + s[i + 1..];
      [s[..i]] + rest
  }

  /** Splitting a join of single lines gives the lines back (`Split` after `Join`). */
  lemma {:induction false} SplitJoin(ls: seq<string>)
    requires |ls| >= 1
    requires forall k :: 0 <= k < |ls| ==> SingleLine(ls[k])
    ensures SplitLines(JoinLines(ls)) == ls
  {
    var s := JoinLines(ls);
    var line := ls[0];
    if |ls| == 1 {
      forall j ensures !OccursAt(s, "\n", j) {
        NewlineOccurrence(s, j);
      }
      assert IndexOf(s, "\n") == -1;
    } else {
      var tail := JoinLines(ls[1..]);
      assert s == line + "\n" + tail;
      forall j | 0 <= j < |line| ensures !OccursAt(s, "\n", j) {
        NewlineOccurrence(s, j);
        assert s[j] == line[j];
      }
      NewlineOccurrence(s, |line|);
      assert IndexOf(s, "\n") == |line|;
      assert s[..|line|] == line;
      assert s[|line| + 1..] == tail;
      SplitJoin(ls[1..]);
    }
  }

  /** No occurrence of a pattern without line breaks spans a line break of `JoinLines`. */
  lemma {:induction false} JoinAbsent(ls: seq<string>, pat: string)
    requires |pat| >= 1 && SingleLine(pat)
    requires forall k :: 0 <= k < |ls| ==> SingleLine(ls[k]) && Absent(ls[k], pat)
    ensures Absent(JoinLines(ls), pat)
  {
    if |ls| > 1 {
      var s := JoinLines(ls);
      var head := ls[0];
      var tail := JoinLines(ls[1..]);
      JoinAbsent(ls[1..], pat);
      assert s == head + "\n" + tail;
      forall j: int ensures !OccursAt(s, pat, j) {
        if j < 0 {
        } else if j + |pat| <= |head| {
          OccursInSlice(s, pat, 0, |head|, j);
          assert s[0..|head|] == head;
        } else if j <= |head| {
          // such an occurrence would cover the line break at |head|
          if j + |pat| <= |s| {
            assert s[j..j + |pat|][|head| - j] == '\n';
          }
        } else {
          OccursInSlice(s, pat, |head| + 1, |s|, j - |head| - 1);
          assert s[|head| + 1..|s|] == tail;
        }
      }
    }
  }

  /** An occurrence inside a prefix is an occurrence in the whole string. */
  lemma AbsentPrefix(s: string, pat: string, k: nat)
    requires k <= |s| && Absent(s, pat)
    ensures Absent(s[..k], pat)
  {
    forall j: nat ensures !OccursAt(s[..k], pat, j) {
      OccursInSlice(s, pat, 0, k, j);
    }
  }

  /** No occurrence starts before `k`: none in the prefix of length `k`. */
  lemma AbsentBefore(s: string, pat: string, k: nat)
    requires k <= |s| && |pat| >= 1
    requires forall j :: 0 <= j < k ==> !OccursAt(s, pat, j)
    ensures Absent(s[..k], pat)
  {
    forall j: nat ensures !OccursAt(s[..k], pat, j) {
      OccursInSlice(s, pat, 0, k, j);
      assert s[0..k] == s[..k];
    }
  }

  /** No occurrence starts at or after `k`: none in the suffix from `k`. */
  lemma AbsentFrom(s: string, pat: string, k: nat)
    requires k <= |s|
    requires forall j :: k <= j ==> !OccursAt(s, pat, j)
    ensures Absent(s[k..], pat)
  {
    forall j: nat ensures !OccursAt(s[k..], pat, j) {
      OccursInSlice(s, pat, k, |s|, j);
      assert s[k..|s|] == s[k..];
    }
  }

  /** Dropping fewer elements than the first part holds. */
  lemma DropFront<T>(a: seq<T>, b: seq<T>, n: nat)
    requires n <= |a|
    ensures (a + b)[n..] == a[n..] + b
  {
  }

  /** A slice inside the second part of a concatenation. */
  lemma SliceOfSecond<T>(a: seq<T>, b: seq<T>, i: nat, j: nat)
    requires |a| <= i <= j <= |a| + |b|
    ensures (a + b)[i..j] == b[i - |a|..j - |a|]
  {
  }

  /** A slice inside the first part of a concatenation. */
  lemma SliceOfFirst<T>(a: seq<T>, b: seq<T>, i: nat, j: nat)
    requires i <= j <= |a|
    ensures (a + b)[i..j] == a[i..j]
  {
  }

  /** An occurrence at or after `lo` would be one in the suffix from `lo`. */
  lemma NoneFrom(s: string, pat: string, lo: nat)
    requires lo <= |s| && Absent(s[lo..], pat)
    ensures forall j :: lo <= j ==> !OccursAt(s, pat, j)
  {
    forall j | lo <= j ensures !OccursAt(s, pat, j) {
      OccursInSlice(s, pat, lo, |s|, j - lo);
      assert s[lo..|s|] == s[lo..];
    }
  }

  /** Appended after a line break to a text without it, a pattern is first found right after the break. */
  lemma FoundAfterBreak(t: string, sec: string, pat: string)
    requires |pat| >= 1 && SingleLine(pat) && Absent(t, pat)
    requires |sec| >= 1 + |pat| && sec[0] == '\n' && sec[1..1 + |pat|] == pat
    ensures IndexOf(t + sec, pat) == |t| + 1
  {
    FirstAfterBreak(t, sec, pat);
    SliceOfSecond(t, sec, |t| + 1, |t| + 1 + |pat|);
    IndexOfIs(t + sec, pat, |t| + 1);
  }

  /** A pattern without line breaks that is absent from `a` cannot start in `a`
      (or right after it) when `b` begins with a line break. */
  lemma FirstAfterBreak(a: string, b: string, pat: string)
    requires |pat| >= 1 && SingleLine(pat) && Absent(a, pat)
    requires |b| >= 1 && b[0] == '\n'
    ensures forall j :: j <= |a| ==> !OccursAt(a + b, pat, j)
  {
    var s := a + b;
    forall j | 0 <= j <= |a| ensures !OccursAt(s, pat, j) {
      if j + |pat| <= |a| {
        OccursInSlice(s, pat, 0, |a|, j);
        assert s[..|a|] == a;
      } else if j + |pat| <= |s| {
        assert s[j..j + |pat|][|a| - j] == s[|a|] == '\n';
      }
    }
  }

  /** Absence survives concatenation across a line break. */
  lemma AbsentAcrossBreak(a: string, b: string, pat: string)
    requires |pat| >= 1 && SingleLine(pat) && Absent(a, pat) && Absent(b, pat)
    requires b == [] || b[0] == '\n'
    ensures Absent(a + b, pat)
  {
    var s := a + b;
    if b == [] {
      assert s == a;
    } else {
      FirstAfterBreak(a, b, pat);
      forall j | j > |a| ensures !OccursAt(s, pat, j) {
        OccursInSlice(s, pat, |a|, |s|, j - |a|);
        assert s[|a|..|s|] == b;
      }
    }
  }

  /** A prefix one longer is the shorter prefix and one more element. */
  lemma TakeOneMore<T>(s: seq<T>, n: nat)
    requires n < |s|
    ensures s[..n + 1] == s[..n] + [s[n]]
  {
  }

  lemma TakeAll<T>(s: seq<T>)
    ensures s[..|s|] == s
  {
  }

  /** A two-character pattern occurs where its two characters do. */
  lemma OccursPair(s: string, pat: string, i: int)
    requires |pat| == 2
    ensures OccursAt(s, pat, i) <==> 0 <= i && i + 2 <= |s| && s[i] == pat[0] && s[i + 1] == pat[1]
  {
    if 0 <= i && i + 2 <= |s| {
      assert s[i..i + 2][0] == s[i] && s[i..i + 2][1] == s[i + 1];
      if s[i] == pat[0] && s[i + 1] == pat[1] {
        assert s[i..i + 2] == pat;
      }
    }
  }

  /** The first occurrence is what IndexOf finds. */
  lemma IndexOfIs(s: string, pat: string, i: int)
    requires OccursAt(s, pat, i)
    requires forall j :: 0 <= j < i ==> !OccursAt(s, pat, j)
    ensures IndexOf(s, pat) == i
  {
  }

  /** A string that does not end in a line break loses exactly one appended line break. */
  lemma TrimOneNewline(t: string)
    requires t == [] || t[|t| - 1] != '\n'
    ensures TrimRightNewlines(t + "\n") == t
    ensures TrimRightNewlines(t) == t
  {
    assert (t + "\n")[..|t|] == t;
  }
}
