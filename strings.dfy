/**
 The small pieces of Python's `str` behaviour that the pipeline relies on:
 `startswith`/`endswith`, `replace` (every non-overlapping occurrence, scanned
 left to right) and `join`.
 */
module Strings {

  predicate StartsWith(s: string, prefix: string)
  {
    |prefix| <= |s| && s[..|prefix|] == prefix
  }

  predicate EndsWith(s: string, suffix: string)
  {
    |suffix| <= |s| && s[|s| - |suffix|..] == suffix
  }

  /** `s.startswith(prefix)` holds exactly when `s` is `prefix` followed by something. */
  lemma StartsWithSplit(s: string, prefix: string)
    ensures StartsWith(s, prefix) <==> |prefix| <= |s| && s == prefix + s[|prefix|..]
  {
    if |prefix| <= |s| && s == prefix + s[|prefix|..] {
      assert s[..|prefix|] == (prefix + s[|prefix|..])[..|prefix|];
    }
  }

  lemma StartsWithAppend(prefix: string, rest: string)
    ensures StartsWith(prefix + rest, prefix)
  {
    assert (prefix + rest)[..|prefix|] == prefix;
  }

  /** `s.endswith(suffix)` holds exactly when `s` is something followed by `suffix`. */
  lemma EndsWithSplit(s: string, suffix: string)
    ensures EndsWith(s, suffix) <==> |suffix| <= |s| && s == s[..|s| - |suffix|] + suffix
  {
    if |suffix| <= |s| && s == s[..|s| - |suffix|] + suffix {
      assert s[|s| - |suffix|..] == (s[..|s| - |suffix|] + suffix)[|s| - |suffix|..];
    }
  }

  lemma EndsWithAppend(front: string, suffix: string)
    ensures EndsWith(front + suffix, suffix)
  {
    assert (front + suffix)[|front|..] == suffix;
  }

  /** `sub` occurs in `s` starting at index `i`. */
  predicate OccursAt(s: string, sub: string, i: int)
  {
    0 <= i && i + |sub| <= |s| && s[i..i + |sub|] == sub
  }

  predicate Occurs(s: string, sub: string)
  {
    exists i | 0 <= i <= |s| :: OccursAt(s, sub, i)
  }

  /** Python's `s.replace(pat, rep)`: every occurrence of `pat`, found by a
      left-to-right scan that resumes after each replaced occurrence. */
  function ReplaceAll(s: string, pat: string, rep: string): string
    requires pat != []
    decreases |s|
  {
    if |s| < |pat| then s
    else if s[..|pat|] == pat then rep + ReplaceAll(s[|pat|..], pat, rep)
    else [s[0]] + ReplaceAll(s[1..], pat, rep)
  }

  /** Python's `sep.join(xs)`. */
  function Join(xs: seq<string>, sep: string): string
  {
    if |xs| == 0 then ""
    else if |xs| == 1 then xs[0]
    else xs[0] + sep + Join(xs[1..], sep)
  }

  /** A string in which `pat` does not occur is left alone by `replace`. */
  lemma {:induction false} ReplaceAbsent(s: string, pat: string, rep: string)
    requires pat != []
    requires !Occurs(s, pat)
    ensures ReplaceAll(s, pat, rep) == s
    decreases |s|
  {
    if |s| >= |pat| {
      assert !OccursAt(s, pat, 0);
      assert !Occurs(s[1..], pat) by {
        forall i | OccursAt(s[1..], pat, i) ensures false {
          assert s[1..][i..i + |pat|] == s[i + 1..i + 1 + |pat|];
          assert OccursAt(s, pat, i + 1);
        }
      }
      ReplaceAbsent(s[1..], pat, rep);
    }
  }

  /** A string without the first character of `pat` has no occurrence of it. */
  lemma AbsentByFirstChar(s: string, pat: string)
    requires pat != []
    requires forall i :: 0 <= i < |s| ==> s[i] != pat[0]
    ensures !Occurs(s, pat)
  {
    forall i | 0 <= i <= |s| && i + |pat| <= |s| ensures !OccursAt(s, pat, i) {
      assert s[i..i + |pat|][0] == s[i];
    }
  }

  /** Where `pat` does not start `s`, the scan copies one character. */
  lemma ReplaceStep(s: string, pat: string, rep: string)
    requires pat != [] && s != []
    requires !StartsWith(s, pat)
    ensures ReplaceAll(s, pat, rep) == [s[0]] + ReplaceAll(s[1..], pat, rep)
  {
  }

  /** When `pat` cannot overlap itself (its first character does not occur
      again in it), an occurrence of `pat` right after `p` is always one of the
      replaced occurrences, whatever precedes it, and the scan resumes right
      after it. */
  lemma {:induction false} ReplaceThrough(p: string, pat: string, rep: string, q: string)
    requires pat != []
    requires forall k :: 0 < k < |pat| ==> pat[k] != pat[0]
    ensures ReplaceAll(p + pat + q, pat, rep) == ReplaceAll(p, pat, rep) + rep + ReplaceAll(q, pat, rep)
    decreases |p|
  {
    if p == [] {
      assert p + pat + q == pat + q;
      ReplaceFront(pat, rep, q);
    } else if StartsWith(p, pat) {
      var p' := p[|pat|..];
      assert p == pat + p';
      ReplaceThrough(p', pat, rep, q);
      ThroughFront(p', pat, rep, q);
    } else {
      ReplaceThrough(p[1..], pat, rep, q);
      ThroughStep(p, pat, rep, q);
    }
  }

  /** The step of `ReplaceThrough` where `p` itself starts with `pat`. */
  lemma ThroughFront(p': string, pat: string, rep: string, q: string)
    requires pat != []
    requires ReplaceAll(p' + pat + q, pat, rep) == ReplaceAll(p', pat, rep) + rep + ReplaceAll(q, pat, rep)
    ensures ReplaceAll(pat + p' + pat + q, pat, rep) == ReplaceAll(pat + p', pat, rep) + rep + ReplaceAll(q, pat, rep)
  {
    var x := p' + pat + q;
    Nest(pat, p', pat, q);
    ReplaceFront(pat, rep, x);
    ReplaceFront(pat, rep, p');
    Regroup(rep, ReplaceAll(p', pat, rep), rep, ReplaceAll(q, pat, rep));
  }

  /** The step of `ReplaceThrough` where the scan copies the first character of `p`. */
  lemma ThroughStep(p: string, pat: string, rep: string, q: string)
    requires pat != [] && p != []
    requires forall k :: 0 < k < |pat| ==> pat[k] != pat[0]
    requires !StartsWith(p, pat)
    requires ReplaceAll(p[1..] + pat + q, pat, rep) == ReplaceAll(p[1..], pat, rep) + rep + ReplaceAll(q, pat, rep)
    ensures ReplaceAll(p + pat + q, pat, rep) == ReplaceAll(p, pat, rep) + rep + ReplaceAll(q, pat, rep)
  {
    var s := p + pat + q;
    NoOverlapAtStart(p, pat, q);
    assert s[0] == p[0] && s[1..] == p[1..] + pat + q;
    ReplaceStep(s, pat, rep);
    ReplaceStep(p, pat, rep);
    Regroup([p[0]], ReplaceAll(p[1..], pat, rep), rep, ReplaceAll(q, pat, rep));
  }

  lemma Nest(a: string, b: string, c: string, d: string)
    ensures a + b + c + d == a + (b + c + d)
  {
  }

  lemma Regroup(a: string, b: string, c: string, d: string)
    ensures a + (b + c + d) == (a + b) + c + d
  {
  }

  /** An occurrence at the start is replaced and the scan resumes after it. */
  lemma ReplaceFront(pat: string, rep: string, q: string)
    requires pat != []
    ensures ReplaceAll(pat + q, pat, rep) == rep + ReplaceAll(q, pat, rep)
  {
    var s := pat + q;
    assert s[..|pat|] == pat;
    assert s[|pat|..] == q;
  }

  /** The special case of an occurrence at the very end. */
  lemma ReplaceAtEnd(p: string, pat: string, rep: string)
    requires pat != []
    requires forall k :: 0 < k < |pat| ==> pat[k] != pat[0]
    ensures ReplaceAll(p + pat, pat, rep) == ReplaceAll(p, pat, rep) + rep
  {
    ReplaceThrough(p, pat, rep, "");
    assert p + pat + "" == p + pat;
  }

  lemma NoOverlapAtStart(p: string, pat: string, q: string)
    requires pat != [] && p != []
    requires forall k :: 0 < k < |pat| ==> pat[k] != pat[0]
    requires !StartsWith(p, pat)
    ensures !StartsWith(p + pat + q, pat)
  {
    var s := p + pat + q;
    if |p| >= |pat| {
      assert s[..|pat|] == p[..|pat|];
    } else {
      assert s[|p|] == pat[0];
      assert s[..|pat|][|p|] != pat[|p|];
    }
  }

  /** A character found neither in the input nor in the replacement text is
      not in the result of `replace`. */
  lemma {:induction false} ReplaceAvoids(s: string, pat: string, rep: string, c: char)
    requires pat != []
    requires c !in s && c !in rep
    ensures c !in ReplaceAll(s, pat, rep)
    decreases |s|
  {
    if |s| >= |pat| {
      if s[..|pat|] == pat {
        ReplaceAvoids(s[|pat|..], pat, rep, c);
      } else {
        ReplaceAvoids(s[1..], pat, rep, c);
      }
    }
  }

  /** A slice of `x + y` that lies inside `x`. */
  lemma SliceLeft(x: string, y: string, i: nat, k: nat)
    requires i + k <= |x|
    ensures (x + y)[i..i + k] == x[i..i + k]
  {
    var s := x + y;
    assert forall m :: i <= m < i + k ==> s[m] == x[m];
    assert s[i..i + k] == x[i..i + k];
  }

  /** A slice of `x + y` that lies inside `y`. */
  lemma SliceRight(x: string, y: string, i: nat, k: nat)
    requires |x| <= i && i + k <= |x| + |y|
    ensures (x + y)[i..i + k] == y[i - |x|..i - |x| + k]
  {
    var s := x + y;
    assert forall m :: i <= m < i + k ==> s[m] == y[m - |x|];
    assert s[i..i + k] == y[i - |x|..i - |x| + k];
  }

  /** Joining two non-empty lists puts one separator between their joins. */
  lemma {:induction false} JoinAppend(xs: seq<string>, ys: seq<string>, sep: string)
    requires xs != [] && ys != []
    ensures Join(xs + ys, sep) == Join(xs, sep) + sep + Join(ys, sep)
  {
    if |xs| == 1 {
      assert (xs + ys)[1..] == ys;
    } else {
      assert (xs + ys)[1..] == xs[1..] + ys;
      JoinAppend(xs[1..], ys, sep);
    }
  }
}
