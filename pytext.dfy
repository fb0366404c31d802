/**
 * The Python string operations the summarizer relies on, stated over
 * Dafny strings (sequences of Unicode scalar values; `len` and slicing
 * count them one by one, as Python counts code points; the lone surrogate
 * code points a Python string may hold have no counterpart here).
 *
 * - `Join` is `"\n".join(parts)`;
 * - `SliceFrom` is `s[start:]`, including Python's treatment of negative
 *   and out-of-range starts;
 * - `Split` is `s.split("\n")`, used here only as an independent partner
 *   of `Join`: joining the pieces of a split gives every text back, and
 *   splitting a join gives the parts back when no part holds a newline.
 */
module PyText {

  const Newline: char := '\n'

  /** `s` ends with `suffix`. */
  predicate IsSuffix(suffix: string, s: string) {
    |suffix| <= |s| && s[|s| - |suffix|..] == suffix
  }

  /** Python's `"\n".join(parts)`: the parts in order, one newline between neighbours. */
  function Join(parts: seq<string>): string
    decreases |parts|
  {
    if parts == [] then ""
    else if |parts| == 1 then parts[0]
    else parts[0] + [Newline] + Join(parts[1..])
  }

  /** Sum of the lengths of the parts. */
  function TotalLength(parts: seq<string>): nat
    decreases |parts|
  {
    if parts == [] then 0 else |parts[0]| + TotalLength(parts[1..])
  }

  /** The joined text is as long as all parts together plus one separator per gap. */
  lemma {:induction false} JoinLength(parts: seq<string>)
    ensures |Join(parts)| == if parts == [] then 0 else TotalLength(parts) + |parts| - 1
    decreases |parts|
  {
    if |parts| > 1 {
      JoinLength(parts[1..]);
    } else if |parts| == 1 {
      assert parts[1..] == [];
    }
  }

  /** Joining two non-empty lists one after the other is joining their concatenation. */
  lemma {:induction false} JoinAppend(a: seq<string>, b: seq<string>)
    requires a != [] && b != []
    ensures Join(a + b) == Join(a) + [Newline] + Join(b)
    decreases |a|
  {
    if |a| == 1 {
      assert (a + b)[0] == a[0];
      assert (a + b)[1..] == b;
    } else {
      assert (a + b)[0] == a[0];
      assert (a + b)[1..] == a[1..] + b;
      JoinAppend(a[1..], b);
    }
  }

  /** Python's `s.split("\n")`: the maximal newline-free runs of `s`, at least one. */
  function Split(s: string): (r: seq<string>)
    ensures |r| >= 1
    decreases |s|
  {
    if s == [] then [""]
    else
      var rest := Split(s[1..]);
      if s[0] == Newline then [""] + rest
      else [[s[0]] + rest[0]] + rest[1..]
  }

  lemma {:induction false} SplitNoNewline(x: string)
    requires Newline !in x
    ensures Split(x) == [x]
    decreases |x|
  {
    if x != [] {
      assert x[0] != Newline;
      assert Newline !in x[1..] by {
        forall i | 0 <= i < |x[1..]| ensures x[1..][i] != Newline {
          assert x[1..][i] == x[i + 1];
        }
      }
      SplitNoNewline(x[1..]);
      assert [x[0]] + x[1..] == x;
    }
  }

  lemma {:induction false} SplitAfterLine(x: string, y: string)
    requires Newline !in x
    ensures Split(x + [Newline] + y) == [x] + Split(y)
    decreases |x|
  {
    var s := x + [Newline] + y;
    if x == [] {
      assert s == [Newline] + y;
      assert s[1..] == y;
    } else {
      assert s[0] == x[0] && x[0] != Newline;
      assert Newline !in x[1..] by {
        forall i | 0 <= i < |x[1..]| ensures x[1..][i] != Newline {
          assert x[1..][i] == x[i + 1];
        }
      }
      assert s[1..] == x[1..] + [Newline] + y;
      SplitAfterLine(x[1..], y);
      assert [x[0]] + x[1..] == x;
    }
  }

  /** Splitting a joined list gives the list back, provided no part holds a newline. */
  lemma {:induction false} SplitJoin(parts: seq<string>)
    requires parts != []
    requires forall i :: 0 <= i < |parts| ==> Newline !in parts[i]
    ensures Split(Join(parts)) == parts
    decreases |parts|
  {
    if |parts| == 1 {
      SplitNoNewline(parts[0]);
    } else {
      SplitJoin(parts[1..]);
      SplitAfterLine(parts[0], Join(parts[1..]));
      assert [parts[0]] + parts[1..] == parts;
    }
  }

  /** Joining the pieces of a split gives the text back, for every text. */
  lemma {:induction false} JoinSplit(s: string)
    ensures Join(Split(s)) == s
    decreases |s|
  {
    if s != [] {
      var rest := Split(s[1..]);
      JoinSplit(s[1..]);
      if s[0] == Newline {
        assert ([""] + rest)[0] == "";
        assert ([""] + rest)[1..] == rest;
        assert [s[0]] + s[1..] == s;
      } else {
        var r := [[s[0]] + rest[0]] + rest[1..];
        assert r[0] == [s[0]] + rest[0];
        assert r[1..] == rest[1..];
        if |rest| == 1 {
          assert [s[0]] + s[1..] == s;
        } else {
          assert Join(rest) == rest[0] + [Newline] + Join(rest[1..]);
          assert [s[0]] + s[1..] == s;
        }
      }
    }
  }

  /** Python's `s[start:]`: a negative start counts from the end and is clamped at 0,
      a start beyond the end gives the empty string. */
  function SliceFrom(s: string, start: int): (r: string)
    ensures IsSuffix(r, s)
    ensures 0 <= start <= |s| ==> r == s[start..]
    ensures start > |s| ==> r == ""
    ensures start < 0 && -start <= |s| ==> |r| == -start
    ensures start < 0 && -start > |s| ==> r == s
  {
    var n := |s|;
    var lo := if start < 0 then (if n + start < 0 then 0 else n + start)
              else (if start > n then n else start);
    s[lo..]
  }
}
