/** Facts about the text of SQL statements: placeholder counting, substrings, joining. */
module SqlText {

  /** The number of occurrences of `c` in `s`. */
  function Count(s: string, c: char): (n: nat)
    ensures n <= |s|
    ensures n == 0 <==> c !in s
  {
    if s == [] then 0
    else (if s[0] == c then 1 else 0) + Count(s[1..], c)
  }

  /** Counting distributes over concatenation. */
  lemma {:induction false} CountAppend(a: string, b: string, c: char)
    ensures Count(a + b, c) == Count(a, c) + Count(b, c)
  {
    if a == [] {
      assert a + b == b;
    } else {
      assert (a + b)[1..] == a[1..] + b;
      CountAppend(a[1..], b, c);
    }
  }

  /** A text ending in its only `c` holds `c` once. */
  lemma OneMarker(prefix: string, c: char)
    requires c !in prefix
    ensures Count(prefix + [c], c) == 1
  {
    CountAppend(prefix, [c], c);
    assert [c][1..] == [];
  }

  /** The number of `?` parameter markers in a statement. */
  function Placeholders(sql: string): nat
  {
    Count(sql, '?')
  }

  /** Python's `s.startswith(p)`. */
  predicate StartsWith(s: string, p: string)
  {
    |p| <= |s| && s[..|p|] == p
  }

  /** Python's `s.endswith(p)`. */
  predicate EndsWith(s: string, p: string)
  {
    |p| <= |s| && s[|s| - |p|..] == p
  }

  /** A text framed by `a` and `z` starts with `a` and ends with `z`. */
  lemma Framed(a: string, m: string, z: string)
    ensures StartsWith(a + m + z, a) && EndsWith(a + m + z, z)
  {
    var s := a + m + z;
    assert s[..|a|] == a;
    assert s[|s| - |z|..] == z;
  }

  /** `t` occurs in `s` starting at position `i`. */
  predicate OccursAt(s: string, t: string, i: int)
  {
    0 <= i <= |s| - |t| && s[i..i + |t|] == t
  }

  /** `t` occurs somewhere in `s`, as Python's `t in s` on strings. */
  ghost predicate Contains(s: string, t: string)
  {
    exists i :: OccursAt(s, t, i)
  }

  /** A text that contains `t` contains every character of `t`. */
  lemma ContainsChar(s: string, t: string, c: char)
    requires Contains(s, t) && c in t
    ensures c in s
  {
    var i :| OccursAt(s, t, i);
    var j :| 0 <= j < |t| && t[j] == c;
    assert s[i + j] == t[j];
  }

  /** `t` occurs in `a + t + b`, at position `|a|`. */
  lemma ContainsMiddle(a: string, t: string, b: string)
    ensures Contains(a + t + b, t)
  {
    var s := a + t + b;
    assert s[|a|..|a| + |t|] == t;
    assert OccursAt(s, t, |a|);
  }

  /** Python's `sep.join(parts)`. */
  function Join(sep: string, parts: seq<string>): string
  {
    if parts == [] then ""
    else if |parts| == 1 then parts[0]
    else parts[0] + sep + Join(sep, parts[1..])
  }

  /**
   * Joining `n` copies of a marker with a separator free of `c` gives a text
   * holding `c` exactly `n` times when the marker holds it once.
   */
  lemma {:induction false} CountJoinMarkers(sep: string, parts: seq<string>, c: char)
    requires Count(sep, c) == 0
    requires forall i :: 0 <= i < |parts| ==> Count(parts[i], c) == 1
    ensures Count(Join(sep, parts), c) == |parts|
  {
    if |parts| > 1 {
      CountJoinMarkers(sep, parts[1..], c);
      CountAppend(parts[0], sep, c);
      CountAppend(parts[0] + sep, Join(sep, parts[1..]), c);
    }
  }

  /** Joining parts free of `c` with a separator free of `c` gives a text free of `c`. */
  lemma {:induction false} JoinWithout(sep: string, parts: seq<string>, c: char)
    requires c !in sep
    requires forall i :: 0 <= i < |parts| ==> c !in parts[i]
    ensures c !in Join(sep, parts)
  {
    if |parts| > 1 {
      JoinWithout(sep, parts[1..], c);
    }
  }
}
