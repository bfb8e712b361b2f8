/**
 * The handful of Go `strings` operations the router relies on, over
 * `string` (a sequence of characters), each with the property that
 * characterises it independently of how it is computed.
 */
module Strs {

  /** `strings.HasPrefix(s, p)`. */
  predicate HasPrefix(s: string, p: string) {
    |p| <= |s| && s[..|p|] == p
  }

  /** `strings.HasSuffix(s, [c])`. */
  predicate EndsWith(s: string, c: char) {
    |s| > 0 && s[|s| - 1] == c
  }

  /** True when `t` occurs in `s` starting at position `i`. */
  predicate OccursAt(s: string, t: string, i: nat) {
    i + |t| <= |s| && s[i..i + |t|] == t
  }

  /** `strings.Contains(s, t)`: some position of `s` starts a copy of `t`. */
  function Contains(s: string, t: string): (r: bool)
    ensures r <==> exists i: nat :: OccursAt(s, t, i)
    decreases |s|
  {
    if HasPrefix(s, t) then
      assert OccursAt(s, t, 0);
      true
    else if s == [] then
      assert forall i: nat :: !OccursAt(s, t, i) by {
        forall i: nat ensures !OccursAt(s, t, i) {
          if i > 0 { assert i + |t| > |s|; } else { assert !HasPrefix(s, t); }
        }
      }
      false
    else
      var r := Contains(s[1..], t);
      assert r ==> exists i: nat :: OccursAt(s, t, i) by {
        if r {
          var j: nat :| OccursAt(s[1..], t, j);
          assert s[1..][j..j + |t|] == s[j + 1..j + 1 + |t|];
          assert OccursAt(s, t, j + 1);
        }
      }
      assert (exists i: nat :: OccursAt(s, t, i)) ==> r by {
        if exists i: nat :: OccursAt(s, t, i) {
          assert !OccursAt(s, t, 0);
          var i: nat :| OccursAt(s, t, i);
          assert s[1..][i - 1..i - 1 + |t|] == s[i..i + |t|];
          assert OccursAt(s[1..], t, i - 1);
        }
      }
      r
  }

  /** `strings.TrimRight(s, [c])`: every trailing `c` removed. */
  function TrimRight(s: string, c: char): (r: string)
    ensures !EndsWith(r, c)
    ensures HasPrefix(s, r)
    ensures forall i :: |r| <= i < |s| ==> s[i] == c
    decreases |s|
  {
    if EndsWith(s, c) then TrimRight(s[..|s| - 1], c) else s
  }

  /** `strings.ReplaceAll(s, [c], "")`: every `c` dropped, order kept. */
  function Remove(s: string, c: char): (r: string)
    ensures c !in r
    ensures forall x :: x != c ==> multiset(r)[x] == multiset(s)[x]
    ensures |r| <= |s|
  {
    if s == [] then []
    else if s[0] == c then
      assert s == [s[0]] + s[1..];
      Remove(s[1..], c)
    else
      assert s == [s[0]] + s[1..];
      [s[0]] + Remove(s[1..], c)
  }

  /**
   * `Remove` keeps the order of what it keeps: it works character by
   * character, so it distributes over concatenation.
   */
  lemma {:induction false} RemoveAppend(a: string, b: string, c: char)
    ensures Remove(a + b, c) == Remove(a, c) + Remove(b, c)
    ensures |a| == 1 ==> Remove(a, c) == (if a[0] == c then [] else a)
    decreases |a|
  {
    if a != [] {
      assert (a + b)[0] == a[0];
      assert (a + b)[1..] == a[1..] + b;
      RemoveAppend(a[1..], b, c);
    } else {
      assert a + b == b;
    }
  }

  /** `strings.Join(xs, [sep])`. */
  function Join(xs: seq<string>, sep: char): string {
    if xs == [] then ""
    else if |xs| == 1 then xs[0]
    else xs[0] + [sep] + Join(xs[1..], sep)
  }

  /** Length of the longest prefix of `s` free of `sep`. */
  function FieldLength(s: string, sep: char): (n: nat)
    ensures n <= |s|
    ensures sep !in s[..n]
    ensures n < |s| ==> s[n] == sep
  {
    if s == [] || s[0] == sep then 0
    else
      var n := FieldLength(s[1..], sep);
      assert s[..n + 1] == [s[0]] + s[1..][..n];
      n + 1
  }

  /** `strings.Split(s, [sep])`: the empty string splits into `[""]`. */
  function Split(s: string, sep: char): (r: seq<string>)
    ensures |r| >= 1
    ensures forall i :: 0 <= i < |r| ==> sep !in r[i]
    decreases |s|
  {
    var n := FieldLength(s, sep);
    if n == |s| then [s] else [s[..n]] + Split(s[n + 1..], sep)
  }

  /** Splitting a list joined on a separator none of its entries contains gives the list back. */
  lemma {:induction false} SplitJoin(xs: seq<string>, sep: char)
    requires xs != []
    requires forall i :: 0 <= i < |xs| ==> sep !in xs[i]
    ensures Split(Join(xs, sep), sep) == xs
    decreases |xs|
  {
    var s := Join(xs, sep);
    if |xs| == 1 {
      FieldOfSepFree(s, sep);
    } else {
      var tail := Join(xs[1..], sep);
      assert s == xs[0] + ([sep] + tail);
      FieldOfPrefix(xs[0], [sep] + tail, sep);
      assert s[..|xs[0]|] == xs[0];
      assert s[|xs[0]| + 1..] == tail;
      SplitJoin(xs[1..], sep);
    }
  }

  /** Joining the fields of any string on its separator gives the string back. */
  lemma {:induction false} JoinSplit(s: string, sep: char)
    ensures Join(Split(s, sep), sep) == s
    decreases |s|
  {
    var n := FieldLength(s, sep);
    if n < |s| {
      var rest := Split(s[n + 1..], sep);
      JoinSplit(s[n + 1..], sep);
      assert Split(s, sep) == [s[..n]] + rest;
      assert ([s[..n]] + rest)[1..] == rest;
      assert s == s[..n] + [sep] + s[n + 1..];
    }
  }

  lemma FieldOfSepFree(s: string, sep: char)
    requires sep !in s
    ensures FieldLength(s, sep) == |s|
  {
    forall i | 0 <= i < |s| ensures s[i] != sep {
      assert s[i] in s;
    }
  }

  lemma FieldOfPrefix(a: string, b: string, sep: char)
    requires sep !in a
    requires b != [] && b[0] == sep
    ensures FieldLength(a + b, sep) == |a|
  {
    forall i | 0 <= i < |a| ensures (a + b)[i] != sep {
      assert (a + b)[i] == a[i];
      assert a[i] in a;
    }
    forall k | |a| < k <= |a + b| ensures sep in (a + b)[..k] {
      assert (a + b)[..k][|a|] == sep;
    }
  }
}
