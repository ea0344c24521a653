/** Sorting of string slices, as `sort.Strings` promises it: ascending in byte order. */
module StringSort {

  predicate AtMost(a: string, b: string) {
    a == "" || (b != "" && (a[0] < b[0] || (a[0] == b[0] && AtMost(a[1..], b[1..]))))
  }

  lemma {:induction false} AtMostReflexive(a: string)
    ensures AtMost(a, a)
  {
    if a != "" {
      AtMostReflexive(a[1..]);
    }
  }

  lemma {:induction false} AtMostTotal(a: string, b: string)
    ensures AtMost(a, b) || AtMost(b, a)
  {
    if a != "" && b != "" && a[0] == b[0] {
      AtMostTotal(a[1..], b[1..]);
    }
  }

  lemma {:induction false} AtMostAntisymmetric(a: string, b: string)
    requires AtMost(a, b) && AtMost(b, a)
    ensures a == b
  {
    if a != "" && b != "" {
      AtMostAntisymmetric(a[1..], b[1..]);
      assert a == [a[0]] + a[1..] && b == [b[0]] + b[1..];
    }
  }

  lemma {:induction false} AtMostTransitive(a: string, b: string, c: string)
    requires AtMost(a, b) && AtMost(b, c)
    ensures AtMost(a, c)
  {
    if a != "" && a[0] == b[0] == c[0] {
      AtMostTransitive(a[1..], b[1..], c[1..]);
    }
  }

  /** `a` and `b` agree before position `k`, where `a` has the smaller character. */
  ghost predicate SmallerAt(a: string, b: string, k: nat) {
    k < |a| && k < |b| && a[..k] == b[..k] && a[k] < b[k]
  }

  /** The order is the lexicographic one: `a` is a prefix of `b`, or smaller where they first differ. */
  lemma {:induction false} AtMostIff(a: string, b: string)
    ensures AtMost(a, b) <==> a <= b || exists k: nat :: SmallerAt(a, b, k)
  {
    if a != [] && b != [] {
      if a[0] == b[0] {
        AtMostIff(a[1..], b[1..]);
        TailSmaller(a, b);
        assert a <= b <==> a[1..] <= b[1..] by {
          assert a == [a[0]] + a[1..] && b == [b[0]] + b[1..];
        }
      } else if a[0] < b[0] {
        assert SmallerAt(a, b, 0);
      } else {
        forall k: nat ensures !SmallerAt(a, b, k) {
          if 0 < k < |a| && k < |b| {
            assert a[..k][0] == a[0] && b[..k][0] == b[0];
          }
        }
      }
    }
  }

  lemma TailSmaller(a: string, b: string)
    requires a != [] && b != [] && a[0] == b[0]
    ensures (exists k: nat :: SmallerAt(a, b, k)) <==> exists k: nat :: SmallerAt(a[1..], b[1..], k)
  {
    if exists k: nat :: SmallerAt(a, b, k) {
      var k: nat :| SmallerAt(a, b, k);
      assert a[1..][..k - 1] == a[..k][1..] && b[1..][..k - 1] == b[..k][1..];
      assert SmallerAt(a[1..], b[1..], k - 1);
    }
    if exists k: nat :: SmallerAt(a[1..], b[1..], k) {
      var k: nat :| SmallerAt(a[1..], b[1..], k);
      assert a[..k + 1] == [a[0]] + a[1..][..k] && b[..k + 1] == [b[0]] + b[1..][..k];
      assert SmallerAt(a, b, k + 1);
    }
  }

  ghost predicate Sorted(s: seq<string>) {
    forall i, j :: 0 <= i < j < |s| ==> AtMost(s[i], s[j])
  }

  /** `x` put behind the elements of the sorted `s` that are at most `x`. */
  function Insert(s: seq<string>, x: string): seq<string> {
    if s == [] || AtMost(s[|s| - 1], x) then s + [x]
    else Insert(s[..|s| - 1], x) + [s[|s| - 1]]
  }

  function Sort(s: seq<string>): seq<string> {
    if s == [] then [] else Insert(Sort(s[..|s| - 1]), s[|s| - 1])
  }

  lemma {:induction false} InsertSorts(s: seq<string>, x: string)
    requires Sorted(s)
    ensures Sorted(Insert(s, x)) && multiset(Insert(s, x)) == multiset(s) + multiset{x}
  {
    if s == [] {
    } else if AtMost(s[|s| - 1], x) {
      forall i | 0 <= i < |s| ensures AtMost(s[i], x) {
        if i < |s| - 1 {
          AtMostTransitive(s[i], s[|s| - 1], x);
        }
      }
    } else {
      var init, last := s[..|s| - 1], s[|s| - 1];
      InsertSorts(init, x);
      AtMostTotal(x, last);
      assert s == init + [last];
      forall k | 0 <= k < |Insert(init, x)| ensures AtMost(Insert(init, x)[k], last) {
        assert Insert(init, x)[k] in multiset(Insert(init, x));
        assert Insert(init, x)[k] == x || Insert(init, x)[k] in init;
      }
    }
  }

  lemma {:induction false} SortIsSorting(s: seq<string>)
    ensures Sorted(Sort(s)) && multiset(Sort(s)) == multiset(s) && |Sort(s)| == |s|
  {
    if s != [] {
      SortIsSorting(s[..|s| - 1]);
      InsertSorts(Sort(s[..|s| - 1]), s[|s| - 1]);
      assert s == s[..|s| - 1] + [s[|s| - 1]];
    }
    assert |Sort(s)| == |multiset(Sort(s))| == |multiset(s)| == |s|;
  }

  lemma SameLength(s: seq<string>, t: seq<string>)
    requires multiset(s) == multiset(t)
    ensures |s| == |t|
  {
    assert |s| == |multiset(s)| == |multiset(t)| == |t|;
  }

  lemma SameLast(s: seq<string>, t: seq<string>)
    requires s != [] && t != [] && Sorted(s) && Sorted(t) && multiset(s) == multiset(t)
    ensures s[|s| - 1] == t[|t| - 1]
  {
    var x, y := s[|s| - 1], t[|t| - 1];
    assert x in multiset(t) && y in multiset(s);
    LastIsLargest(s, y);
    LastIsLargest(t, x);
    AtMostAntisymmetric(x, y);
  }

  lemma DropLast(s: seq<string>)
    requires s != [] && Sorted(s)
    ensures Sorted(s[..|s| - 1])
    ensures multiset(s[..|s| - 1]) == multiset(s) - multiset{s[|s| - 1]}
  {
    assert s == s[..|s| - 1] + [s[|s| - 1]];
  }

  lemma SameBySplit(s: seq<string>, t: seq<string>)
    requires s != [] && |s| == |t| && s[..|s| - 1] == t[..|t| - 1] && s[|s| - 1] == t[|t| - 1]
    ensures s == t
  {
  }

  /** A multiset of strings has one sorted listing. */
  lemma {:induction false} SortedUnique(s: seq<string>, t: seq<string>)
    requires Sorted(s) && Sorted(t) && multiset(s) == multiset(t)
    ensures s == t
  {
    SameLength(s, t);
    if s != [] {
      SameLast(s, t);
      DropLast(s);
      DropLast(t);
      SortedUnique(s[..|s| - 1], t[..|t| - 1]);
      SameBySplit(s, t);
    }
  }

  lemma LastIsLargest(s: seq<string>, x: string)
    requires Sorted(s) && x in s
    ensures AtMost(x, s[|s| - 1])
  {
    AtMostReflexive(x);
  }

  lemma SortIdempotent(s: seq<string>)
    ensures Sort(Sort(s)) == Sort(s)
  {
    SortIsSorting(s);
    SortIsSorting(Sort(s));
    SortedUnique(Sort(Sort(s)), Sort(s));
  }

  /** Where `Insert` puts `x`: at `j`, when all elements from `j` on are above `x` and the one before is not. */
  lemma {:induction false} InsertAt(s: seq<string>, x: string, j: nat)
    requires j <= |s| && (j == 0 || AtMost(s[j - 1], x))
    requires forall i :: j <= i < |s| ==> !AtMost(s[i], x)
    ensures Insert(s, x) == s[..j] + [x] + s[j..]
  {
    if j < |s| {
      var init := s[..|s| - 1];
      InsertAt(init, x, j);
      assert init[..j] == s[..j] && s[j..] == init[j..] + [s[|s| - 1]];
    } else {
      assert s[..j] == s && s[j..] == [];
    }
  }

  lemma ShiftedAt(s: seq<string>, x: string, j: nat, t: seq<string>)
    requires j <= |s| && |t| == |s| + 1 && t[j] == x
    requires (forall i :: 0 <= i < j ==> t[i] == s[i]) && forall i :: j < i < |t| ==> t[i] == s[i - 1]
    ensures t == s[..j] + [x] + s[j..]
  {
  }

  /** Moves `a[k]` down to its place among the elements before it. */
  method SinkInPlace(a: array<string>, k: nat)
    requires k < a.Length
    modifies a
    ensures a[..k + 1] == Insert(old(a[..k]), old(a[k]))
    ensures a[k + 1..] == old(a[k + 1..])
  {
    var x := a[k];
    var j := k;
    ghost var was := a[..k];
    while j > 0 && !AtMost(a[j - 1], x)
      invariant 0 <= j <= k
      invariant forall i :: 0 <= i < j ==> a[i] == was[i]
      invariant forall i :: j < i <= k ==> a[i] == was[i - 1]
      invariant forall i :: j <= i < k ==> !AtMost(was[i], x)
      invariant forall i :: k < i < a.Length ==> a[i] == old(a[i])
    {
      a[j] := a[j - 1];
      j := j - 1;
    }
    a[j] := x;
    InsertAt(was, x, j);
    ShiftedAt(was, x, j, a[..k + 1]);
  }

  method SortInPlace(a: array<string>)
    modifies a
    ensures a[..] == Sort(old(a[..]))
  {
    ghost var was := a[..];
    for k := 0 to a.Length
      invariant a[..k] == Sort(was[..k])
      invariant a[k..] == was[k..]
    {
      SortIsSorting(was[..k]);
      assert was[..k + 1][..k] == was[..k];
      assert a[k] == a[k..][0] == was[k];
      label before:
      SinkInPlace(a, k);
      assert a[k + 1..] == old@before(a[k..])[1..];
    }
    assert was[..a.Length] == was && a[..a.Length] == a[..];
  }
}
