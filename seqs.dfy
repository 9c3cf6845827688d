/** Order-preserving filtering and element sets of sequences. */
module Seqs {

  /** `sub` is `s` with some elements deleted and the others kept in order. */
  predicate IsSubsequence<T(==)>(sub: seq<T>, s: seq<T>)
    decreases |s|
  {
    if sub == [] then true
    else if s == [] then false
    else if sub[0] == s[0] then IsSubsequence(sub[1..], s[1..])
    else IsSubsequence(sub, s[1..])
  }

  /** The elements of `s` that satisfy `keep`, in their order in `s`. */
  function Filter<T(==)>(s: seq<T>, keep: T -> bool): (r: seq<T>)
    ensures |r| <= |s|
    ensures forall i :: 0 <= i < |r| ==> r[i] in s && keep(r[i])
    ensures forall i :: 0 <= i < |s| && keep(s[i]) ==> s[i] in r
    ensures IsSubsequence(r, s)
    ensures (forall i :: 0 <= i < |s| ==> keep(s[i])) ==> r == s
    decreases |s|
  {
    if s == [] then []
    else if keep(s[0]) then [s[0]] + Filter(s[1..], keep)
    else Filter(s[1..], keep)
  }

  /** Filtering with two predicates that agree on every element gives the same sequence. */
  lemma {:induction false} FilterAgrees<T>(s: seq<T>, keep: T -> bool, keep': T -> bool)
    requires forall i :: 0 <= i < |s| ==> keep(s[i]) == keep'(s[i])
    ensures Filter(s, keep) == Filter(s, keep')
    decreases |s|
  {
    if s != [] {
      FilterAgrees(s[1..], keep, keep');
    }
  }

  /** Nothing is kept when no element satisfies the predicate. */
  lemma FilterNone<T>(s: seq<T>, keep: T -> bool)
    requires forall i :: 0 <= i < |s| ==> !keep(s[i])
    ensures Filter(s, keep) == []
  {
  }

  /** Filtering twice is filtering once by both predicates. */
  lemma {:induction false} FilterFilter<T>(s: seq<T>, a: T -> bool, b: T -> bool, both: T -> bool)
    requires forall i :: 0 <= i < |s| ==> both(s[i]) == (a(s[i]) && b(s[i]))
    ensures Filter(Filter(s, a), b) == Filter(s, both)
    decreases |s|
  {
    if s != [] {
      FilterFilter(s[1..], a, b, both);
      if a(s[0]) {
        var fa := Filter(s, a);
        assert fa == [s[0]] + Filter(s[1..], a);
        assert fa[0] == s[0] && fa[1..] == Filter(s[1..], a);
      }
    }
  }

  /** No element occurs twice. */
  predicate Distinct<T(==)>(s: seq<T>) {
    forall i, j :: 0 <= i < j < |s| ==> s[i] != s[j]
  }

  function Elems<T>(s: seq<T>): set<T> {
    set x | x in s
  }

  /** A sequence has at most as many distinct elements as positions, and exactly as many
      when no element repeats. */
  lemma {:induction false} ElemsCard<T>(s: seq<T>)
    ensures |Elems(s)| <= |s|
    ensures |Elems(s)| == |s| <==> Distinct(s)
    decreases |s|
  {
    if s != [] {
      var rest := s[1..];
      ElemsCard(rest);
      assert Elems(s) == {s[0]} + Elems(rest) by {
        forall x ensures x in Elems(s) <==> x in {s[0]} + Elems(rest) {
          if x in s && x != s[0] {
            var k :| 0 <= k < |s| && s[k] == x;
            assert rest[k - 1] == x;
          }
        }
      }
      if s[0] in rest {
        var k :| 0 <= k < |rest| && rest[k] == s[0];
        assert s[0] == s[k + 1];
        assert !Distinct(s);
      } else {
        assert Distinct(s) <==> Distinct(rest) by {
          if Distinct(rest) {
            forall i, j | 0 <= i < j < |s| ensures s[i] != s[j] {
              if i > 0 {
                assert s[i] == rest[i - 1] && s[j] == rest[j - 1];
              } else {
                assert s[j] == rest[j - 1];
              }
            }
          }
          if Distinct(s) {
            forall i, j | 0 <= i < j < |rest| ensures rest[i] != rest[j] {
              assert rest[i] == s[i + 1] && rest[j] == s[j + 1];
            }
          }
        }
      }
    }
  }

  /** A subset as large as its finite superset is the superset. */
  lemma SubsetOfSameSize<T>(a: set<T>, b: set<T>)
    requires a <= b && |a| == |b|
    ensures a == b
  {
    if a != b {
      var x :| x in b && x !in a;
      assert a <= b - {x};
      SubsetSize(a, b - {x});
    }
  }

  lemma {:induction false} SubsetSize<T>(a: set<T>, b: set<T>)
    requires a <= b
    ensures |a| <= |b|
    decreases |b|
  {
    if a != {} {
      var x :| x in a;
      SubsetSize(a - {x}, b - {x});
    }
  }
}
