/** Lookup in maps, sizes of sets and maps, and paths of a transition relation. */
module Collections {
  import opened Wrappers

  function Lookup<K, V>(m: map<K, V>, key: K): Option<V> {
    if key in m then Some(m[key]) else None
  }

  ghost predicate NoDuplicates<T>(items: seq<T>) {
    forall i, j :: 0 <= i < j < |items| ==> items[i] != items[j]
  }

  lemma SubsetSize<X>(a: set<X>, b: set<X>)
    requires a <= b
    ensures |a| <= |b|
  {
    assert b == a + (b - a);
  }

  lemma SizeAfterUpdate<K, V>(m: map<K, V>, key: K, value: V)
    ensures m[key := value].Keys == m.Keys + {key}
    ensures |m[key := value]| == |m| + if key in m then 0 else 1
  {
    assert |m[key := value]| == |m[key := value].Keys| && |m| == |m.Keys|;
  }

  lemma SizeAfterRemoval<K, V>(m: map<K, V>, key: K)
    ensures |m - {key}| == |m| - if key in m then 1 else 0
  {
    assert (m - {key}).Keys == m.Keys - {key};
    assert |m - {key}| == |(m - {key}).Keys| && |m| == |m.Keys|;
  }

  // ---------------------------------------------------------------- paths

  /** Every state follows from the one before it. */
  ghost predicate IsPath<S(!new)>(path: seq<S>, follows: (S, S) -> bool) {
    |path| > 0 && forall i, j :: 0 <= i < |path| && 0 <= j < |path| && j == i + 1 ==> follows(path[i], path[j])
  }

  ghost predicate Reaches<S(!new)>(a: S, b: S, follows: (S, S) -> bool) {
    exists path: seq<S> :: IsPath(path, follows) && path[0] == a && path[|path| - 1] == b
  }

  lemma ReachesSelf<S(!new)>(a: S, follows: (S, S) -> bool)
    ensures Reaches(a, a, follows)
  {
    assert IsPath([a], follows) && [a][0] == a && [a][|[a]| - 1] == a;
  }

  lemma ReachesStep<S(!new)>(a: S, b: S, follows: (S, S) -> bool)
    requires follows(a, b)
    ensures Reaches(a, b, follows)
  {
    var path := [a, b];
    assert IsPath(path, follows) && path[0] == a && path[|path| - 1] == b;
  }

  lemma ReachesTransitive<S(!new)>(a: S, b: S, c: S, follows: (S, S) -> bool)
    requires Reaches(a, b, follows) && Reaches(b, c, follows)
    ensures Reaches(a, c, follows)
  {
    var first: seq<S> :| IsPath(first, follows) && first[0] == a && first[|first| - 1] == b;
    var second: seq<S> :| IsPath(second, follows) && second[0] == b && second[|second| - 1] == c;
    var path := first + second[1..];
    forall i, j | 0 <= i < |path| && 0 <= j < |path| && j == i + 1 ensures follows(path[i], path[j]) {
      if j < |first| {
        assert path[i] == first[i] && path[j] == first[j];
      } else {
        var k := j - |first| + 1;
        assert path[j] == second[k] && path[i] == second[k - 1];
      }
    }
    assert IsPath(path, follows) && path[0] == a && path[|path| - 1] == c;
  }
}
