/** Small vocabulary shared by every other module. */
module Common {

  datatype Option<+T> = None | Some(value: T)

  datatype Result<+T, +E> = Ok(value: T) | Err(error: E)

  predicate Distinct<T(==)>(s: seq<T>) {
    forall i, j :: 0 <= i < j < |s| ==> s[i] != s[j]
  }

  function Elements<T>(s: seq<T>): set<T> {
    set x | x in s
  }

  /** The table with row `ks[i] := vs[i]` for every `i`. */
  function Zip<K, V>(ks: seq<K>, vs: seq<V>): (m: map<K, V>)
    requires |ks| == |vs| && Distinct(ks)
    ensures m.Keys == Elements(ks)
    ensures forall i :: 0 <= i < |ks| ==> m[ks[i]] == vs[i]
  {
    map i | 0 <= i < |ks| :: ks[i] := vs[i]
  }

  ghost predicate HasRow(table: map<string, int>, x: string, id: int) {
    x in table && table[x] == id
  }

  /** No two keys share a value. */
  ghost predicate Injective<K, V>(m: map<K, V>) {
    forall a, b :: a in m && b in m && m[a] == m[b] ==> a == b
  }

  /** The number of elements of `h` up to and including the last `x`; 0 when `x` is not there. */
  function Rank<T(==)>(h: seq<T>, x: T): (n: nat)
    ensures n <= |h|
    ensures n == 0 <==> x !in h
    ensures n > 0 ==> h[n - 1] == x
  {
    if |h| == 0 then 0
    else if h[|h| - 1] == x then |h|
    else
      var n := Rank(h[..|h| - 1], x);
      assert x in h ==> x in h[..|h| - 1];
      n
  }

  lemma RankAt<T>(h: seq<T>, k: nat)
    requires Distinct(h) && k < |h|
    ensures Rank(h, h[k]) == k + 1
  {
    var n := Rank(h, h[k]);
    assert h[k] in h;
    assert h[n - 1] == h[k];
  }

  lemma RankExtend<T>(h: seq<T>, y: T, x: T)
    requires x != y
    ensures Rank(h + [y], x) == Rank(h, x)
  {
    assert (h + [y])[..|h|] == h;
  }

  lemma DistinctSize<T>(s: seq<T>)
    requires Distinct(s)
    ensures |Elements(s)| == |s|
  {
    if s != [] {
      var p, x := s[..|s| - 1], s[|s| - 1];
      DistinctSize(p);
      assert s == p + [x];
      assert Elements(s) == Elements(p) + {x};
      assert x !in p;
    }
  }
}
