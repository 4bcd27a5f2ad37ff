/** Small sequence vocabulary shared by the bill-split modules. */
module SeqUtil {

  datatype Option<+T> = None | Some(value: T)

  /** Number of occurrences of `x` in `s`, defined on the last element so that
      it follows left-to-right loops. */
  function Count<T(==)>(s: seq<T>, x: T): nat
  {
    if s == [] then 0
    else Count(s[..|s| - 1], x) + (if s[|s| - 1] == x then 1 else 0)
  }

  predicate Distinct<T(==)>(s: seq<T>)
  {
    forall i, j :: 0 <= i < j < |s| ==> s[i] != s[j]
  }

  /** `x` is absent exactly when it occurs zero times. */
  lemma {:induction false} CountZero<T>(s: seq<T>, x: T)
    ensures Count(s, x) == 0 <==> x !in s
  {
    if s != [] {
      CountZero(s[..|s| - 1], x);
      assert s == s[..|s| - 1] + [s[|s| - 1]];
    }
  }

  /** In a duplicate-free sequence every member occurs exactly once. */
  lemma {:induction false} CountDistinct<T>(s: seq<T>, x: T)
    requires Distinct(s) && x in s
    ensures Count(s, x) == 1
  {
    var init := s[..|s| - 1];
    assert s == init + [s[|s| - 1]];
    if s[|s| - 1] == x {
      CountZero(init, x);
    } else {
      CountDistinct(init, x);
    }
  }

  lemma CountAppend<T>(s: seq<T>, x: T, y: T)
    ensures Count(s + [y], x) == Count(s, x) + (if y == x then 1 else 0)
  {
    assert (s + [y])[..|s|] == s;
  }

  /** The keys of a JavaScript object filled in the order of `s`: each value
      at its first occurrence, later repeats dropped. */
  function Dedup<T(==)>(s: seq<T>): (r: seq<T>)
    ensures Distinct(r)
    ensures forall i :: 0 <= i < |r| ==> r[i] in s
    ensures forall i :: 0 <= i < |s| ==> s[i] in r
    ensures |r| <= |s|
  {
    if s == [] then []
    else
      var d := Dedup(s[..|s| - 1]);
      if s[|s| - 1] in d then d else d + [s[|s| - 1]]
  }

  /** Position of the first occurrence of `x` in `s`. */
  function IndexOf<T(==)>(s: seq<T>, x: T): (r: nat)
    requires x in s
    ensures r < |s| && s[r] == x && x !in s[..r]
  {
    var init := s[..|s| - 1];
    if x in init then IndexOf(init, x) else |s| - 1
  }

  /** The keys come in the order of their first occurrence in `s`. */
  lemma {:induction false} DedupOrder<T>(s: seq<T>)
    ensures forall i, j :: 0 <= i < j < |Dedup(s)| ==>
      IndexOf(s, Dedup(s)[i]) < IndexOf(s, Dedup(s)[j])
  {
    if s != [] {
      var init, last := s[..|s| - 1], s[|s| - 1];
      var d := Dedup(init);
      DedupOrder(init);
      var r := Dedup(s);
      forall i, j | 0 <= i < j < |r| ensures IndexOf(s, r[i]) < IndexOf(s, r[j]) {
        assert r[i] == d[i] && d[i] in init;
        assert IndexOf(s, r[i]) == IndexOf(init, r[i]);
        if j < |d| {
          assert r[j] == d[j] && d[j] in init;
          assert IndexOf(s, r[j]) == IndexOf(init, r[j]);
          assert IndexOf(init, d[i]) < IndexOf(init, d[j]);
        } else {
          assert r[j] == last && last !in init;
          assert IndexOf(s, r[j]) == |init|;
          assert IndexOf(init, r[i]) < |init|;
        }
      }
    }
  }

  /** A duplicate-free sequence is its own key order. */
  lemma {:induction false} DedupDistinct<T>(s: seq<T>)
    requires Distinct(s)
    ensures Dedup(s) == s
  {
    if s != [] {
      var init := s[..|s| - 1];
      DedupDistinct(init);
      assert s[|s| - 1] !in init;
      assert s == init + [s[|s| - 1]];
    }
  }
}
