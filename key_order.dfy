/**
 * Enumerating the keys of a map in ascending order, the order in which an
 * ordered map lists its values.
 */
module KeyOrder {

  ghost predicate StrictlyIncreasing(s: seq<int>)
  {
    forall i, j :: 0 <= i < j < |s| ==> s[i] < s[j]
  }

  ghost predicate Distinct<T>(s: seq<T>)
  {
    forall i, j :: 0 <= i < j < |s| ==> s[i] != s[j]
  }

  /** Some element of a non-empty set. */
  ghost function PickOne(s: set<int>): (x: int)
    requires s != {}
    ensures x in s
  {
    assert (forall y :: y !in s) ==> s == {};
    var x :| x in s; x
  }

  /** Every finite non-empty set of integers has a least element. */
  lemma {:induction false} LeastExists(s: set<int>)
    requires s != {}
    ensures exists m :: m in s && forall x :: x in s ==> m <= x
  {
    var y := PickOne(s);
    if s == {y} {
      assert forall x :: x in s ==> y <= x;
    } else {
      LeastExists(s - {y});
      var m :| m in s - {y} && forall x :: x in s - {y} ==> m <= x;
      var least := if y < m then y else m;
      forall x | x in s ensures least <= x {
        if x != y {
          assert x in s - {y};
        }
      }
    }
  }

  function Least(s: set<int>): (m: int)
    requires s != {}
    ensures m in s
    ensures forall x :: x in s ==> m <= x
  {
    LeastExists(s);
    var m :| m in s && forall x :: x in s ==> m <= x;
    m
  }

  /** The elements of `s`, each once, in ascending order. */
  function Ascending(s: set<int>): (r: seq<int>)
    ensures StrictlyIncreasing(r)
    ensures forall x :: x in r <==> x in s
    ensures |r| == |s|
    decreases |s|
  {
    if s == {} then []
    else
      var m := Least(s);
      [m] + Ascending(s - {m})
  }

  /** A sequence without repetitions has as many elements as the set of them. */
  lemma {:induction false} DistinctCardinality<T>(s: seq<T>)
    requires Distinct(s)
    ensures |set x | x in s| == |s|
  {
    if s != [] {
      var t := s[1..];
      assert Distinct(t) by {
        forall i, j | 0 <= i < j < |t| ensures t[i] != t[j] {
          assert t[i] == s[i + 1] && t[j] == s[j + 1];
        }
      }
      DistinctCardinality(t);
      assert s[0] !in t by {
        forall i | 0 <= i < |t| ensures t[i] != s[0] {
          assert t[i] == s[i + 1];
        }
      }
      assert (set x | x in s) == {s[0]} + (set x | x in t) by {
        assert s == [s[0]] + t;
      }
    }
  }

  /** The values of `m` under `keys`, one per key, in the order of `keys`. */
  function ValuesAlong<K, V>(m: map<K, V>, keys: seq<K>): (values: seq<V>)
    requires forall k :: k in keys ==> k in m
    ensures |values| == |keys|
    ensures forall i :: 0 <= i < |keys| ==> values[i] == m[keys[i]]
  {
    seq(|keys|, i requires 0 <= i < |keys| => m[keys[i]])
  }

  /**
   * Listing the values of `m` along a sequence holding each key of `m` lists
   * every value of `m` and nothing else.
   */
  lemma ListingCoversMap<K, V>(m: map<K, V>, keys: seq<K>, values: seq<V>)
    requires forall k :: k in keys <==> k in m
    requires |values| == |keys|
    requires forall i :: 0 <= i < |keys| ==> values[i] == m[keys[i]]
    ensures forall k :: k in m ==> m[k] in values
    ensures forall v :: v in values ==> exists k :: k in m && m[k] == v
  {
  }
}
