/**
 * Building a map by inserting key/value pairs in order, as Go code does with
 * `m[k] = v` inside a range loop: a later pair overwrites an earlier one
 * with the same key.
 */
module Collections {

  function LastWins<K(==), V>(pairs: seq<(K, V)>): (m: map<K, V>)
  {
    if pairs == [] then map[]
    else
      var last := pairs[|pairs| - 1];
      LastWins(pairs[..|pairs| - 1])[last.0 := last.1]
  }

  /**
   * Every key of the pairs is in the map, every entry comes from some pair
   * with that key and value, and there are no more entries than pairs.
   */
  lemma {:induction false} LastWinsDomain<K, V>(pairs: seq<(K, V)>)
    ensures forall i :: 0 <= i < |pairs| ==> pairs[i].0 in LastWins(pairs)
    ensures forall k :: k in LastWins(pairs) ==>
      exists i :: 0 <= i < |pairs| && pairs[i].0 == k && pairs[i].1 == LastWins(pairs)[k]
    ensures |LastWins(pairs)| <= |pairs|
    decreases |pairs|
  {
    if pairs != [] {
      var front := pairs[..|pairs| - 1];
      var last := pairs[|pairs| - 1];
      var m' := LastWins(front);
      LastWinsDomain(front);
      assert m'[last.0 := last.1].Keys == m'.Keys + {last.0};
      forall i | 0 <= i < |pairs|
        ensures pairs[i].0 in LastWins(pairs)
      {
        if i < |front| {
          assert front[i] == pairs[i];
        }
      }
      forall k | k in LastWins(pairs)
        ensures exists i :: 0 <= i < |pairs| && pairs[i].0 == k && pairs[i].1 == LastWins(pairs)[k]
      {
        if k != last.0 {
          var i :| 0 <= i < |front| && front[i].0 == k && front[i].1 == m'[k];
          assert pairs[i] == front[i];
        }
      }
    }
  }

  /** The value stored for a key is that of the last pair with this key. */
  lemma {:induction false} LastWinsValue<K, V>(pairs: seq<(K, V)>, i: nat)
    requires i < |pairs|
    requires forall j :: i < j < |pairs| ==> pairs[j].0 != pairs[i].0
    ensures pairs[i].0 in LastWins(pairs) && LastWins(pairs)[pairs[i].0] == pairs[i].1
    decreases |pairs|
  {
    if i < |pairs| - 1 {
      LastWinsValue(pairs[..|pairs| - 1], i);
    }
  }

  /** Extending the pairs by one is one more insertion. */
  lemma LastWinsStep<K, V>(pairs: seq<(K, V)>, i: nat)
    requires i < |pairs|
    ensures LastWins(pairs[..i + 1]) == LastWins(pairs[..i])[pairs[i].0 := pairs[i].1]
  {
    assert pairs[..i + 1][..i] == pairs[..i];
  }

  /** Appending one pair is one more insertion. */
  lemma LastWinsSnoc<K, V>(pairs: seq<(K, V)>, p: (K, V))
    ensures LastWins(pairs + [p]) == LastWins(pairs)[p.0 := p.1]
  {
    assert (pairs + [p])[..|pairs|] == pairs;
  }

  /** A sequence that starts with `a` is `a` followed by the rest. */
  lemma Extends<T>(a: seq<T>, b: seq<T>)
    requires |a| <= |b| && b[..|a|] == a
    ensures b == a + b[|a|..]
  {
  }

  /** A non-empty sequence is its front followed by its last element. */
  lemma FrontLast<T>(s: seq<T>)
    requires |s| > 0
    ensures s[..|s| - 1] + [s[|s| - 1]] == s
  {
  }

  /** Regrouping a concatenation, for proofs whose context makes the solver slow to see it. */
  lemma AppendAssoc<T>(a: seq<T>, b: seq<T>, c: seq<T>)
    ensures (a + b) + c == a + (b + c)
  {
  }
}
