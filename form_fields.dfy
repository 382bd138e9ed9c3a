/**
 * `HashMap::from_iter` over a URL's query pairs: the pairs are inserted in
 * order, so when a key occurs more than once the last occurrence wins.
 */
module FormFields {

  type Pair = (string, string)

  /** The keys that occur in `pairs`. */
  ghost function KeysOf(pairs: seq<Pair>): set<string> {
    set i | 0 <= i < |pairs| :: pairs[i].0
  }

  /** The map built by inserting `pairs` one after another. */
  function FromPairs(pairs: seq<Pair>): (m: map<string, string>)
    ensures m.Keys == KeysOf(pairs)
    decreases |pairs|
  {
    if pairs == [] then map[]
    else
      var init, last := pairs[..|pairs| - 1], pairs[|pairs| - 1];
      assert KeysOf(pairs) == KeysOf(init) + {last.0} by {
        forall k | k in KeysOf(pairs) ensures k in KeysOf(init) + {last.0} {
          var i :| 0 <= i < |pairs| && pairs[i].0 == k;
          if i < |pairs| - 1 { assert init[i] == pairs[i]; }
        }
        forall k | k in KeysOf(init) ensures k in KeysOf(pairs) {
          var i :| 0 <= i < |init| && init[i].0 == k;
          assert pairs[i] == init[i];
        }
      }
      FromPairs(init)[last.0 := last.1]
  }

  /** Position `i` holds the last occurrence of its key. */
  ghost predicate IsLastOccurrence(pairs: seq<Pair>, i: int) {
    0 <= i < |pairs| && forall j :: i < j < |pairs| ==> pairs[j].0 != pairs[i].0
  }

  /** The value stored for a key is the one paired with its last occurrence. */
  lemma {:induction false} LastOccurrenceWins(pairs: seq<Pair>, i: int)
    requires IsLastOccurrence(pairs, i)
    ensures pairs[i].0 in FromPairs(pairs) && FromPairs(pairs)[pairs[i].0] == pairs[i].1
    decreases |pairs|
  {
    var init := pairs[..|pairs| - 1];
    if i < |pairs| - 1 {
      assert init[i] == pairs[i];
      forall j | i < j < |init| ensures init[j].0 != init[i].0 {
        assert init[j] == pairs[j];
      }
      LastOccurrenceWins(init, i);
    }
  }

  /** Every key in the map has a last occurrence, and its value comes from there. */
  lemma {:induction false} ValueFromLastOccurrence(pairs: seq<Pair>, k: string)
    requires k in FromPairs(pairs)
    ensures exists i :: IsLastOccurrence(pairs, i) && pairs[i].0 == k && FromPairs(pairs)[k] == pairs[i].1
    decreases |pairs|
  {
    var n := |pairs| - 1;
    if pairs[n].0 == k {
      assert IsLastOccurrence(pairs, n);
    } else {
      var init := pairs[..n];
      ValueFromLastOccurrence(init, k);
      var i :| IsLastOccurrence(init, i) && init[i].0 == k && FromPairs(init)[k] == init[i].1;
      assert pairs[i] == init[i];
      forall j | i < j < |pairs| ensures pairs[j].0 != pairs[i].0 {
        if j < n { assert pairs[j] == init[j]; }
      }
      assert IsLastOccurrence(pairs, i);
    }
  }
}
