/** Repeated `dict.update`: a sequence of dicts merged left to right. */
module Maps {

  /** `acc = {}; for m in ms: acc.update(m)`. */
  function Merge<V>(ms: seq<map<string, V>>): map<string, V>
  {
    if ms == [] then map[] else Merge(ms[..|ms| - 1]) + ms[|ms| - 1]
  }

  /** Merging one more dict is one more update. */
  lemma MergeSnoc<V>(ms: seq<map<string, V>>, m: map<string, V>)
    ensures Merge(ms + [m]) == Merge(ms) + m
  {
    assert (ms + [m])[..|ms|] == ms;
  }

  lemma UnionAssoc<V>(a: map<string, V>, b: map<string, V>, c: map<string, V>)
    ensures a + (b + c) == (a + b) + c
  {
  }

  /** Merging a concatenation merges the two merges. */
  lemma {:induction false} MergeAppend<V>(left: seq<map<string, V>>, right: seq<map<string, V>>)
    ensures Merge(left + right) == Merge(left) + Merge(right)
    decreases |right|
  {
    if right != [] {
      var init, last := right[..|right| - 1], right[|right| - 1];
      assert right == init + [last];
      assert left + right == (left + init) + [last];
      calc {
        Merge(left + right);
        { MergeSnoc(left + init, last); }
        Merge(left + init) + last;
        { MergeAppend(left, init); }
        (Merge(left) + Merge(init)) + last;
        { UnionAssoc(Merge(left), Merge(init), last); }
        Merge(left) + (Merge(init) + last);
        { MergeSnoc(init, last); }
        Merge(left) + Merge(right);
      }
    } else {
      assert left + right == left;
    }
  }

  /** An empty dict in the sequence changes nothing. */
  lemma MergeSkipsEmpty<V>(left: seq<map<string, V>>, right: seq<map<string, V>>)
    ensures Merge(left + [map[]] + right) == Merge(left + right)
  {
    MergeAppend(left + [map[]], right);
    MergeSnoc(left, map[]);
    MergeAppend(left, right);
  }

  /** A key is in the merge exactly when some dict has it. */
  lemma {:induction false} MergeKeys<V>(ms: seq<map<string, V>>, k: string)
    ensures k in Merge(ms) <==> exists j :: 0 <= j < |ms| && k in ms[j]
    decreases |ms|
  {
    if ms != [] {
      var init := ms[..|ms| - 1];
      MergeKeys(init, k);
      if exists j :: 0 <= j < |init| && k in init[j] {
        var j :| 0 <= j < |init| && k in init[j];
        assert ms[j] == init[j];
      }
      if exists j :: 0 <= j < |ms| && k in ms[j] {
        var j :| 0 <= j < |ms| && k in ms[j];
        if j < |init| { assert init[j] == ms[j]; }
      }
    }
  }

  /** The value of a key comes from the last dict that has the key. */
  lemma {:induction false} MergeLastWins<V>(ms: seq<map<string, V>>, k: string, j: int)
    requires 0 <= j < |ms| && k in ms[j]
    requires forall l :: j < l < |ms| ==> k !in ms[l]
    ensures k in Merge(ms) && Merge(ms)[k] == ms[j][k]
    decreases |ms|
  {
    var init := ms[..|ms| - 1];
    if j < |ms| - 1 {
      assert init[j] == ms[j];
      MergeLastWins(init, k, j);
    }
  }

  /** Every value of the merge is a value some dict had for that key. */
  lemma {:induction false} MergeValueFrom<V>(ms: seq<map<string, V>>, k: string)
    requires k in Merge(ms)
    ensures exists j :: 0 <= j < |ms| && k in ms[j] && Merge(ms)[k] == ms[j][k]
    decreases |ms|
  {
    var init, last := ms[..|ms| - 1], ms[|ms| - 1];
    if k !in last {
      MergeValueFrom(init, k);
      var j :| 0 <= j < |init| && k in init[j] && Merge(init)[k] == init[j][k];
      assert ms[j] == init[j];
    }
  }
}
