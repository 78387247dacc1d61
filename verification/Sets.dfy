/** Counting facts about finite sets. */
module Sets {
  lemma SubsetIsSmaller<T>(a: set<T>, b: set<T>)
    requires a <= b
    ensures |a| <= |b|
  {
    assert a + (b - a) == b;
  }

  lemma OneMore<T>(before: set<T>, after: set<T>, one: T)
    requires one !in before && forall x :: x in after <==> x in before || x == one
    ensures |after| == |before| + 1
  {
    assert after == before + {one};
  }

  /** A map that sends different keys to different values has no more keys than possible values. */
  lemma {:induction false} Pigeonhole<K, V>(image: map<K, V>, values: set<V>)
    requires forall key | key in image :: image[key] in values
    requires forall a, b | a in image && b in image && a != b :: image[a] != image[b]
    ensures |image.Keys| <= |values|
    decreases |image.Keys|
  {
    if image != map[] {
      var key :| key in image;
      var rest := image - {key};
      assert rest.Keys == image.Keys - {key};
      assert forall other | other in rest :: rest[other] == image[other];
      Pigeonhole(rest, values - {image[key]});
    }
  }
}
