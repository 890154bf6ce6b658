/** Small facts about finite sets that the walks over unordered containers need. */
module Sets {

  lemma Member<T>(s: set<T>) returns (x: T)
    requires s != {}
    ensures x in s
  {
    assert !(s <= {});
    x :| x in s;
  }
}
