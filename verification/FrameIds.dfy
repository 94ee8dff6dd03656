module FrameIds {

  /** There is always an id not taken yet. */
  lemma {:induction false} FreeId(ids: set<nat>) returns (id: nat)
    ensures forall i | i in ids :: i < id
  {
    if ids == {} {
      id := 0;
    } else {
      var i :| i in ids;
      var rest := FreeId(ids - {i});
      id := if i < rest then rest else i + 1;
      assert forall j | j in ids :: j == i || j in ids - {i};
    }
  }
}
