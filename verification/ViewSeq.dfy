/** The order of (view, sequence) pairs (consensus/pbft/basicstructs/viewseq.go). */
module ViewSeqs {

  datatype ViewSeq = ViewSeq(view: int, seqNo: int)
  {
    function Compare(other: ViewSeq): int
    {
      if view != other.view then (if view < other.view then -1 else 1)
      else if seqNo != other.seqNo then (if seqNo < other.seqNo then -1 else 1)
      else 0
    }

    predicate Before(other: ViewSeq)
    {
      Compare(other) == -1
    }

    function Next(): ViewSeq
    {
      ViewSeq(view, seqNo + 1)
    }
  }

  /** `Compare` is a total order, and `Next` is the least pair above. */
  lemma CompareIsTotalOrder(a: ViewSeq, b: ViewSeq, c: ViewSeq)
    ensures a.Compare(b) == -b.Compare(a)
    ensures a.Compare(b) == 0 <==> a == b
    ensures !b.Before(a) && !c.Before(b) ==> !c.Before(a)
    ensures a.Before(b) && !c.Before(b) ==> a.Before(c)
    ensures a.Before(b.Next()) <==> !b.Before(a)
  {
  }
}
