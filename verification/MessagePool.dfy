/** The messages of the consensus and the pool that buffers them
    (pkg/message, consensus/pbft/basicstructs/pool.go). */
module MessagePools {
  import opened ViewSeqs
  import opened PriorityQueues

  datatype NodeInfo = NodeInfo(node: int, shard: int)

  /** `content` stands for the body and the header fields that consensus does not look at. */
  datatype Block = Block(number: int, content: nat)

  /** An honest proposer's digest is the hash of the proposed block; any other bytes may be sent. */
  datatype Digest = DigestOf(block: Block) | Forged(bytes: nat)

  datatype Preprepare = Preprepare(proposal: Block, digest: Digest, at: ViewSeq, from: NodeInfo)

  /** A prepare or a commit message; the two differ only in the queue that takes them. */
  datatype Vote = Vote(digest: Digest, at: ViewSeq, from: NodeInfo)

  /** What is left of the buffer `pool` once everything at or below `end` has been read. */
  ghost predicate Drained<T(!new)>(pool: multiset<T>, rest: multiset<T>, key: T -> ViewSeq, end: ViewSeq)
  {
    forall x :: rest[x] == if end.Before(key(x)) then pool[x] else 0
  }

  ghost predicate InOrder<T>(s: seq<T>, key: T -> ViewSeq)
  {
    forall i, j :: 0 <= i < j < |s| ==> !key(s[j]).Before(key(s[i]))
  }

  /** Reads, in (view, sequence) order, exactly the buffered messages at or below `end`, and leaves
      exactly the others. */
  method ReadUpTo<T(!new)>(queue: PriorityQueue<T>, end: ViewSeq) returns (read: seq<T>)
    requires queue.Valid()
    modifies queue
    ensures queue.Valid()
    ensures InOrder(read, queue.key)
    ensures forall x :: x in read ==> !end.Before(queue.key(x))
    ensures multiset(read) + multiset(queue.items) == multiset(old(queue.items))
    ensures Drained(multiset(old(queue.items)), multiset(queue.items), queue.key, end)
  {
    read := [];
    ghost var all := multiset(queue.items);
    while queue.Len() > 0
      invariant queue.Valid()
      invariant multiset(read) + multiset(queue.items) == all
      invariant InOrder(read, queue.key)
      invariant forall x :: x in read ==> !end.Before(queue.key(x))
      invariant forall x, y :: x in read && y in queue.items ==> !queue.key(y).Before(queue.key(x))
      decreases |queue.items|
    {
      ghost var before := queue.items;
      var top := queue.PopItem();
      PoppedFrom(before, queue.items, top);
      if end.Before(queue.key(top)) {
        ghost var rest := queue.items;
        queue.PushItem(top);
        forall y | y in queue.items
          ensures end.Before(queue.key(y))
        {
          assert y in multiset(queue.items);
          assert y in before;
          CompareIsTotalOrder(end, queue.key(top), queue.key(y));
        }
        break;
      }
      read := read + [top];
    }
    SplitDrains(all, read, queue.items, queue.key, end);
  }

  lemma PoppedFrom<T>(before: seq<T>, rest: seq<T>, top: T)
    requires multiset(rest) + multiset{top} == multiset(before)
    ensures |rest| + 1 == |before|
    ensures top in before && forall y :: y in rest ==> y in before
    ensures forall y :: y in before ==> y in rest || y == top
  {
    assert |multiset(rest)| + 1 == |multiset(before)|;
    assert top in multiset(before);
    forall y | y in rest
      ensures y in before
    {
      assert y in multiset(before);
    }
    forall y | y in before
      ensures y in rest || y == top
    {
      assert y in multiset(before);
    }
  }

  lemma SplitDrains<T(!new)>(all: multiset<T>, read: seq<T>, rest: seq<T>, key: T -> ViewSeq, end: ViewSeq)
    requires multiset(read) + multiset(rest) == all
    requires forall x :: x in read ==> !end.Before(key(x))
    requires forall y :: y in rest ==> end.Before(key(y))
    ensures Drained(all, multiset(rest), key, end)
  {
    forall x
      ensures multiset(rest)[x] == if end.Before(key(x)) then all[x] else 0
    {
      if end.Before(key(x)) {
        assert x !in read;
        assert multiset(read)[x] == 0;
      } else {
        assert x !in rest;
        assert multiset(rest)[x] == 0;
      }
    }
  }

  function PreprepareAt(m: Preprepare): ViewSeq
  {
    m.at
  }

  function VoteAt(m: Vote): ViewSeq
  {
    m.at
  }

  class MsgPool {
    const preprepares: PriorityQueue<Preprepare>
    const prepares: PriorityQueue<Vote>
    const commits: PriorityQueue<Vote>

    ghost predicate Valid()
      reads this, preprepares, prepares, commits
    {
      && preprepares.Valid() && preprepares.key == PreprepareAt
      && prepares.Valid() && prepares.key == VoteAt
      && commits.Valid() && commits.key == VoteAt
      && prepares != commits
    }

    constructor ()
      ensures Valid() && fresh(preprepares) && fresh(prepares) && fresh(commits)
      ensures preprepares.items == [] && prepares.items == [] && commits.items == []
    {
      preprepares := new PriorityQueue(PreprepareAt);
      prepares := new PriorityQueue(VoteAt);
      commits := new PriorityQueue(VoteAt);
    }

    method ReadPreprepareMsg(end: ViewSeq) returns (read: seq<Preprepare>)
      requires Valid()
      modifies preprepares
      ensures Valid() && InOrder(read, PreprepareAt)
      ensures forall m :: m in read ==> !end.Before(m.at)
      ensures multiset(read) + multiset(preprepares.items) == multiset(old(preprepares.items))
      ensures Drained(multiset(old(preprepares.items)), multiset(preprepares.items), PreprepareAt, end)
    {
      read := ReadUpTo(preprepares, end);
    }

    method ReadPrepareMsg(end: ViewSeq) returns (read: seq<Vote>)
      requires Valid()
      modifies prepares
      ensures Valid() && InOrder(read, VoteAt)
      ensures forall m :: m in read ==> !end.Before(m.at)
      ensures multiset(read) + multiset(prepares.items) == multiset(old(prepares.items))
      ensures Drained(multiset(old(prepares.items)), multiset(prepares.items), VoteAt, end)
    {
      read := ReadUpTo(prepares, end);
    }

    method ReadCommitMsg(end: ViewSeq) returns (read: seq<Vote>)
      requires Valid()
      modifies commits
      ensures Valid() && InOrder(read, VoteAt)
      ensures forall m :: m in read ==> !end.Before(m.at)
      ensures multiset(read) + multiset(commits.items) == multiset(old(commits.items))
      ensures Drained(multiset(old(commits.items)), multiset(commits.items), VoteAt, end)
    {
      read := ReadUpTo(commits, end);
    }
  }
}
