/** The consensus metadata of one replica (consensus/pbft/pbftmeta.go): what each operation does to
    it as a value, and the imperative operations proved against that. */
module PbftMetas {
  import opened Types
  import opened ViewSeqs
  import opened MessagePools

  /** The last two stages exist in the source but no code enters them. */
  datatype Stage = PreprepareStage | PrepareStage | CommitStage | NewViewStage | ViewChangeStage

  const INITIAL_LEADER: int := 0
  const CATCH_UP_THRESHOLD: int := 5

  /** The metadata as a value; the pool's queues show as multisets. */
  datatype Meta = Meta(
    f: int,
    leader: int,
    preprepares: multiset<Preprepare>,
    prepares: multiset<Vote>,
    commits: multiset<Vote>,
    proposed: bool,
    cur: ViewSeq,
    stage: Stage,
    preprepare: Option<Preprepare>,
    lastProposal: Option<Block>,
    prepareSet: set<NodeInfo>,
    commitSet: set<NodeInfo>,
    latest: ViewSeq,
    catchupStarted: bool)

  function FaultBound(nodeNum: int): int
  {
    (nodeNum - 1) / 3
  }

  function Fresh(nodeNum: int): Meta
  {
    Meta(FaultBound(nodeNum), INITIAL_LEADER, multiset{}, multiset{}, multiset{}, false, ViewSeq(0, 0), PreprepareStage,
         None, None, {}, {}, ViewSeq(0, 0), false)
  }

  // ---------------------------------------------------------------------------------------------
  // Messages coming in (consensus/pbft/node.go)
  // ---------------------------------------------------------------------------------------------

  function Newer(latest: ViewSeq, at: ViewSeq): ViewSeq
  {
    if latest.Before(at) then at else latest
  }

  /** Out-of-date messages are ignored. */
  function HearPreprepare(m: Meta, p: Preprepare): Meta
  {
    if p.at.Before(m.cur) then m
    else m.(preprepares := m.preprepares + multiset{p}, latest := Newer(m.latest, p.at))
  }

  function HearPrepare(m: Meta, v: Vote): Meta
  {
    if v.at.Before(m.cur) then m else m.(prepares := m.prepares + multiset{v})
  }

  function HearCommit(m: Meta, v: Vote): Meta
  {
    if v.at.Before(m.cur) then m else m.(commits := m.commits + multiset{v})
  }

  // ---------------------------------------------------------------------------------------------
  // Curating
  // ---------------------------------------------------------------------------------------------

  predicate Proper(m: Meta, p: Preprepare)
  {
    p.at == m.cur && p.from.node == m.leader
  }

  /** The senders of the votes for this round and digest. */
  function Senders(votes: multiset<Vote>, at: ViewSeq, digest: Digest): set<NodeInfo>
  {
    set v | v in votes && v.at == at && v.digest == digest :: v.from
  }

  /** Which preprepare curating settles on: the one already there, else some proper one that was
      buffered, else none. Everything read on the way is gone from the buffer. */
  ghost predicate PreprepareChosen(m: Meta, m': Meta)
  {
    if m.preprepare.Some? then
      m'.preprepare == m.preprepare && m'.preprepares == m.preprepares
    else
      && Drained(m.preprepares, m'.preprepares, PreprepareAt, m.cur)
      && (m'.preprepare.Some? ==> m'.preprepare.value in m.preprepares && Proper(m, m'.preprepare.value))
      && (m'.preprepare.None? ==> forall p :: p in m.preprepares ==> !Proper(m, p))
  }

  /** With a preprepare, the votes for it join the sets and everything at or below the round leaves
      the buffers; without one, votes keep waiting. */
  ghost predicate VotesCounted(m: Meta, m': Meta)
  {
    match m'.preprepare
    case None =>
      && m'.prepares == m.prepares && m'.commits == m.commits
      && m'.prepareSet == m.prepareSet && m'.commitSet == m.commitSet
    case Some(p) =>
      && Drained(m.prepares, m'.prepares, VoteAt, m.cur) && Drained(m.commits, m'.commits, VoteAt, m.cur)
      && m'.prepareSet == m.prepareSet + Senders(m.prepares, m.cur, p.digest)
      && m'.commitSet == m.commitSet + Senders(m.commits, m.cur, p.digest)
  }

  ghost predicate Curated(m: Meta, m': Meta)
  {
    && PreprepareChosen(m, m') && VotesCounted(m, m')
    && m' == m.(preprepares := m'.preprepares, preprepare := m'.preprepare, prepares := m'.prepares,
                commits := m'.commits, prepareSet := m'.prepareSet, commitSet := m'.commitSet)
  }

  // ---------------------------------------------------------------------------------------------
  // Stages
  // ---------------------------------------------------------------------------------------------

  function Quorum(m: Meta): int
  {
    2 * m.f + 1
  }

  /** One attempt to step; waiting leaves everything as it is. `None` is the error of an unknown stage. */
  function Stepped(m: Meta): Option<Meta>
    requires m.stage == CommitStage ==> m.preprepare.Some?
  {
    match m.stage
    case PreprepareStage => if m.preprepare.None? then Some(m) else Some(m.(stage := PrepareStage))
    case PrepareStage => if |m.prepareSet| < Quorum(m) then Some(m) else Some(m.(stage := CommitStage))
    case CommitStage => if |m.commitSet| < Quorum(m) then Some(m) else Some(NextRound(m))
    case NewViewStage => None
    case ViewChangeStage => None
  }

  function NextRound(m: Meta): Meta
    requires m.preprepare.Some?
  {
    m.(stage := PreprepareStage, lastProposal := Some(m.preprepare.value.proposal), preprepare := None,
       prepareSet := {}, commitSet := {}, proposed := false, cur := m.cur.Next())
  }

  predicate CatchupReady(m: Meta)
  {
    !m.catchupStarted && m.latest.view == m.cur.view && m.latest.seqNo >= m.cur.seqNo + CATCH_UP_THRESHOLD
  }

  function CaughtUp(m: Meta, next: ViewSeq): Meta
  {
    m.(catchupStarted := false, cur := next, stage := PreprepareStage, lastProposal := None, preprepare := None,
       prepareSet := {}, commitSet := {}, proposed := false)
  }

  // ---------------------------------------------------------------------------------------------
  // The imperative form
  // ---------------------------------------------------------------------------------------------

  class ConsensusMeta {
    const f: int
    const leader: int
    const msgPool: MsgPool
    var proposed: bool
    var curViewSeq: ViewSeq
    var stage: Stage
    var curPreprepare: Option<Preprepare>
    var lastProposal: Option<Block>
    var prepareSet: set<NodeInfo>
    var commitSet: set<NodeInfo>
    var latestViewSeq: ViewSeq
    var catchupStarted: bool

    ghost predicate Valid()
      reads this, msgPool, msgPool.preprepares, msgPool.prepares, msgPool.commits
    {
      msgPool.Valid()
    }

    ghost function Value(): Meta
      reads this, msgPool.preprepares, msgPool.prepares, msgPool.commits
    {
      Meta(f, leader, multiset(msgPool.preprepares.items), multiset(msgPool.prepares.items),
        multiset(msgPool.commits.items),
           proposed, curViewSeq, stage, curPreprepare, lastProposal, prepareSet, commitSet, latestViewSeq,
             catchupStarted)
    }

    constructor (nodeNum: int)
      ensures Valid() && Value() == Fresh(nodeNum)
    {
      f := (nodeNum - 1) / 3;
      leader := INITIAL_LEADER;
      msgPool := new MsgPool();
      proposed := false;
      curViewSeq := ViewSeq(0, 0);
      stage := PreprepareStage;
      curPreprepare := None;
      lastProposal := None;
      prepareSet := {};
      commitSet := {};
      latestViewSeq := ViewSeq(0, 0);
      catchupStarted := false;
    }

    method CurateMsg()
      requires Valid()
      modifies this, msgPool.preprepares, msgPool.prepares, msgPool.commits
      ensures Valid() && Curated(old(Value()), Value())
      ensures stage == old(stage) && (old(curPreprepare).Some? ==> curPreprepare == old(curPreprepare))
    {
      if curPreprepare == None {
        CuratePreprepares();
      }
      if curPreprepare == None {
        return;
      }
      CurateVotes(curPreprepare.value.digest);
    }

    method CuratePreprepares()
      requires Valid() && curPreprepare == None
      modifies `curPreprepare, msgPool.preprepares
      ensures Valid() && PreprepareChosen(old(Value()), Value())
      ensures Value() == old(Value()).(preprepares := Value().preprepares, preprepare := Value().preprepare)
    {
      var ppMsgList := msgPool.ReadPreprepareMsg(curViewSeq);
      ReadMembers(old(Value()).preprepares, ppMsgList, msgPool.preprepares.items);
      curPreprepare := FirstProper(ppMsgList, curViewSeq, leader);
      forall p | p in msgPool.preprepares.items
        ensures p.at != curViewSeq
      {
        assert multiset(msgPool.preprepares.items)[p] > 0;
      }
    }

    method CurateVotes(digest: Digest)
      requires Valid()
      modifies `prepareSet, `commitSet, msgPool.prepares, msgPool.commits
      ensures Valid()
      ensures Drained(old(Value()).prepares, Value().prepares, VoteAt, curViewSeq)
      ensures Drained(old(Value()).commits, Value().commits, VoteAt, curViewSeq)
      ensures prepareSet == old(prepareSet) + Senders(old(Value()).prepares, curViewSeq, digest)
      ensures commitSet == old(commitSet) + Senders(old(Value()).commits, curViewSeq, digest)
    {
      var pMsgList := msgPool.ReadPrepareMsg(curViewSeq);
      var senders := Count(pMsgList, curViewSeq, digest);
      ReadSenders(old(Value()).prepares, pMsgList, multiset(msgPool.prepares.items), curViewSeq, digest);
      prepareSet := prepareSet + senders;

      var cMsgList := msgPool.ReadCommitMsg(curViewSeq);
      senders := Count(cMsgList, curViewSeq, digest);
      ReadSenders(old(Value()).commits, cMsgList, multiset(msgPool.commits.items), curViewSeq, digest);
      commitSet := commitSet + senders;
    }

    method Step2Next() returns (oldStage: Stage, newStage: Stage, ok: bool)
      requires stage == CommitStage ==> curPreprepare.Some?
      modifies this
      ensures ok == Stepped(old(Value())).Some?
      ensures Value() == if ok then Stepped(old(Value())).value else old(Value())
      ensures ok ==> oldStage == old(stage) && newStage == stage
    {
      match stage {
        case PreprepareStage =>
          if curPreprepare == None {
            return PreprepareStage, PreprepareStage, true;
          }
          stage := PrepareStage;
          return PreprepareStage, PrepareStage, true;
        case PrepareStage =>
          if |prepareSet| < 2 * f + 1 {
            return PrepareStage, PrepareStage, true;
          }
          stage := CommitStage;
          return PrepareStage, CommitStage, true;
        case CommitStage =>
          if |commitSet| < 2 * f + 1 {
            return CommitStage, CommitStage, true;
          }
          stage := PreprepareStage;
          lastProposal := Some(curPreprepare.value.proposal);
          curPreprepare := None;
          prepareSet := {};
          commitSet := {};
          proposed := false;
          curViewSeq := ViewSeq(curViewSeq.view, curViewSeq.seqNo + 1);
          return CommitStage, PreprepareStage, true;
        case NewViewStage =>
          return PreprepareStage, PreprepareStage, false;
        case ViewChangeStage =>
          return PreprepareStage, PreprepareStage, false;
      }
    }

    method UpdateLatestViewSeq(at: ViewSeq)
      modifies this
      ensures Value() == old(Value()).(latest := Newer(old(latestViewSeq), at))
    {
      if latestViewSeq.Compare(at) == -1 {
        latestViewSeq := at;
      }
    }

    method CatchupIsReady() returns (ready: bool)
      ensures ready == CatchupReady(Value())
    {
      if catchupStarted {
        return false;
      }
      return latestViewSeq.view == curViewSeq.view && latestViewSeq.seqNo >= curViewSeq.seqNo + CATCH_UP_THRESHOLD;
    }

    method CatchupOverAndReset(vs: ViewSeq)
      modifies this
      ensures Value() == CaughtUp(old(Value()), vs)
    {
      catchupStarted := false;
      curViewSeq := vs;

      stage := PreprepareStage;
      lastProposal := None;
      curPreprepare := None;
      prepareSet := {};
      commitSet := {};
      proposed := false;
    }
  }

  /** The first of the messages read that is for this round and from the leader. */
  method FirstProper(ppMsgList: seq<Preprepare>, at: ViewSeq, leader: int) returns (found: Option<Preprepare>)
    ensures found.None? ==> forall p :: p in ppMsgList ==> p.at != at || p.from.node != leader
    ensures found.Some? ==> found.value in ppMsgList && found.value.at == at && found.value.from.node == leader
  {
    for i := 0 to |ppMsgList|
      invariant forall k :: 0 <= k < i ==> ppMsgList[k].at != at || ppMsgList[k].from.node != leader
    {
      var ppMsg := ppMsgList[i];
      if at.Compare(ppMsg.at) != 0 || ppMsg.from.node != leader {
        continue;
      }
      return Some(ppMsg);
    }
    return None;
  }

  /** The senders among the messages read, wrong rounds and digests dropped. */
  method Count(votes: seq<Vote>, at: ViewSeq, digest: Digest) returns (senders: set<NodeInfo>)
    ensures senders == Senders(multiset(votes), at, digest)
  {
    senders := {};
    for i := 0 to |votes|
      invariant senders == set k | 0 <= k < i && votes[k].at == at && votes[k].digest == digest :: votes[k].from
    {
      if at.Compare(votes[i].at) != 0 || votes[i].digest != digest {
        continue;
      }
      senders := senders + {votes[i].from};
    }
    CountedAll(votes, at, digest);
  }

  lemma CountedAll(votes: seq<Vote>, at: ViewSeq, digest: Digest)
    ensures (set k | 0 <= k < |votes| && votes[k].at == at && votes[k].digest == digest :: votes[k].from)
      == Senders(multiset(votes), at, digest)
  {
    forall n | n in Senders(multiset(votes), at, digest)
      ensures n in (set k | 0 <= k < |votes| && votes[k].at == at && votes[k].digest == digest :: votes[k].from)
    {
      var v :| v in multiset(votes) && v.at == at && v.digest == digest && v.from == n;
      assert v in votes;
    }
  }

  lemma ReadMembers(pool: multiset<Preprepare>, read: seq<Preprepare>, rest: seq<Preprepare>)
    requires multiset(read) + multiset(rest) == pool
    ensures forall p :: p in pool <==> p in read || p in rest
  {
    forall p
      ensures p in pool <==> p in read || p in rest
    {
      assert p in multiset(read) + multiset(rest) <==> p in multiset(read) || p in multiset(rest);
    }
  }

  /** Reading up to the round misses no vote of the round. */
  lemma ReadSenders(pool: multiset<Vote>, read: seq<Vote>, rest: multiset<Vote>, at: ViewSeq, digest: Digest)
    requires multiset(read) + rest == pool && Drained(pool, rest, VoteAt, at)
    ensures Senders(multiset(read), at, digest) == Senders(pool, at, digest)
  {
    forall v | v in pool && v.at == at
      ensures v in multiset(read)
    {
      assert rest[v] == 0;
    }
  }
}
