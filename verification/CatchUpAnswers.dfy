/** When a request to catch up is answered, and with what: on the replicated log and on the stored chain
    behind it (consensus/pbft/node.go, pkg/chain/chain.go). */
module CatchUpAnswers {
  import opened Types
  import MessagePools
  import opened PbftMetas
  import opened PbftReplicas
  import PbftSystem
  import PbftPrefix
  import Chains

  /** With the blocks numbered from 1, a request is answered exactly when it starts at a positive height
      and wants no more blocks than the limit, and then with the blocks from there to the newest. */
  lemma AnsweredExactlyWhen(r: Replica, start: int, from: MessagePools.NodeInfo)
    requires Height(r.chain) == |r.chain|
    ensures Answers(r, CatchupReqMsg(start, from))
      == if start >= 1 && |r.chain| - start + 1 <= BLOCKS_FETCH_LIMIT
         then [CatchupRespMsg(if start <= |r.chain| then r.chain[start - 1..] else [], r.meta.cur, r.self, from, start)]
         else []
  {
    assert r.chain[|r.chain|..] == [];
    if start >= 1 && start <= |r.chain| {
      assert |r.chain| - (|r.chain| - start + 1) == start - 1;
    }
  }

  /** In every run with an honest leader in which adopted answers fit, that is when the leader answers. */
  lemma LeaderAnswersExactlyWhen(c: PbftSystem.Config, states: seq<PbftSystem.System>, steps: seq<PbftSystem.Step>,
      k: nat, start: int, from: MessagePools.NodeInfo)
    requires PbftPrefix.FittingRun(c, states, steps) && k < |states|
    ensures |states[k].replicas| == c.nodeNum > 0
    ensures var r := states[k].replicas[0];
      Answers(r, CatchupReqMsg(start, from))
        == if start >= 1 && |r.chain| - start + 1 <= BLOCKS_FETCH_LIMIT
           then [CatchupRespMsg(if start <= |r.chain| then r.chain[start - 1..] else [], r.meta.cur, r.self, from,
             start)]
           else []
  {
    PbftPrefix.RunInv(c, states, steps, k);
    var s := states[k];
    assert PbftPrefix.ReplicaOk(c, s.soup, s.replicas[0], 0);
    PbftPrefix.HeightOnLog(s.soup, s.replicas[0].meta, s.replicas[0].chain);
    AnsweredExactlyWhen(s.replicas[0], start, from);
  }

  /** A replica at height `h` of the log asks from `h + 1` on; a leader no more than the limit ahead then
      sends exactly what it lacks, and adopting that makes the two chains equal. */
  lemma AskingCatchesUp(c: PbftSystem.Config, s: PbftSystem.System, i: nat)
    requires PbftPrefix.Inv(c, s) && 0 < i < c.nodeNum && c.Honest(MessagePools.NodeInfo(i, c.shard))
    requires var r, leader := s.replicas[i], s.replicas[0];
      |r.chain| <= |leader.chain| <= |r.chain| + BLOCKS_FETCH_LIMIT && r.meta.catchupStarted
    ensures var r, leader := s.replicas[i], s.replicas[0];
      var answer := Answers(leader, CatchupReqMsg(Height(r.chain) + 1, r.self));
      && |answer| == 1 && answer[0].CatchupRespMsg?
      && var r' := Received(r, answer[0], true);
      && r'.chain == leader.chain && r'.meta.cur == leader.meta.cur
      && !r'.meta.catchupStarted && r'.meta.stage == PreprepareStage && r'.meta.preprepare.None?
  {
    var r, leader := s.replicas[i], s.replicas[0];
    assert PbftPrefix.ReplicaOk(c, s.soup, r, i) && PbftPrefix.ReplicaOk(c, s.soup, leader, 0);
    PbftPrefix.HeightOnLog(s.soup, leader.meta, r.chain);
    PbftPrefix.HeightOnLog(s.soup, leader.meta, leader.chain);
    PbftPrefix.OnLogAgree(s.soup, leader.meta, r.chain, leader.chain);
    AnswerCompletes(leader, r);
  }

  lemma AnswerCompletes(leader: Replica, r: Replica)
    requires r.chain <= leader.chain && |leader.chain| <= |r.chain| + BLOCKS_FETCH_LIMIT
    requires Height(r.chain) == |r.chain| && Height(leader.chain) == |leader.chain|
    requires leader.self.node == r.meta.leader && r.meta.catchupStarted
    ensures var answer := Answers(leader, CatchupReqMsg(Height(r.chain) + 1, r.self));
      && |answer| == 1 && answer[0].CatchupRespMsg?
      && var r' := Received(r, answer[0], true);
      && r'.chain == leader.chain && r'.meta.cur == leader.meta.cur
      && !r'.meta.catchupStarted && r'.meta.stage == PreprepareStage && r'.meta.preprepare.None?
  {
    AnsweredExactlyWhen(leader, |r.chain| + 1, r.self);
    assert leader.chain[|leader.chain|..] == [];
    assert leader.chain == r.chain + leader.chain[|r.chain|..];
  }

  /** The list of blocks stands for the stored chain: as many blocks, each with the height of its place. */
  ghost predicate StandsFor(chain: seq<MessagePools.Block>, history: seq<Chains.Block>)
  {
    |chain| == |history| && forall k :: 0 <= k < |chain| ==> chain[k].number == history[k].header.number
  }

  /** On a linked chain that the list stands for, walking the parents is refused exactly when the list's
      answer is, and yields the blocks at the same heights. */
  lemma AnswerIsWalk(chain: seq<MessagePools.Block>, c: Chains.ChainState, history: seq<Chains.Block>, start: int)
    requires Chains.Linked(c, history) && StandsFor(chain, history)
    ensures BlocksFrom(chain, start).Some? <==> Chains.BlocksAfterHeight(c, start).Some?
    ensures BlocksFrom(chain, start).Some? ==>
      StandsFor(BlocksFrom(chain, start).value, Chains.BlocksAfterHeight(c, start).value)
  {
    assert Chains.StoredAt(c, history, |history| - 1);
    Chains.BlocksAreTail(c, history, start);
  }
}
