/** With an honest leader, whatever the other members do, honest replicas' chains are prefixes of one
    another and each replica's height is its sequence number plus one, as long as every catch-up
    answer fits the chain it is added to. */
module PbftPrefix {
  import opened ViewSeqs
  import opened MessagePools
  import opened PbftMetas
  import opened PbftReplicas
  import opened PbftSystem

  /** The block at height `k + 1`: the genesis block, or what the leader proposed at sequence `k - 1`. */
  ghost predicate Logged(soup: set<Msg>, k: nat, b: Block)
  {
    if k == 0 then b == GENESIS
    else exists p :: FromLeader(soup, p) && p.at == ViewSeq(0, k - 1) && p.proposal == b
  }

  ghost predicate OnLog(soup: set<Msg>, chain: seq<Block>)
  {
    forall k :: 0 <= k < |chain| ==> Logged(soup, k, chain[k])
  }

  // ---------------------------------------------------------------------------------------------
  // The invariant
  // ---------------------------------------------------------------------------------------------

  /** The leader proposes once per sequence number, and not beyond the one it is at. */
  ghost predicate ProposalsOk(soup: set<Msg>, leader: Meta)
  {
    && (forall p, q :: FromLeader(soup, p) && FromLeader(soup, q) && p.at == q.at ==> p == q)
    && (forall p :: FromLeader(soup, p) ==> ProposalOk(p, leader))
  }

  predicate ProposalOk(p: Preprepare, leader: Meta)
  {
    && p.at.view == 0 && 0 <= p.at.seqNo && p.proposal.number == p.at.seqNo + 2
    && (p.at.seqNo < leader.cur.seqNo || (p.at.seqNo == leader.cur.seqNo && leader.proposed))
  }

  /** A leader's answer holds the blocks from the requested height up to the leader's own. */
  ghost predicate AnswerOk(soup: set<Msg>, m: Msg)
    requires m.CatchupRespMsg?
  {
    && m.next.view == 0 && 0 <= m.next.seqNo && m.start >= 1
    && |m.blocks| == (if m.next.seqNo + 2 >= m.start then m.next.seqNo + 2 - m.start else 0)
    && forall j :: 0 <= j < |m.blocks| ==> Logged(soup, m.start - 1 + j, m.blocks[j])
  }

  ghost predicate AnswersOk(soup: set<Msg>)
  {
    forall m :: m in soup && m.CatchupRespMsg? && m.from.node == INITIAL_LEADER ==> AnswerOk(soup, m)
  }

  ghost predicate ReplicaOk(c: Config, soup: set<Msg>, r: Replica, i: nat)
  {
    && r.self == NodeInfo(i, c.shard) && r.meta.leader == INITIAL_LEADER
    && |r.chain| >= 1 && OnLog(soup, r.chain) && r.meta.cur == ViewSeq(0, |r.chain| - 1)
    && (forall p :: p in r.meta.preprepares ==> PreprepareMsg(p) in soup)
    && (r.meta.preprepare.Some? ==>
      FromLeader(soup, r.meta.preprepare.value) && r.meta.preprepare.value.at == r.meta.cur)
    && (r.meta.stage == PrepareStage || r.meta.stage == CommitStage ==> r.meta.preprepare.Some?)
    && (i == INITIAL_LEADER ==> !r.meta.catchupStarted)
  }

  ghost predicate AllReplicasOk(c: Config, s: System)
  {
    forall i :: 0 <= i < |s.replicas| && c.Honest(NodeInfo(i, c.shard)) ==> ReplicaOk(c, s.soup, s.replicas[i], i)
  }

  ghost predicate Inv(c: Config, s: System)
  {
    && HonestLeader(c) && |s.replicas| == c.nodeNum
    && AllReplicasOk(c, s) && ProposalsOk(s.soup, s.replicas[0].meta) && AnswersOk(s.soup)
  }

  /** The answer's blocks fill exactly the gap between the replica's chain and the leader's height. */
  predicate Fits(r: Replica, m: Msg)
    requires m.CatchupRespMsg?
  {
    |r.chain| + |m.blocks| == m.next.seqNo + 1
  }

  ghost predicate Fitting(s: System, step: Step)
  {
    Adopts(s, step) ==> Fits(s.replicas[step.at], step.action.msg)
  }

  // ---------------------------------------------------------------------------------------------
  // The log
  // ---------------------------------------------------------------------------------------------

  lemma LoggedStays(soup: set<Msg>, soup': set<Msg>, k: nat, b: Block)
    requires Logged(soup, k, b) && soup <= soup'
    ensures Logged(soup', k, b)
  {
    if k > 0 {
      var p :| FromLeader(soup, p) && p.at == ViewSeq(0, k - 1) && p.proposal == b;
      assert FromLeader(soup', p);
    }
  }

  lemma OnLogStays(soup: set<Msg>, soup': set<Msg>, chain: seq<Block>)
    requires OnLog(soup, chain) && soup <= soup'
    ensures OnLog(soup', chain)
  {
    forall k | 0 <= k < |chain|
      ensures Logged(soup', k, chain[k])
    {
      LoggedStays(soup, soup', k, chain[k]);
    }
  }

  lemma LoggedOnce(soup: set<Msg>, leader: Meta, k: nat, b: Block, d: Block)
    requires ProposalsOk(soup, leader) && Logged(soup, k, b) && Logged(soup, k, d)
    ensures b == d && b.number == k + 1
  {
  }

  lemma OnLogAgree(soup: set<Msg>, leader: Meta, chain: seq<Block>, chain': seq<Block>)
    requires ProposalsOk(soup, leader) && OnLog(soup, chain) && OnLog(soup, chain') && |chain| <= |chain'|
    ensures chain <= chain'
  {
    forall k | 0 <= k < |chain|
      ensures chain[k] == chain'[k]
    {
      LoggedOnce(soup, leader, k, chain[k], chain'[k]);
    }
  }

  lemma HeightOnLog(soup: set<Msg>, leader: Meta, chain: seq<Block>)
    requires ProposalsOk(soup, leader) && OnLog(soup, chain) && |chain| >= 1
    ensures Height(chain) == |chain|
  {
    LoggedOnce(soup, leader, |chain| - 1, chain[|chain| - 1], chain[|chain| - 1]);
  }

  // ---------------------------------------------------------------------------------------------
  // What one replica does
  // ---------------------------------------------------------------------------------------------

  lemma ReplicaStays(c: Config, soup: set<Msg>, soup': set<Msg>, r: Replica, i: nat)
    requires ReplicaOk(c, soup, r, i) && soup <= soup'
    ensures ReplicaOk(c, soup', r, i)
  {
    OnLogStays(soup, soup', r.chain);
  }

  lemma AnswerStays(soup: set<Msg>, soup': set<Msg>, m: Msg)
    requires m.CatchupRespMsg? && AnswerOk(soup, m) && soup <= soup'
    ensures AnswerOk(soup', m)
  {
    forall j | 0 <= j < |m.blocks|
      ensures Logged(soup', m.start - 1 + j, m.blocks[j])
    {
      LoggedStays(soup, soup', m.start - 1 + j, m.blocks[j]);
    }
  }

  /** A fitting answer takes the replica to the height the leader had when it answered. */
  lemma AnswerKeeps(c: Config, soup: set<Msg>, r: Replica, i: nat, m: Msg)
    requires ReplicaOk(c, soup, r, i) && m.CatchupRespMsg? && AnswerOk(soup, m) && Fits(r, m)
    ensures OnLog(soup, r.chain + m.blocks)
  {
    forall k | 0 <= k < |r.chain + m.blocks|
      ensures Logged(soup, k, (r.chain + m.blocks)[k])
    {
      if k >= |r.chain| {
        assert Logged(soup, m.start - 1 + (k - |r.chain|), m.blocks[k - |r.chain|]);
      }
    }
  }

  lemma ReceiveKeeps(c: Config, soup: set<Msg>, r: Replica, i: nat, msg: Msg, valid: bool)
    requires ReplicaOk(c, soup, r, i) && msg in soup && AnswersOk(soup)
    requires msg.CatchupRespMsg? && msg.from.node == r.meta.leader && r.meta.catchupStarted ==> Fits(r, msg)
    ensures ReplicaOk(c, soup, Received(r, msg, valid), i)
  {
    if msg.CatchupRespMsg? && msg.from.node == r.meta.leader && r.meta.catchupStarted {
      AnswerKeeps(c, soup, r, i, msg);
    }
  }

  lemma CurateKeeps(c: Config, soup: set<Msg>, r: Replica, r': Replica, i: nat)
    requires ReplicaOk(c, soup, r, i) && Curated(r.meta, r'.meta) && r' == r.(meta := r'.meta)
    ensures ReplicaOk(c, soup, r', i)
  {
    forall p | p in r'.meta.preprepares
      ensures p in r.meta.preprepares
    {
      assert r'.meta.preprepares[p] > 0;
    }
  }

  lemma AdvanceKeeps(c: Config, soup: set<Msg>, r: Replica, i: nat)
    requires ReplicaOk(c, soup, r, i)
    ensures ReplicaOk(c, soup, Advanced(r), i)
  {
    if Commits(r, Advance) {
      var p := r.meta.preprepare.value;
      assert Logged(soup, |r.chain|, p.proposal) by {
        assert FromLeader(soup, p) && p.at == ViewSeq(0, |r.chain| - 1);
      }
    }
  }

  lemma ActorOk(c: Config, s: System, s': System, i: nat, a: Action)
    requires Inv(c, s) && ActNext(c, s, s', i, a) && Fitting(s, Act(i, a))
    ensures ReplicaOk(c, s'.soup, s'.replicas[i], i)
  {
    var r := s.replicas[i];
    assert ReplicaOk(c, s.soup, r, i);
    match a {
      case Receive(msg, valid) => ReceiveKeeps(c, s.soup, r, i, msg, valid);
      case Curate => CurateKeeps(c, s.soup, r, s'.replicas[i], i);
      case Advance => AdvanceKeeps(c, s.soup, r, i);
      case Propose(_) =>
      case AskCatchup =>
    }
    ReplicaStays(c, s.soup, s'.soup, s'.replicas[i], i);
  }

  // ---------------------------------------------------------------------------------------------
  // What the leader sends
  // ---------------------------------------------------------------------------------------------

  lemma BlocksFromHeight(chain: seq<Block>, start: int)
    requires Height(chain) == |chain| && BlocksFrom(chain, start).Some?
    ensures start >= 1 && BlocksFrom(chain, start).value == if start - 1 <= |chain| then chain[start - 1..] else []
  {
  }

  lemma LeaderAnswers(c: Config, soup: set<Msg>, r: Replica, start: int, from: NodeInfo)
    requires ReplicaOk(c, soup, r, INITIAL_LEADER) && ProposalsOk(soup, r.meta)
    ensures forall m :: m in Answers(r, CatchupReqMsg(start, from)) ==> AnswerOk(soup, m)
  {
    HeightOnLog(soup, r.meta, r.chain);
    var answer := BlocksFrom(r.chain, start);
    if answer.Some? {
      BlocksFromHeight(r.chain, start);
      LoggedTail(soup, r.chain, start, answer.value);
    }
  }

  lemma LoggedTail(soup: set<Msg>, chain: seq<Block>, start: int, blocks: seq<Block>)
    requires OnLog(soup, chain) && start >= 1 && blocks == if start - 1 <= |chain| then chain[start - 1..] else []
    ensures forall j :: 0 <= j < |blocks| ==> Logged(soup, start - 1 + j, blocks[j])
  {
    forall j | 0 <= j < |blocks|
      ensures Logged(soup, start - 1 + j, blocks[j])
    {
      assert Logged(soup, start - 1 + j, chain[start - 1 + j]);
    }
  }

  lemma AnswersStay(c: Config, s: System, s': System, i: nat, a: Action)
    requires Inv(c, s) && ActNext(c, s, s', i, a)
    ensures AnswersOk(s'.soup)
  {
    var r := s.replicas[i];
    assert ReplicaOk(c, s.soup, r, i);
    if a.Receive? && a.msg.CatchupReqMsg? {
      LeaderAnswers(c, s.soup, r, a.msg.start, a.msg.from);
    }
    forall m | m in s'.soup && m.CatchupRespMsg? && m.from.node == INITIAL_LEADER
      ensures AnswerOk(s'.soup, m)
    {
      AnswerStays(s.soup, s'.soup, m);
    }
  }

  lemma ProposalsStay(c: Config, s: System, s': System, i: nat, a: Action)
    requires Inv(c, s) && ActNext(c, s, s', i, a)
    ensures ProposalsOk(s'.soup, s'.replicas[0].meta)
  {
    var r := s.replicas[i];
    assert ReplicaOk(c, s.soup, r, i) && ReplicaOk(c, s.soup, s.replicas[0], 0);
    if a.Propose? {
      assert i == 0;
      HeightOnLog(s.soup, r.meta, r.chain);
      ProposalAdded(c, s.soup, s'.soup, r, a.content);
    } else {
      assert forall p :: FromLeader(s'.soup, p) <==> FromLeader(s.soup, p);
      LeaderMoves(c, s, s', i, a);
    }
  }

  lemma ProposalAdded(c: Config, soup: set<Msg>, soup': set<Msg>, r: Replica, content: nat)
    requires ReplicaOk(c, soup, r, 0) && ProposalsOk(soup, r.meta) && MayPropose(r) && Height(r.chain) == |r.chain|
    requires soup' == soup + {PreprepareMsg(Proposal(r, content))}
    ensures ProposalsOk(soup', r.meta.(proposed := true))
  {
    var p := Proposal(r, content);
    assert forall q :: FromLeader(soup', q) ==> FromLeader(soup, q) || q == p;
    assert forall q :: FromLeader(soup, q) ==> q.at != p.at;
  }

  /** The leader's round moves forward only, and a proposal of the round it leaves stays below. */
  lemma LeaderMoves(c: Config, s: System, s': System, i: nat, a: Action)
    requires Inv(c, s) && ActNext(c, s, s', i, a) && !a.Propose?
    ensures var m, m' := s.replicas[0].meta, s'.replicas[0].meta;
      (m'.cur == m.cur && m'.proposed == m.proposed) || m'.cur == m.cur.Next()
  {
    assert ReplicaOk(c, s.soup, s.replicas[0], 0);
  }

  // ---------------------------------------------------------------------------------------------
  // Every step keeps the invariant
  // ---------------------------------------------------------------------------------------------

  lemma InitInv(c: Config, s: System)
    requires HonestLeader(c) && Init(c, s)
    ensures Inv(c, s)
  {
    assert Logged(s.soup, 0, GENESIS);
  }

  lemma ActKeepsInv(c: Config, s: System, s': System, i: nat, a: Action)
    requires Inv(c, s) && ActNext(c, s, s', i, a) && Fitting(s, Act(i, a))
    ensures Inv(c, s')
  {
    ActorOk(c, s, s', i, a);
    forall j | 0 <= j < |s'.replicas| && c.Honest(NodeInfo(j, c.shard))
      ensures ReplicaOk(c, s'.soup, s'.replicas[j], j)
    {
      if j != i {
        ReplicaStays(c, s.soup, s'.soup, s.replicas[j], j);
      }
    }
    ProposalsStay(c, s, s', i, a);
    AnswersStay(c, s, s', i, a);
  }

  /** No Byzantine member can speak as the leader. */
  lemma ForgeKeepsInv(c: Config, s: System, s': System, who: NodeInfo, msg: Msg)
    requires Inv(c, s) && who in c.byzantine && SentUnder(msg, who) && s' == s.(soup := s.soup + {msg})
    ensures Inv(c, s')
  {
    MembersCount(c.nodeNum, c.shard);
    assert who.node != INITIAL_LEADER;
    forall j | 0 <= j < |s'.replicas| && c.Honest(NodeInfo(j, c.shard))
      ensures ReplicaOk(c, s'.soup, s'.replicas[j], j)
    {
      ReplicaStays(c, s.soup, s'.soup, s.replicas[j], j);
    }
    assert forall p :: FromLeader(s'.soup, p) <==> FromLeader(s.soup, p);
    forall m | m in s'.soup && m.CatchupRespMsg? && m.from.node == INITIAL_LEADER
      ensures AnswerOk(s'.soup, m)
    {
      AnswerStays(s.soup, s'.soup, m);
    }
  }

  lemma StepKeepsInv(c: Config, s: System, s': System, step: Step)
    requires Inv(c, s) && Next(c, s, s', step) && Fitting(s, step)
    ensures Inv(c, s')
  {
    match step {
      case Act(i, a) => ActKeepsInv(c, s, s', i, a);
      case Forge(who, msg) => ForgeKeepsInv(c, s, s', who, msg);
    }
  }

  ghost predicate FittingRun(c: Config, states: seq<System>, steps: seq<Step>)
  {
    && HonestLeader(c) && Run(c, states, steps)
    && forall k :: 0 <= k < |steps| ==> Fitting(states[k], steps[k])
  }

  lemma {:induction false} RunInv(c: Config, states: seq<System>, steps: seq<Step>, k: nat)
    requires FittingRun(c, states, steps) && k < |states|
    ensures Inv(c, states[k])
  {
    if k == 0 {
      InitInv(c, states[0]);
    } else {
      RunInv(c, states, steps, k - 1);
      assert StepAt(c, states, steps, k - 1);
      StepKeepsInv(c, states[k - 1], states[k], steps[k - 1]);
    }
  }

  /** Chain prefix agreement: in every reachable state the chains of two honest replicas are prefixes
      of one another, and each one's newest block has the number of its round plus one. */
  lemma PrefixAgreement(c: Config, states: seq<System>, steps: seq<Step>, k: nat, i: nat, j: nat)
    requires FittingRun(c, states, steps) && k < |states| && i < c.nodeNum && j < c.nodeNum
    requires c.Honest(NodeInfo(i, c.shard)) && c.Honest(NodeInfo(j, c.shard))
    ensures var rs := states[k].replicas;
      && |rs| == c.nodeNum
      && (rs[i].chain <= rs[j].chain || rs[j].chain <= rs[i].chain)
      && Height(rs[i].chain) == |rs[i].chain| == rs[i].meta.cur.seqNo + 1
  {
    RunInv(c, states, steps, k);
    var s := states[k];
    var r, q := s.replicas[i], s.replicas[j];
    assert ReplicaOk(c, s.soup, r, i) && ReplicaOk(c, s.soup, q, j);
    HeightOnLog(s.soup, s.replicas[0].meta, r.chain);
    if |r.chain| <= |q.chain| {
      OnLogAgree(s.soup, s.replicas[0].meta, r.chain, q.chain);
    } else {
      OnLogAgree(s.soup, s.replicas[0].meta, q.chain, r.chain);
    }
  }

  // ---------------------------------------------------------------------------------------------
  // Catching up
  // ---------------------------------------------------------------------------------------------

  /** An answer that reaches at least the requested height fits exactly when the replica still has the
      height it asked at; once it has moved on, the blocks it added meanwhile would come a second time.
      An answer of a leader below the requested height brings no block, and fits exactly when the
      replica is at the leader's height. */
  lemma AnswerFitsExactlyWhen(soup: set<Msg>, r: Replica, m: Msg)
    requires m.CatchupRespMsg? && AnswerOk(soup, m)
    ensures Fits(r, m)
      <==> if m.next.seqNo + 2 >= m.start then m.start == |r.chain| + 1 else |r.chain| == m.next.seqNo + 1
  {
  }

  /** The code adds whatever blocks an answer brings. The replica stays on the log at the height of its
      round exactly when the answer is the one to the height it now has, or, of a leader that was below
      the height asked for, comes from the replica's own height. */
  lemma CatchUpSafeExactlyWhen(c: Config, s: System, i: nat, m: Msg)
    requires Inv(c, s) && i < c.nodeNum && c.Honest(NodeInfo(i, c.shard))
    requires m in s.soup && m.CatchupRespMsg? && m.from.node == INITIAL_LEADER && s.replicas[i].meta.catchupStarted
    ensures var height := |s.replicas[i].chain|;
      ReplicaOk(c, s.soup, Received(s.replicas[i], m, true), i)
      <==> if m.next.seqNo + 2 >= m.start then m.start == height + 1 else height == m.next.seqNo + 1
  {
    var r := s.replicas[i];
    assert ReplicaOk(c, s.soup, r, i);
    AnswerFitsExactlyWhen(s.soup, r, m);
    if Fits(r, m) {
      AnswerKeeps(c, s.soup, r, i, m);
    }
  }

  /** Every honest replica's chain is on the log, and its round is at the chain's height. */
  ghost predicate OnTrack(c: Config, s: System)
  {
    forall i :: 0 <= i < |s.replicas| && c.Honest(NodeInfo(i, c.shard)) ==>
      OnLog(s.soup, s.replicas[i].chain) && s.replicas[i].meta.cur == ViewSeq(0, |s.replicas[i].chain| - 1)
  }

  /** An adoption that leaves everything on track fits. */
  lemma OnTrackFits(c: Config, s: System, s': System, step: Step)
    requires Next(c, s, s', step) && OnTrack(c, s')
    ensures Fitting(s, step)
  {
  }

  /** With an honest leader, a run is on track in every state exactly when every adopted answer fits. */
  lemma OnTrackExactlyWhen(c: Config, states: seq<System>, steps: seq<Step>)
    requires HonestLeader(c) && Run(c, states, steps)
    ensures (forall k :: 0 <= k < |states| ==> OnTrack(c, states[k]))
      <==> (forall k :: 0 <= k < |steps| ==> Fitting(states[k], steps[k]))
  {
    if forall k :: 0 <= k < |steps| ==> Fitting(states[k], steps[k]) {
      forall k | 0 <= k < |states|
        ensures OnTrack(c, states[k])
      {
        RunInv(c, states, steps, k);
      }
    }
    if forall k :: 0 <= k < |states| ==> OnTrack(c, states[k]) {
      forall k | 0 <= k < |steps|
        ensures Fitting(states[k], steps[k])
      {
        assert StepAt(c, states, steps, k);
        OnTrackFits(c, states[k], states[k + 1], steps[k]);
      }
    }
  }

  // ---------------------------------------------------------------------------------------------
  // No Byzantine member
  // ---------------------------------------------------------------------------------------------

  /** Nobody has heard of a proposal beyond the leader's round, so whoever asks to catch up is at least
      the threshold behind. A Byzantine member can break this with a preprepare of its own, which is
      not accepted but does move the latest known round (`PbftWitness.TimelyAnswerFailsWithByzantine`). */
  ghost predicate Ahead(s: System)
    requires s.replicas != []
  {
    var h := s.replicas[0].meta.cur.seqNo;
    && (forall m :: m in s.soup ==> TrafficOk(h, m))
    && (forall i :: 0 <= i < |s.replicas| ==>
      s.replicas[i].meta.latest.view == 0 && s.replicas[i].meta.latest.seqNo <= h)
  }

  predicate TrafficOk(h: int, m: Msg)
  {
    match m
    case PreprepareMsg(p) => p.from.node == INITIAL_LEADER
    case CatchupReqMsg(start, _) => start - 2 + CATCH_UP_THRESHOLD <= h
    case CatchupRespMsg(_, next, from, _, start) => from.node == INITIAL_LEADER
      && start - 2 + CATCH_UP_THRESHOLD <= next.seqNo
    case _ => true
  }

  /** A catch-up answer is taken over at the height it was requested for. */
  ghost predicate AtRequestedHeight(s: System, step: Step)
  {
    Adopts(s, step) ==> step.action.msg.start == |s.replicas[step.at].chain| + 1
  }

  ghost predicate TimelyRun(c: Config, states: seq<System>, steps: seq<Step>)
  {
    && c.byzantine == {} && Run(c, states, steps)
    && forall k :: 0 <= k < |steps| ==> AtRequestedHeight(states[k], steps[k])
  }

  lemma TimelyFits(c: Config, s: System, s': System, step: Step)
    requires Inv(c, s) && Ahead(s) && Next(c, s, s', step) && AtRequestedHeight(s, step)
    ensures Fitting(s, step)
  {
    if Adopts(s, step) {
      assert AnswerOk(s.soup, step.action.msg);
    }
  }

  lemma AheadStays(c: Config, s: System, s': System, i: nat, a: Action)
    requires Inv(c, s) && Ahead(s) && c.byzantine == {} && ActNext(c, s, s', i, a)
    ensures Ahead(s')
  {
    LeaderGrows(c, s, s', i, a);
    LatestStays(c, s, s', i, a);
    NewTraffic(c, s, s', i, a);
    AheadFrom(s, s', i);
  }

  lemma LeaderGrows(c: Config, s: System, s': System, i: nat, a: Action)
    requires Inv(c, s) && ActNext(c, s, s', i, a)
    ensures s.replicas[0].meta.cur.seqNo <= s'.replicas[0].meta.cur.seqNo
  {
    if !a.Propose? {
      LeaderMoves(c, s, s', i, a);
    }
  }

  lemma AheadFrom(s: System, s': System, i: nat)
    requires i < |s.replicas| == |s'.replicas| && Ahead(s)
    requires forall j :: 0 <= j < |s.replicas| && j != i ==> s'.replicas[j] == s.replicas[j]
    requires s.replicas[0].meta.cur.seqNo <= s'.replicas[0].meta.cur.seqNo
    requires s'.replicas[i].meta.latest.view == 0 && s'.replicas[i].meta.latest.seqNo <= s.replicas[0].meta.cur.seqNo
    requires forall m :: m in s'.soup && m !in s.soup ==> TrafficOk(s.replicas[0].meta.cur.seqNo, m)
    ensures Ahead(s')
  {
    forall m | m in s'.soup
      ensures TrafficOk(s'.replicas[0].meta.cur.seqNo, m)
    {
      assert m in s.soup ==> TrafficOk(s.replicas[0].meta.cur.seqNo, m);
    }
  }

  /** The latest known round changes only when a preprepare is heard. */
  lemma LatestAfter(r: Replica, r': Replica, a: Action)
    requires Possible(r, a) && Acts(r, r', a)
    ensures r'.meta.latest == r.meta.latest
      || (a.Receive? && a.msg.PreprepareMsg? && r'.meta.latest == a.msg.preprepare.at)
  {
  }

  lemma LatestStays(c: Config, s: System, s': System, i: nat, a: Action)
    requires s.replicas != [] && ProposalsOk(s.soup, s.replicas[0].meta) && Ahead(s) && ActNext(c, s, s', i, a)
    ensures s'.replicas[i].meta.latest.view == 0 && s'.replicas[i].meta.latest.seqNo <= s.replicas[0].meta.cur.seqNo
  {
    LatestAfter(s.replicas[i], s'.replicas[i], a);
    if a.Receive? && a.msg.PreprepareMsg? {
      assert FromLeader(s.soup, a.msg.preprepare);
    }
  }

  lemma NewTraffic(c: Config, s: System, s': System, i: nat, a: Action)
    requires Inv(c, s) && Ahead(s) && c.byzantine == {} && ActNext(c, s, s', i, a)
    ensures forall m :: m in s'.soup && m !in s.soup ==> TrafficOk(s.replicas[0].meta.cur.seqNo, m)
  {
    var r := s.replicas[i];
    assert ReplicaOk(c, s.soup, r, i);
    HeightOnLog(s.soup, s.replicas[0].meta, r.chain);
  }

  lemma {:induction false} TimelyRunFits(c: Config, states: seq<System>, steps: seq<Step>, k: nat)
    requires TimelyRun(c, states, steps) && k < |states|
    ensures Inv(c, states[k]) && Ahead(states[k])
    ensures k < |steps| ==> Fitting(states[k], steps[k])
  {
    if k == 0 {
      InitInv(c, states[0]);
    } else {
      TimelyRunFits(c, states, steps, k - 1);
      assert StepAt(c, states, steps, k - 1);
      StepKeepsInv(c, states[k - 1], states[k], steps[k - 1]);
      AheadStays(c, states[k - 1], states[k], steps[k - 1].at, steps[k - 1].action);
    }
    if k < |steps| {
      assert StepAt(c, states, steps, k);
      TimelyFits(c, states[k], states[k + 1], steps[k]);
    }
  }

  /** Without Byzantine members, prefix agreement holds whenever catch-up answers are taken over at the
      height they were requested for: the leader is then never behind the one who asks. */
  lemma PrefixAgreementWhenTimely(c: Config, states: seq<System>, steps: seq<Step>, k: nat, i: nat, j: nat)
    requires TimelyRun(c, states, steps) && k < |states| && i < c.nodeNum && j < c.nodeNum
    ensures var rs := states[k].replicas;
      && |rs| == c.nodeNum
      && (rs[i].chain <= rs[j].chain || rs[j].chain <= rs[i].chain)
      && Height(rs[i].chain) == |rs[i].chain| == rs[i].meta.cur.seqNo + 1
  {
    forall k | 0 <= k < |steps|
      ensures Fitting(states[k], steps[k])
    {
      TimelyRunFits(c, states, steps, k);
    }
    PrefixAgreement(c, states, steps, k, i, j);
  }
}
