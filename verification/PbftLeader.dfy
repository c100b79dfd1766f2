/** What an honest leader alone is worth. In every run of the code, whatever the other members send,
    however many they are, and wherever catch-up answers take a replica, the leader proposes one block
    for each (view, sequence), and no replica commits any other. */
module PbftLeader {
  import opened ViewSeqs
  import opened MessagePools
  import opened PbftMetas
  import opened PbftReplicas
  import opened PbftSystem

  // ---------------------------------------------------------------------------------------------
  // Digests
  // ---------------------------------------------------------------------------------------------

  /** An honest leader's preprepares carry the digest of their block. No replica checks this: digests
      are taken as they come and never computed again. */
  ghost predicate DigestsHonest(soup: set<Msg>)
  {
    forall p :: FromLeader(soup, p) ==> p.digest == DigestOf(p.proposal)
  }

  /** Only the leader proposes, and no one else can send in its name. */
  lemma StepKeepsDigests(c: Config, s: System, s': System, step: Step)
    requires HonestLeader(c) && DigestsHonest(s.soup) && Next(c, s, s', step)
    ensures DigestsHonest(s'.soup)
  {
    MembersCount(c.nodeNum, c.shard);
    if step.Forge? {
      assert step.who.node != INITIAL_LEADER;
    }
    forall p | FromLeader(s'.soup, p)
      ensures p.digest == DigestOf(p.proposal)
    {
      assert FromLeader(s.soup, p) || (step.Act? && step.action.Propose?);
    }
  }

  lemma {:induction false} RunDigests(c: Config, states: seq<System>, steps: seq<Step>, k: nat)
    requires HonestLeader(c) && Run(c, states, steps) && k < |states|
    ensures DigestsHonest(states[k].soup)
  {
    if k > 0 {
      RunDigests(c, states, steps, k - 1);
      assert StepAt(c, states, steps, k - 1);
      StepKeepsDigests(c, states[k - 1], states[k], steps[k - 1]);
    }
  }

  // ---------------------------------------------------------------------------------------------
  // One proposal for each round
  // ---------------------------------------------------------------------------------------------

  /** The leader proposes once for each round, and not beyond the one it is at. */
  ghost predicate OneProposal(soup: set<Msg>, leader: Meta)
  {
    && (forall p, q :: FromLeader(soup, p) && FromLeader(soup, q) && p.at == q.at ==> p == q)
    && (forall p :: FromLeader(soup, p) ==> p.at.Before(leader.cur) || (p.at == leader.cur && leader.proposed))
  }

  /** A replica settles on a preprepare of the leader for its round only; the leader never catches up. */
  ghost predicate ReplicaOk(c: Config, soup: set<Msg>, r: Replica, i: nat)
  {
    && r.self == NodeInfo(i, c.shard) && r.meta.leader == INITIAL_LEADER
    && (forall p :: p in r.meta.preprepares ==> PreprepareMsg(p) in soup)
    && (r.meta.preprepare.Some? ==>
      FromLeader(soup, r.meta.preprepare.value) && r.meta.preprepare.value.at == r.meta.cur)
    && (i == INITIAL_LEADER ==> !r.meta.catchupStarted)
  }

  ghost predicate AllReplicasOk(c: Config, s: System)
  {
    forall i :: 0 <= i < |s.replicas| && c.Honest(NodeInfo(i, c.shard)) ==> ReplicaOk(c, s.soup, s.replicas[i], i)
  }

  ghost predicate AllProposed(s: System)
  {
    forall d :: d in s.decided ==> Proposed(s.soup, d)
  }

  ghost predicate Inv(c: Config, s: System)
  {
    && HonestLeader(c) && |s.replicas| == c.nodeNum
    && AllReplicasOk(c, s) && OneProposal(s.soup, s.replicas[0].meta) && AllProposed(s)
  }

  lemma CurateKeeps(c: Config, soup: set<Msg>, r: Replica, r': Replica, i: nat)
    requires ReplicaOk(c, soup, r, i) && Curated(r.meta, r'.meta) && r' == r.(meta := r'.meta)
    ensures ReplicaOk(c, soup, r', i)
  {
    forall p | p in r'.meta.preprepares
      ensures p in r.meta.preprepares
    {
      assert r'.meta.preprepares[p] > 0;
    }
  }

  lemma ReceiveKeeps(c: Config, soup: set<Msg>, r: Replica, i: nat, msg: Msg, valid: bool)
    requires ReplicaOk(c, soup, r, i) && msg in soup
    ensures ReplicaOk(c, soup, Received(r, msg, valid), i)
  {
  }

  lemma ReplicaStays(c: Config, soup: set<Msg>, soup': set<Msg>, r: Replica, i: nat)
    requires ReplicaOk(c, soup, r, i) && soup <= soup'
    ensures ReplicaOk(c, soup', r, i)
  {
  }

  lemma ActorOk(c: Config, s: System, s': System, i: nat, a: Action)
    requires AllReplicasOk(c, s) && ActNext(c, s, s', i, a)
    ensures ReplicaOk(c, s'.soup, s'.replicas[i], i)
  {
    assert ReplicaOk(c, s.soup, s.replicas[i], i);
    match a {
      case Receive(msg, valid) => ReceiveKeeps(c, s.soup, s.replicas[i], i, msg, valid);
      case Curate => CurateKeeps(c, s.soup, s.replicas[i], s'.replicas[i], i);
      case Advance =>
      case Propose(_) =>
      case AskCatchup =>
    }
    ReplicaStays(c, s.soup, s'.soup, s'.replicas[i], i);
  }

  /** The leader's round is left for the next one only. */
  lemma LeaderMoves(c: Config, s: System, s': System, i: nat, a: Action)
    requires Inv(c, s) && ActNext(c, s, s', i, a) && !a.Propose?
    ensures var m, m' := s.replicas[0].meta, s'.replicas[0].meta;
      (m'.cur == m.cur && m'.proposed == m.proposed) || m'.cur == m.cur.Next()
  {
    assert ReplicaOk(c, s.soup, s.replicas[0], 0);
  }

  lemma ActKeepsProposals(c: Config, s: System, s': System, i: nat, a: Action)
    requires Inv(c, s) && ActNext(c, s, s', i, a)
    ensures OneProposal(s'.soup, s'.replicas[0].meta)
  {
    var r, m, m' := s.replicas[i], s.replicas[0].meta, s'.replicas[0].meta;
    assert ReplicaOk(c, s.soup, r, i) && ReplicaOk(c, s.soup, s.replicas[0], 0);
    if a.Propose? {
      assert i == 0;
      ProposalAdded(s.soup, s'.soup, r, a.content);
    } else {
      LeaderMoves(c, s, s', i, a);
      assert forall p :: FromLeader(s'.soup, p) <==> FromLeader(s.soup, p);
      forall p | FromLeader(s'.soup, p)
        ensures p.at.Before(m'.cur) || (p.at == m'.cur && m'.proposed)
      {
        CompareIsTotalOrder(p.at, m.cur, m.cur.Next());
      }
    }
  }

  lemma ProposalAdded(soup: set<Msg>, soup': set<Msg>, r: Replica, content: nat)
    requires OneProposal(soup, r.meta) && MayPropose(r) && soup' == soup + {PreprepareMsg(Proposal(r, content))}
    ensures OneProposal(soup', r.meta.(proposed := true))
  {
    var p := Proposal(r, content);
    CompareIsTotalOrder(p.at, p.at, p.at);
    assert forall q :: FromLeader(soup', q) ==> FromLeader(soup, q) || q == p;
    assert forall q :: FromLeader(soup, q) ==> q.at != p.at;
  }

  lemma ActKeepsInv(c: Config, s: System, s': System, i: nat, a: Action)
    requires Inv(c, s) && ActNext(c, s, s', i, a)
    ensures Inv(c, s')
  {
    ActorOk(c, s, s', i, a);
    forall j | 0 <= j < |s'.replicas| && c.Honest(NodeInfo(j, c.shard))
      ensures ReplicaOk(c, s'.soup, s'.replicas[j], j)
    {
      assert j != i ==> ReplicaOk(c, s.soup, s.replicas[j], j);
    }
    ActKeepsProposals(c, s, s', i, a);
    forall d | d in s'.decided
      ensures Proposed(s'.soup, d)
    {
      if d !in s.decided {
        assert ReplicaOk(c, s.soup, s.replicas[i], i);
        assert FromLeader(s.soup, s.replicas[i].meta.preprepare.value);
      }
      ProposedStays(s.soup, s'.soup, d);
    }
  }

  /** No Byzantine member can speak as the leader. */
  lemma ForgeKeepsInv(c: Config, s: System, s': System, who: NodeInfo, msg: Msg)
    requires Inv(c, s) && who in c.byzantine && SentUnder(msg, who) && s' == s.(soup := s.soup + {msg})
    ensures Inv(c, s')
  {
    MembersCount(c.nodeNum, c.shard);
    assert who.node != INITIAL_LEADER;
    assert forall p :: FromLeader(s'.soup, p) <==> FromLeader(s.soup, p);
    forall j | 0 <= j < |s'.replicas| && c.Honest(NodeInfo(j, c.shard))
      ensures ReplicaOk(c, s'.soup, s'.replicas[j], j)
    {
      assert ReplicaOk(c, s.soup, s.replicas[j], j);
    }
    forall d | d in s'.decided
      ensures Proposed(s'.soup, d)
    {
      ProposedStays(s.soup, s'.soup, d);
    }
  }

  /** Every step, catching up anywhere included, keeps one proposal for each round behind all that
      honest replicas settle on and commit. */
  lemma StepKeepsInv(c: Config, s: System, s': System, step: Step)
    requires Inv(c, s) && Next(c, s, s', step)
    ensures Inv(c, s')
  {
    match step {
      case Act(i, a) => ActKeepsInv(c, s, s', i, a);
      case Forge(who, msg) => ForgeKeepsInv(c, s, s', who, msg);
    }
  }

  lemma {:induction false} RunInv(c: Config, states: seq<System>, steps: seq<Step>, k: nat)
    requires HonestLeader(c) && Run(c, states, steps) && k < |states|
    ensures Inv(c, states[k])
  {
    if k > 0 {
      RunInv(c, states, steps, k - 1);
      assert StepAt(c, states, steps, k - 1);
      StepKeepsInv(c, states[k - 1], states[k], steps[k - 1]);
    }
  }

  /** Block agreement: with an honest leader, in every run, no two honest replicas ever commit different
      blocks or digests at the same (view, sequence), and the digest committed is the block's. */
  lemma BlockAgreement(c: Config, states: seq<System>, steps: seq<Step>, k: nat, d: Decision, e: Decision)
    requires HonestLeader(c) && Run(c, states, steps) && k < |states|
    requires d in states[k].decided && e in states[k].decided && d.at == e.at
    ensures d.block == e.block && d.digest == e.digest == DigestOf(d.block)
  {
    RunInv(c, states, steps, k);
    RunDigests(c, states, steps, k);
    var p :| FromLeader(states[k].soup, p) && p.at == d.at && p.digest == d.digest && p.proposal == d.block;
    var q :| FromLeader(states[k].soup, q) && q.at == e.at && q.digest == e.digest && q.proposal == e.block;
  }
}
