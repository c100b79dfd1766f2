/** Concrete runs of `PbftSystem`, built step by step: what goes wrong where a hypothesis of the
    agreement theorems does not hold. */
module PbftWitness {
  import opened Types
  import opened ViewSeqs
  import opened MessagePools
  import opened PbftMetas
  import opened PbftReplicas
  import opened PbftSystem
  import PbftAgreement
  import PbftPrefix

  // ---------------------------------------------------------------------------------------------
  // Reachable states
  // ---------------------------------------------------------------------------------------------

  ghost predicate RunTo(c: Config, states: seq<System>, steps: seq<Step>, s: System, calm: bool)
  {
    && Run(c, states, steps) && states[|steps|] == s
    && (calm ==> forall k :: 0 <= k < |steps| ==> !Adopts(states[k], steps[k]))
  }

  /** Some run ends in `s`; if `calm`, one in which no replica takes over a catch-up answer. */
  ghost predicate Reachable(c: Config, s: System, calm: bool)
  {
    exists states, steps :: RunTo(c, states, steps, s, calm)
  }

  lemma Start(c: Config, s: System)
    requires c.Valid() && Init(c, s)
    ensures Reachable(c, s, true)
  {
    assert RunTo(c, [s], [], s, true);
  }

  lemma Extend(c: Config, s: System, s': System, step: Step, calm: bool)
    requires Reachable(c, s, calm) && Next(c, s, s', step) && (calm ==> !Adopts(s, step))
    ensures Reachable(c, s', calm)
  {
    var states, steps :| RunTo(c, states, steps, s, calm);
    Snoc(c, states, steps, s, s', step, calm);
  }

  lemma Snoc(c: Config, states: seq<System>, steps: seq<Step>, s: System, s': System, step: Step, calm: bool)
    requires RunTo(c, states, steps, s, calm) && Next(c, s, s', step) && (calm ==> !Adopts(s, step))
    ensures RunTo(c, states + [s'], steps + [step], s', calm)
  {
    hide Next, Init, Adopts;
    var states', steps' := states + [s'], steps + [step];
    forall k | 0 <= k < |steps'|
      ensures StepAt(c, states', steps', k) && (calm ==> !Adopts(states'[k], steps'[k]))
    {
      if k < |steps| {
        assert StepAt(c, states, steps, k);
        assert states'[k] == states[k] && states'[k + 1] == states[k + 1] && steps'[k] == steps[k];
      }
    }
  }

  function After(s: System, i: nat, r': Replica, a: Action): System
    requires i < |s.replicas| && Possible(s.replicas[i], a)
  {
    System(s.replicas[i := r'], s.soup + AsSet(Sends(s.replicas[i], a)), s.decided + Decided(s.replicas[i], a))
  }

  lemma Do(c: Config, s: System, i: nat, a: Action, r': Replica, calm: bool)
    requires Reachable(c, s, calm) && i < |s.replicas| && c.Honest(NodeInfo(i, c.shard))
    requires Possible(s.replicas[i], a) && Acts(s.replicas[i], r', a)
    requires a.Receive? ==> Arrives(s, s.replicas[i], a.msg)
    requires calm ==> !Adopts(s, Act(i, a))
    ensures Reachable(c, After(s, i, r', a), calm)
  {
    Extend(c, s, After(s, i, r', a), Act(i, a), calm);
  }

  // ---------------------------------------------------------------------------------------------
  // One replica through a round
  // ---------------------------------------------------------------------------------------------

  /** A replica at the beginning of a round with nothing buffered that belongs to it. */
  ghost predicate Idle(m: Meta)
  {
    && m.stage == PreprepareStage && m.preprepare.None? && m.prepareSet == m.commitSet == {}
    && m.prepares == m.commits == multiset{} && forall p :: p in m.preprepares ==> m.cur.Before(p.at)
  }

  function Settled(r: Replica, p: Preprepare): Replica
  {
    r.(meta := r.meta.(latest := Newer(r.meta.latest, p.at), preprepare := Some(p), stage := PrepareStage))
  }

  /** Hearing, settling on and preparing a preprepare. */
  lemma Settles(c: Config, s: System, i: nat, p: Preprepare, calm: bool)
    requires Reachable(c, s, calm) && i < |s.replicas| && c.Honest(NodeInfo(i, c.shard)) && Idle(s.replicas[i].meta)
    requires PreprepareMsg(p) in s.soup && Proper(s.replicas[i].meta, p)
    ensures Reachable(c, System(s.replicas[i := Settled(s.replicas[i], p)],
      s.soup + {PrepareMsg(Vote(p.digest, p.at, s.replicas[i].self))}, s.decided), calm)
  {
    var r := s.replicas[i];
    CompareIsTotalOrder(p.at, p.at, p.at);
    var heard := r.(meta := HearPreprepare(r.meta, p));
    Do(c, s, i, Receive(PreprepareMsg(p), true), heard, calm);
    var s1 := After(s, i, heard, Receive(PreprepareMsg(p), true));
    var curated := heard.(meta := heard.meta.(preprepares := r.meta.preprepares, preprepare := Some(p)));
    assert Curated(heard.meta, curated.meta);
    Do(c, s1, i, Curate, curated, calm);
    var s2 := After(s1, i, curated, Curate);
    Do(c, s2, i, Advance, Settled(r, p), calm);
    assert After(s2, i, Settled(r, p), Advance) == System(s.replicas[i := Settled(r, p)],
      s.soup + {PrepareMsg(Vote(p.digest, p.at, r.self))}, s.decided);
  }

  function Ballot(v: Vote, commit: bool): Msg
  {
    if commit then CommitMsg(v) else PrepareMsg(v)
  }

  function Heard(r: Replica, votes: multiset<Vote>, commit: bool): Replica
  {
    r.(meta := if commit then r.meta.(commits := votes) else r.meta.(prepares := votes))
  }

  function Ballots(r: Replica, commit: bool): multiset<Vote>
  {
    if commit then r.meta.commits else r.meta.prepares
  }

  function At(s: System, i: nat, r: Replica): System
    requires i < |s.replicas|
  {
    s.(replicas := s.replicas[i := r])
  }

  lemma HearOne(c: Config, s: System, i: nat, v: Vote, commit: bool, calm: bool)
    requires Reachable(c, s, calm) && i < |s.replicas| && c.Honest(NodeInfo(i, c.shard))
    requires Ballot(v, commit) in s.soup && v.at == s.replicas[i].meta.cur
    ensures Reachable(c, At(s, i, Heard(s.replicas[i], Ballots(s.replicas[i], commit) + multiset{v}, commit)), calm)
  {
    var r := s.replicas[i];
    var r', a := Heard(r, Ballots(r, commit) + multiset{v}, commit), Receive(Ballot(v, commit), true);
    CompareIsTotalOrder(v.at, v.at, v.at);
    Do(c, s, i, a, r', calm);
    assert After(s, i, r', a) == At(s, i, r');
  }

  /** Three members have voted for one digest. */
  ghost predicate ThreeVotes(soup: set<Msg>, digest: Digest, at: ViewSeq, who: seq<NodeInfo>, commit: bool)
  {
    && |who| == 3 && who[0] != who[1] && who[0] != who[2] && who[1] != who[2]
    && Ballot(Vote(digest, at, who[0]), commit) in soup
    && Ballot(Vote(digest, at, who[1]), commit) in soup
    && Ballot(Vote(digest, at, who[2]), commit) in soup
  }

  function VotesOf(digest: Digest, at: ViewSeq, who: seq<NodeInfo>): multiset<Vote>
    requires |who| == 3
  {
    multiset{Vote(digest, at, who[0]), Vote(digest, at, who[1]), Vote(digest, at, who[2])}
  }

  lemma HearsThree(c: Config, s: System, i: nat, digest: Digest, who: seq<NodeInfo>, commit: bool, calm: bool)
    requires Reachable(c, s, calm) && i < |s.replicas| && c.Honest(NodeInfo(i, c.shard))
    requires Ballots(s.replicas[i], commit) == multiset{}
    requires ThreeVotes(s.soup, digest, s.replicas[i].meta.cur, who, commit)
    ensures Reachable(c, At(s, i, Heard(s.replicas[i], VotesOf(digest, s.replicas[i].meta.cur, who), commit)), calm)
  {
    hide Reachable;
    var r, at := s.replicas[i], s.replicas[i].meta.cur;
    var u, v, w := Vote(digest, at, who[0]), Vote(digest, at, who[1]), Vote(digest, at, who[2]);
    HearOne(c, s, i, u, commit, calm);
    assert multiset{} + multiset{u} == multiset{u} && multiset{u} + multiset{v} == multiset{u, v};
    var s1 := At(s, i, Heard(r, multiset{u}, commit));
    HearOne(c, s1, i, v, commit, calm);
    var s2 := At(s, i, Heard(r, multiset{u, v}, commit));
    assert s2 == At(s1, i, Heard(s1.replicas[i], multiset{u, v}, commit));
    HearOne(c, s2, i, w, commit, calm);
    var s3 := At(s, i, Heard(r, multiset{u, v} + multiset{w}, commit));
    assert s3 == At(s2, i, Heard(s2.replicas[i], multiset{u, v} + multiset{w}, commit));
    assert multiset{u, v} + multiset{w} == VotesOf(digest, at, who);
  }

  lemma VotesOfSenders(digest: Digest, at: ViewSeq, who: seq<NodeInfo>)
    requires |who| == 3
    ensures Senders(VotesOf(digest, at, who), at, digest) == {who[0], who[1], who[2]}
  {
    var votes := VotesOf(digest, at, who);
    var senders := Senders(votes, at, digest);
    CompareIsTotalOrder(at, at, at);
    forall v | v in votes
      ensures v.at == at && v.digest == digest && (v.from == who[0] || v.from == who[1] || v.from == who[2])
    {
    }
    assert forall x :: x in senders ==> x == who[0] || x == who[1] || x == who[2];
    assert Vote(digest, at, who[0]) in votes && Vote(digest, at, who[1]) in votes && Vote(digest, at, who[2]) in votes;
    assert who[0] in senders && who[1] in senders && who[2] in senders;
  }

  lemma VotesOfDrain(digest: Digest, at: ViewSeq, who: seq<NodeInfo>)
    requires |who| == 3
    ensures Senders(multiset{}, at, digest) == {}
    ensures Drained(VotesOf(digest, at, who), multiset{}, VoteAt, at) && Drained(multiset{}, multiset{}, VoteAt, at)
  {
    CompareIsTotalOrder(at, at, at);
  }

  /** The replica works on preprepare `p` and has not counted the votes of its stage. */
  ghost predicate WorksOn(m: Meta, p: Preprepare, stage: Stage)
  {
    && m.f == 1 && m.stage == stage && m.preprepare == Some(p) && p.at == m.cur
    && m.prepares == m.commits == multiset{}
    && m.commitSet == {} && (stage == PrepareStage ==> m.prepareSet == {})
  }

  function Counted(r: Replica, who: seq<NodeInfo>, commit: bool): Replica
    requires |who| == 3
  {
    var three := {who[0], who[1], who[2]};
    r.(meta := if commit then r.meta.(commitSet := three) else r.meta.(prepareSet := three))
  }

  lemma CountsThree(c: Config, s: System, i: nat, p: Preprepare, who: seq<NodeInfo>, commit: bool, calm: bool)
    requires Reachable(c, s, calm) && i < |s.replicas| && c.Honest(NodeInfo(i, c.shard))
    requires WorksOn(s.replicas[i].meta, p, if commit then CommitStage else PrepareStage)
    requires ThreeVotes(s.soup, p.digest, p.at, who, commit)
    ensures Reachable(c, At(s, i, Counted(s.replicas[i], who, commit)), calm)
  {
    hide Reachable;
    var r := s.replicas[i];
    HearsThree(c, s, i, p.digest, who, commit, calm);
    var s1 := At(s, i, Heard(r, VotesOf(p.digest, p.at, who), commit));
    CuratesThree(r.meta, s1.replicas[i].meta, Counted(r, who, commit).meta, p, who, commit);
    Do(c, s1, i, Curate, Counted(r, who, commit), calm);
    assert After(s1, i, Counted(r, who, commit), Curate) == At(s, i, Counted(r, who, commit));
  }

  lemma CuratesThree(m: Meta, heard: Meta, m': Meta, p: Preprepare, who: seq<NodeInfo>, commit: bool)
    requires |who| == 3 && WorksOn(m, p, if commit then CommitStage else PrepareStage)
    requires heard == if commit then m.(commits := VotesOf(p.digest, p.at, who))
      else m.(prepares := VotesOf(p.digest, p.at, who))
    requires m' == if commit then m.(commitSet := {who[0], who[1], who[2]})
      else m.(prepareSet := {who[0], who[1], who[2]})
    ensures Curated(heard, m')
  {
    VotesOfSenders(p.digest, p.at, who);
    VotesOfDrain(p.digest, p.at, who);
    hide Senders, Drained, VotesOf;
  }

  /** Three prepare votes take a replica to the commit stage. */
  lemma Prepares(c: Config, s: System, i: nat, p: Preprepare, who: seq<NodeInfo>, calm: bool)
    requires Reachable(c, s, calm) && i < |s.replicas| && c.Honest(NodeInfo(i, c.shard))
    requires WorksOn(s.replicas[i].meta, p, PrepareStage) && ThreeVotes(s.soup, p.digest, p.at, who, false)
    ensures Reachable(c, System(s.replicas[i := Prepared(s.replicas[i], who)],
      s.soup + {CommitMsg(Vote(p.digest, p.at, s.replicas[i].self))}, s.decided), calm)
  {
    hide Reachable;
    var r, r' := s.replicas[i], Prepared(s.replicas[i], who);
    CountsThree(c, s, i, p, who, false, calm);
    var s1 := At(s, i, Counted(r, who, false));
    assert |s1.replicas[i].meta.prepareSet| == 3;
    Do(c, s1, i, Advance, r', calm);
    assert After(s1, i, r', Advance)
      == System(s.replicas[i := r'], s.soup + {CommitMsg(Vote(p.digest, p.at, r.self))}, s.decided);
  }

  function Prepared(r: Replica, who: seq<NodeInfo>): Replica
    requires |who| == 3
  {
    r.(meta := r.meta.(stage := CommitStage, prepareSet := {who[0], who[1], who[2]}))
  }

  function Committed(r: Replica, p: Preprepare): Replica
    requires r.meta.preprepare.Some?
  {
    r.(meta := NextRound(r.meta), chain := r.chain + [p.proposal])
  }

  /** Three commit votes make it commit. */
  lemma CommitsBlock(c: Config, s: System, i: nat, p: Preprepare, who: seq<NodeInfo>, calm: bool)
    requires Reachable(c, s, calm) && i < |s.replicas| && c.Honest(NodeInfo(i, c.shard))
    requires WorksOn(s.replicas[i].meta, p, CommitStage) && ThreeVotes(s.soup, p.digest, p.at, who, true)
    ensures Reachable(c, System(s.replicas[i := Committed(s.replicas[i], p)],
      s.soup, s.decided + {Decision(s.replicas[i].self, p.at, p.digest, p.proposal)}), calm)
  {
    hide Reachable;
    var r, r' := s.replicas[i], Committed(s.replicas[i], p);
    CountsThree(c, s, i, p, who, true, calm);
    var s1 := At(s, i, Counted(r, who, true));
    assert |s1.replicas[i].meta.commitSet| == 3;
    Do(c, s1, i, Advance, r', calm);
    assert After(s1, i, r', Advance)
      == System(s.replicas[i := r'], s.soup, s.decided + {Decision(r.self, p.at, p.digest, p.proposal)});
  }

  lemma Forges(c: Config, s: System, who: NodeInfo, msg: Msg, calm: bool)
    requires Reachable(c, s, calm) && who in c.byzantine && SentUnder(msg, who)
    ensures Reachable(c, s.(soup := s.soup + {msg}), calm)
  {
    Extend(c, s, s.(soup := s.soup + {msg}), Forge(who, msg), calm);
  }

  // ---------------------------------------------------------------------------------------------
  // Two replicas through a round, with the help of a Byzantine member
  // ---------------------------------------------------------------------------------------------

  /** Replicas `i` and `j`, each with its own preprepare under one digest. */
  ghost predicate Paired(c: Config, s: System, i: nat, j: nat, p: Preprepare, q: Preprepare)
  {
    && i < |s.replicas| && j < |s.replicas| && i != j
    && c.Honest(NodeInfo(i, c.shard)) && c.Honest(NodeInfo(j, c.shard))
    && s.replicas[i].self == NodeInfo(i, c.shard) && s.replicas[j].self == NodeInfo(j, c.shard)
    && Idle(s.replicas[i].meta) && Idle(s.replicas[j].meta) && s.replicas[i].meta.f == s.replicas[j].meta.f == 1
    && PreprepareMsg(p) in s.soup && PreprepareMsg(q) in s.soup
    && Proper(s.replicas[i].meta, p) && Proper(s.replicas[j].meta, q) && p.at == q.at && p.digest == q.digest
  }

  function Through(r: Replica, p: Preprepare): Replica
  {
    r.(meta := r.meta.(latest := Newer(r.meta.latest, p.at), lastProposal := Some(p.proposal), proposed := false,
                       cur := p.at.Next()),
       chain := r.chain + [p.proposal])
  }

  /** One vote of a Byzantine member makes both commit, each the block it was sent. */
  lemma BothCommit(c: Config, s: System, i: nat, j: nat, x: NodeInfo, p: Preprepare, q: Preprepare, calm: bool)
    returns (s': System)
    requires Reachable(c, s, calm) && Paired(c, s, i, j, p, q) && x in c.byzantine
    ensures Reachable(c, s', calm) && s.soup <= s'.soup
    ensures s'.replicas == s.replicas[i := Through(s.replicas[i], p)][j := Through(s.replicas[j], q)]
    ensures s'.decided == s.decided
      + {Decision(NodeInfo(i, c.shard), p.at, p.digest, p.proposal),
        Decision(NodeInfo(j, c.shard), p.at, p.digest, q.proposal)}
  {
    hide Reachable;
    var at, digest := p.at, p.digest;
    var who := [NodeInfo(i, c.shard), NodeInfo(j, c.shard), x];
    Settles(c, s, i, p, calm);
    var ri, rj := Settled(s.replicas[i], p), Settled(s.replicas[j], q);
    var s1 := System(s.replicas[i := ri], s.soup + {PrepareMsg(Vote(digest, at, who[0]))}, s.decided);
    Settles(c, s1, j, q, calm);
    var s2 := System(s.replicas[i := ri][j := rj], s1.soup + {PrepareMsg(Vote(digest, at, who[1]))}, s.decided);
    Forges(c, s2, x, PrepareMsg(Vote(digest, at, x)), calm);
    var s3 := s2.(soup := s2.soup + {PrepareMsg(Vote(digest, at, x))});
    Prepares(c, s3, i, p, who, calm);
    var s4 := System(s3.replicas[i := Prepared(ri, who)], s3.soup + {CommitMsg(Vote(digest, at, who[0]))}, s.decided);
    Prepares(c, s4, j, q, who, calm);
    var s5 := System(s4.replicas[j := Prepared(rj, who)], s4.soup + {CommitMsg(Vote(digest, at, who[1]))}, s.decided);
    Forges(c, s5, x, CommitMsg(Vote(digest, at, x)), calm);
    var s6 := s5.(soup := s5.soup + {CommitMsg(Vote(digest, at, x))});
    CommitsBlock(c, s6, i, p, who, calm);
    var s7 := System(s6.replicas[i := Committed(Prepared(ri, who), p)], s6.soup,
      s.decided + {Decision(who[0], at, digest, p.proposal)});
    CommitsBlock(c, s7, j, q, who, calm);
    s' := System(s7.replicas[j := Committed(Prepared(rj, who), q)], s7.soup,
      s7.decided + {Decision(who[1], at, digest, q.proposal)});
  }

  // ---------------------------------------------------------------------------------------------
  // What goes wrong
  // ---------------------------------------------------------------------------------------------

  function Four(shard: int, byzantine: nat): Config
  {
    Config(4, shard, {NodeInfo(byzantine, shard)})
  }

  function Beginning(nodeNum: nat, shard: int): System
  {
    System(seq(nodeNum, i => Replica(NodeInfo(i, shard), Fresh(nodeNum), [GENESIS])), {}, {})
  }

  lemma Begins(nodeNum: nat, shard: int, byzantine: nat)
    requires byzantine < nodeNum
    ensures var c := Config(nodeNum, shard, {NodeInfo(byzantine, shard)});
      c.Valid() && Reachable(c, Beginning(nodeNum, shard), true)
  {
    MembersCount(nodeNum, shard);
    Start(Config(nodeNum, shard, {NodeInfo(byzantine, shard)}), Beginning(nodeNum, shard));
  }

  /** A Byzantine leader has sent two preprepares. */
  lemma SendsBoth(c: Config, p: Preprepare, q: Preprepare) returns (s: System)
    requires c.nodeNum > 0 && c.byzantine == {NodeInfo(0, c.shard)} && p.from.node == q.from.node == 0
    ensures c.Valid() && Reachable(c, s, true)
    ensures s == Beginning(c.nodeNum, c.shard).(soup := {PreprepareMsg(p), PreprepareMsg(q)})
  {
    hide Reachable;
    Begins(c.nodeNum, c.shard, 0);
    var s0, leader := Beginning(c.nodeNum, c.shard), NodeInfo(0, c.shard);
    Forges(c, s0, leader, PreprepareMsg(p), true);
    var s1 := s0.(soup := s0.soup + {PreprepareMsg(p)});
    Forges(c, s1, leader, PreprepareMsg(q), true);
    s := s1.(soup := s1.soup + {PreprepareMsg(q)});
  }

  /** With a Byzantine leader, one of four members, any two blocks can be committed under one digest: of
      two honest replicas each commits the block it was sent. */
  lemma DigestAloneDoesNotFixBlock(shard: int, b: Block, b': Block, digest: Digest)
      returns (c: Config, states: seq<System>, steps: seq<Step>, d: Decision, e: Decision)
    ensures PbftAgreement.ForwardRun(c, states, steps)
    ensures c.nodeNum == 3 * c.F() + 1 && |c.byzantine| <= c.F() && !HonestLeader(c)
    ensures d in states[|steps|].decided && e in states[|steps|].decided
    ensures d.who != e.who && c.Honest(d.who) && c.Honest(e.who)
    ensures d.at == e.at && d.digest == e.digest == digest && d.block == b && e.block == b'
  {
    hide Reachable;
    c := Four(shard, 0);
    var leader, at := NodeInfo(0, shard), ViewSeq(0, 0);
    var p, q := Preprepare(b, digest, at, leader), Preprepare(b', digest, at, leader);
    var s1 := SendsBoth(c, p, q);
    var s := BothCommit(c, s1, 1, 2, leader, p, q, true);
    d, e := Decision(NodeInfo(1, shard), at, digest, b), Decision(NodeInfo(2, shard), at, digest, b');
    states, steps := Trace(c, s, true);
  }

  lemma Trace(c: Config, s: System, calm: bool) returns (states: seq<System>, steps: seq<Step>)
    requires Reachable(c, s, calm)
    ensures RunTo(c, states, steps, s, calm)
    ensures calm ==> PbftAgreement.ForwardRun(c, states, steps)
  {
    states, steps :| RunTo(c, states, steps, s, calm);
  }

  /** A preprepare of a Byzantine member that no replica accepts, and the leader's first proposal. */
  function Lure(shard: int, seqNo: int): Preprepare
  {
    Preprepare(GENESIS, Forged(0), ViewSeq(0, seqNo), NodeInfo(3, shard))
  }

  function First(content: nat): Preprepare
  {
    Preprepare(Block(2, content), DigestOf(Block(2, content)), ViewSeq(0, 0), NodeInfo(0, 0))
  }

  /** The leader has proposed; the lure has been sent. */
  lemma Proposes(shard: int, content: nat, seqNo: int) returns (s: System)
    ensures Reachable(Four(shard, 3), s, true)
    ensures s.soup == {PreprepareMsg(First(content)), PreprepareMsg(Lure(shard, seqNo))} && s.decided == {}
    ensures s.replicas
      == Beginning(4, shard).replicas[0 := Replica(NodeInfo(0, shard), Fresh(4).(proposed := true), [GENESIS])]
  {
    hide Reachable;
    var c, s0 := Four(shard, 3), Beginning(4, shard);
    Begins(4, shard, 3);
    var leader := s0.replicas[0].(meta := s0.replicas[0].meta.(proposed := true));
    Do(c, s0, 0, Propose(content), leader, true);
    var s1 := After(s0, 0, leader, Propose(content));
    Forges(c, s1, NodeInfo(3, shard), PreprepareMsg(Lure(shard, seqNo)), true);
    s := s1.(soup := s1.soup + {PreprepareMsg(Lure(shard, seqNo))});
  }

  /** Hearing of a round far enough ahead, a replica asks to catch up. */
  lemma Lured(c: Config, s: System, i: nat, lure: Preprepare) returns (r': Replica)
    requires Reachable(c, s, true) && 0 < i < |s.replicas| && c.Honest(NodeInfo(i, c.shard))
    requires PreprepareMsg(lure) in s.soup && s.replicas[i].self == NodeInfo(i, c.shard)
    requires var m := s.replicas[i].meta;
      && !m.catchupStarted && m.leader == 0 && m.cur.view == m.latest.view == lure.at.view
      && m.latest.seqNo < lure.at.seqNo && m.cur.seqNo + CATCH_UP_THRESHOLD == lure.at.seqNo
    ensures var r := s.replicas[i];
      r' == r.(meta := r.meta.(preprepares := r.meta.preprepares + multiset{lure}, latest := lure.at,
                               catchupStarted := true))
    ensures Reachable(c, System(s.replicas[i := r'],
      s.soup + {CatchupReqMsg(Height(s.replicas[i].chain) + 1, NodeInfo(i, c.shard))}, s.decided), true)
  {
    hide Reachable;
    var r := s.replicas[i];
    var heard := r.(meta := HearPreprepare(r.meta, lure));
    Do(c, s, i, Receive(PreprepareMsg(lure), true), heard, true);
    var s1 := After(s, i, heard, Receive(PreprepareMsg(lure), true));
    r' := heard.(meta := heard.meta.(catchupStarted := true));
    Do(c, s1, i, AskCatchup, r', true);
    assert After(s1, i, r', AskCatchup)
      == System(s.replicas[i := r'], s.soup + {CatchupReqMsg(Height(r.chain) + 1, NodeInfo(i, c.shard))}, s.decided);
  }

  /** A replica asks at height 2, commits the next block, and then the answer arrives: the block is on
      its chain twice, although the leader is honest. */
  lemma StaleAnswerDoublesBlock(shard: int, content: nat) returns (c: Config, states: seq<System>, steps: seq<Step>)
    ensures HonestLeader(c) && Run(c, states, steps) && c.Honest(NodeInfo(1, c.shard))
    ensures |states[|steps|].replicas| == c.nodeNum == 4
    ensures states[|steps|].replicas[1].chain == [GENESIS, Block(2, content), Block(2, content)]
  {
    hide Reachable;
    c := Four(shard, 3);
    Begins(4, shard, 3);
    var p := First(content);
    var s1 := Proposes(shard, content, 5);
    var asker := Lured(c, s1, 1, Lure(shard, 5));
    var s2 := System(s1.replicas[1 := asker], s1.soup + {CatchupReqMsg(2, NodeInfo(1, shard))}, {});
    var s3 := BothCommit(c, s2, 0, 1, NodeInfo(3, shard), p, p, true);
    var ask, leader := Receive(CatchupReqMsg(2, NodeInfo(1, shard)), true), s3.replicas[0];
    Do(c, s3, 0, ask, leader, true);
    var s4 := After(s3, 0, leader, ask);
    var answer := CatchupRespMsg([p.proposal], ViewSeq(0, 1), NodeInfo(0, shard), NodeInfo(1, shard), 2);
    assert answer in s4.soup;
    var r' := Received(s4.replicas[1], answer, true);
    Calm(c, s4);
    Do(c, s4, 1, Receive(answer, true), r', false);
    states, steps := Trace(c, After(s4, 1, r', Receive(answer, true)), false);
  }

  lemma Calm(c: Config, s: System)
    requires Reachable(c, s, true)
    ensures Reachable(c, s, false)
  {
    var states, steps :| RunTo(c, states, steps, s, true);
    assert RunTo(c, states, steps, s, false);
  }

  /** A preprepare of a Byzantine member makes a replica ahead of the leader ask to catch up. The answer
      is taken over at the height it was requested for, and takes the replica's round back below its
      chain. */
  lemma TimelyAnswerFailsWithByzantine(shard: int, content: nat)
    returns (c: Config, states: seq<System>, steps: seq<Step>)
    ensures HonestLeader(c) && Run(c, states, steps) && c.Honest(NodeInfo(1, c.shard))
    ensures forall k :: 0 <= k < |steps| ==> PbftPrefix.AtRequestedHeight(states[k], steps[k])
    ensures |states[|steps|].replicas| == c.nodeNum == 4
    ensures var r := states[|steps|].replicas[1];
      r.chain == [GENESIS, Block(2, content)] && r.meta.cur == ViewSeq(0, 0)
  {
    hide Reachable;
    c := Four(shard, 3);
    Begins(4, shard, 3);
    var p := First(content);
    var s1 := Proposes(shard, content, 6);
    var s2 := BothCommit(c, s1, 1, 2, NodeInfo(3, shard), p, p, true);
    var asker := Lured(c, s2, 1, Lure(shard, 6));
    var s3 := System(s2.replicas[1 := asker], s2.soup + {CatchupReqMsg(3, NodeInfo(1, shard))}, s2.decided);
    var ask, leader := Receive(CatchupReqMsg(3, NodeInfo(1, shard)), true), s3.replicas[0];
    Do(c, s3, 0, ask, leader, true);
    var s4 := After(s3, 0, leader, ask);
    var answer := CatchupRespMsg([], ViewSeq(0, 0), NodeInfo(0, shard), NodeInfo(1, shard), 3);
    assert answer in s4.soup;
    var step := Act(1, Receive(answer, true));
    var s5 := After(s4, 1, Received(s4.replicas[1], answer, true), step.action);
    states, steps := Trace(c, s4, true);
    Calm(c, s4);
    assert RunTo(c, states, steps, s4, false);
    Snoc(c, states, steps, s4, s5, step, false);
    assert forall k :: 0 <= k < |steps| ==> PbftPrefix.AtRequestedHeight(states[k], steps[k]);
    states, steps := states + [s5], steps + [step];
  }

  /** Five members are not of the form 3f + 1. With one of them, the leader, Byzantine, which is no more
      than f, and without any catching up, two pairs of honest replicas commit two digests in one round. */
  lemma FiveMembersDisagree(shard: int, b: Block, b': Block)
      returns (c: Config, states: seq<System>, steps: seq<Step>, d: Decision, e: Decision)
    requires b != b'
    ensures PbftAgreement.ForwardRun(c, states, steps) && c.nodeNum == 5 && |c.byzantine| <= c.F()
    ensures d in states[|steps|].decided && e in states[|steps|].decided && c.Honest(d.who) && c.Honest(e.who)
    ensures d.who != e.who && d.at == e.at && d.digest != e.digest
  {
    hide Reachable;
    c := Config(5, shard, {NodeInfo(0, shard)});
    var leader, at := NodeInfo(0, shard), ViewSeq(0, 0);
    var p, q := Preprepare(b, DigestOf(b), at, leader), Preprepare(b', DigestOf(b'), at, leader);
    var s1 := SendsBoth(c, p, q);
    var s2 := BothCommit(c, s1, 1, 2, leader, p, p, true);
    var s3 := BothCommit(c, s2, 3, 4, leader, q, q, true);
    d, e := Decision(NodeInfo(1, shard), at, DigestOf(b), b), Decision(NodeInfo(3, shard), at, DigestOf(b'), b');
    states, steps := Trace(c, s3, true);
  }

  /** With four members and a Byzantine leader, one answer that takes a replica back to a round it has
      committed makes it vote there again: two honest replicas commit two digests in one round. */
  lemma BackwardCatchUpDisagrees(shard: int, b: Block, b': Block)
      returns (c: Config, states: seq<System>, steps: seq<Step>, d: Decision, e: Decision)
    requires b != b'
    ensures Run(c, states, steps) && c.nodeNum == 3 * c.F() + 1 && |c.byzantine| <= c.F()
    ensures d in states[|steps|].decided && e in states[|steps|].decided && c.Honest(d.who) && c.Honest(e.who)
    ensures d.who != e.who && d.at == e.at && d.digest != e.digest
  {
    hide Reachable;
    c := Four(shard, 0);
    var leader, at := NodeInfo(0, shard), ViewSeq(0, 0);
    var p, q := Preprepare(b, DigestOf(b), at, leader), Preprepare(b', DigestOf(b'), at, leader);
    var lure := Preprepare(GENESIS, Forged(0), ViewSeq(0, 6), leader);
    var s1 := SendsBoth(c, p, q);
    var s2 := BothCommit(c, s1, 1, 2, leader, p, p, true);
    Forges(c, s2, leader, PreprepareMsg(lure), true);
    var s3 := s2.(soup := s2.soup + {PreprepareMsg(lure)});
    var asker := Lured(c, s3, 1, lure);
    var s4 := System(s3.replicas[1 := asker],
      s3.soup + {CatchupReqMsg(Height(s3.replicas[1].chain) + 1, NodeInfo(1, shard))}, s3.decided);
    var s6 := ThrownBack(c, s4, 1, at);
    var s7 := BothCommit(c, s6, 1, 3, leader, q, q, false);
    d, e := Decision(NodeInfo(2, shard), at, DigestOf(b), b), Decision(NodeInfo(3, shard), at, DigestOf(b'), b');
    states, steps := Trace(c, s7, false);
  }

  /** A Byzantine leader answers with any round it likes, and no blocks. */
  lemma ThrownBack(c: Config, s: System, i: nat, next: ViewSeq) returns (s': System)
    requires Reachable(c, s, true) && i < |s.replicas| && c.Honest(NodeInfo(i, c.shard))
    requires NodeInfo(0, c.shard) in c.byzantine && s.replicas[i].self == NodeInfo(i, c.shard)
    requires s.replicas[i].meta.catchupStarted && s.replicas[i].meta.leader == 0
    ensures Reachable(c, s', false) && s.soup <= s'.soup && s'.decided == s.decided
    ensures s'.replicas == s.replicas[i := s.replicas[i].(meta := CaughtUp(s.replicas[i].meta, next))]
  {
    hide Reachable;
    var leader, r := NodeInfo(0, c.shard), s.replicas[i];
    var answer := CatchupRespMsg([], next, leader, r.self, 1);
    Forges(c, s, leader, answer, true);
    var s1 := s.(soup := s.soup + {answer});
    Calm(c, s1);
    var r' := Received(r, answer, true);
    assert r.chain + [] == r.chain;
    Do(c, s1, i, Receive(answer, true), r', false);
    s' := After(s1, i, r', Receive(answer, true));
  }
}
