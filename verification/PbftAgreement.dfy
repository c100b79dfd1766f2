/** With 3f + 1 members, at most f of them Byzantine, honest replicas never commit different digests
    at the same (view, sequence), as long as catching up only moves forward. */
module PbftAgreement {
  import opened Sums
  import opened ViewSeqs
  import opened MessagePools
  import opened PbftMetas
  import opened PbftReplicas
  import opened PbftSystem

  // ---------------------------------------------------------------------------------------------
  // Quorums
  // ---------------------------------------------------------------------------------------------

  /** Two sets of at least 2f + 1 out of 3f + 1 members share a member outside any f of them. */
  lemma HonestInBoth(c: Config, p: set<NodeInfo>, q: set<NodeInfo>) returns (x: NodeInfo)
    requires c.Valid() && c.nodeNum == 3 * c.F() + 1 && |c.byzantine| <= c.F()
    requires p <= Members(c.nodeNum, c.shard) && q <= Members(c.nodeNum, c.shard)
    requires |p| >= 2 * c.F() + 1 && |q| >= 2 * c.F() + 1
    ensures x in p && x in q && c.Honest(x)
  {
    MembersCount(c.nodeNum, c.shard);
    SubsetCount(p + q, Members(c.nodeNum, c.shard));
    assert |p + q| + |p * q| == |p| + |q|;
    assert !(p * q <= c.byzantine) by {
      if p * q <= c.byzantine {
        SubsetCount(p * q, c.byzantine);
        assert false;
      }
    }
    x :| x in p * q && x !in c.byzantine;
  }

  lemma MinusCount(s: set<NodeInfo>, t: set<NodeInfo>)
    requires t <= s
    ensures |s - t| == |s| - |t|
  {
    assert s == t + (s - t);
  }

  lemma Overlap(all: set<NodeInfo>, first: set<NodeInfo>, low: set<NodeInfo>)
    requires first <= all && low <= all && (low <= first || first <= low)
    ensures |first * (all - low)| == if low <= first then |first| - |low| else 0
  {
    if low <= first {
      assert first * (all - low) == first - low;
      MinusCount(first, low);
    } else {
      assert first * (all - low) == {};
    }
  }

  /** The first `k` members and the last `k` have no more in common than they must. */
  lemma FirstAndLast(n: nat, k: nat, shard: int) returns (first: set<NodeInfo>, last: set<NodeInfo>)
    requires k <= n
    ensures first <= Members(n, shard) && last <= Members(n, shard)
    ensures |first| == |last| == k && |first * last| == if n <= 2 * k then 2 * k - n else 0
  {
    var all, low := Members(n, shard), Members(n - k, shard);
    first := Members(k, shard);
    last := all - low;
    MembersCount(k, shard);
    MembersCount(n, shard);
    MembersCount(n - k, shard);
    hide Members;
    assert low <= all && first <= all;
    MinusCount(all, low);
    if n <= 2 * k {
      assert low <= first;
    } else {
      assert first <= low;
      SubsetCount(first, low);
    }
    Overlap(all, first, low);
  }

  /** The threshold 2f + 1 with f = (n - 1) / 3 forces an honest member into every two quorums exactly
      when n is of the form 3f + 1. */
  lemma QuorumsMeetExactlyWhen(n: nat, shard: int)
    requires n > 0
    ensures QuorumsMeet(n, shard) <==> n % 3 == 1
  {
    var f := FaultBound(n);
    if n % 3 == 1 {
      forall p, q, byzantine | Split(n, shard, p, q, byzantine)
        ensures Shared(p, q, byzantine)
      {
        var x := HonestInBoth(Config(n, shard, byzantine), p, q);
      }
    } else {
      var p, q := FirstAndLast(n, 2 * f + 1, shard);
      assert Split(n, shard, p, q, p * q);
      assert !Shared(p, q, p * q);
    }
  }

  ghost predicate Split(n: nat, shard: int, p: set<NodeInfo>, q: set<NodeInfo>, byzantine: set<NodeInfo>)
  {
    && p <= Members(n, shard) && q <= Members(n, shard) && byzantine <= Members(n, shard)
    && |p| >= 2 * FaultBound(n) + 1 && |q| >= 2 * FaultBound(n) + 1 && |byzantine| <= FaultBound(n)
  }

  ghost predicate Shared(p: set<NodeInfo>, q: set<NodeInfo>, byzantine: set<NodeInfo>)
  {
    exists x :: x in p && x in q && x !in byzantine
  }

  ghost predicate QuorumsMeet(n: nat, shard: int)
  {
    forall p, q, byzantine :: Split(n, shard, p, q, byzantine) ==> Shared(p, q, byzantine)
  }

  // ---------------------------------------------------------------------------------------------
  // The invariant
  // ---------------------------------------------------------------------------------------------

  /** No vote has been cast at or above the frontier. */
  function Frontier(m: Meta): ViewSeq
  {
    if m.stage == PreprepareStage then m.cur else m.cur.Next()
  }

  ghost predicate MetaOk(c: Config, m: Meta)
  {
    && m.f == c.F() && m.leader == INITIAL_LEADER
    && (m.stage == PreprepareStage || m.stage == PrepareStage || m.stage == CommitStage)
    && (m.stage != PreprepareStage ==> m.preprepare.Some?)
    && (m.preprepare.Some? ==> m.preprepare.value.at == m.cur)
  }

  /** Everything buffered or counted was sent. */
  ghost predicate HeardOk(soup: set<Msg>, m: Meta)
  {
    && (forall p :: p in m.preprepares ==> PreprepareMsg(p) in soup)
    && (m.preprepare.Some? ==> FromLeader(soup, m.preprepare.value))
    && (forall v :: v in m.prepares ==> PrepareMsg(v) in soup)
    && (forall v :: v in m.commits ==> CommitMsg(v) in soup)
    && (forall p :: p in m.prepareSet ==>
      m.preprepare.Some? && PrepareMsg(Vote(m.preprepare.value.digest, m.cur, p)) in soup)
    && (forall p :: p in m.commitSet ==>
      m.preprepare.Some? && CommitMsg(Vote(m.preprepare.value.digest, m.cur, p)) in soup)
  }

  /** What a replica has voted so far lies below its frontier, and in this round is for the preprepare
      it works on. */
  predicate PrepareVoteOk(m: Meta, v: Vote)
  {
    v.at.Before(Frontier(m)) && (v.at == m.cur ==> m.preprepare.Some? && v.digest == m.preprepare.value.digest)
  }

  predicate CommitVoteOk(m: Meta, v: Vote)
  {
    v.at.Before(m.cur)
      || (v.at == m.cur && m.stage == CommitStage && m.preprepare.Some? && v.digest == m.preprepare.value.digest)
  }

  ghost predicate VotesOk(soup: set<Msg>, r: Replica)
  {
    && (forall v :: PrepareMsg(v) in soup && v.from == r.self ==> PrepareVoteOk(r.meta, v))
    && (forall v :: CommitMsg(v) in soup && v.from == r.self ==> CommitVoteOk(r.meta, v))
  }

  ghost predicate ReplicaOk(c: Config, soup: set<Msg>, r: Replica, i: nat)
  {
    r.self == NodeInfo(i, c.shard) && MetaOk(c, r.meta) && HeardOk(soup, r.meta) && VotesOk(soup, r)
  }

  ghost predicate MembersVote(c: Config, soup: set<Msg>)
  {
    && (forall v :: PrepareMsg(v) in soup ==> v.from in Members(c.nodeNum, c.shard))
    && (forall v :: CommitMsg(v) in soup ==> v.from in Members(c.nodeNum, c.shard))
  }

  /** An honest member votes for at most one digest per (view, sequence). */
  ghost predicate VotesOnce(c: Config, soup: set<Msg>)
  {
    forall v, w ::
      (PrepareMsg(v) in soup && PrepareMsg(w) in soup && v.from == w.from && c.Honest(v.from) && v.at == w.at)
      ==> v.digest == w.digest
  }

  ghost predicate PreparedBy(soup: set<Msg>, at: ViewSeq, digest: Digest, q: set<NodeInfo>)
  {
    forall p :: p in q ==> PrepareMsg(Vote(digest, at, p)) in soup
  }

  ghost predicate CommittedBy(soup: set<Msg>, at: ViewSeq, digest: Digest, q: set<NodeInfo>)
  {
    forall p :: p in q ==> CommitMsg(Vote(digest, at, p)) in soup
  }

  ghost predicate PrepareQuorum(c: Config, soup: set<Msg>, at: ViewSeq, digest: Digest)
  {
    exists q: set<NodeInfo> :: |q| >= 2 * c.F() + 1 && PreparedBy(soup, at, digest, q)
  }

  ghost predicate CommitQuorum(c: Config, soup: set<Msg>, at: ViewSeq, digest: Digest)
  {
    exists q: set<NodeInfo> :: |q| >= 2 * c.F() + 1 && CommittedBy(soup, at, digest, q)
  }

  ghost predicate CommitsBacked(c: Config, soup: set<Msg>)
  {
    forall v :: CommitMsg(v) in soup && c.Honest(v.from) ==> PrepareQuorum(c, soup, v.at, v.digest)
  }

  ghost predicate DecisionsBacked(c: Config, s: System)
  {
    forall d :: d in s.decided ==> CommitQuorum(c, s.soup, d.at, d.digest) && Proposed(s.soup, d)
  }

  ghost predicate AllReplicasOk(c: Config, s: System)
  {
    forall i :: 0 <= i < |s.replicas| && c.Honest(NodeInfo(i, c.shard)) ==> ReplicaOk(c, s.soup, s.replicas[i], i)
  }

  ghost predicate Inv(c: Config, s: System)
  {
    && c.Valid() && |s.replicas| == c.nodeNum
    && AllReplicasOk(c, s)
    && MembersVote(c, s.soup) && VotesOnce(c, s.soup) && CommitsBacked(c, s.soup) && DecisionsBacked(c, s)
  }

  /** Catching up moves forward: it does not take a replica back to a round it has voted in. */
  ghost predicate Forward(s: System, step: Step)
  {
    Adopts(s, step) ==> !step.action.msg.next.Before(Frontier(s.replicas[step.at].meta))
  }

  // ---------------------------------------------------------------------------------------------
  // What one replica does
  // ---------------------------------------------------------------------------------------------

  lemma HeardStays(soup: set<Msg>, soup': set<Msg>, m: Meta)
    requires HeardOk(soup, m) && soup <= soup'
    ensures HeardOk(soup', m)
  {
  }

  lemma ReceiveKeeps(c: Config, soup: set<Msg>, r: Replica, i: nat, msg: Msg, valid: bool)
    requires ReplicaOk(c, soup, r, i) && msg in soup
    requires msg.CatchupRespMsg? && msg.from.node == r.meta.leader && r.meta.catchupStarted ==>
      !msg.next.Before(Frontier(r.meta))
    ensures ReplicaOk(c, soup, Received(r, msg, valid), i)
  {
    if msg.CatchupRespMsg? && msg.from.node == r.meta.leader && r.meta.catchupStarted {
      forall v | PrepareMsg(v) in soup && v.from == r.self
        ensures v.at.Before(msg.next)
      {
        CompareIsTotalOrder(v.at, Frontier(r.meta), msg.next);
      }
      forall v | CommitMsg(v) in soup && v.from == r.self
        ensures v.at.Before(msg.next)
      {
        CompareIsTotalOrder(v.at, Frontier(r.meta), msg.next);
      }
    }
  }

  lemma CurateKeeps(c: Config, soup: set<Msg>, r: Replica, r': Replica, i: nat)
    requires ReplicaOk(c, soup, r, i) && Curated(r.meta, r'.meta) && r' == r.(meta := r'.meta)
    ensures ReplicaOk(c, soup, r', i)
  {
    var m, m' := r.meta, r'.meta;
    CuratedHeard(soup, m, m');
    assert m'.stage == m.stage && m'.cur == m.cur;
  }

  lemma CuratedHeard(soup: set<Msg>, m: Meta, m': Meta)
    requires HeardOk(soup, m) && Curated(m, m') && m.leader == INITIAL_LEADER
    requires m.preprepare.Some? || (m.prepareSet == {} && m.commitSet == {})
    ensures HeardOk(soup, m')
  {
    forall p | p in m'.preprepares
      ensures p in m.preprepares
    {
      assert m'.preprepares[p] > 0;
    }
    forall v | v in m'.prepares
      ensures v in m.prepares
    {
      assert m'.prepares[v] > 0;
    }
    forall v | v in m'.commits
      ensures v in m.commits
    {
      assert m'.commits[v] > 0;
    }
  }

  lemma AdvanceKeeps(c: Config, soup: set<Msg>, r: Replica, i: nat)
    requires ReplicaOk(c, soup, r, i)
    ensures ReplicaOk(c, soup + AsSet(AdvanceSends(r)), Advanced(r), i)
  {
    var soup' := soup + AsSet(AdvanceSends(r));
    HeardStays(soup, soup', r.meta);
    AdvanceSendsOwn(r, soup, soup');
    CompareIsTotalOrder(r.meta.cur, r.meta.cur, r.meta.cur.Next());
    forall v | PrepareMsg(v) in soup' && v.from == r.self
      ensures PrepareVoteOk(Advanced(r).meta, v)
    {
      CompareIsTotalOrder(v.at, r.meta.cur, r.meta.cur.Next());
    }
    forall v | CommitMsg(v) in soup' && v.from == r.self
      ensures CommitVoteOk(Advanced(r).meta, v)
    {
      CompareIsTotalOrder(v.at, r.meta.cur, r.meta.cur.Next());
    }
  }

  /** What advancing adds to the soup. */
  lemma AdvanceSendsOwn(r: Replica, soup: set<Msg>, soup': set<Msg>)
    requires Steppable(r.meta) && soup' == soup + AsSet(AdvanceSends(r))
    ensures forall v :: PrepareMsg(v) in soup' && PrepareMsg(v) !in soup ==>
      r.meta.stage == PreprepareStage && r.meta.preprepare.Some? && v == OwnVote(r)
        && Advanced(r).meta.stage == PrepareStage
    ensures forall v :: CommitMsg(v) in soup' && CommitMsg(v) !in soup ==>
      r.meta.stage == PrepareStage && r.meta.preprepare.Some? && v == OwnVote(r)
        && |r.meta.prepareSet| >= Quorum(r.meta)
      && Advanced(r).meta.stage == CommitStage
  {
  }

  // ---------------------------------------------------------------------------------------------
  // Every step keeps the invariant
  // ---------------------------------------------------------------------------------------------

  /** Only advancing casts votes, one at a time and in the replica's own name. */
  lemma NewVotes(c: Config, s: System, s': System, i: nat, a: Action)
    requires ActNext(c, s, s', i, a)
    ensures a != Advance ==> forall v ::
      && (PrepareMsg(v) in s'.soup <==> PrepareMsg(v) in s.soup)
      && (CommitMsg(v) in s'.soup <==> CommitMsg(v) in s.soup)
  {
  }

  lemma ActorOk(c: Config, s: System, s': System, i: nat, a: Action)
    requires Inv(c, s) && ActNext(c, s, s', i, a) && Forward(s, Act(i, a))
    ensures ReplicaOk(c, s'.soup, s'.replicas[i], i)
  {
    var r := s.replicas[i];
    assert ReplicaOk(c, s.soup, r, i);
    match a {
      case Receive(msg, valid) => ReceiveKeeps(c, s.soup, r, i, msg, valid);
      case Curate => CurateKeeps(c, s.soup, r, s'.replicas[i], i);
      case Advance => AdvanceKeeps(c, s.soup, r, i);
      case Propose(_) =>
      case AskCatchup =>
    }
    if a != Advance {
      NewVotes(c, s, s', i, a);
      SameVotesOk(c, s.soup, s'.soup, s'.replicas[i], i);
    }
  }

  lemma SameVotesOk(c: Config, soup: set<Msg>, soup': set<Msg>, r: Replica, i: nat)
    requires ReplicaOk(c, soup, r, i) && soup <= soup'
    requires forall v :: PrepareMsg(v) in soup' && v.from == r.self ==> PrepareMsg(v) in soup
    requires forall v :: CommitMsg(v) in soup' && v.from == r.self ==> CommitMsg(v) in soup
    ensures ReplicaOk(c, soup', r, i)
  {
    HeardStays(soup, soup', r.meta);
  }

  lemma OthersOk(c: Config, s: System, s': System, i: nat, a: Action, j: nat)
    requires Inv(c, s) && ActNext(c, s, s', i, a)
    requires j < |s.replicas| && j != i && c.Honest(NodeInfo(j, c.shard))
    ensures ReplicaOk(c, s'.soup, s'.replicas[j], j)
  {
    assert ReplicaOk(c, s.soup, s.replicas[j], j) && ReplicaOk(c, s.soup, s.replicas[i], i);
    if a == Advance {
      AdvanceSendsOwn(s.replicas[i], s.soup, s'.soup);
    } else {
      NewVotes(c, s, s', i, a);
    }
    SameVotesOk(c, s.soup, s'.soup, s.replicas[j], j);
  }

  lemma QuorumsStay(c: Config, soup: set<Msg>, soup': set<Msg>, at: ViewSeq, digest: Digest)
    requires soup <= soup'
    ensures PrepareQuorum(c, soup, at, digest) ==> PrepareQuorum(c, soup', at, digest)
    ensures CommitQuorum(c, soup, at, digest) ==> CommitQuorum(c, soup', at, digest)
  {
    if PrepareQuorum(c, soup, at, digest) {
      var q: set<NodeInfo> :| |q| >= 2 * c.F() + 1 && PreparedBy(soup, at, digest, q);
      assert PreparedBy(soup', at, digest, q);
    }
    if CommitQuorum(c, soup, at, digest) {
      var q: set<NodeInfo> :| |q| >= 2 * c.F() + 1 && CommittedBy(soup, at, digest, q);
      assert CommittedBy(soup', at, digest, q);
    }
  }

  /** The votes an honest replica adds: at most one digest per round, and a commit vote only on a
      quorum of prepare votes. */
  lemma HonestVotes(c: Config, s: System, s': System, i: nat, a: Action)
    requires Inv(c, s) && ActNext(c, s, s', i, a)
    ensures MembersVote(c, s'.soup) && VotesOnce(c, s'.soup) && CommitsBacked(c, s'.soup)
  {
    var r := s.replicas[i];
    assert ReplicaOk(c, s.soup, r, i);
    MembersCount(c.nodeNum, c.shard);
    if a == Advance {
      AdvanceSendsOwn(r, s.soup, s'.soup);
      AdvanceVotesOnce(c, s.soup, s'.soup, r, i);
      AdvanceBacked(c, s.soup, s'.soup, r, i);
    } else {
      NewVotes(c, s, s', i, a);
      BackedStays(c, s.soup, s'.soup);
    }
  }

  lemma AdvanceVotesOnce(c: Config, soup: set<Msg>, soup': set<Msg>, r: Replica, i: nat)
    requires ReplicaOk(c, soup, r, i) && VotesOnce(c, soup) && soup' == soup + AsSet(AdvanceSends(r))
    ensures VotesOnce(c, soup')
  {
    AdvanceSendsOwn(r, soup, soup');
  }

  lemma AdvanceBacked(c: Config, soup: set<Msg>, soup': set<Msg>, r: Replica, i: nat)
    requires ReplicaOk(c, soup, r, i) && CommitsBacked(c, soup) && soup' == soup + AsSet(AdvanceSends(r))
    ensures CommitsBacked(c, soup')
  {
    AdvanceSendsOwn(r, soup, soup');
    forall v | CommitMsg(v) in soup' && c.Honest(v.from)
      ensures PrepareQuorum(c, soup', v.at, v.digest)
    {
      if CommitMsg(v) !in soup {
        assert PreparedBy(soup, v.at, v.digest, r.meta.prepareSet);
        assert PrepareQuorum(c, soup, v.at, v.digest);
      }
      QuorumsStay(c, soup, soup', v.at, v.digest);
    }
  }

  lemma BackedStays(c: Config, soup: set<Msg>, soup': set<Msg>)
    requires CommitsBacked(c, soup) && soup <= soup'
    requires forall v :: CommitMsg(v) in soup' && c.Honest(v.from) ==> CommitMsg(v) in soup
    ensures CommitsBacked(c, soup')
  {
    forall v | CommitMsg(v) in soup' && c.Honest(v.from)
      ensures PrepareQuorum(c, soup', v.at, v.digest)
    {
      QuorumsStay(c, soup, soup', v.at, v.digest);
    }
  }

  lemma DecisionsStay(c: Config, s: System, s': System, i: nat, a: Action)
    requires Inv(c, s) && ActNext(c, s, s', i, a)
    ensures DecisionsBacked(c, s')
  {
    var r := s.replicas[i];
    assert ReplicaOk(c, s.soup, r, i);
    forall d | d in s'.decided
      ensures CommitQuorum(c, s'.soup, d.at, d.digest) && Proposed(s'.soup, d)
    {
      if d !in s.decided {
        assert CommittedBy(s.soup, d.at, d.digest, r.meta.commitSet);
        assert CommitQuorum(c, s.soup, d.at, d.digest);
        assert FromLeader(s.soup, r.meta.preprepare.value);
        assert Proposed(s.soup, d);
      }
      QuorumsStay(c, s.soup, s'.soup, d.at, d.digest);
      ProposedStays(s.soup, s'.soup, d);
    }
  }

  lemma ActKeepsInv(c: Config, s: System, s': System, i: nat, a: Action)
    requires Inv(c, s) && ActNext(c, s, s', i, a) && Forward(s, Act(i, a))
    ensures Inv(c, s')
  {
    ActorOk(c, s, s', i, a);
    forall j | 0 <= j < |s'.replicas| && c.Honest(NodeInfo(j, c.shard))
      ensures ReplicaOk(c, s'.soup, s'.replicas[j], j)
    {
      if j != i {
        OthersOk(c, s, s', i, a, j);
      }
    }
    HonestVotes(c, s, s', i, a);
    DecisionsStay(c, s, s', i, a);
  }

  lemma ForgeKeepsInv(c: Config, s: System, s': System, who: NodeInfo, msg: Msg)
    requires Inv(c, s) && who in c.byzantine && SentUnder(msg, who) && s' == s.(soup := s.soup + {msg})
    ensures Inv(c, s')
  {
    forall j | 0 <= j < |s'.replicas| && c.Honest(NodeInfo(j, c.shard))
      ensures ReplicaOk(c, s'.soup, s'.replicas[j], j)
    {
      SameVotesOk(c, s.soup, s'.soup, s.replicas[j], j);
    }
    BackedStays(c, s.soup, s'.soup);
    forall d | d in s'.decided
      ensures CommitQuorum(c, s'.soup, d.at, d.digest) && Proposed(s'.soup, d)
    {
      QuorumsStay(c, s.soup, s'.soup, d.at, d.digest);
      ProposedStays(s.soup, s'.soup, d);
    }
  }

  lemma StepKeepsInv(c: Config, s: System, s': System, step: Step)
    requires Inv(c, s) && Next(c, s, s', step) && Forward(s, step)
    ensures Inv(c, s')
  {
    match step {
      case Act(i, a) => ActKeepsInv(c, s, s', i, a);
      case Forge(who, msg) => ForgeKeepsInv(c, s, s', who, msg);
    }
  }

  // ---------------------------------------------------------------------------------------------
  // Over every run
  // ---------------------------------------------------------------------------------------------

  ghost predicate ForwardRun(c: Config, states: seq<System>, steps: seq<Step>)
  {
    Run(c, states, steps) && forall k :: 0 <= k < |steps| ==> Forward(states[k], steps[k])
  }

  lemma {:induction false} RunInv(c: Config, states: seq<System>, steps: seq<Step>, k: nat)
    requires ForwardRun(c, states, steps) && k < |states|
    ensures Inv(c, states[k])
  {
    if k > 0 {
      RunInv(c, states, steps, k - 1);
      assert StepAt(c, states, steps, k - 1);
      StepKeepsInv(c, states[k - 1], states[k], steps[k - 1]);
    }
  }

  /** An honest member votes at most once, and commits only what 2f + 1 members have prepared. */
  lemma VotesBacked(c: Config, states: seq<System>, steps: seq<Step>, k: nat, v: Vote)
    requires ForwardRun(c, states, steps) && k < |states|
    requires CommitMsg(v) in states[k].soup && c.Honest(v.from)
    ensures PrepareQuorum(c, states[k].soup, v.at, v.digest)
  {
    RunInv(c, states, steps, k);
  }

  /** With 3f + 1 members and at most f Byzantine, two honest commit votes for the same (view,
      sequence) are for the same digest. */
  lemma CommitVotesAgree(c: Config, s: System, v: Vote, w: Vote)
    requires Inv(c, s) && c.nodeNum == 3 * c.F() + 1 && |c.byzantine| <= c.F()
    requires CommitMsg(v) in s.soup && CommitMsg(w) in s.soup && c.Honest(v.from) && c.Honest(w.from) && v.at == w.at
    ensures v.digest == w.digest
  {
    var p: set<NodeInfo> :| |p| >= 2 * c.F() + 1 && PreparedBy(s.soup, v.at, v.digest, p);
    var q: set<NodeInfo> :| |q| >= 2 * c.F() + 1 && PreparedBy(s.soup, w.at, w.digest, q);
    QuorumOfMembers(c, s.soup, v.at, v.digest, p);
    QuorumOfMembers(c, s.soup, w.at, w.digest, q);
    var x := HonestInBoth(c, p, q);
    assert Vote(v.digest, v.at, x).digest == Vote(w.digest, w.at, x).digest;
  }

  lemma QuorumOfMembers(c: Config, soup: set<Msg>, at: ViewSeq, digest: Digest, q: set<NodeInfo>)
    requires MembersVote(c, soup) && PreparedBy(soup, at, digest, q)
    ensures q <= Members(c.nodeNum, c.shard)
  {
    forall x | x in q
      ensures x in Members(c.nodeNum, c.shard)
    {
      assert Vote(digest, at, x).from == x;
    }
  }

  /** A committed digest has an honest commit vote behind it. */
  lemma HonestCommitVote(c: Config, s: System, d: Decision) returns (x: NodeInfo)
    requires Inv(c, s) && c.nodeNum == 3 * c.F() + 1 && |c.byzantine| <= c.F() && d in s.decided
    ensures c.Honest(x) && CommitMsg(Vote(d.digest, d.at, x)) in s.soup
  {
    var q: set<NodeInfo> :| |q| >= 2 * c.F() + 1 && CommittedBy(s.soup, d.at, d.digest, q);
    forall p | p in q
      ensures p in Members(c.nodeNum, c.shard)
    {
      assert Vote(d.digest, d.at, p).from == p;
    }
    x := HonestInBoth(c, q, q);
  }

  /** Quorum agreement: with 3f + 1 members, at most f Byzantine, and catching up only forward, no two
      honest replicas ever commit different digests at the same (view, sequence). */
  lemma Agreement(c: Config, states: seq<System>, steps: seq<Step>, k: nat, d: Decision, e: Decision)
    requires ForwardRun(c, states, steps) && k < |states|
    requires c.nodeNum == 3 * c.F() + 1 && |c.byzantine| <= c.F()
    requires d in states[k].decided && e in states[k].decided && d.at == e.at
    ensures d.digest == e.digest
  {
    RunInv(c, states, steps, k);
    var x := HonestCommitVote(c, states[k], d);
    var y := HonestCommitVote(c, states[k], e);
    CommitVotesAgree(c, states[k], Vote(d.digest, d.at, x), Vote(e.digest, e.at, y));
  }

  // ---------------------------------------------------------------------------------------------
  // Why catching up must move forward
  // ---------------------------------------------------------------------------------------------

  /** The votes a replica may have cast are those of `PrepareVoteOk`. The code resets to whatever (view,
      sequence) the response names. The replica stays unable to
      vote twice in a round exactly when that is not below its frontier, that is when it has not
      voted there yet. */
  lemma CatchUpKeepsVotesExactlyWhen(m: Meta, next: ViewSeq)
    requires m.stage == PreprepareStage || m.preprepare.Some?
    ensures (forall v :: PrepareVoteOk(m, v) ==> PrepareVoteOk(CaughtUp(m, next), v)) <==> !next.Before(Frontier(m))
  {
    var m' := CaughtUp(m, next);
    if next.Before(Frontier(m)) {
      var v := Vote(if m.preprepare.Some? then m.preprepare.value.digest else Forged(0), next, NodeInfo(0, 0));
      assert PrepareVoteOk(m, v);
      CompareIsTotalOrder(next, next, next);
      assert !PrepareVoteOk(m', v);
    } else {
      forall v | PrepareVoteOk(m, v)
        ensures PrepareVoteOk(m', v)
      {
        CompareIsTotalOrder(v.at, Frontier(m), next);
      }
    }
  }
}
