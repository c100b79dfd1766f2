/** A shard's replicas and the messages between them as a state machine. Every message ever sent stays
    in the soup, so it may arrive late, out of order, any number of times, or never. Byzantine members
    may send anything, but only under their own identity. */
module PbftSystem {
  import opened Types
  import opened ViewSeqs
  import opened MessagePools
  import opened PbftMetas
  import opened PbftReplicas

  datatype Config = Config(nodeNum: nat, shard: int, byzantine: set<NodeInfo>)
  {
    ghost predicate Valid()
    {
      nodeNum > 0 && byzantine <= Members(nodeNum, shard)
    }

    function F(): int
    {
      FaultBound(nodeNum)
    }

    predicate Honest(n: NodeInfo)
    {
      n !in byzantine
    }
  }

  function Members(nodeNum: nat, shard: int): set<NodeInfo>
  {
    if nodeNum == 0 then {} else Members(nodeNum - 1, shard) + {NodeInfo(nodeNum - 1, shard)}
  }

  /** History: replica `who` committed `block` under `digest` at `at`. */
  datatype Decision = Decision(who: NodeInfo, at: ViewSeq, digest: Digest, block: Block)

  datatype System = System(replicas: seq<Replica>, soup: set<Msg>, decided: set<Decision>)

  datatype Step = Act(at: nat, action: Action) | Forge(who: NodeInfo, msg: Msg)

  ghost predicate Init(c: Config, s: System)
  {
    && |s.replicas| == c.nodeNum
    && (forall i :: 0 <= i < |s.replicas| ==>
      s.replicas[i] == Replica(NodeInfo(i, c.shard), Fresh(c.nodeNum), [GENESIS]))
    && s.soup == {} && s.decided == {}
  }

  /** A replica takes in what the network carries; a response only if it is addressed to it, a request
      only at the leader. */
  predicate Arrives(s: System, r: Replica, msg: Msg)
  {
    && msg in s.soup
    && (msg.CatchupRespMsg? ==> msg.to == r.self)
    && (msg.CatchupReqMsg? ==> r.self.node == r.meta.leader)
  }

  /** The name a message gives as its sender. A preprepare is accepted by its node number alone. */
  predicate SentUnder(msg: Msg, who: NodeInfo)
  {
    match msg
    case PreprepareMsg(p) => p.from.node == who.node
    case PrepareMsg(v) => v.from == who
    case CommitMsg(v) => v.from == who
    case CatchupReqMsg(_, from) => from == who
    case CatchupRespMsg(_, _, from, _, _) => from == who
  }

  predicate Commits(r: Replica, a: Action)
  {
    && a == Advance && Steppable(r.meta)
    && r.meta.stage == CommitStage && Advanced(r).meta.stage == PreprepareStage
  }

  function Decided(r: Replica, a: Action): set<Decision>
  {
    if Commits(r, a)
    then {Decision(r.self, r.meta.cur, r.meta.preprepare.value.digest, r.meta.preprepare.value.proposal)}
    else {}
  }

  function AsSet(sent: seq<Msg>): set<Msg>
  {
    set m | m in sent
  }

  ghost predicate ActNext(c: Config, s: System, s': System, i: nat, a: Action)
  {
    && i < |s.replicas| == |s'.replicas|
    && c.Honest(NodeInfo(i, c.shard))
    && Possible(s.replicas[i], a)
    && (a.Receive? ==> Arrives(s, s.replicas[i], a.msg))
    && Acts(s.replicas[i], s'.replicas[i], a)
    && (forall j :: 0 <= j < |s.replicas| && j != i ==> s'.replicas[j] == s.replicas[j])
    && s'.soup == s.soup + AsSet(Sends(s.replicas[i], a))
    && s'.decided == s.decided + Decided(s.replicas[i], a)
  }

  ghost predicate Next(c: Config, s: System, s': System, step: Step)
  {
    match step
    case Act(i, a) => ActNext(c, s, s', i, a)
    case Forge(who, msg) => who in c.byzantine && SentUnder(msg, who) && s' == s.(soup := s.soup + {msg})
  }

  ghost predicate Run(c: Config, states: seq<System>, steps: seq<Step>)
  {
    && c.Valid() && |states| == |steps| + 1 && Init(c, states[0])
    && forall k :: 0 <= k < |steps| ==> StepAt(c, states, steps, k)
  }

  ghost predicate StepAt(c: Config, states: seq<System>, steps: seq<Step>, k: nat)
    requires |states| == |steps| + 1 && k < |steps|
  {
    Next(c, states[k], states[k + 1], steps[k])
  }

  /** The step has a replica take over a catch-up answer rather than ignore it. */
  predicate Adopts(s: System, step: Step)
  {
    && step.Act? && step.at < |s.replicas| && step.action.Receive? && step.action.msg.CatchupRespMsg?
    && step.action.msg.from.node == s.replicas[step.at].meta.leader && s.replicas[step.at].meta.catchupStarted
  }

  ghost predicate HonestLeader(c: Config)
  {
    c.Valid() && c.Honest(NodeInfo(INITIAL_LEADER, c.shard))
  }

  /** A preprepare is taken for the leader's by the node number it names. */
  ghost predicate FromLeader(soup: set<Msg>, p: Preprepare)
  {
    PreprepareMsg(p) in soup && p.from.node == INITIAL_LEADER
  }

  /** The block committed was proposed, for that round and under that digest, by the leader. */
  ghost predicate Proposed(soup: set<Msg>, d: Decision)
  {
    exists p :: FromLeader(soup, p) && p.at == d.at && p.digest == d.digest && p.proposal == d.block
  }

  lemma ProposedStays(soup: set<Msg>, soup': set<Msg>, d: Decision)
    requires soup <= soup' && Proposed(soup, d)
    ensures Proposed(soup', d)
  {
    var p :| FromLeader(soup, p) && p.at == d.at && p.digest == d.digest && p.proposal == d.block;
    assert FromLeader(soup', p);
  }

  lemma {:induction false} MembersCount(nodeNum: nat, shard: int)
    ensures |Members(nodeNum, shard)| == nodeNum
    ensures forall p :: p in Members(nodeNum, shard) <==> 0 <= p.node < nodeNum && p.shard == shard
  {
    if nodeNum > 0 {
      MembersCount(nodeNum - 1, shard);
    }
  }

  // ---------------------------------------------------------------------------------------------
  // A pass of the node in the system
  // ---------------------------------------------------------------------------------------------

  /** `states` leads from one state to another by the steps given. */
  ghost predicate Leads(c: Config, states: seq<System>, steps: seq<Step>)
  {
    |states| == |steps| + 1 && forall k :: 0 <= k < |steps| ==> StepAt(c, states, steps, k)
  }

  lemma SameSelf(r: Replica, r': Replica, a: Action)
    requires Possible(r, a) && Acts(r, r', a)
    ensures r'.self == r.self && r'.meta.leader == r.meta.leader
  {
  }

  lemma OneMoreLeads(c: Config, states: seq<System>, steps: seq<Step>, s': System, step: Step)
    requires Leads(c, states, steps) && Next(c, states[|steps|], s', step)
    ensures Leads(c, states + [s'], steps + [step])
  {
    hide Next;
    var states', steps' := states + [s'], steps + [step];
    forall k | 0 <= k < |steps'|
      ensures StepAt(c, states', steps', k)
    {
      if k < |steps| {
        assert StepAt(c, states, steps, k);
        assert states'[k] == states[k] && states'[k + 1] == states[k + 1] && steps'[k] == steps[k];
      }
    }
  }

  /** A sequence of actions of one replica, taking in only what has arrived, is a path of the system. */
  lemma {:induction false} PassLeads(c: Config, s: System, i: nat, r': Replica, actions: seq<Action>, sent: seq<Msg>)
      returns (states: seq<System>, steps: seq<Step>)
    requires i < |s.replicas| && c.Honest(NodeInfo(i, c.shard)) && Passes(s.replicas[i], r', actions, sent)
    requires forall a :: a in actions && a.Receive? ==> Arrives(s, s.replicas[i], a.msg)
    ensures Leads(c, states, steps) && states[0] == s
    ensures |steps| == |actions| && forall k :: 0 <= k < |steps| ==> steps[k] == Act(i, actions[k])
    ensures states[|steps|].replicas == s.replicas[i := r'] && states[|steps|].soup == s.soup + AsSet(sent)
    ensures r'.self == s.replicas[i].self && r'.meta.leader == s.replicas[i].meta.leader
    decreases |actions|
  {
    if actions == [] {
      states, steps := [s], [];
    } else {
      var front, a := actions[..|actions| - 1], actions[|actions| - 1];
      var mid, out :| PassesLast(s.replicas[i], mid, r', actions, out, sent);
      states, steps := PassLeads(c, s, i, mid, front, out);
      var before := states[|steps|];
      var after := System(before.replicas[i := r'], before.soup + AsSet(Sends(mid, a)),
        before.decided + Decided(mid, a));
      SameSelf(mid, r', a);
      assert ActNext(c, before, after, i, a);
      OneMoreLeads(c, states, steps, after, Act(i, a));
      states, steps := states + [after], steps + [Act(i, a)];
    }
  }

  /** One pass of the node's run loop over messages that have arrived is a path of this system: every
      step is an action of that replica, and the soup grows by exactly what the node sent. */
  lemma RunOnceIsPath(c: Config, s: System, i: nat, curated: Replica, r': Replica, inbox: seq<Delivery>,
      content: Option<nat>, sent: seq<Msg>)
      returns (states: seq<System>, steps: seq<Step>)
    requires i < |s.replicas| && c.Honest(NodeInfo(i, c.shard)) && Ran(s.replicas[i], curated, r', inbox, content, sent)
    requires forall d :: d in inbox ==> Arrives(s, s.replicas[i], d.msg)
    ensures Leads(c, states, steps) && states[0] == s && forall k :: 0 <= k < |steps| ==>
      steps[k].Act? && steps[k].at == i
    ensures states[|steps|].replicas == s.replicas[i := r'] && states[|steps|].soup == s.soup + AsSet(sent)
  {
    var actions := RanIsActions(s.replicas[i], curated, r', inbox, content, sent);
    states, steps := PassLeads(c, s, i, r', actions, sent);
  }
}
