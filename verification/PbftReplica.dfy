/** One replica of a shard (consensus/pbft/node.go): its message handlers, stage transitions,
    proposing and catching up, as actions on a value and as the imperative node proved against them.
    A block that reaches a commit is added to the chain; that it executes there is the business of
    `Chains`. */
module PbftReplicas {
  import opened Types
  import opened ViewSeqs
  import opened MessagePools
  import opened PbftMetas

  /** `to` and `start` of a response are the envelope: whom it answers and for which height. */
  datatype Msg =
    | PreprepareMsg(preprepare: Preprepare)
    | PrepareMsg(vote: Vote)
    | CommitMsg(vote: Vote)
    | CatchupReqMsg(start: int, from: NodeInfo)
    | CatchupRespMsg(blocks: seq<Block>, next: ViewSeq, from: NodeInfo, to: NodeInfo, start: int)

  /** `chain` holds the blocks added so far, the genesis block first. */
  datatype Replica = Replica(self: NodeInfo, meta: Meta, chain: seq<Block>)

  datatype Action =
    | Receive(msg: Msg, valid: bool)
    | Curate
    | Advance
    | Propose(content: nat)
    | AskCatchup

  const GENESIS: Block := Block(1, 0)

  function Height(chain: seq<Block>): int
  {
    if chain == [] then 0 else chain[|chain| - 1].number
  }

  /** The walk along parents from the newest block (`CatchUpAnswers.AnswerIsWalk`). */
  function BlocksFrom(chain: seq<Block>, start: int): Option<seq<Block>>
  {
    var count := Height(chain) - start + 1;
    if start <= 0 || count > BLOCKS_FETCH_LIMIT then None
    else if count < 0 then Some([])
    else if count > |chain| then None
    else Some(chain[|chain| - count..])
  }

  // ---------------------------------------------------------------------------------------------
  // Actions
  // ---------------------------------------------------------------------------------------------

  /** A preprepare whose proposal does not validate is refused before it is buffered. */
  function Received(r: Replica, msg: Msg, valid: bool): Replica
  {
    match msg
    case PreprepareMsg(p) => if valid then r.(meta := HearPreprepare(r.meta, p)) else r
    case PrepareMsg(v) => r.(meta := HearPrepare(r.meta, v))
    case CommitMsg(v) => r.(meta := HearCommit(r.meta, v))
    case CatchupReqMsg(_, _) => r
    case CatchupRespMsg(blocks, next, from, _, _) =>
      if from.node != r.meta.leader || !r.meta.catchupStarted then r
      else r.(meta := CaughtUp(r.meta, next), chain := r.chain + blocks)
  }

  /** Only a request for blocks is answered. */
  function Answers(r: Replica, msg: Msg): seq<Msg>
  {
    match msg
    case CatchupReqMsg(start, from) =>
      (match BlocksFrom(r.chain, start)
       case None => []
       case Some(blocks) => [CatchupRespMsg(blocks, r.meta.cur, r.self, from, start)])
    case _ => []
  }

  function OwnVote(r: Replica): Vote
    requires r.meta.preprepare.Some?
  {
    Vote(r.meta.preprepare.value.digest, r.meta.preprepare.value.at, r.self)
  }

  /** What the stages after the first rely on. */
  predicate Steppable(m: Meta)
  {
    m.stage == PrepareStage || m.stage == CommitStage ==> m.preprepare.Some?
  }

  /** One stage transition, if there is one; an unknown stage is an error and changes nothing. */
  function Advanced(r: Replica): Replica
    requires Steppable(r.meta)
  {
    match Stepped(r.meta)
    case None => r
    case Some(m') =>
      if r.meta.stage == CommitStage && m'.stage == PreprepareStage
      then r.(meta := m', chain := r.chain + [r.meta.preprepare.value.proposal])
      else r.(meta := m')
  }

  /** Entering the prepare stage broadcasts a prepare message, entering the commit stage a commit
      message. */
  function AdvanceSends(r: Replica): seq<Msg>
    requires Steppable(r.meta)
  {
    var stage := Advanced(r).meta.stage;
    if stage == r.meta.stage || stage == PreprepareStage then []
    else if stage == PrepareStage then [PrepareMsg(OwnVote(r))]
    else [CommitMsg(OwnVote(r))]
  }

  predicate MayPropose(r: Replica)
  {
    r.self.node == r.meta.leader && r.meta.stage == PreprepareStage && !r.meta.proposed
  }

  /** A proposal carries no sender: its node and shard number are zero. */
  function Proposal(r: Replica, content: nat): Preprepare
  {
    var b := Block(Height(r.chain) + 1, content);
    Preprepare(b, DigestOf(b), r.meta.cur, NodeInfo(0, 0))
  }

  predicate MayAsk(r: Replica)
  {
    r.self.node != r.meta.leader && CatchupReady(r.meta)
  }

  predicate Possible(r: Replica, a: Action)
  {
    match a
    case Receive(_, _) => true
    case Curate => true
    case Advance => Steppable(r.meta)
    case Propose(_) => MayPropose(r)
    case AskCatchup => MayAsk(r)
  }

  function Sends(r: Replica, a: Action): seq<Msg>
    requires Possible(r, a)
  {
    match a
    case Receive(msg, _) => Answers(r, msg)
    case Curate => []
    case Advance => AdvanceSends(r)
    case Propose(content) => [PreprepareMsg(Proposal(r, content))]
    case AskCatchup => [CatchupReqMsg(Height(r.chain) + 1, r.self)]
  }

  ghost predicate Acts(r: Replica, r': Replica, a: Action)
    requires Possible(r, a)
  {
    match a
    case Receive(msg, valid) => r' == Received(r, msg, valid)
    case Curate => Curated(r.meta, r'.meta) && r' == r.(meta := r'.meta)
    case Advance => r' == Advanced(r)
    case Propose(_) => r' == r.(meta := r.meta.(proposed := true))
    case AskCatchup => r' == r.(meta := r.meta.(catchupStarted := true))
  }

  // ---------------------------------------------------------------------------------------------
  // The node
  // ---------------------------------------------------------------------------------------------

  /** Everything one pass of the stage loop does, the replica afterwards and what it sends. */
  function AdvancedAll(r: Replica): Replica
    requires Steppable(r.meta)
    decreases StagesLeft(r.meta.stage)
  {
    var r' := Advanced(r);
    if r'.meta.stage == r.meta.stage || r'.meta.stage == PreprepareStage then r' else AdvancedAll(r')
  }

  function AdvanceAllSends(r: Replica): seq<Msg>
    requires Steppable(r.meta)
    decreases StagesLeft(r.meta.stage)
  {
    var r' := Advanced(r);
    if r'.meta.stage == r.meta.stage || r'.meta.stage == PreprepareStage then AdvanceSends(r)
    else AdvanceSends(r) + AdvanceAllSends(r')
  }

  function StagesLeft(stage: Stage): nat
  {
    match stage
    case PreprepareStage => 2
    case PrepareStage => 1
    case _ => 0
  }

  /** A message of the inbox, with the verdict of validating its proposal if it has one. */
  datatype Delivery = Delivery(msg: Msg, valid: bool)

  function ReceivedAll(r: Replica, inbox: seq<Delivery>): Replica
  {
    if inbox == [] then r else
    var last := inbox[|inbox| - 1];
    Received(ReceivedAll(r, inbox[..|inbox| - 1]), last.msg, last.valid)
  }

  function AnswersAll(r: Replica, inbox: seq<Delivery>): seq<Msg>
  {
    if inbox == [] then [] else
    AnswersAll(r, inbox[..|inbox| - 1]) + Answers(ReceivedAll(r, inbox[..|inbox| - 1]), inbox[|inbox| - 1].msg)
  }

  /** The end of a pass: the leader proposes if it may and has something to offer, any other replica
      asks to catch up if it is far enough behind. */
  function FinishAction(r: Replica, content: Option<nat>): Option<Action>
  {
    if MayPropose(r) && content.Some? then Some(Propose(content.value))
    else if MayAsk(r) then Some(AskCatchup)
    else None
  }

  ghost predicate Finished(r: Replica, r': Replica, content: Option<nat>)
  {
    match FinishAction(r, content)
    case None => r' == r
    case Some(a) => Acts(r, r', a)
  }

  function FinishSends(r: Replica, content: Option<nat>): seq<Msg>
  {
    match FinishAction(r, content)
    case None => []
    case Some(a) => Sends(r, a)
  }

  /** One pass of the run loop: everything received, then curated, then advanced as far as possible,
      then the finish; `curated` is the replica after curating. */
  ghost predicate Ran(r: Replica, curated: Replica, r': Replica, inbox: seq<Delivery>, content: Option<nat>,
      sent: seq<Msg>)
  {
    && Acts(ReceivedAll(r, inbox), curated, Curate)
    && Steppable(curated.meta)
    && Finished(AdvancedAll(curated), r', content)
    && sent == AnswersAll(r, inbox) + (AdvanceAllSends(curated) + FinishSends(AdvancedAll(curated), content))
  }

  class Node {
    const self: NodeInfo
    const pbftMeta: ConsensusMeta
    var chain: seq<Block>

    ghost predicate Valid()
      reads this, pbftMeta, pbftMeta.msgPool, pbftMeta.msgPool.preprepares, pbftMeta.msgPool.prepares,
        pbftMeta.msgPool.commits
    {
      pbftMeta.Valid()
    }

    ghost function Value(): Replica
      reads this, pbftMeta, pbftMeta.msgPool.preprepares, pbftMeta.msgPool.prepares, pbftMeta.msgPool.commits
    {
      Replica(self, pbftMeta.Value(), chain)
    }

    constructor (self: NodeInfo, nodeNum: int)
      ensures Valid() && Value() == Replica(self, Fresh(nodeNum), [GENESIS])
    {
      this.self := self;
      pbftMeta := new ConsensusMeta(nodeNum);
      chain := [GENESIS];
    }

    method HandleMessage(msg: Msg, valid: bool) returns (sent: seq<Msg>)
      requires Valid()
      modifies this, pbftMeta, pbftMeta.msgPool.preprepares, pbftMeta.msgPool.prepares, pbftMeta.msgPool.commits
      ensures Valid() && Value() == Received(old(Value()), msg, valid)
      ensures sent == Answers(old(Value()), msg)
    {
      sent := [];
      match msg {
        case PreprepareMsg(ppMsg) => HandlePreprepare(ppMsg, valid);
        case PrepareMsg(pMsg) =>
          if pbftMeta.curViewSeq.Compare(pMsg.at) <= 0 {
            pbftMeta.msgPool.prepares.PushItem(pMsg);
          }
        case CommitMsg(cMsg) =>
          if pbftMeta.curViewSeq.Compare(cMsg.at) <= 0 {
            pbftMeta.msgPool.commits.PushItem(cMsg);
          }
        case CatchupReqMsg(start, from) =>
          var blocks := BlocksFrom(chain, start);
          if blocks.Some? {
            sent := [CatchupRespMsg(blocks.value, pbftMeta.curViewSeq, self, from, start)];
          }
        case CatchupRespMsg(blocks, next, from, _, _) => HandleCatchupResp(blocks, next, from);
      }
    }

    method HandlePreprepare(ppMsg: Preprepare, valid: bool)
      requires Valid()
      modifies pbftMeta, pbftMeta.msgPool.preprepares
      ensures Valid() && Value() == Received(old(Value()), PreprepareMsg(ppMsg), valid)
    {
      if pbftMeta.curViewSeq.Compare(ppMsg.at) > 0 {
        return;
      }
      if !valid {
        return;
      }
      pbftMeta.msgPool.preprepares.PushItem(ppMsg);
      pbftMeta.UpdateLatestViewSeq(ppMsg.at);
    }

    method HandleCatchupResp(blocks: seq<Block>, next: ViewSeq, from: NodeInfo)
      requires Valid()
      modifies this, pbftMeta
      ensures Valid()
      ensures from.node != pbftMeta.leader || !old(pbftMeta.catchupStarted) ==> Value() == old(Value())
      ensures from.node == pbftMeta.leader && old(pbftMeta.catchupStarted) ==>
        Value() == old(Value()).(meta := CaughtUp(old(Value()).meta, next), chain := old(chain) + blocks)
    {
      if pbftMeta.leader != from.node {
        return;
      }
      if !pbftMeta.catchupStarted {
        return;
      }
      for i := 0 to |blocks|
        invariant chain == old(chain) + blocks[..i]
        invariant Valid() && pbftMeta.Value() == old(pbftMeta.Value())
      {
        chain := chain + [blocks[i]];
      }
      assert blocks[..|blocks|] == blocks;
      pbftMeta.CatchupOverAndReset(next);
    }

    /** Steps on until no stage change happens or a round is over. */
    method Step2NextStage() returns (sent: seq<Msg>)
      requires Valid() && Steppable(pbftMeta.Value())
      modifies this, pbftMeta
      ensures Valid() && Value() == AdvancedAll(old(Value()))
      ensures sent == AdvanceAllSends(old(Value()))
      ensures Steppable(pbftMeta.Value())
    {
      hide Advanced, AdvanceSends, Steppable;
      sent := [];
      while true
        invariant Valid() && Steppable(pbftMeta.Value())
        invariant AdvancedAll(old(Value())) == AdvancedAll(Value())
        invariant AdvanceAllSends(old(Value())) == sent + AdvanceAllSends(Value())
        decreases StagesLeft(pbftMeta.stage)
      {
        var out, more := StepAndBroadcast();
        sent := sent + out;
        if !more {
          return;
        }
      }
    }

    method StepAndBroadcast() returns (out: seq<Msg>, more: bool)
      requires Valid() && Steppable(pbftMeta.Value())
      modifies this, pbftMeta
      ensures Valid() && Value() == Advanced(old(Value())) && out == AdvanceSends(old(Value()))
      ensures more == (pbftMeta.stage != old(pbftMeta.stage) && pbftMeta.stage != PreprepareStage)
      ensures Steppable(pbftMeta.Value()) && (more ==> StagesLeft(pbftMeta.stage) < StagesLeft(old(pbftMeta.stage)))
    {
      var oldStage, newStage, ok := pbftMeta.Step2Next();
      if !ok || oldStage == newStage {
        return [], false;
      }
      if newStage == PreprepareStage {
        chain := chain + [pbftMeta.lastProposal.value];
        return [], false;
      }
      var vote := Vote(pbftMeta.curPreprepare.value.digest, pbftMeta.curPreprepare.value.at, self);
      if newStage == PrepareStage {
        return [PrepareMsg(vote)], true;
      }
      return [CommitMsg(vote)], true;
    }

    /** `content` is what the block builder offers; with nothing to offer the round is skipped. */
    method ProposeBlock(content: Option<nat>) returns (sent: seq<Msg>)
      requires Valid()
      modifies pbftMeta
      ensures Valid()
      ensures content.None? ==> sent == [] && Value() == old(Value())
      ensures content.Some? ==>
        && sent == [PreprepareMsg(Proposal(old(Value()), content.value))]
        && Value() == old(Value()).(meta := old(Value()).meta.(proposed := true))
    {
      if content.None? {
        return [];
      }
      var b := Block(Height(chain) + 1, content.value);
      sent := [PreprepareMsg(Preprepare(b, DigestOf(b), pbftMeta.curViewSeq, NodeInfo(0, 0)))];
      pbftMeta.proposed := true;
    }

    method CatchUpStart() returns (sent: seq<Msg>)
      requires Valid()
      modifies pbftMeta
      ensures Valid() && sent == [CatchupReqMsg(Height(chain) + 1, self)]
      ensures Value() == old(Value()).(meta := old(Value()).meta.(catchupStarted := true))
    {
      sent := [CatchupReqMsg(Height(chain) + 1, self)];
      pbftMeta.catchupStarted := true;
    }

    /** One pass of the run loop. */
    method RunOnce(inbox: seq<Delivery>, content: Option<nat>) returns (sent: seq<Msg>, ghost curated: Replica)
      requires Valid() && Steppable(pbftMeta.Value())
      modifies this, pbftMeta, pbftMeta.msgPool.preprepares, pbftMeta.msgPool.prepares, pbftMeta.msgPool.commits
      ensures Valid() && Steppable(pbftMeta.Value())
      ensures Ran(old(Value()), curated, Value(), inbox, content, sent)
    {
      hide AdvancedAll, AdvanceAllSends, ReceivedAll, AnswersAll, Finished, FinishSends, Curated;
      sent := ReceiveAndCurate(inbox);
      curated := Value();
      var out := StepAndFinish(content);
      sent := sent + out;
    }

    method ReceiveAndCurate(inbox: seq<Delivery>) returns (sent: seq<Msg>)
      requires Valid() && Steppable(pbftMeta.Value())
      modifies this, pbftMeta, pbftMeta.msgPool.preprepares, pbftMeta.msgPool.prepares, pbftMeta.msgPool.commits
      ensures Valid() && Steppable(pbftMeta.Value())
      ensures Acts(ReceivedAll(old(Value()), inbox), Value(), Curate) && sent == AnswersAll(old(Value()), inbox)
    {
      hide ReceivedAll, AnswersAll, Curated;
      sent := ReceiveAll(inbox);
      pbftMeta.CurateMsg();
    }

    method StepAndFinish(content: Option<nat>) returns (out: seq<Msg>)
      requires Valid() && Steppable(pbftMeta.Value())
      modifies this, pbftMeta
      ensures Valid() && Steppable(pbftMeta.Value())
      ensures Finished(AdvancedAll(old(Value())), Value(), content)
      ensures out == AdvanceAllSends(old(Value())) + FinishSends(AdvancedAll(old(Value())), content)
    {
      hide AdvancedAll, AdvanceAllSends, Finished, FinishSends;
      out := Step2NextStage();
      var last := Finish(content);
      out := out + last;
    }

    method Finish(content: Option<nat>) returns (out: seq<Msg>)
      requires Valid() && Steppable(pbftMeta.Value())
      modifies pbftMeta
      ensures Valid() && Steppable(pbftMeta.Value())
      ensures Finished(old(Value()), Value(), content) && out == FinishSends(old(Value()), content)
    {
      out := [];
      if self.node == pbftMeta.leader {
        if pbftMeta.stage == PreprepareStage && !pbftMeta.proposed {
          out := ProposeBlock(content);
        }
      } else {
        var ready := pbftMeta.CatchupIsReady();
        if ready {
          out := CatchUpStart();
        }
      }
    }

    method ReceiveAll(inbox: seq<Delivery>) returns (sent: seq<Msg>)
      requires Valid() && Steppable(pbftMeta.Value())
      modifies this, pbftMeta, pbftMeta.msgPool.preprepares, pbftMeta.msgPool.prepares, pbftMeta.msgPool.commits
      ensures Valid() && Steppable(pbftMeta.Value())
      ensures Value() == ReceivedAll(old(Value()), inbox) && sent == AnswersAll(old(Value()), inbox)
    {
      sent := [];
      for i := 0 to |inbox|
        invariant Valid() && Steppable(pbftMeta.Value())
        invariant Value() == ReceivedAll(old(Value()), inbox[..i]) && sent == AnswersAll(old(Value()), inbox[..i])
      {
        assert inbox[..i + 1][..i] == inbox[..i];
        ghost var before := Value();
        var out := HandleMessage(inbox[i].msg, inbox[i].valid);
        ReceivingKeepsSteppable(before, inbox[i].msg, inbox[i].valid);
        sent := sent + out;
      }
      assert inbox[..|inbox|] == inbox;
    }
  }

  lemma ReceivingKeepsSteppable(r: Replica, msg: Msg, valid: bool)
    requires Steppable(r.meta)
    ensures Steppable(Received(r, msg, valid).meta)
  {
  }

  // ---------------------------------------------------------------------------------------------
  // A pass of the node is a sequence of actions
  // ---------------------------------------------------------------------------------------------

  /** The actions lead from `r` to `r'`, one after another, and send `sent` on the way. */
  ghost predicate Passes(r: Replica, r': Replica, actions: seq<Action>, sent: seq<Msg>)
    decreases |actions|
  {
    if actions == [] then r' == r && sent == []
    else exists mid, out :: PassesLast(r, mid, r', actions, out, sent)
  }

  ghost predicate PassesLast(r: Replica, mid: Replica, r': Replica, actions: seq<Action>, out: seq<Msg>, sent: seq<Msg>)
    requires actions != []
    decreases |actions|, 0
  {
    var last := actions[|actions| - 1];
    && Passes(r, mid, actions[..|actions| - 1], out)
    && Possible(mid, last) && Acts(mid, r', last) && sent == out + Sends(mid, last)
  }

  lemma PassesOneMore(r: Replica, mid: Replica, r': Replica, actions: seq<Action>, out: seq<Msg>, a: Action)
    requires Passes(r, mid, actions, out) && Possible(mid, a) && Acts(mid, r', a)
    ensures Passes(r, r', actions + [a], out + Sends(mid, a))
  {
    assert (actions + [a])[..|actions|] == actions;
    assert PassesLast(r, mid, r', actions + [a], out, out + Sends(mid, a));
  }

  lemma {:induction false} PassesBoth(r: Replica, mid: Replica, r': Replica, first: seq<Action>, second: seq<Action>,
      out: seq<Msg>, sent: seq<Msg>)
    requires Passes(r, mid, first, out) && Passes(mid, r', second, sent)
    ensures Passes(r, r', first + second, out + sent)
    decreases |second|
  {
    if second == [] {
      assert first + second == first && out + sent == out;
    } else {
      var x, sent' :| PassesLast(mid, x, r', second, sent', sent);
      var a := second[|second| - 1];
      PassesBoth(r, mid, x, first, second[..|second| - 1], out, sent');
      PassesOneMore(r, x, r', first + second[..|second| - 1], out + sent', a);
      assert first + second[..|second| - 1] + [a] == first + second;
      assert out + sent' + Sends(x, a) == out + sent;
    }
  }

  function Receives(inbox: seq<Delivery>): (actions: seq<Action>)
    ensures |actions| == |inbox|
    ensures forall k :: 0 <= k < |inbox| ==> actions[k] == Receive(inbox[k].msg, inbox[k].valid)
  {
    seq(|inbox|, k requires 0 <= k < |inbox| => Receive(inbox[k].msg, inbox[k].valid))
  }

  lemma {:induction false} ReceivedAllPasses(r: Replica, inbox: seq<Delivery>)
    ensures Passes(r, ReceivedAll(r, inbox), Receives(inbox), AnswersAll(r, inbox))
  {
    if inbox != [] {
      var front, last := inbox[..|inbox| - 1], inbox[|inbox| - 1];
      ReceivedAllPasses(r, front);
      PassesOneMore(r, ReceivedAll(r, front), ReceivedAll(r, inbox), Receives(front), AnswersAll(r, front),
        Receive(last.msg, last.valid));
      assert Receives(front) + [Receive(last.msg, last.valid)] == Receives(inbox);
    }
  }

  lemma OnePasses(r: Replica, r': Replica, a: Action)
    requires Possible(r, a) && Acts(r, r', a)
    ensures Passes(r, r', [a], Sends(r, a))
  {
    assert Passes(r, r, [], []);
    PassesOneMore(r, r, r', [], [], a);
    assert [] + [a] == [a] && [] + Sends(r, a) == Sends(r, a);
  }

  /** Advancing as far as possible is advancing one transition after another, with the same messages. */
  lemma {:induction false} AdvancedAllIsSteps(r: Replica) returns (actions: seq<Action>)
    requires Steppable(r.meta)
    ensures Passes(r, AdvancedAll(r), actions, AdvanceAllSends(r))
    ensures forall a :: a in actions ==> a == Advance
    decreases StagesLeft(r.meta.stage)
  {
    var r' := Advanced(r);
    OnePasses(r, r', Advance);
    actions := [Advance];
    if r'.meta.stage != r.meta.stage && r'.meta.stage != PreprepareStage {
      var rest := AdvancedAllIsSteps(r');
      PassesBoth(r, r', AdvancedAll(r'), [Advance], rest, AdvanceSends(r), AdvanceAllSends(r'));
      actions := [Advance] + rest;
    }
  }

  /** A pass of the run loop is a sequence of actions that sends the same messages: it takes in the inbox
      in order, curates, advances, and at most proposes or asks. */
  lemma RanIsActions(r: Replica, curated: Replica, r': Replica, inbox: seq<Delivery>, content: Option<nat>,
      sent: seq<Msg>)
      returns (actions: seq<Action>)
    requires Ran(r, curated, r', inbox, content, sent)
    ensures Passes(r, r', actions, sent)
    ensures forall a :: a in actions && a.Receive? ==> Delivery(a.msg, a.valid) in inbox
  {
    hide Passes, ReceivedAll, AnswersAll, Curated, AdvancedAll, AdvanceAllSends, Possible;
    var received, advanced := ReceivedAll(r, inbox), AdvancedAll(curated);
    ReceivedAllPasses(r, inbox);
    CuratePasses(received, curated);
    PassesBoth(r, received, curated, Receives(inbox), [Curate], AnswersAll(r, inbox), []);
    var advances := AdvancedAllIsSteps(curated);
    var last := FinishPasses(advanced, r', content);
    PassesBoth(curated, advanced, r', advances, last, AdvanceAllSends(curated), FinishSends(advanced, content));
    PassesBoth(r, curated, r', Receives(inbox) + [Curate], advances + last, AnswersAll(r, inbox) + [],
      AdvanceAllSends(curated) + FinishSends(advanced, content));
    actions := Receives(inbox) + [Curate] + (advances + last);
    assert AnswersAll(r, inbox) + [] == AnswersAll(r, inbox);
  }

  lemma CuratePasses(r: Replica, r': Replica)
    requires Acts(r, r', Curate)
    ensures Passes(r, r', [Curate], [])
  {
    OnePasses(r, r', Curate);
  }

  lemma FinishPasses(r: Replica, r': Replica, content: Option<nat>) returns (actions: seq<Action>)
    requires Finished(r, r', content)
    ensures Passes(r, r', actions, FinishSends(r, content))
    ensures forall a :: a in actions ==> !a.Receive?
  {
    match FinishAction(r, content) {
      case None => actions := [];
      case Some(a) =>
        OnePasses(r, r', a);
        actions := [a];
    }
  }
}
