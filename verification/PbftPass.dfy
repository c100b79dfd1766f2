/** What one pass of a node's run loop achieves (consensus/pbft/node.go): how far its stages go, how the
    pass ends, and a whole round in a single pass. */
module PbftPasses {
  import opened Types
  import opened Sums
  import opened ViewSeqs
  import opened MessagePools
  import opened PbftMetas
  import opened PbftReplicas

  // ---------------------------------------------------------------------------------------------
  // The stage loop
  // ---------------------------------------------------------------------------------------------

  predicate InRound(m: Meta)
  {
    Steppable(m) && (m.stage == PreprepareStage || m.stage == PrepareStage || m.stage == CommitStage)
  }

  /** The prepare votes of the round are enough, now or when the replica went on to committing. */
  predicate HasPrepared(m: Meta)
  {
    m.preprepare.Some? && (m.stage == CommitStage || |m.prepareSet| >= 2 * m.f + 1)
  }

  /** The stage loop ends the round, adding the block of the preprepare, exactly when there is a
      preprepare and both quorums are there. Otherwise it stops, in the same round with the same chain,
      for lack of a preprepare, of prepare votes or of commit votes. */
  lemma RoundEndsExactlyWhen(r: Replica)
    requires InRound(r.meta)
    ensures var m, r' := r.meta, AdvancedAll(r);
      var ends := HasPrepared(m) && |m.commitSet| >= 2 * m.f + 1;
      && InRound(r'.meta) && r'.self == r.self
      && r'.meta.cur == (if ends then m.cur.Next() else m.cur)
      && (ends ==> r'.meta.preprepare.None? && r'.meta.prepareSet == r'.meta.commitSet == {} && !r'.meta.proposed)
      && r'.chain == (if ends then r.chain + [m.preprepare.value.proposal] else r.chain)
      && r'.meta.stage
        == (if ends
          || m.preprepare.None? then PreprepareStage else if HasPrepared(m) then CommitStage else PrepareStage)
  {
    hide AdvancedAll, Advanced, AdvanceAllSends;
    if r.meta.stage == PreprepareStage {
      Starts(r);
    }
    var m := r.meta;
    var working := if m.stage == PreprepareStage
      && m.preprepare.Some? then r.(meta := m.(stage := PrepareStage)) else r;
    if working.meta.stage == PrepareStage {
      FromPrepare(working);
      FromCommit(working.(meta := working.meta.(stage := CommitStage)));
    } else if m.stage == CommitStage {
      FromCommit(r);
    }
  }

  lemma Starts(r: Replica)
    requires r.meta.stage == PreprepareStage
    ensures r.meta.preprepare.None? ==> AdvancedAll(r) == r && AdvanceAllSends(r) == []
    ensures r.meta.preprepare.Some? ==>
      var next := r.(meta := r.meta.(stage := PrepareStage));
      AdvancedAll(r) == AdvancedAll(next) && AdvanceAllSends(r) == [PrepareMsg(OwnVote(r))] + AdvanceAllSends(next)
  {
  }

  lemma FromPrepare(r: Replica)
    requires r.meta.stage == PrepareStage && r.meta.preprepare.Some?
    ensures var m, r' := r.meta, AdvancedAll(r);
      if |m.prepareSet| < 2 * m.f + 1 then r' == r && AdvanceAllSends(r) == []
      else r' == AdvancedAll(r.(meta := m.(stage := CommitStage))) && AdvanceAllSends(r) == [CommitMsg(OwnVote(r))]
  {
    if |r.meta.prepareSet| >= 2 * r.meta.f + 1 {
      FromCommit(Advanced(r));
    }
  }

  lemma FromCommit(r: Replica)
    requires r.meta.stage == CommitStage && r.meta.preprepare.Some?
    ensures AdvanceAllSends(r) == []
    ensures AdvancedAll(r)
      == if |r.meta.commitSet| < 2 * r.meta.f + 1 then r
         else r.(meta := NextRound(r.meta), chain := r.chain + [r.meta.preprepare.value.proposal])
  {
  }

  /** On the way it sends its prepare vote when it takes up the preprepare, and its commit vote when the
      prepare votes are enough, and nothing else. */
  lemma VotesSentExactlyWhen(r: Replica)
    requires InRound(r.meta)
    ensures var m := r.meta;
      var prepare := if m.stage == PreprepareStage && m.preprepare.Some? then [PrepareMsg(OwnVote(r))] else [];
      var commit := if m.stage != CommitStage && HasPrepared(m) then [CommitMsg(OwnVote(r))] else [];
      AdvanceAllSends(r) == prepare + commit
  {
    hide AdvancedAll, Advanced, AdvanceAllSends;
    if r.meta.stage == PreprepareStage {
      Starts(r);
      if r.meta.preprepare.Some? {
        FromPrepare(r.(meta := r.meta.(stage := PrepareStage)));
      }
    } else if r.meta.stage == PrepareStage {
      FromPrepare(r);
    } else {
      FromCommit(r);
    }
  }

  // ---------------------------------------------------------------------------------------------
  // How a pass ends
  // ---------------------------------------------------------------------------------------------

  lemma {:induction false} OnlyAnswers(r: Replica, inbox: seq<Delivery>)
    ensures forall m :: m in AnswersAll(r, inbox) ==> m.CatchupRespMsg?
  {
    if inbox != [] {
      OnlyAnswers(r, inbox[..|inbox| - 1]);
    }
  }

  /** A pass sends a request exactly when, after its stages, the replica is no leader, has not asked yet
      and has heard of a round of its view at least five ahead; and a preprepare exactly when it is the
      leader, at the beginning of a round it has not proposed in, with something to offer. */
  lemma PassEndsExactlyWhen(r: Replica, curated: Replica, r': Replica, inbox: seq<Delivery>, content: Option<nat>,
      sent: seq<Msg>)
    requires InRound(r.meta) && Ran(r, curated, r', inbox, content, sent) && InRound(curated.meta)
    ensures var a := AdvancedAll(curated);
      var asks := a.self.node != a.meta.leader && !a.meta.catchupStarted && a.meta.latest.view == a.meta.cur.view
        && a.meta.latest.seqNo >= a.meta.cur.seqNo + CATCH_UP_THRESHOLD;
      var proposes := a.self.node == a.meta.leader && a.meta.stage == PreprepareStage && !a.meta.proposed
        && content.Some?;
      && ((exists m :: m in sent && m.CatchupReqMsg?) <==> asks)
      && ((exists m :: m in sent && m.PreprepareMsg?) <==> proposes)
      && (asks ==> CatchupReqMsg(Height(a.chain) + 1, a.self) in sent && r'.meta.catchupStarted)
      && (proposes ==> PreprepareMsg(Proposal(a, content.value)) in sent && r'.meta.proposed)
      && r'.chain == a.chain && r'.meta.cur == a.meta.cur && r'.meta.stage == a.meta.stage
  {
    OnlyAnswers(r, inbox);
    OnlyVotes(curated);
    FinishExactly(AdvancedAll(curated), r', content);
    hide AdvancedAll, AdvanceAllSends, AnswersAll, ReceivedAll, Curated, InRound, FinishSends, Finished;
    SentParts(sent, AnswersAll(r, inbox), AdvanceAllSends(curated), FinishSends(AdvancedAll(curated), content));
  }

  lemma OnlyVotes(r: Replica)
    requires InRound(r.meta)
    ensures forall m :: m in AdvanceAllSends(r) ==> m.PrepareMsg? || m.CommitMsg?
  {
    VotesSentExactlyWhen(r);
  }

  lemma SentParts(sent: seq<Msg>, answers: seq<Msg>, votes: seq<Msg>, last: seq<Msg>)
    requires sent == answers + (votes + last)
    requires forall m :: m in answers ==> m.CatchupRespMsg?
    requires forall m :: m in votes ==> m.PrepareMsg? || m.CommitMsg?
    ensures forall m :: m in last ==> m in sent
    ensures forall m :: m in sent && (m.CatchupReqMsg? || m.PreprepareMsg?) ==> m in last
  {
    assert forall m :: m in sent <==> m in answers || m in votes || m in last;
  }

  lemma FinishExactly(a: Replica, r': Replica, content: Option<nat>)
    requires Finished(a, r', content)
    ensures var asks := a.self.node != a.meta.leader && !a.meta.catchupStarted && a.meta.latest.view == a.meta.cur.view
        && a.meta.latest.seqNo >= a.meta.cur.seqNo + CATCH_UP_THRESHOLD;
      var proposes := a.self.node == a.meta.leader && a.meta.stage == PreprepareStage && !a.meta.proposed
        && content.Some?;
      var last := FinishSends(a, content);
      && ((exists m :: m in last && m.CatchupReqMsg?) <==> asks)
      && ((exists m :: m in last && m.PreprepareMsg?) <==> proposes)
      && (asks ==> CatchupReqMsg(Height(a.chain) + 1, a.self) in last && r'.meta.catchupStarted)
      && (proposes ==> PreprepareMsg(Proposal(a, content.value)) in last && r'.meta.proposed)
      && r'.chain == a.chain && r'.meta.cur == a.meta.cur && r'.meta.stage == a.meta.stage
  {
    var last := FinishSends(a, content);
    assert last != [] ==> last[0] in last;
  }

  // ---------------------------------------------------------------------------------------------
  // A round in one pass
  // ---------------------------------------------------------------------------------------------

  predicate HeardIn(inbox: seq<Delivery>, msg: Msg)
  {
    Delivery(msg, true) in inbox || Delivery(msg, false) in inbox
  }

  /** Without a catch-up under way, taking in messages touches the buffers only, which then hold whatever
      is not out of date. */
  lemma {:induction false} Buffers(r: Replica, inbox: seq<Delivery>)
    requires !r.meta.catchupStarted
    ensures Buffered(r, ReceivedAll(r, inbox), inbox)
  {
    if inbox != [] {
      var front, last := inbox[..|inbox| - 1], inbox[|inbox| - 1];
      Buffers(r, front);
      assert inbox == front + [last];
      assert forall d :: d in inbox <==> d in front || d == last;
      OneMoreBuffered(r, ReceivedAll(r, front), front, inbox, last);
    }
  }

  predicate OnlyBuffers(r: Replica, r': Replica)
  {
    r' == r.(meta := r.meta.(preprepares := r'.meta.preprepares, prepares := r'.meta.prepares,
                             commits := r'.meta.commits, latest := r'.meta.latest))
  }

  ghost predicate Buffered(r: Replica, r': Replica, inbox: seq<Delivery>)
  {
    && OnlyBuffers(r, r')
    && (forall p :: InPreprepares(r, r', inbox, p))
    && (forall v :: InVotes(r, r', inbox, v))
  }

  predicate InPreprepares(r: Replica, r': Replica, inbox: seq<Delivery>, p: Preprepare)
  {
    p in r'.meta.preprepares
    <==> p in r.meta.preprepares || (Delivery(PreprepareMsg(p), true) in inbox && !p.at.Before(r.meta.cur))
  }

  predicate InVotes(r: Replica, r': Replica, inbox: seq<Delivery>, v: Vote)
  {
    var timely := !v.at.Before(r.meta.cur);
    && (v in r'.meta.prepares <==> v in r.meta.prepares || (HeardIn(inbox, PrepareMsg(v)) && timely))
    && (v in r'.meta.commits <==> v in r.meta.commits || (HeardIn(inbox, CommitMsg(v)) && timely))
  }

  lemma OneMoreBuffered(r: Replica, received: Replica, front: seq<Delivery>, inbox: seq<Delivery>, last: Delivery)
    requires !r.meta.catchupStarted && Buffered(r, received, front)
    requires forall d :: d in inbox <==> d in front || d == last
    ensures Buffered(r, Received(received, last.msg, last.valid), inbox)
  {
    var r' := Received(received, last.msg, last.valid);
    forall p
      ensures InPreprepares(r, r', inbox, p)
    {
      assert InPreprepares(r, received, front, p);
    }
    forall v
      ensures InVotes(r, r', inbox, v)
    {
      assert InVotes(r, received, front, v);
    }
  }

  /** All prepare, or all commit votes of `who` for the preprepare have come. */
  predicate AllHeard(inbox: seq<Delivery>, p: Preprepare, who: set<NodeInfo>, commit: bool)
  {
    forall x :: x in who ==>
      HeardIn(inbox, if commit then CommitMsg(Vote(p.digest, p.at, x)) else PrepareMsg(Vote(p.digest, p.at, x)))
  }

  /** A replica at the beginning of a round that hears, in any order, a preprepare of the leader, the only
      one for the round, and both quorums of votes for it, has the block on its chain after that very
      pass. */
  lemma RoundInOnePass(r: Replica, curated: Replica, r': Replica, inbox: seq<Delivery>, content: Option<nat>,
      sent: seq<Msg>,
      p: Preprepare, prepared: set<NodeInfo>, committed: set<NodeInfo>)
    requires Ran(r, curated, r', inbox, content, sent)
    requires r.meta.stage == PreprepareStage && r.meta.preprepare.None? && !r.meta.catchupStarted
    requires Delivery(PreprepareMsg(p), true) in inbox && Proper(r.meta, p)
    requires forall q :: Proper(r.meta, q) && (q in r.meta.preprepares || Delivery(PreprepareMsg(q), true) in inbox) ==>
      q == p
    requires AllHeard(inbox, p, prepared, false) && |prepared| >= 2 * r.meta.f + 1
    requires AllHeard(inbox, p, committed, true) && |committed| >= 2 * r.meta.f + 1
    ensures r'.chain == r.chain + [p.proposal] && r'.meta.cur == r.meta.cur.Next()
    ensures PrepareMsg(Vote(p.digest, p.at, r.self)) in sent && CommitMsg(Vote(p.digest, p.at, r.self)) in sent
  {
    hide Curated, AdvancedAll, AdvanceAllSends, AnswersAll, ReceivedAll, Steppable, Proper, Finished, FinishSends;
    var received := ReceivedAll(r, inbox);
    Buffers(r, inbox);
    HearsAll(r, received, inbox, p, prepared, committed);
    SettlesOn(r, received, curated, p, prepared, committed);
    EndsRound(curated, r', content, p);
    SentInMiddle(sent, AnswersAll(r, inbox), AdvanceAllSends(curated), FinishSends(AdvancedAll(curated), content));
  }

  lemma SentInMiddle(sent: seq<Msg>, answers: seq<Msg>, votes: seq<Msg>, last: seq<Msg>)
    requires sent == answers + (votes + last)
    ensures forall m :: m in votes ==> m in sent
  {
  }

  lemma EndsRound(curated: Replica, r': Replica, content: Option<nat>, p: Preprepare)
    requires InRound(curated.meta) && curated.meta.stage == PreprepareStage && curated.meta.preprepare == Some(p)
    requires |curated.meta.prepareSet| >= 2 * curated.meta.f + 1 && |curated.meta.commitSet| >= 2 * curated.meta.f + 1
    requires Finished(AdvancedAll(curated), r', content)
    ensures r'.chain == curated.chain + [p.proposal] && r'.meta.cur == curated.meta.cur.Next()
    ensures PrepareMsg(Vote(p.digest, p.at, curated.self)) in AdvanceAllSends(curated)
    ensures CommitMsg(Vote(p.digest, p.at, curated.self)) in AdvanceAllSends(curated)
  {
    RoundEndsExactlyWhen(curated);
    VotesSentExactlyWhen(curated);
    FinishExactly(AdvancedAll(curated), r', content);
  }

  lemma HearsAll(r: Replica, received: Replica, inbox: seq<Delivery>, p: Preprepare, prepared: set<NodeInfo>,
      committed: set<NodeInfo>)
    requires Buffered(r, received, inbox) && Proper(r.meta, p) && Delivery(PreprepareMsg(p), true) in inbox
    requires forall q ::
      Proper(r.meta, q) && (q in r.meta.preprepares || Delivery(PreprepareMsg(q), true) in inbox) ==> q == p
    requires AllHeard(inbox, p, prepared, false) && AllHeard(inbox, p, committed, true)
    ensures p in received.meta.preprepares
    ensures forall q :: q in received.meta.preprepares && Proper(r.meta, q) ==> q == p
    ensures forall x :: x in prepared ==> Vote(p.digest, p.at, x) in received.meta.prepares
    ensures forall x :: x in committed ==> Vote(p.digest, p.at, x) in received.meta.commits
  {
    assert InPreprepares(r, received, inbox, p);
    CompareIsTotalOrder(p.at, p.at, p.at);
    forall q | q in received.meta.preprepares && Proper(r.meta, q)
      ensures q == p
    {
      assert InPreprepares(r, received, inbox, q);
    }
    forall x | x in prepared
      ensures Vote(p.digest, p.at, x) in received.meta.prepares
    {
      assert InVotes(r, received, inbox, Vote(p.digest, p.at, x));
    }
    forall x | x in committed
      ensures Vote(p.digest, p.at, x) in received.meta.commits
    {
      assert InVotes(r, received, inbox, Vote(p.digest, p.at, x));
    }
  }

  lemma SettlesOn(r: Replica, received: Replica, curated: Replica, p: Preprepare, prepared: set<NodeInfo>,
      committed: set<NodeInfo>)
    requires r.meta.stage == PreprepareStage && r.meta.preprepare.None? && Proper(r.meta, p)
    requires OnlyBuffers(r, received) && p in received.meta.preprepares
    requires forall q :: q in received.meta.preprepares && Proper(r.meta, q) ==> q == p
    requires forall x :: x in prepared ==> Vote(p.digest, p.at, x) in received.meta.prepares
    requires forall x :: x in committed ==> Vote(p.digest, p.at, x) in received.meta.commits
    requires |prepared| >= 2 * r.meta.f + 1 && |committed| >= 2 * r.meta.f + 1
    requires Acts(received, curated, Curate)
    ensures InRound(curated.meta) && curated.meta.stage == PreprepareStage && curated.meta.preprepare == Some(p)
    ensures curated.meta.cur == r.meta.cur && curated.meta.f == r.meta.f && curated.chain == r.chain
    ensures curated.self == r.self
    ensures |curated.meta.prepareSet| >= 2 * r.meta.f + 1 && |curated.meta.commitSet| >= 2 * r.meta.f + 1
  {
    var m := received.meta;
    assert curated.meta.preprepare == Some(p);
    SendersHold(m.prepares, m.cur, p.digest, prepared);
    SendersHold(m.commits, m.cur, p.digest, committed);
    SubsetCount(prepared, curated.meta.prepareSet);
    SubsetCount(committed, curated.meta.commitSet);
  }

  lemma SendersHold(votes: multiset<Vote>, at: ViewSeq, digest: Digest, who: set<NodeInfo>)
    requires forall x :: x in who ==> Vote(digest, at, x) in votes
    ensures who <= Senders(votes, at, digest)
  {
    forall x | x in who
      ensures x in Senders(votes, at, digest)
    {
      assert Vote(digest, at, x).from == x;
    }
  }
}
