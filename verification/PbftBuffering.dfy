/** Early, late and shuffled votes: once a round has its preprepare, the vote sets are exactly the
    senders of all votes for it ever heard, in whatever order they came. */
module PbftBuffering {
  import opened ViewSeqs
  import opened MessagePools
  import opened PbftMetas
  import opened PbftReplicas

  /** One replica's life: any sequence of its actions, with any messages. */
  ghost predicate Life(rs: seq<Replica>, acts: seq<Action>, self: NodeInfo, nodeNum: nat)
  {
    && |rs| == |acts| + 1 && rs[0] == Replica(self, Fresh(nodeNum), [GENESIS])
    && forall k :: 0 <= k < |acts| ==> ActAt(rs, acts, k)
  }

  ghost predicate ActAt(rs: seq<Replica>, acts: seq<Action>, k: nat)
    requires |rs| == |acts| + 1 && k < |acts|
  {
    Possible(rs[k], acts[k]) && Acts(rs[k], rs[k + 1], acts[k]) && Forward(rs[k], acts[k])
  }

  /** Catching up leaves the round for a later one, or stays in a round that has no preprepare yet. */
  predicate KeepsRounds(m: Meta, next: ViewSeq)
  {
    m.cur.Before(next) || (next == m.cur && m.preprepare.None?)
  }

  predicate Forward(r: Replica, a: Action)
  {
    a.Receive? && a.msg.CatchupRespMsg? && a.msg.from.node == r.meta.leader && r.meta.catchupStarted ==>
      KeepsRounds(r.meta, a.msg.next)
  }

  function PreparesHeard(acts: seq<Action>): set<Vote>
  {
    set a | a in acts && a.Receive? && a.msg.PrepareMsg? :: a.msg.vote
  }

  function CommitsHeard(acts: seq<Action>): set<Vote>
  {
    set a | a in acts && a.Receive? && a.msg.CommitMsg? :: a.msg.vote
  }

  /** A vote heard is out of date, or waits, or has been looked at in this round and counted if it is
      for the preprepare's digest; and nothing waits or is counted that was not heard. */
  ghost predicate Accounted(heard: set<Vote>, pool: multiset<Vote>, counted: set<NodeInfo>, m: Meta)
  {
    && (forall v :: v in heard ==>
          || v.at.Before(m.cur) || v in pool
          || (v.at == m.cur && m.preprepare.Some? && (v.digest == m.preprepare.value.digest ==> v.from in counted)))
    && (forall v :: v in pool ==> v in heard)
    && (forall p :: p in counted ==> m.preprepare.Some? && Vote(m.preprepare.value.digest, m.cur, p) in heard)
  }

  ghost predicate BothAccounted(prepares: set<Vote>, commits: set<Vote>, m: Meta)
  {
    && Accounted(prepares, m.prepares, m.prepareSet, m)
    && Accounted(commits, m.commits, m.commitSet, m)
    && (m.stage == PrepareStage || m.stage == CommitStage ==> m.preprepare.Some?)
  }

  lemma HearingCounts(heard: set<Vote>, pool: multiset<Vote>, counted: set<NodeInfo>, m: Meta, m': Meta, v: Vote)
    requires Accounted(heard, pool, counted, m) && m'.cur == m.cur && m'.preprepare == m.preprepare
    ensures Accounted(heard + {v}, if v.at.Before(m.cur) then pool else pool + multiset{v}, counted, m')
  {
  }

  lemma CuratingCounts(heard: set<Vote>, pool: multiset<Vote>, counted: set<NodeInfo>, rest: multiset<Vote>, m: Meta,
      m': Meta)
    requires Accounted(heard, pool, counted, m) && m'.cur == m.cur
    requires m.preprepare.Some? ==> m'.preprepare == m.preprepare
    requires m'.preprepare.Some? && Drained(pool, rest, VoteAt, m.cur)
    ensures Accounted(heard, rest, counted + Senders(pool, m.cur, m'.preprepare.value.digest), m')
  {
    var digest := m'.preprepare.value.digest;
    forall v | v in heard
      ensures v.at.Before(m.cur) || v in rest
        || (v.at == m.cur && (v.digest == digest ==> v.from in counted + Senders(pool, m.cur, digest)))
    {
      if v in pool && m.cur.Before(v.at) {
        assert rest[v] == pool[v];
      } else if v in pool {
        CompareIsTotalOrder(v.at, m.cur, m.cur);
      }
    }
    forall v | v in rest
      ensures v in heard
    {
      assert rest[v] > 0;
    }
  }

  lemma CurateKeeps(prepares: set<Vote>, commits: set<Vote>, m: Meta, m': Meta)
    requires BothAccounted(prepares, commits, m) && Curated(m, m')
    ensures BothAccounted(prepares, commits, m')
  {
    if m'.preprepare.Some? {
      CuratingCounts(prepares, m.prepares, m.prepareSet, m'.prepares, m, m');
      CuratingCounts(commits, m.commits, m.commitSet, m'.commits, m, m');
    }
  }

  lemma SameRound(heard: set<Vote>, pool: multiset<Vote>, counted: set<NodeInfo>, m: Meta, m': Meta)
    requires Accounted(heard, pool, counted, m) && m'.cur == m.cur && m'.preprepare == m.preprepare
    ensures Accounted(heard, pool, counted, m')
  {
  }

  lemma HearKeeps(prepares: set<Vote>, commits: set<Vote>, m: Meta, v: Vote)
    requires BothAccounted(prepares, commits, m)
    ensures BothAccounted(prepares + {v}, commits, HearPrepare(m, v))
    ensures BothAccounted(prepares, commits + {v}, HearCommit(m, v))
  {
    hide Accounted;
    HearingCounts(prepares, m.prepares, m.prepareSet, m, HearPrepare(m, v), v);
    SameRound(commits, m.commits, m.commitSet, m, HearPrepare(m, v));
    HearingCounts(commits, m.commits, m.commitSet, m, HearCommit(m, v), v);
    SameRound(prepares, m.prepares, m.prepareSet, m, HearCommit(m, v));
  }

  lemma CatchUpKeeps(prepares: set<Vote>, commits: set<Vote>, m: Meta, next: ViewSeq)
    requires BothAccounted(prepares, commits, m) && KeepsRounds(m, next)
    ensures BothAccounted(prepares, commits, CaughtUp(m, next))
  {
    MovingOn(prepares, m.prepares, m.prepareSet, m, CaughtUp(m, next));
    MovingOn(commits, m.commits, m.commitSet, m, CaughtUp(m, next));
  }

  lemma ReceiveKeeps(prepares: set<Vote>, commits: set<Vote>, r: Replica, msg: Msg, valid: bool)
    requires BothAccounted(prepares, commits, r.meta) && Forward(r, Receive(msg, valid))
    ensures BothAccounted(prepares + (if msg.PrepareMsg? then {msg.vote} else {}),
      commits + (if msg.CommitMsg? then {msg.vote} else {}),
              Received(r, msg, valid).meta)
  {
    hide Accounted;
    assert prepares + {} == prepares && commits + {} == commits;
    match msg {
      case PreprepareMsg(p) =>
        SameRound(prepares, r.meta.prepares, r.meta.prepareSet, r.meta, HearPreprepare(r.meta, p));
        SameRound(commits, r.meta.commits, r.meta.commitSet, r.meta, HearPreprepare(r.meta, p));
      case PrepareMsg(v) => HearKeeps(prepares, commits, r.meta, v);
      case CommitMsg(v) => HearKeeps(prepares, commits, r.meta, v);
      case CatchupReqMsg(_, _) =>
      case CatchupRespMsg(_, next, from, _, _) =>
        if from.node == r.meta.leader && r.meta.catchupStarted {
          CatchUpKeeps(prepares, commits, r.meta, next);
        }
    }
  }

  /** Leaving a round forward, or leaving nothing behind in it. */
  lemma MovingOn(heard: set<Vote>, pool: multiset<Vote>, counted: set<NodeInfo>, m: Meta, m': Meta)
    requires Accounted(heard, pool, counted, m) && KeepsRounds(m, m'.cur) && m'.preprepare.None?
    ensures Accounted(heard, pool, {}, m')
  {
    forall v | v in heard
      ensures v.at.Before(m'.cur) || v in pool
    {
      CompareIsTotalOrder(v.at, m.cur, m'.cur);
    }
  }

  lemma AdvanceKeeps(prepares: set<Vote>, commits: set<Vote>, r: Replica)
    requires BothAccounted(prepares, commits, r.meta)
    ensures BothAccounted(prepares, commits, Advanced(r).meta)
  {
    var m, m' := r.meta, Advanced(r).meta;
    if m'.cur != m.cur {
      CompareIsTotalOrder(m.cur, m.cur, m.cur.Next());
      MovingOn(prepares, m.prepares, m.prepareSet, m, m');
      MovingOn(commits, m.commits, m.commitSet, m, m');
    }
  }

  lemma ActKeeps(prepares: set<Vote>, commits: set<Vote>, r: Replica, r': Replica, a: Action)
    requires BothAccounted(prepares, commits, r.meta) && Possible(r, a) && Acts(r, r', a) && Forward(r, a)
    ensures BothAccounted(prepares + PreparesHeard([a]), commits + CommitsHeard([a]), r'.meta)
  {
    HeardOne(a);
    match a {
      case Receive(msg, valid) => ReceiveKeeps(prepares, commits, r, msg, valid);
      case Curate => CurateKeeps(prepares, commits, r.meta, r'.meta);
      case Advance => AdvanceKeeps(prepares, commits, r);
      case Propose(_) =>
      case AskCatchup =>
    }
  }

  lemma HeardOne(a: Action)
    ensures PreparesHeard([a]) == if a.Receive? && a.msg.PrepareMsg? then {a.msg.vote} else {}
    ensures CommitsHeard([a]) == if a.Receive? && a.msg.CommitMsg? then {a.msg.vote} else {}
  {
    assert a in [a];
  }

  lemma HeardMore(acts: seq<Action>)
    requires acts != []
    ensures PreparesHeard(acts) == PreparesHeard(acts[..|acts| - 1]) + PreparesHeard([acts[|acts| - 1]])
    ensures CommitsHeard(acts) == CommitsHeard(acts[..|acts| - 1]) + CommitsHeard([acts[|acts| - 1]])
  {
    var front, last := acts[..|acts| - 1], acts[|acts| - 1];
    assert acts == front + [last];
    assert forall a :: a in acts <==> a in front || a in [last];
  }

  lemma {:induction false} LifeAccounted(rs: seq<Replica>, acts: seq<Action>, self: NodeInfo, nodeNum: nat, k: nat)
    requires Life(rs, acts, self, nodeNum) && k < |rs|
    ensures BothAccounted(PreparesHeard(acts[..k]), CommitsHeard(acts[..k]), rs[k].meta)
  {
    if k > 0 {
      LifeAccounted(rs, acts, self, nodeNum, k - 1);
      assert ActAt(rs, acts, k - 1);
      assert acts[..k][..k - 1] == acts[..k - 1];
      HeardMore(acts[..k]);
      ActKeeps(PreparesHeard(acts[..k - 1]), CommitsHeard(acts[..k - 1]), rs[k - 1], rs[k], acts[k - 1]);
    }
  }

  function SendersOf(heard: set<Vote>, at: ViewSeq, digest: Digest): set<NodeInfo>
  {
    set v | v in heard && v.at == at && v.digest == digest :: v.from
  }

  /** After curating with a preprepare at hand, the prepare and commit sets are exactly the senders of
      all votes heard so far for this (view, sequence) and digest, however early they came. */
  lemma SetsAreAllVotesHeard(rs: seq<Replica>, acts: seq<Action>, self: NodeInfo, nodeNum: nat, k: nat)
    requires Life(rs, acts, self, nodeNum) && 0 < k < |rs| && acts[k - 1] == Curate && rs[k].meta.preprepare.Some?
    ensures var m := rs[k].meta;
      && m.prepareSet == SendersOf(PreparesHeard(acts[..k]), m.cur, m.preprepare.value.digest)
      && m.commitSet == SendersOf(CommitsHeard(acts[..k]), m.cur, m.preprepare.value.digest)
  {
    LifeAccounted(rs, acts, self, nodeNum, k);
    assert ActAt(rs, acts, k - 1);
    var m := rs[k].meta;
    JustCurated(PreparesHeard(acts[..k]), rs[k - 1].meta.prepares, m.prepares, m.prepareSet, m);
    JustCurated(CommitsHeard(acts[..k]), rs[k - 1].meta.commits, m.commits, m.commitSet, m);
  }

  lemma JustCurated(heard: set<Vote>, before: multiset<Vote>, pool: multiset<Vote>, counted: set<NodeInfo>, m: Meta)
    requires Accounted(heard, pool, counted, m) && m.preprepare.Some? && Drained(before, pool, VoteAt, m.cur)
    ensures counted == SendersOf(heard, m.cur, m.preprepare.value.digest)
  {
    var digest := m.preprepare.value.digest;
    forall p | p in SendersOf(heard, m.cur, digest)
      ensures p in counted
    {
      var v :| v in heard && v.at == m.cur && v.digest == digest && v.from == p;
      CompareIsTotalOrder(v.at, m.cur, m.cur);
      assert pool[v] == 0;
    }
    forall p | p in counted
      ensures p in SendersOf(heard, m.cur, digest)
    {
      assert Vote(digest, m.cur, p).from == p;
    }
  }

  /** Two replicas that have heard the same votes, in any two orders and with anything in between, hold
      the same sets once they have curated the same round with the same digest. */
  lemma OrderDoesNotMatter(
      rs: seq<Replica>, acts: seq<Action>, self: NodeInfo, k: nat,
      rs': seq<Replica>, acts': seq<Action>, self': NodeInfo, k': nat, nodeNum: nat)
    requires Life(rs, acts, self, nodeNum) && 0 < k < |rs| && acts[k - 1] == Curate && rs[k].meta.preprepare.Some?
    requires Life(rs', acts', self', nodeNum) && 0 < k' < |rs'| && acts'[k' - 1] == Curate
    requires rs'[k'].meta.preprepare.Some?
    requires PreparesHeard(acts[..k]) == PreparesHeard(acts'[..k'])
    requires CommitsHeard(acts[..k]) == CommitsHeard(acts'[..k'])
    requires rs[k].meta.cur == rs'[k'].meta.cur
    requires rs[k].meta.preprepare.value.digest == rs'[k'].meta.preprepare.value.digest
    ensures rs[k].meta.prepareSet == rs'[k'].meta.prepareSet && rs[k].meta.commitSet == rs'[k'].meta.commitSet
  {
    SetsAreAllVotesHeard(rs, acts, self, nodeNum, k);
    SetsAreAllVotesHeard(rs', acts', self', nodeNum, k');
  }

  // ---------------------------------------------------------------------------------------------
  // Early preprepares, and the latest round heard of
  // ---------------------------------------------------------------------------------------------

  /** The preprepares taken in so far: valid, and not out of date when they came. */
  ghost predicate Taken(rs: seq<Replica>, acts: seq<Action>, k: nat, p: Preprepare)
    requires k < |rs| == |acts| + 1
  {
    exists j :: 0 <= j < k && TakenAt(rs, acts, j, p)
  }

  predicate TakenAt(rs: seq<Replica>, acts: seq<Action>, j: nat, p: Preprepare)
    requires j < |acts| < |rs|
  {
    acts[j] == Receive(PreprepareMsg(p), true) && !p.at.Before(rs[j].meta.cur)
  }

  /** Where a preprepare of the leader is that was taken in: out of date, waiting, or settled on or
      passed over in this round; and the latest round known is not before its round. */
  ghost predicate PreprepareKept(m: Meta, p: Preprepare)
  {
    && !m.latest.Before(p.at)
    && (p.from.node == m.leader ==> p.at.Before(m.cur) || p in m.preprepares || (p.at == m.cur && m.preprepare.Some?))
  }

  lemma ActKeepsPreprepare(r: Replica, r': Replica, a: Action, p: Preprepare)
    requires Possible(r, a) && Acts(r, r', a) && Forward(r, a)
    requires PreprepareKept(r.meta, p) || (a == Receive(PreprepareMsg(p), true) && !p.at.Before(r.meta.cur))
    ensures PreprepareKept(r'.meta, p)
  {
    var m, m' := r.meta, r'.meta;
    CompareIsTotalOrder(p.at, m.cur, m'.cur);
    CompareIsTotalOrder(m.cur, m.cur, m.cur.Next());
    CompareIsTotalOrder(p.at, m.cur, m.cur.Next());
    match a {
      case Receive(msg, valid) => ReceiveKeepsPreprepare(r, msg, valid, p);
      case Curate => CurateKeepsPreprepare(m, m', p);
      case Advance =>
      case Propose(_) =>
      case AskCatchup =>
    }
  }

  lemma ReceiveKeepsPreprepare(r: Replica, msg: Msg, valid: bool, p: Preprepare)
    requires Forward(r, Receive(msg, valid))
    requires PreprepareKept(r.meta, p) || (msg == PreprepareMsg(p) && valid && !p.at.Before(r.meta.cur))
    ensures PreprepareKept(Received(r, msg, valid).meta, p)
  {
    if msg.PreprepareMsg? {
      CompareIsTotalOrder(p.at, r.meta.latest, msg.preprepare.at);
      CompareIsTotalOrder(p.at, p.at, p.at);
    } else if msg.CatchupRespMsg? {
      CompareIsTotalOrder(p.at, r.meta.cur, msg.next);
    }
  }

  lemma CurateKeepsPreprepare(m: Meta, m': Meta, p: Preprepare)
    requires Curated(m, m') && PreprepareKept(m, p)
    ensures PreprepareKept(m', p)
  {
    if p in m.preprepares && m.preprepare.None? {
      CompareIsTotalOrder(p.at, m.cur, m.cur);
      if m.cur.Before(p.at) {
        assert m'.preprepares[p] == m.preprepares[p];
      } else if p.at == m.cur && p.from.node == m.leader {
        assert Proper(m, p);
      }
    }
  }

  lemma {:induction false} LifeKeepsPreprepare(rs: seq<Replica>, acts: seq<Action>, self: NodeInfo, nodeNum: nat,
      k: nat,
      p: Preprepare)
    requires Life(rs, acts, self, nodeNum) && k < |rs| && Taken(rs, acts, k, p)
    ensures PreprepareKept(rs[k].meta, p)
  {
    var j :| 0 <= j < k && TakenAt(rs, acts, j, p);
    assert ActAt(rs, acts, k - 1);
    if j < k - 1 {
      assert Taken(rs, acts, k - 1, p);
      LifeKeepsPreprepare(rs, acts, self, nodeNum, k - 1, p);
    }
    ActKeepsPreprepare(rs[k - 1], rs[k], acts[k - 1], p);
  }

  /** The latest round a replica knows of is not before that of any preprepare it has taken in, and is
      that of one of them unless it is still the first. */
  lemma {:induction false} LatestIsNewest(rs: seq<Replica>, acts: seq<Action>, self: NodeInfo, nodeNum: nat, k: nat)
    requires Life(rs, acts, self, nodeNum) && k < |rs|
    ensures forall p :: Taken(rs, acts, k, p) ==> !rs[k].meta.latest.Before(p.at)
    ensures rs[k].meta.latest == ViewSeq(0, 0) || exists p :: Taken(rs, acts, k, p) && p.at == rs[k].meta.latest
  {
    forall p | Taken(rs, acts, k, p)
      ensures !rs[k].meta.latest.Before(p.at)
    {
      LifeKeepsPreprepare(rs, acts, self, nodeNum, k, p);
    }
    if k > 0 {
      LatestIsNewest(rs, acts, self, nodeNum, k - 1);
      assert ActAt(rs, acts, k - 1);
      LatestComesFrom(rs, acts, k);
    }
  }

  lemma LatestComesFrom(rs: seq<Replica>, acts: seq<Action>, k: nat)
    requires 0 < k < |rs| == |acts| + 1 && ActAt(rs, acts, k - 1)
    requires rs[k - 1].meta.latest == ViewSeq(0, 0)
      || exists p :: Taken(rs, acts, k - 1, p) && p.at == rs[k - 1].meta.latest
    ensures rs[k].meta.latest == ViewSeq(0, 0) || exists p :: Taken(rs, acts, k, p) && p.at == rs[k].meta.latest
  {
    var a := acts[k - 1];
    if rs[k].meta.latest != rs[k - 1].meta.latest {
      assert TakenAt(rs, acts, k - 1, a.msg.preprepare);
      assert Taken(rs, acts, k, a.msg.preprepare);
    } else if rs[k - 1].meta.latest != ViewSeq(0, 0) {
      var p :| Taken(rs, acts, k - 1, p) && p.at == rs[k - 1].meta.latest;
      var j :| 0 <= j < k - 1 && TakenAt(rs, acts, j, p);
      assert Taken(rs, acts, k, p);
    }
  }

  /** However early a preprepare of the leader came, after curating in its round the replica has settled on
      one. */
  lemma EarlyPreprepareFound(rs: seq<Replica>, acts: seq<Action>, self: NodeInfo, nodeNum: nat, k: nat, p: Preprepare)
    requires Life(rs, acts, self, nodeNum) && 0 < k < |rs| && acts[k - 1] == Curate
    requires Taken(rs, acts, k, p) && Proper(rs[k].meta, p)
    ensures rs[k].meta.preprepare.Some?
  {
    LifeKeepsPreprepare(rs, acts, self, nodeNum, k, p);
    assert ActAt(rs, acts, k - 1);
    CompareIsTotalOrder(p.at, p.at, p.at);
    assert rs[k - 1].meta.preprepare.None? ==> rs[k].meta.preprepares[p] == 0;
  }

  /** What waits is not out of date, and after curating it is for later rounds only. */
  ghost predicate CuratedPool(m: Meta)
  {
    && (m.preprepare.None? ==> m.prepareSet == {})
    && (forall v :: v in m.prepares ==> if m.preprepare.Some? then m.cur.Before(v.at) else !v.at.Before(m.cur))
  }

  /** A catch-up loses no vote of the round it goes to exactly when it goes forward, or stays in a round
      that has no preprepare; the code checks neither. */
  lemma CatchUpLosesNoVoteExactlyWhen(m: Meta, next: ViewSeq)
    requires CuratedPool(m)
    ensures (forall heard :: Accounted(heard, m.prepares, m.prepareSet, m) ==>
      Accounted(heard, m.prepares, {}, CaughtUp(m, next)))
            <==> KeepsRounds(m, next)
  {
    if KeepsRounds(m, next) {
      forall heard | Accounted(heard, m.prepares, m.prepareSet, m)
        ensures Accounted(heard, m.prepares, {}, CaughtUp(m, next))
      {
        MovingOn(heard, m.prepares, m.prepareSet, m, CaughtUp(m, next));
      }
    } else {
      var heard := VoteIsLost(m, next);
    }
  }

  lemma VoteIsLost(m: Meta, next: ViewSeq) returns (heard: set<Vote>)
    requires CuratedPool(m) && !KeepsRounds(m, next)
    ensures Accounted(heard, m.prepares, m.prepareSet, m) && !Accounted(heard, m.prepares, {}, CaughtUp(m, next))
  {
    CompareIsTotalOrder(next, m.cur, next);
    var digest := if m.preprepare.Some? then m.preprepare.value.digest else Forged(0);
    var lost := Vote(if digest == Forged(0) then Forged(1) else Forged(0), next, NodeInfo(0, 0));
    assert lost !in m.prepares;
    heard := (set v | v in m.prepares) + (set p | p in m.prepareSet :: Vote(digest, m.cur, p)) + {lost};
    assert forall p :: p in m.prepareSet ==> Vote(digest, m.cur, p) in heard;
  }
}
