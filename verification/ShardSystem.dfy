/** The whole dynamic relay system as a state machine: one leader per shard, the supervisor, and the
    messages between them. A leader proposes at most one block at a time and its chain state changes
    only when the block commits, which the replicated log of `PbftPrefix` justifies. Messages may be
    delayed and reordered arbitrarily but are neither lost nor duplicated. */
module ShardSystem {
  import opened Types
  import opened Execution
  import opened Migration
  import opened Routing

  /** `universe` is any finite set holding every address that occurs in the run. */
  datatype Config = Config(shardNum: nat, universe: set<Address>)
  {
    ghost predicate Valid()
    {
      0 < shardNum < 0x8000_0000_0000_0000
    }
  }

  datatype Body = TxBlock(txs: seq<Transaction>) | MigrationBlock(states: map<Address, State>)

  /** `captured` and `snapshot` are history: the last epoch the leader sent its accounts out for, and
      its accounts at that moment. */
  datatype Shard = Shard(
    accounts: Accounts,
    loc: map<Address, int>,
    epoch: nat,
    meta: Metadata,
    pool: multiset<Transaction>,
    proposed: Option<Body>,
    captured: nat,
    snapshot: Accounts)

  datatype StartTo = StartTo(dest: nat, msg: StartMsg)

  datatype Report = Report(shard: nat, epoch: nat)

  /** `before` and `moved` are history: the partition before the last repartition and the difference
      it announced. `cleared` counts accounts deleted as empty, `lost` adds up the relay-2 value that
      went down with proposals that failed to execute. */
  datatype System = System(
    shards: seq<Shard>,
    partition: map<Address, int>,
    epoch: nat,
    synced: bool,
    reported: seq<nat>,
    starts: multiset<StartTo>,
    migrations: multiset<MigrationMsg>,
    reports: multiset<Report>,
    txs: multiset<TxTo>,
    before: map<Address, int>,
    moved: map<Address, int>,
    cleared: nat,
    lost: int)

  datatype Step =
    | Inject(tx: Transaction)
    | HandleReport(report: Report, seen: set<Address>)
    | CheckEpochs
    | Repartition(target: map<Address, int>)
    | DeliverStart(start: StartTo)
    | DeliverMigration(msg: MigrationMsg)
    | DeliverTx(to: TxTo)
    | ProposeTxs(at: nat, taken: seq<Transaction>)
    | Capture(at: nat, all: seq<Transaction>)
    | ProposeMigration(at: nat)
    | Commit(at: nat)

  // ---------------------------------------------------------------------------------------------
  // Pieces of steps
  // ---------------------------------------------------------------------------------------------

  /** The states shard `src` sends to shard `dest`. */
  function SentStates(moved: map<Address, int>, loc: map<Address, int>, accounts: Accounts, shardNum: int, src: int,
      dest: int): map<Address, State>
    requires shardNum > 0
  {
    map a | a in moved && LocOf(loc, a, shardNum) == src && moved[a] == dest :: ReadState(accounts, a, src)
  }

  /** One message per destination shard, the own one included. */
  function SentMessages(moved: map<Address, int>, loc: map<Address, int>, accounts: Accounts, shardNum: nat, src: Int64,
      epoch: int, upTo: nat): seq<MigrationMsg>
    requires 0 < shardNum && upTo < 0x8000_0000_0000_0000
  {
    if upTo == 0 then [] else
    SentMessages(moved, loc, accounts, shardNum, src, epoch, upTo - 1)
    + [MigrationMsg(src, upTo - 1, epoch, SentStates(moved, loc, accounts, shardNum, src, upTo - 1))]
  }

  /** Installs the states meant for this shard; the location entries of all moved accounts change. */
  predicate Installable(self: int, states: map<Address, State>)
  {
    forall a :: a in states && states[a].location == self ==> FitsWord(states[a].balance)
  }

  function Install(m: Accounts, self: int, states: map<Address, State>): Accounts
  {
    m + map a | a in states && states[a].location == self :: Account(states[a].balance, states[a].nonce)
  }

  function Relocate(loc: map<Address, int>, states: map<Address, State>): map<Address, int>
  {
    loc + map a | a in states :: states[a].location
  }

  /** The default entries the supervisor adds for accounts it sees for the first time. */
  function SeeVertices(partition: map<Address, int>, shardNum: int, seen: set<Address>): map<Address, int>
    requires shardNum > 0
  {
    partition + map a | a in seen && a !in partition :: DefaultAccountLoc(a, shardNum)
  }

  /** What a repartition announces: the accounts whose shard changed, with the new shard. */
  function Moves(partition: map<Address, int>, target: map<Address, int>): map<Address, int>
  {
    map a | a in partition && a in target && target[a] != partition[a] :: target[a]
  }

  function StartsTo(n: nat, msg: StartMsg): multiset<StartTo>
  {
    if n == 0 then multiset{} else StartsTo(n - 1, msg) + multiset{StartTo(n - 1, msg)}
  }

  // ---------------------------------------------------------------------------------------------
  // Initial states and steps
  // ---------------------------------------------------------------------------------------------

  /** Shards may start with any accounts; locations follow the default rule. */
  ghost predicate Init(c: Config, s: System)
  {
    && |s.shards| == |s.reported| == c.shardNum
    && (forall i :: 0 <= i < |s.shards| ==>
      && var sh := s.shards[i];
      && sh == Shard(sh.accounts, map[], 0, Fresh(), multiset{}, None, 0, map[])
      && NoEmpty(sh.accounts) && WordBalances(sh.accounts))
    && (forall i :: 0 <= i < |s.reported| ==> s.reported[i] == 0)
    && s.partition == s.before == s.moved == map[]
    && s.epoch == 0 && !s.synced
    && s.starts == multiset{} && s.migrations == multiset{} && s.reports == multiset{} && s.txs == multiset{}
    && s.cleared == 0 && s.lost == 0
  }

  ghost predicate WordBalances(m: Accounts)
  {
    forall a :: a in m ==> m[a].balance < UINT256
  }

  ghost predicate Enabled(c: Config, s: System, step: Step)
    requires c.Valid() && |s.shards| == |s.reported| == c.shardNum
  {
    match step
    case Inject(tx) => s.synced && Pooled(c.universe, tx) && tx.relayStage == UNDETERMINED
    case HandleReport(r, seen) => r in s.reports && r.shard < c.shardNum
    case CheckEpochs => true
    case Repartition(target) =>
      s.synced && target.Keys == s.partition.Keys && forall a :: a in target ==> 0 <= target[a] < c.shardNum
    case DeliverStart(t) => t in s.starts && t.dest < c.shardNum
    case DeliverMigration(m) => m in s.migrations && 0 <= m.dest < c.shardNum
    case DeliverTx(t) => t in s.txs && 0 <= t.dest < c.shardNum
    case ProposeTxs(i, taken) =>
      i < c.shardNum && s.shards[i].proposed.None? && !s.shards[i].meta.ready && multiset(taken) <= s.shards[i].pool
    // The own message goes straight into the leader's buffer, which is drained before the next proposal.
    case Capture(i, all) =>
      && i < c.shardNum && s.shards[i].proposed.None? && s.shards[i].meta.ready && i !in s.shards[i].meta.got
      && (forall m :: m in s.migrations ==> !(m.src == i && m.dest == i))
      && multiset(all) <= s.shards[i].pool
    case ProposeMigration(i) =>
      && i < c.shardNum && s.shards[i].proposed.None? && s.shards[i].meta.ready
      && |s.shards[i].meta.got| == c.shardNum && Installable(i, HandOver(s.shards[i].meta))
    case Commit(i) => i < c.shardNum && s.shards[i].proposed.Some?
  }

  ghost function Apply(c: Config, s: System, step: Step): System
    requires c.Valid() && |s.shards| == |s.reported| == c.shardNum && Enabled(c, s, step)
  {
    match step
    case Inject(tx) => s.(txs := s.txs + multiset{TxTo(LocOf(s.partition, tx.sender, c.shardNum), tx)})
    case HandleReport(r, seen) => ApplyHandleReport(c, s, r, seen)
    case CheckEpochs => s.(synced := s.synced || forall i :: 0 <= i < |s.reported| ==> s.reported[i] == s.epoch)
    case Repartition(target) => ApplyRepartition(c, s, target)
    case DeliverStart(t) => ApplyDeliverStart(c, s, t)
    case DeliverMigration(m) => ApplyDeliverMigration(c, s, m)
    case DeliverTx(t) => ApplyDeliverTx(c, s, t)
    case ProposeTxs(i, taken) => ApplyProposeTxs(c, s, i, taken)
    case Capture(i, all) => ApplyCapture(c, s, i, all)
    case ProposeMigration(i) => ApplyProposeMigration(c, s, i)
    case Commit(i) => ApplyCommit(c, s, i)
  }

  function ApplyHandleReport(c: Config, s: System, r: Report, seen: set<Address>): System
    requires c.shardNum > 0 && r.shard < |s.reported|
  {
    s.(reports := s.reports - multiset{r},
       reported := s.reported[r.shard := if s.reported[r.shard] < r.epoch then r.epoch else s.reported[r.shard]],
       partition := SeeVertices(s.partition, c.shardNum, seen))
  }

  function ApplyRepartition(c: Config, s: System, target: map<Address, int>): System
  {
    var moves := Moves(s.partition, target);
    s.(partition := target, before := s.partition, moved := moves, epoch := s.epoch + 1, synced := false,
       starts := s.starts + StartsTo(c.shardNum, StartMsg(s.epoch + 1, moves)))
  }

  function ApplyDeliverStart(c: Config, s: System, t: StartTo): System
    requires t.dest < |s.shards|
  {
    var sh := s.shards[t.dest];
    s.(starts := s.starts - multiset{t},
       shards := s.shards[t.dest := sh.(meta := Start(sh.meta, t.dest, c.shardNum, t.msg))])
  }

  function ApplyDeliverMigration(c: Config, s: System, m: MigrationMsg): System
    requires 0 <= m.dest < |s.shards|
  {
    var sh := s.shards[m.dest];
    s.(migrations := s.migrations - multiset{m},
       shards := s.shards[m.dest := sh.(meta := Collect(sh.meta, m.dest, c.shardNum, m))])
  }

  function ApplyDeliverTx(c: Config, s: System, t: TxTo): System
    requires 0 <= t.dest < |s.shards|
  {
    var sh := s.shards[t.dest];
    s.(txs := s.txs - multiset{t}, shards := s.shards[t.dest := sh.(pool := sh.pool + multiset{t.tx})])
  }

  function ApplyCapture(c: Config, s: System, i: nat, all: seq<Transaction>): System
    requires 0 < c.shardNum < 0x8000_0000_0000_0000 && i < |s.shards| == c.shardNum
  {
    var sh := s.shards[i];
    s.(shards := s.shards[i := sh.(
         pool := sh.pool - multiset(all) + multiset(Kept(sh.meta.moved, all)),
         captured := sh.meta.epoch,
         snapshot := sh.accounts)],
       migrations := s.migrations
         + multiset(SentMessages(sh.meta.moved, sh.loc, sh.accounts, c.shardNum, i, sh.meta.epoch, c.shardNum)),
       txs := s.txs + multiset(Following(sh.meta.moved, all)))
  }

  ghost function ApplyProposeMigration(c: Config, s: System, i: nat): System
    requires i < |s.shards|
  {
    var sh := s.shards[i];
    s.(shards := s.shards[i := sh.(proposed := Some(MigrationBlock(HandOver(sh.meta))))])
  }

  /** Redirected transactions leave before the block is generated, so a block that does not execute
      takes down only the transactions packed into it. */
  ghost function ApplyProposeTxs(c: Config, s: System, i: nat, taken: seq<Transaction>): System
    requires c.Valid() && |s.shards| == c.shardNum && i < c.shardNum
  {
    var sh := s.shards[i];
    var packed := Stay(sh.loc, c.shardNum, i, taken);
    var block := Modify(sh.loc, c.shardNum, i, packed);
    var sent := s.(txs := s.txs + multiset(PassOn(sh.loc, c.shardNum, i, taken)));
    var rest := sh.(pool := sh.pool - multiset(taken));
    if ExecTxs(sh.accounts, sh.loc, c.shardNum, i, block).Some?
    then sent.(shards := s.shards[i := rest.(proposed := Some(TxBlock(block)))])
    else sent.(shards := s.shards[i := rest], lost := s.lost + InValues(packed))
  }

  ghost function ApplyCommit(c: Config, s: System, i: nat): System
    requires c.Valid() && |s.shards| == c.shardNum && i < c.shardNum && s.shards[i].proposed.Some?
  {
    var sh := s.shards[i];
    match sh.proposed.value
    case TxBlock(txs) =>
      (match ExecTxs(sh.accounts, sh.loc, c.shardNum, i, txs)
       case None => s
       case Some(m) =>
         s.(shards := s.shards[i := sh.(accounts := ClearEmpty(m), proposed := None)],
            txs := s.txs + multiset(Relayed(sh.loc, c.shardNum, txs)),
            reports := s.reports + multiset{Report(i, sh.epoch)},
            cleared := s.cleared + |Emptied(c.universe, m)|))
    case MigrationBlock(states) =>
      var m := Install(sh.accounts, i, states);
      s.(shards := s.shards[i := sh.(
           accounts := ClearEmpty(m),
           loc := Relocate(sh.loc, states),
           proposed := None,
           epoch := sh.meta.epoch,
           meta := Reset(sh.meta))],
         cleared := s.cleared + |Emptied(c.universe, m)|)
  }

  ghost predicate Next(c: Config, s: System, s': System, step: Step)
  {
    && c.Valid() && |s.shards| == |s.reported| == c.shardNum
    && Enabled(c, s, step)
    && s' == Apply(c, s, step)
  }
}
