/** The entities of the subgraph, the shape of every contract read the
    handlers make, and the entity store the handlers load from and save to. */
module Schema {
  import opened Helpers

  type Address = Bytes

  datatype Block = Block(number: nat, timestamp: nat)

  /** What every event carries besides its payload: the emitting contract,
      the transaction hash, the transaction sender and the block. */
  datatype EventContext = EventContext(address: Address, txHash: Bytes, from: Address, block: Block)

  // ---------------------------------------------------------------------
  // Contract reads. Each handler sees the chain as one immutable view.
  // ---------------------------------------------------------------------

  /** `Vault.tokens(x)`: token, price feed, feed precision, denominator. */
  datatype TokenData = TokenData(token: Address, priceFeed: Address, priceFeedPrecision: int, denominator: int)

  datatype ConfigProps = ConfigProps(paused: bool, verified: bool, name: string, description: string)

  datatype ConstantProps = ConstantProps(factory: Address, createdAt: int, share: Address)

  datatype FeesProps = FeesProps(
    beneficiary: Address,
    exitFees: int,
    managementFeesRate: int,
    managementFeesToStrategist: int,
    performanceFeesRate: int,
    performanceFeesToStrategist: int)

  datatype HistoryProps = HistoryProps(highWaterMark: int, prevRebalanceSignals: int, prevSwap: int, prevMngHarvest: int)

  datatype SecurityProps = SecurityProps(
    maxAUM: int,
    maxLossSwap: int,
    minAmountDeposit: int,
    maxAmountDeposit: int,
    minFrequencySwap: int,
    minSecurityTime: int,
    minHarvestThreshold: int)

  /** `Vault.getVaultStatus()`: positions (also the recorded signals), TVL, share price. */
  datatype VaultStatus = VaultStatus(positions: seq<int>, tvl: int, sharePrice: int)

  /** The five property groups of a vault, as its getters return them. */
  datatype VaultProps = VaultProps(
    config: ConfigProps,
    constant: ConstantProps,
    fees: FeesProps,
    history: HistoryProps,
    security: SecurityProps)

  /** Everything read from one vault contract. */
  datatype VaultReads = VaultReads(
    tokensLength: nat,
    tokenAt: nat -> TokenData,
    props: VaultProps,
    status: VaultStatus,
    managementFees: int,      // getManagementFees().value0
    performanceFees: int,     // getPerformanceFees().value0
    balances: seq<int>,       // getVaultBalances()
    latestPrice: Address -> int)

  /** `Factory.getRolesPerVault(vault)`, fields value1 to value3. */
  datatype VaultRoles = VaultRoles(admins: seq<Address>, strategists: seq<Address>, harvesters: seq<Address>)

  /** `Factory.getVaultState(vault)`, fields value6 to value10 (the pending
      fee pair split in two). */
  datatype VaultState = VaultState(
    balances: seq<int>,
    positions: seq<int>,
    tvl: int,
    sharePrice: int,
    ongoingManagementFees: int,
    ongoingPerformanceFees: int)

  /** The chain as the handlers see it while handling one event or block. */
  datatype ChainView = ChainView(
    whitelistedTokens: seq<Address>,
    feesManager: Address,
    accessManager: Address,
    harvester: Address,
    swapRouter: Address,
    swapProxy: Address,
    swapAdapter: Address,
    rolesPerVault: Address -> VaultRoles,
    vaultState: Address -> VaultState,
    factoryVaults: seq<Address>,    // getFactoryState().value0
    vaultAt: Address -> VaultReads)

  // ---------------------------------------------------------------------
  // Entities
  // ---------------------------------------------------------------------

  datatype Factory = Factory(
    id: string,
    vaultCount: nat,
    tokens: seq<Address>,
    feesManager: Address,
    accessManager: Address,
    harvester: Address,
    swapRouter: Address,
    swapProxy: Address,
    swapAdapter: Address,
    lastSnapshotBlockTimestamp: nat,
    lastSnapshotBlockNumber: nat)

  /** The fee accumulators and activity counters of a vault: the only
      fields the vault handlers add to. */
  datatype VaultActivity = VaultActivity(
    accManagementFeesToDAO: nat,
    accPerformanceFeesToDAO: nat,
    accManagementFeesToStrategists: nat,
    accPerformanceFeesToStrategists: nat,
    depositsCount: nat,
    rebalancesCount: nat,
    redemptionsCount: nat)

  /** The token table of a vault, one column per field of `Vault.tokens(x)`. */
  datatype TokenTable = TokenTable(
    tokens: seq<Address>,
    tokensPriceFeedAddress: seq<Address>,
    tokensPriceFeedPrecision: seq<int>,
    tokensDenominator: seq<int>)

  /** A vault record. The flat fields of the entity are kept in the groups
      they are read or updated in: the token table, the roles, the property
      groups and the state come from the chain on every resync; the activity
      group only ever grows. */
  datatype Vault = Vault(
    id: string,
    factory: string,
    vault: Address,
    creator: Address,
    shareTransferability: bool,
    activity: VaultActivity,
    table: TokenTable,
    roles: VaultRoles,
    props: VaultProps,
    state: VaultState)

  datatype Deposit = Deposit(
    id: string,
    vault: string,
    from: Address,
    sharesMinted: nat,
    baseTokenAmountIn: nat,
    timestamp: nat,
    sharePriceAfter: int)

  datatype Rebalance = Rebalance(
    id: string,
    vault: string,
    from: Address,
    currentSignals: seq<int>,
    desiredSignals: seq<int>,
    timestamp: nat,
    recordedSignals: seq<int>,
    sharePriceAfter: int)

  datatype Redeem = Redeem(
    id: string,
    vault: string,
    from: Address,
    shareBurned: nat,
    amountReceived: nat,
    timestamp: nat,
    sharePriceAfter: int)

  /** A management-fee or performance-fee harvest record (the two entities
      have the same fields). */
  datatype FeesHarvest = FeesHarvest(
    id: string,
    vault: string,
    from: Address,
    amountToDAO: nat,
    amountToStrategist: nat,
    timestamp: nat)

  datatype VaultSnapshot = VaultSnapshot(
    id: string,
    factory: string,
    vault: string,
    assetsBalances: seq<int>,
    assetsPrices: seq<int>,
    tokens: seq<Address>,
    positions: seq<int>,
    tvl: int,
    sharePrice: int,
    pendingPerfFees: int,
    pendingMngFees: int,
    timestamp: nat,
    triggeredByEvent: bool)

  /** The four token-parallel sequences of a vault have one length. */
  predicate TokensAligned(t: TokenTable) {
    |t.tokensPriceFeedAddress| == |t.tokens| &&
    |t.tokensPriceFeedPrecision| == |t.tokens| &&
    |t.tokensDenominator| == |t.tokens|
  }

  /** Row `x` of an aligned token table. */
  function TokenRow(t: TokenTable, x: nat): TokenData
    requires TokensAligned(t) && x < |t.tokens|
  {
    TokenData(t.tokens[x], t.tokensPriceFeedAddress[x], t.tokensPriceFeedPrecision[x], t.tokensDenominator[x])
  }

  // ---------------------------------------------------------------------
  // The entity store
  // ---------------------------------------------------------------------

  /** Everything the store holds, one map per entity type plus the set of
      vault addresses registered as dynamic data sources. */
  datatype StoreState = StoreState(
    factories: map<string, Factory>,
    vaults: map<string, Vault>,
    deposits: map<string, Deposit>,
    rebalances: map<string, Rebalance>,
    redeems: map<string, Redeem>,
    managementHarvests: map<string, FeesHarvest>,
    performanceHarvests: map<string, FeesHarvest>,
    snapshots: map<string, VaultSnapshot>,
    templates: set<Address>)

  function EmptyStore(): StoreState {
    StoreState(map[], map[], map[], map[], map[], map[], map[], map[], {})
  }

  /** The factory sits only under the factory address, with that id. */
  predicate FactoriesWellformed(m: map<string, Factory>) {
    forall k :: k in m ==> k == FACTORY_ADDRESS && m[k].id == k
  }

  /** Every vault sits under its own id, and its token sequences are aligned. */
  predicate VaultsWellformed(m: map<string, Vault>) {
    forall k :: k in m ==> m[k].id == k && TokensAligned(m[k].table)
  }

  /** Every activity record sits under its own id. */
  predicate RecordsWellformed(st: StoreState) {
    && (forall k :: k in st.deposits ==> st.deposits[k].id == k)
    && (forall k :: k in st.rebalances ==> st.rebalances[k].id == k)
    && (forall k :: k in st.redeems ==> st.redeems[k].id == k)
    && (forall k :: k in st.managementHarvests ==> st.managementHarvests[k].id == k)
    && (forall k :: k in st.performanceHarvests ==> st.performanceHarvests[k].id == k)
  }

  /** Every snapshot sits under its own id and has one price per token. */
  predicate SnapshotsWellformed(m: map<string, VaultSnapshot>) {
    forall k :: k in m ==> m[k].id == k && |m[k].assetsPrices| == |m[k].tokens|
  }

  /** The store's invariant. */
  predicate Wellformed(st: StoreState) {
    FactoriesWellformed(st.factories) && VaultsWellformed(st.vaults) && RecordsWellformed(st) &&
    SnapshotsWellformed(st.snapshots)
  }

  /** The host's entity store: `load` is a map lookup, `save` a map update. */
  class Store {
    var factories: map<string, Factory>
    var vaults: map<string, Vault>
    var deposits: map<string, Deposit>
    var rebalances: map<string, Rebalance>
    var redeems: map<string, Redeem>
    var managementHarvests: map<string, FeesHarvest>
    var performanceHarvests: map<string, FeesHarvest>
    var snapshots: map<string, VaultSnapshot>
    var templates: set<Address>

    function State(): StoreState
      reads this
    {
      StoreState(factories, vaults, deposits, rebalances, redeems,
                 managementHarvests, performanceHarvests, snapshots, templates)
    }

    predicate Valid()
      reads this
    {
      Wellformed(State())
    }

    constructor ()
      ensures Valid() && State() == EmptyStore()
    {
      factories, vaults, deposits, rebalances, redeems := map[], map[], map[], map[], map[];
      managementHarvests, performanceHarvests, snapshots, templates := map[], map[], map[], {};
    }
  }
}
