/** The factory handlers (src/mappings/factory.ts): lazy creation of the
    factory record, vault creation, the full resync of a vault from the
    chain, snapshot construction, the factory configuration handlers and
    the periodic block handler with its one-hour gate. */
module FactoryMappings {
  import opened Helpers
  import opened Schema

  /** The factory's `VaultCreated` event; only the new vault's address is used. */
  datatype VaultCreated = VaultCreated(ctx: EventContext, vault: Address)

  /** The configuration events of the factory contract. */
  datatype FactoryConfigEvent =
    | SetAccessManager(newAccessManager: Address)
    | SetFeesManager(newFeesManager: Address)
    | SetHarvester(newHarvester: Address)
    | SetSwapContracts(newSwapProxy: Address, newSwapRouter: Address)
    | AddTokensAndPriceFeeds
    | RemoveTokensAndPriceFeeds
    | SetSwapAdapter(newSwapAdapter: Address)
    | OwnershipTransferred

  // ---------------------------------------------------------------------
  // Specification functions
  // ---------------------------------------------------------------------

  /** The factory record built on the first vault creation: global
      configuration read from the factory contract, a zero vault count and
      the watermark set to the triggering block. */
  function CreatedFactory(cv: ChainView, block: Block): (f: Factory)
    ensures f.id == FACTORY_ADDRESS && f.vaultCount == 0
    ensures f.lastSnapshotBlockTimestamp == block.timestamp && f.lastSnapshotBlockNumber == block.number
  {
    Factory(FACTORY_ADDRESS, 0, cv.whitelistedTokens, cv.feesManager, cv.accessManager, cv.harvester,
            cv.swapRouter, cv.swapProxy, cv.swapAdapter, block.timestamp, block.number)
  }

  /** The token table a vault reports: row `x` is `tokens(x)` for every
      `x < tokensLength()`. */
  function TableOf(onChain: VaultReads): (t: TokenTable)
    ensures TokensAligned(t) && |t.tokens| == onChain.tokensLength
    ensures forall x :: 0 <= x < |t.tokens| ==> TokenRow(t, x) == onChain.tokenAt(x)
  {
    TokenTable(seq(onChain.tokensLength, x requires 0 <= x => onChain.tokenAt(x).token),
               seq(onChain.tokensLength, x requires 0 <= x => onChain.tokenAt(x).priceFeed),
               seq(onChain.tokensLength, x requires 0 <= x => onChain.tokenAt(x).priceFeedPrecision),
               seq(onChain.tokensLength, x requires 0 <= x => onChain.tokenAt(x).denominator))
  }

  /** The vault fields that a resync never writes, apart from the activity
      group. */
  predicate SameIdentity(v: Vault, w: Vault) {
    v.id == w.id && v.factory == w.factory && v.vault == w.vault && v.creator == w.creator &&
    v.shareTransferability == w.shareTransferability
  }

  /** The address `updateVault` reads a vault's contracts at: the one its
      id spells. */
  function ChainAddress(v: Vault): Address {
    FromHexString(v.id)
  }

  /** `updateVault`: every field backed by a contract read is overwritten
      from the chain, read at the address the vault's id spells. */
  function Resynced(v: Vault, cv: ChainView): (r: Vault)
    ensures SameIdentity(v, r) && r.activity == v.activity
    ensures TokensAligned(r.table)
  {
    var onChain := cv.vaultAt(ChainAddress(v));
    v.(table := TableOf(onChain),
       roles := cv.rolesPerVault(ChainAddress(v)),
       props := onChain.props,
       state := cv.vaultState(ChainAddress(v)))
  }

  /** A resynced vault holds the vault contract's token table row by row,
      its property groups, and the roles and state the factory reports for
      it. */
  lemma ResyncedReads(v: Vault, cv: ChainView)
    ensures var r, onChain := Resynced(v, cv), cv.vaultAt(ChainAddress(v));
      && |r.table.tokens| == onChain.tokensLength
      && (forall x :: 0 <= x < |r.table.tokens| ==> TokenRow(r.table, x) == onChain.tokenAt(x))
      && r.roles == cv.rolesPerVault(ChainAddress(v))
      && r.props == onChain.props
      && r.state == cv.vaultState(ChainAddress(v))
  {
  }

  /** A vault reflects the chain when a resync would not change it. */
  predicate Reflects(v: Vault, cv: ChainView) {
    Resynced(v, cv) == v
  }

  /** A resync depends only on the fields it does not write: whatever a
      handler patched into the other fields beforehand is overwritten. */
  lemma ResyncOverwrites(v: Vault, w: Vault, cv: ChainView)
    requires SameIdentity(v, w) && v.activity == w.activity
    ensures Resynced(v, cv) == Resynced(w, cv)
  {
  }

  /** With the chain unchanged, a second resync changes nothing. */
  lemma ResyncIdempotent(v: Vault, cv: ChainView)
    ensures Reflects(Resynced(v, cv), cv)
  {
    ResyncOverwrites(Resynced(v, cv), v, cv);
  }

  /** The fresh vault record of `_createVault`, before its first resync:
      zeroed counters and accumulators, transfers of shares disabled. Fields
      the resync writes are left at placeholder values. */
  function VaultShell(e: VaultCreated, factoryId: string): (v: Vault)
    ensures v.id == ToHexString(e.vault) && v.factory == factoryId && v.vault == e.vault
    ensures v.creator == e.ctx.from && !v.shareTransferability && v.activity == NoActivity()
  {
    Vault(ToHexString(e.vault), factoryId, e.vault, e.ctx.from, false,
          NoActivity(),
          TokenTable([], [], [], []),
          VaultRoles([], [], []),
          VaultProps(ConfigProps(false, false, "", ""),
                     ConstantProps([], 0, []),
                     FeesProps([], 0, 0, 0, 0, 0),
                     HistoryProps(0, 0, 0, 0),
                     SecurityProps(0, 0, 0, 0, 0, 0, 0)),
          VaultState([], [], 0, 0, 0, 0))
  }

  /** Zeroed accumulators and counters. */
  function NoActivity(): VaultActivity {
    VaultActivity(0, 0, 0, 0, 0, 0, 0)
  }

  /** `handleCreateVault`: creates the factory when absent, counts the new
      vault, stores it (resynced) under the hex of its address and registers
      the address as a data source. Records are saved under their own ids. */
  function CreateVaultStep(st: StoreState, cv: ChainView, e: VaultCreated): (r: StoreState)
    ensures r == st.(factories := r.factories, vaults := r.vaults, templates := r.templates)
    ensures st.vaults.Keys <= r.vaults.Keys && st.templates <= r.templates
  {
    var f := CountedFactory(st.factories, cv, e.ctx.block);
    var v := Resynced(VaultShell(e, f.id), cv);
    st.(factories := st.factories[f.id := f],
        vaults := st.vaults[v.id := v],
        templates := st.templates + {e.vault})
  }

  /** The factory as vault creation saves it: loaded, or created on the
      first vault, with one more vault counted. */
  function CountedFactory(factories: map<string, Factory>, cv: ChainView, block: Block): Factory {
    var f := if FACTORY_ADDRESS in factories then factories[FACTORY_ADDRESS] else CreatedFactory(cv, block);
    f.(vaultCount := f.vaultCount + 1)
  }

  /** Vault creation counts one more vault; the first one creates the
      factory with a count of one and the watermark at the event's block. */
  lemma CreateVaultCounts(st: StoreState, cv: ChainView, e: VaultCreated)
    requires FactoriesWellformed(st.factories)
    ensures var r := CreateVaultStep(st, cv, e);
      && r.factories.Keys == {FACTORY_ADDRESS}
      && (FACTORY_ADDRESS !in st.factories ==>
            var f := r.factories[FACTORY_ADDRESS];
            && f.vaultCount == 1
            && f.lastSnapshotBlockTimestamp == e.ctx.block.timestamp
            && f.lastSnapshotBlockNumber == e.ctx.block.number
            && f.tokens == cv.whitelistedTokens
            && f.feesManager == cv.feesManager && f.accessManager == cv.accessManager
            && f.harvester == cv.harvester && f.swapRouter == cv.swapRouter
            && f.swapProxy == cv.swapProxy && f.swapAdapter == cv.swapAdapter)
      && (FACTORY_ADDRESS in st.factories ==>
            var f := st.factories[FACTORY_ADDRESS];
            r.factories[FACTORY_ADDRESS] == f.(vaultCount := f.vaultCount + 1))
  {
  }

  /** Vault creation stores a zeroed vault under the hex of the new address,
      linked to the factory it was counted in and resynced from the chain,
      registers the address, and touches nothing else. */
  lemma CreateVaultRecord(st: StoreState, cv: ChainView, e: VaultCreated)
    ensures var r := CreateVaultStep(st, cv, e);
      var k := ToHexString(e.vault);
      && k in r.vaults
      && r.vaults.Keys == st.vaults.Keys + {k}
      && (forall k' :: k' in st.vaults && k' != k ==> r.vaults[k'] == st.vaults[k'])
      && r.vaults[k].vault == e.vault && r.vaults[k].creator == e.ctx.from
      && r.vaults[k].factory == CountedFactory(st.factories, cv, e.ctx.block).id
      && (FactoriesWellformed(st.factories) ==> r.vaults[k].factory == FACTORY_ADDRESS)
      && !r.vaults[k].shareTransferability
      && r.vaults[k].activity == NoActivity()
      && Reflects(r.vaults[k], cv)
      && r.templates == st.templates + {e.vault}
      && r == st.(factories := r.factories, vaults := r.vaults, templates := r.templates)
  {
    ResyncIdempotent(VaultShell(e, CountedFactory(st.factories, cv, e.ctx.block).id), cv);
  }

  lemma CreateVaultKeepsWellformed(st: StoreState, cv: ChainView, e: VaultCreated)
    requires Wellformed(st)
    ensures Wellformed(CreateVaultStep(st, cv, e))
  {
    var r := CreateVaultStep(st, cv, e);
    assert r.factories[FACTORY_ADDRESS].id == FACTORY_ADDRESS;
    assert VaultsWellformed(r.vaults);
  }

  /** `newSnapshot`: the point-in-time record of one vault at one block,
      read from the vault contract. As written in the source, the pending
      management fees are stored as `pendingPerfFees` and the pending
      performance fees as `pendingMngFees`. */
  function SnapshotOf(factoryId: string, cv: ChainView, vault: Address, block: Block, triggeredByEvent: bool)
    : (s: VaultSnapshot)
    ensures s.id == SnapshotId(vault, block.number) && s.vault == ToHexString(vault)
    ensures |s.tokens| == |s.assetsPrices| == cv.vaultAt(vault).tokensLength
    ensures forall y :: 0 <= y < |s.tokens| ==>
      var t := cv.vaultAt(vault).tokenAt(y);
      s.tokens[y] == t.token && s.assetsPrices[y] == cv.vaultAt(vault).latestPrice(t.priceFeed)
    ensures s.pendingPerfFees == cv.vaultAt(vault).managementFees
    ensures s.pendingMngFees == cv.vaultAt(vault).performanceFees
    ensures s.timestamp == block.timestamp && s.triggeredByEvent == triggeredByEvent
    ensures s.factory == factoryId && s.assetsBalances == cv.vaultAt(vault).balances
    ensures s.positions == cv.vaultAt(vault).status.positions
    ensures s.tvl == cv.vaultAt(vault).status.tvl && s.sharePrice == cv.vaultAt(vault).status.sharePrice
  {
    var onChain := cv.vaultAt(vault);
    VaultSnapshot(SnapshotId(vault, block.number), factoryId, ToHexString(vault), onChain.balances,
                  seq(onChain.tokensLength, y requires 0 <= y => onChain.latestPrice(onChain.tokenAt(y).priceFeed)),
                  TableOf(onChain).tokens,
                  onChain.status.positions, onChain.status.tvl, onChain.status.sharePrice,
                  onChain.managementFees, onChain.performanceFees,
                  block.timestamp, triggeredByEvent)
  }

  /** The factory after one configuration event. */
  function Configured(f: Factory, cv: ChainView, e: FactoryConfigEvent): Factory {
    match e
    case SetAccessManager(a) => f.(accessManager := a)
    case SetFeesManager(a) => f.(feesManager := a)
    case SetHarvester(a) => f.(harvester := a)
    case SetSwapContracts(proxy, router) => f.(swapProxy := proxy, swapRouter := router)
    case AddTokensAndPriceFeeds => f.(tokens := cv.whitelistedTokens)
    case RemoveTokensAndPriceFeeds => f.(tokens := cv.whitelistedTokens)
    case SetSwapAdapter(a) => f.(swapAdapter := a)
    case OwnershipTransferred => f
  }

  /** The factory configuration handlers: a no-op without a factory (and
      for an ownership transfer, which stores nothing); otherwise the factory
      is saved back with the event's field(s) changed. */
  function FactoryConfigStep(st: StoreState, cv: ChainView, e: FactoryConfigEvent): (r: StoreState)
    ensures FACTORY_ADDRESS !in st.factories || e.OwnershipTransferred? ==> r == st
    ensures r == st.(factories := r.factories)
  {
    if FACTORY_ADDRESS !in st.factories || e.OwnershipTransferred? then st
    else
      var f := st.factories[FACTORY_ADDRESS];
      st.(factories := st.factories[f.id := Configured(f, cv, e)])
  }

  /** A configuration event changes exactly the field(s) it names and keeps
      the count and the watermark. */
  lemma FactoryConfigChanges(st: StoreState, cv: ChainView, e: FactoryConfigEvent)
    requires FactoriesWellformed(st.factories)
    ensures var r := FactoryConfigStep(st, cv, e);
      && r.factories.Keys == st.factories.Keys
      && (FACTORY_ADDRESS in st.factories ==>
            var f, g := st.factories[FACTORY_ADDRESS], r.factories[FACTORY_ADDRESS];
            && g.id == f.id && g.vaultCount == f.vaultCount
            && g.lastSnapshotBlockTimestamp == f.lastSnapshotBlockTimestamp
            && g.lastSnapshotBlockNumber == f.lastSnapshotBlockNumber
            && g.accessManager == (if e.SetAccessManager? then e.newAccessManager else f.accessManager)
            && g.feesManager == (if e.SetFeesManager? then e.newFeesManager else f.feesManager)
            && g.harvester == (if e.SetHarvester? then e.newHarvester else f.harvester)
            && g.swapProxy == (if e.SetSwapContracts? then e.newSwapProxy else f.swapProxy)
            && g.swapRouter == (if e.SetSwapContracts? then e.newSwapRouter else f.swapRouter)
            && g.swapAdapter == (if e.SetSwapAdapter? then e.newSwapAdapter else f.swapAdapter)
            && g.tokens == (if e.AddTokensAndPriceFeeds? || e.RemoveTokensAndPriceFeeds? then cv.whitelistedTokens
                            else f.tokens))
  {
  }

  lemma FactoryConfigKeepsWellformed(st: StoreState, cv: ChainView, e: FactoryConfigEvent)
    requires Wellformed(st)
    ensures Wellformed(FactoryConfigStep(st, cv, e))
  {
    if FACTORY_ADDRESS in st.factories && !e.OwnershipTransferred? {
      assert FactoryConfigStep(st, cv, e).factories.Keys == st.factories.Keys;
    }
  }

  /** `snapshotOrNot`: true means skip. Without a factory the answer is
      false; otherwise a block skips while at most one hour of chain time has
      passed since the watermark. */
  function SnapshotOrNot(st: StoreState, block: Block): (skip: bool)
    ensures FACTORY_ADDRESS !in st.factories ==> !skip
    ensures FACTORY_ADDRESS in st.factories ==>
      (skip <==> block.timestamp <= st.factories[FACTORY_ADDRESS].lastSnapshotBlockTimestamp + SNAPSHOT_TIMEFRAME)
  {
    if FACTORY_ADDRESS !in st.factories then false
    else
      var elapsedTime := block.timestamp - st.factories[FACTORY_ADDRESS].lastSnapshotBlockTimestamp;
      elapsedTime <= SNAPSHOT_TIMEFRAME
  }

  /** The ids of the periodic snapshots a tick writes for `vaults`. */
  function TickIds(vaults: seq<Address>, block: Block): set<string> {
    set a | a in vaults :: SnapshotId(a, block.number)
  }

  /** The snapshot map after the tick has written a periodic snapshot for
      each address of `vaults`, in order. */
  function TickSnapshots(snaps: map<string, VaultSnapshot>, factoryId: string, cv: ChainView,
                         vaults: seq<Address>, block: Block): (r: map<string, VaultSnapshot>)
    ensures snaps.Keys <= r.Keys
    decreases |vaults|
  {
    if vaults == [] then snaps
    else
      var last := vaults[|vaults| - 1];
      var prev := TickSnapshots(snaps, factoryId, cv, vaults[..|vaults| - 1], block);
      prev[SnapshotId(last, block.number) := SnapshotOf(factoryId, cv, last, block, false)]
  }

  lemma TickIdsSnoc(init: seq<Address>, last: Address, block: Block)
    ensures TickIds(init + [last], block) == TickIds(init, block) + {SnapshotId(last, block.number)}
  {
    assert forall a :: a in init + [last] <==> a in init || a == last;
  }

  /** The tick adds exactly one snapshot id per listed address. */
  lemma {:induction false} TickSnapshotsKeys(snaps: map<string, VaultSnapshot>, factoryId: string, cv: ChainView,
                                             vaults: seq<Address>, block: Block)
    ensures TickSnapshots(snaps, factoryId, cv, vaults, block).Keys == snaps.Keys + TickIds(vaults, block)
    decreases |vaults|
  {
    if vaults != [] {
      var init := vaults[..|vaults| - 1];
      assert vaults == init + [vaults[|vaults| - 1]];
      TickIdsSnoc(init, vaults[|vaults| - 1], block);
      TickSnapshotsKeys(snaps, factoryId, cv, init, block);
    }
  }

  /** Every listed address ends up with its own periodic snapshot for this
      block: distinct addresses never overwrite each other's snapshot. */
  lemma {:induction false} TickSnapshotsWritten(snaps: map<string, VaultSnapshot>, factoryId: string, cv: ChainView,
                                                vaults: seq<Address>, block: Block, a: Address)
    requires a in vaults
    ensures var r := TickSnapshots(snaps, factoryId, cv, vaults, block);
      SnapshotId(a, block.number) in r && r[SnapshotId(a, block.number)] == SnapshotOf(factoryId, cv, a, block, false)
    decreases |vaults|
  {
    var last := vaults[|vaults| - 1];
    var init := vaults[..|vaults| - 1];
    assert vaults == init + [last];
    if a != last {
      SnapshotIdInjective(a, block.number, last, block.number);
      TickSnapshotsWritten(snaps, factoryId, cv, init, block, a);
    }
  }

  /** Snapshots under other ids are left as they were. */
  lemma {:induction false} TickSnapshotsKeeps(snaps: map<string, VaultSnapshot>, factoryId: string, cv: ChainView,
                                              vaults: seq<Address>, block: Block, k: string)
    requires k in snaps && k !in TickIds(vaults, block)
    ensures var r := TickSnapshots(snaps, factoryId, cv, vaults, block);
      k in r && r[k] == snaps[k]
    decreases |vaults|
  {
    if vaults != [] {
      var init := vaults[..|vaults| - 1];
      assert vaults == init + [vaults[|vaults| - 1]];
      TickIdsSnoc(init, vaults[|vaults| - 1], block);
      TickSnapshotsKeeps(snaps, factoryId, cv, init, block, k);
    }
  }

  /** The tick writes one periodic snapshot per listed address, under that
      address's id for this block, and keeps every other snapshot. */
  lemma TickSnapshotsWrites(snaps: map<string, VaultSnapshot>, factoryId: string, cv: ChainView,
                            vaults: seq<Address>, block: Block)
    ensures var r := TickSnapshots(snaps, factoryId, cv, vaults, block);
      && r.Keys == snaps.Keys + TickIds(vaults, block)
      && (forall a :: a in vaults ==> r[SnapshotId(a, block.number)] == SnapshotOf(factoryId, cv, a, block, false))
      && (forall k :: k in snaps && k !in TickIds(vaults, block) ==> r[k] == snaps[k])
  {
    TickSnapshotsKeys(snaps, factoryId, cv, vaults, block);
    forall a | a in vaults
      ensures TickSnapshots(snaps, factoryId, cv, vaults, block)[SnapshotId(a, block.number)]
              == SnapshotOf(factoryId, cv, a, block, false)
    {
      TickSnapshotsWritten(snaps, factoryId, cv, vaults, block, a);
    }
    forall k | k in snaps && k !in TickIds(vaults, block)
      ensures TickSnapshots(snaps, factoryId, cv, vaults, block)[k] == snaps[k]
    {
      TickSnapshotsKeeps(snaps, factoryId, cv, vaults, block, k);
    }
  }

  /** The vault map after the resync of the vault found under `k`, if any,
      saved back under its own id. */
  function ResyncAt(vs: map<string, Vault>, cv: ChainView, k: string): map<string, Vault> {
    if k in vs then
      var updated := Resynced(vs[k], cv);
      vs[updated.id := updated]
    else vs
  }

  /** One more iteration of the tick's loop. */
  lemma TickSnoc(snaps: map<string, VaultSnapshot>, vs: map<string, Vault>, factoryId: string, cv: ChainView,
                 toKey: Address -> string, vaults: seq<Address>, x: nat, block: Block)
    requires x < |vaults|
    ensures TickSnapshots(snaps, factoryId, cv, vaults[..x + 1], block) ==
      TickSnapshots(snaps, factoryId, cv, vaults[..x], block)[SnapshotId(vaults[x], block.number) :=
        SnapshotOf(factoryId, cv, vaults[x], block, false)]
    ensures TickResyncs(vs, cv, toKey, vaults[..x + 1]) ==
      ResyncAt(TickResyncs(vs, cv, toKey, vaults[..x]), cv, toKey(vaults[x]))
  {
    assert vaults[..x + 1][..x] == vaults[..x];
  }

  /** The keys the tick looks vaults up under, one per listed address. */
  function TickKeys(vaults: seq<Address>, toKey: Address -> string): set<string> {
    set a | a in vaults :: toKey(a)
  }

  /** The vault map after the tick has resynced, in order, every vault found
      under `toKey(a)` for an address `a` of `vaults`; a resynced vault is
      saved back under its own id. */
  function TickResyncs(vs: map<string, Vault>, cv: ChainView, toKey: Address -> string,
                       vaults: seq<Address>): (r: map<string, Vault>)
    ensures vs.Keys <= r.Keys
    decreases |vaults|
  {
    if vaults == [] then vs
    else
      ResyncAt(TickResyncs(vs, cv, toKey, vaults[..|vaults| - 1]), cv, toKey(vaults[|vaults| - 1]))
  }

  lemma TickKeysSnoc(init: seq<Address>, last: Address, toKey: Address -> string)
    ensures TickKeys(init + [last], toKey) == TickKeys(init, toKey) + {toKey(last)}
  {
    assert forall a :: a in init + [last] <==> a in init || a == last;
  }

  /** On well-formed vaults, the resync under `k` replaces exactly the vault
      stored under `k`. */
  lemma ResyncAtUpdates(vs: map<string, Vault>, cv: ChainView, k: string)
    requires VaultsWellformed(vs)
    ensures var r := ResyncAt(vs, cv, k);
      && VaultsWellformed(r) && r.Keys == vs.Keys
      && (forall k' :: k' in vs ==> r[k'] == if k' == k then Resynced(vs[k'], cv) else vs[k'])
  {
  }

  /** On well-formed vaults the tick resyncs exactly the vaults stored under
      one of its lookup keys, once however often the key recurs, and adds no
      vault. */
  lemma {:induction false} TickResyncsUpdates(vs: map<string, Vault>, cv: ChainView, toKey: Address -> string,
                                              vaults: seq<Address>)
    requires VaultsWellformed(vs)
    ensures var r := TickResyncs(vs, cv, toKey, vaults);
      && VaultsWellformed(r) && r.Keys == vs.Keys
      && (forall k :: k in vs ==>
            r[k] == if k in TickKeys(vaults, toKey) then Resynced(vs[k], cv) else vs[k])
    decreases |vaults|
  {
    if vaults != [] {
      var last := vaults[|vaults| - 1];
      var init := vaults[..|vaults| - 1];
      assert vaults == init + [last];
      TickKeysSnoc(init, last, toKey);
      TickResyncsUpdates(vs, cv, toKey, init);
      var prev := TickResyncs(vs, cv, toKey, init);
      ResyncAtUpdates(prev, cv, toKey(last));
      if toKey(last) in vs {
        ResyncIdempotent(vs[toKey(last)], cv);
      }
    }
  }

  /** `handleNewBlock`: without a factory, or when the gate says skip,
      nothing is written. Otherwise every address of the factory's vault list
      gets a periodic snapshot, every vault found under the tick's lookup key
      is resynced, and the factory is saved with the watermark at this block. */
  function NewBlockStep(st: StoreState, cv: ChainView, toKey: Address -> string, block: Block): (r: StoreState)
    ensures FACTORY_ADDRESS !in st.factories || SnapshotOrNot(st, block) ==> r == st
    ensures r == st.(factories := r.factories, snapshots := r.snapshots, vaults := r.vaults)
  {
    if FACTORY_ADDRESS !in st.factories || SnapshotOrNot(st, block) then st
    else
      var f := st.factories[FACTORY_ADDRESS];
      st.(snapshots := TickSnapshots(st.snapshots, f.id, cv, cv.factoryVaults, block),
          vaults := TickResyncs(st.vaults, cv, toKey, cv.factoryVaults),
          factories := st.factories[f.id :=
            f.(lastSnapshotBlockTimestamp := block.timestamp, lastSnapshotBlockNumber := block.number)])
  }

  /** A tick that passes the gate snapshots every listed vault, resyncs the
      vaults found under the lookup keys, moves the watermark, and keeps the
      store well formed. */
  lemma NewBlockEffect(st: StoreState, cv: ChainView, toKey: Address -> string, block: Block)
    requires Wellformed(st)
    ensures var r := NewBlockStep(st, cv, toKey, block);
      && Wellformed(r)
      && (FACTORY_ADDRESS in st.factories && !SnapshotOrNot(st, block) ==>
            var f := st.factories[FACTORY_ADDRESS];
            && r.factories == st.factories[FACTORY_ADDRESS :=
                 f.(lastSnapshotBlockTimestamp := block.timestamp, lastSnapshotBlockNumber := block.number)]
            && r.snapshots.Keys == st.snapshots.Keys + TickIds(cv.factoryVaults, block)
            && (forall a :: a in cv.factoryVaults ==>
                  r.snapshots[SnapshotId(a, block.number)] == SnapshotOf(f.id, cv, a, block, false))
            && (forall k :: k in st.snapshots && k !in TickIds(cv.factoryVaults, block) ==>
                  r.snapshots[k] == st.snapshots[k])
            && r.vaults.Keys == st.vaults.Keys
            && (forall k :: k in st.vaults ==>
                  r.vaults[k] == if k in TickKeys(cv.factoryVaults, toKey) then Resynced(st.vaults[k], cv)
                                 else st.vaults[k]))
  {
    if FACTORY_ADDRESS in st.factories && !SnapshotOrNot(st, block) {
      var f := st.factories[FACTORY_ADDRESS];
      TickSnapshotsWrites(st.snapshots, f.id, cv, cv.factoryVaults, block);
      TickResyncsUpdates(st.vaults, cv, toKey, cv.factoryVaults);
      var r := NewBlockStep(st, cv, toKey, block);
      assert SnapshotsWellformed(r.snapshots) by {
        forall k | k in r.snapshots ensures r.snapshots[k].id == k && |r.snapshots[k].assetsPrices| == |r.snapshots[k].tokens| {
          if k !in st.snapshots || k in TickIds(cv.factoryVaults, block) {
            var a :| a in cv.factoryVaults && k == SnapshotId(a, block.number);
          }
        }
      }
    }
  }

  /** The block tick preserves the store invariant. */
  lemma NewBlockKeepsWellformed(st: StoreState, cv: ChainView, toKey: Address -> string, block: Block)
    requires Wellformed(st)
    ensures Wellformed(NewBlockStep(st, cv, toKey, block))
  {
    NewBlockEffect(st, cv, toKey, block);
  }

  // ---------------------------------------------------------------------
  // Contract reads and the loops that copy them
  // ---------------------------------------------------------------------

  /** The element-by-element copies the handlers make of an address
      list read from the chain before storing it. */
  method CopyAddresses(src: seq<Address>) returns (dst: seq<Address>)
    ensures dst == src
  {
    var copy := new Address[|src|];
    var x := 0;
    while x < |src|
      invariant 0 <= x <= |src|
      invariant copy[..x] == src[..x]
    {
      copy[x] := src[x];
      x := x + 1;
    }
    dst := copy[..];
  }

  /** The loop of `updateVault` that reads the token table index by index. */
  method ReadTokenTable(bindedVault: VaultReads) returns (table: TokenTable)
    ensures table == TableOf(bindedVault)
  {
    var tokensLength := bindedVault.tokensLength;
    var tokens := new Address[tokensLength];
    var tokensPriceFeedAddress := new Address[tokensLength];
    var tokensPriceFeedPrecision := new int[tokensLength];
    var tokensDenominator := new int[tokensLength];
    var x := 0;
    while x < tokensLength
      invariant 0 <= x <= tokensLength
      invariant forall k :: 0 <= k < x ==>
        var t := bindedVault.tokenAt(k);
        tokens[k] == t.token && tokensPriceFeedAddress[k] == t.priceFeed &&
        tokensPriceFeedPrecision[k] == t.priceFeedPrecision && tokensDenominator[k] == t.denominator
    {
      var tokenData := bindedVault.tokenAt(x);
      tokens[x] := tokenData.token;
      tokensPriceFeedAddress[x] := tokenData.priceFeed;
      tokensPriceFeedPrecision[x] := tokenData.priceFeedPrecision;
      tokensDenominator[x] := tokenData.denominator;
      x := x + 1;
    }
    table := TokenTable(tokens[..], tokensPriceFeedAddress[..], tokensPriceFeedPrecision[..], tokensDenominator[..]);
  }

  /** The reads of `updateVault`, at the address the vault's id spells. */
  method ReadVault(v: Vault, cv: ChainView) returns (r: Vault)
    ensures r == Resynced(v, cv)
  {
    var vAddress := FromHexString(v.id);
    var bindedVault := cv.vaultAt(vAddress);
    var table := ReadTokenTable(bindedVault);
    var vaultRoles := cv.rolesPerVault(vAddress);
    var admins := CopyAddresses(vaultRoles.admins);
    var strategists := CopyAddresses(vaultRoles.strategists);
    var harvesters := CopyAddresses(vaultRoles.harvesters);
    var configProps := bindedVault.props.config;
    var constantProps := bindedVault.props.constant;
    var feesProps := bindedVault.props.fees;
    var historyProps := bindedVault.props.history;
    var securityProps := bindedVault.props.security;
    var vaultState := cv.vaultState(vAddress);
    r := v.(table := table,
            roles := VaultRoles(admins, strategists, harvesters),
            props := VaultProps(configProps, constantProps, feesProps, historyProps, securityProps),
            state := vaultState);
  }

  /** The reads of `newSnapshot`: one price per token, fetched from the
      token's price feed, index by index. */
  method BuildSnapshot(factoryId: string, cv: ChainView, vaultAddress: Address, block: Block, triggeredByEvent: bool)
    returns (snapshot: VaultSnapshot)
    ensures snapshot == SnapshotOf(factoryId, cv, vaultAddress, block, triggeredByEvent)
  {
    var vault := cv.vaultAt(vaultAddress);
    var entityName := SnapshotId(vaultAddress, block.number);
    var status := vault.status;
    var tokensLength := vault.tokensLength;
    var assetsPrices := new int[tokensLength];
    var newTokens := new Address[tokensLength];
    var y := 0;
    while y < tokensLength
      invariant 0 <= y <= tokensLength
      invariant forall k :: 0 <= k < y ==>
        newTokens[k] == vault.tokenAt(k).token && assetsPrices[k] == vault.latestPrice(vault.tokenAt(k).priceFeed)
    {
      var asset := vault.tokenAt(y);
      var price := vault.latestPrice(asset.priceFeed);
      assetsPrices[y] := price;
      newTokens[y] := asset.token;
      y := y + 1;
    }
    snapshot := VaultSnapshot(entityName, factoryId, ToHexString(vaultAddress), vault.balances,
                              assetsPrices[..], newTokens[..],
                              status.positions, status.tvl, status.sharePrice,
                              vault.managementFees, vault.performanceFees,
                              block.timestamp, triggeredByEvent);
  }

  // ---------------------------------------------------------------------
  // Handlers over the store
  // ---------------------------------------------------------------------

  /** `_createFactory`: builds and saves the factory record. */
  method CreateFactory(s: Store, cv: ChainView, e: VaultCreated) returns (factory: Factory)
    modifies s`factories
    ensures factory == CreatedFactory(cv, e.ctx.block)
    ensures s.factories == old(s.factories)[FACTORY_ADDRESS := factory]
  {
    factory := Factory(FACTORY_ADDRESS, 0, [], [], [], [], [], [], [], 0, 0);
    var tokensArray := CopyAddresses(cv.whitelistedTokens);
    factory := factory.(tokens := tokensArray);
    factory := factory.(feesManager := cv.feesManager, accessManager := cv.accessManager,
                        harvester := cv.harvester, swapRouter := cv.swapRouter,
                        swapProxy := cv.swapProxy, swapAdapter := cv.swapAdapter);
    factory := factory.(lastSnapshotBlockTimestamp := e.ctx.block.timestamp,
                        lastSnapshotBlockNumber := e.ctx.block.number);
    s.factories := s.factories[factory.id := factory];
  }

  /** `updateVault`: resyncs the vault from the chain and saves it. */
  method UpdateVault(s: Store, vault: Vault, cv: ChainView) returns (updated: Vault)
    modifies s`vaults
    ensures updated == Resynced(vault, cv)
    ensures s.vaults == old(s.vaults)[vault.id := updated]
  {
    updated := ReadVault(vault, cv);
    s.vaults := s.vaults[updated.id := updated];
  }

  /** `_createVault`: saves the resynced shell of the new vault. */
  method CreateVault(s: Store, cv: ChainView, e: VaultCreated, factory: Factory) returns (vault: Vault)
    modifies s`vaults
    ensures vault == Resynced(VaultShell(e, factory.id), cv)
    ensures s.vaults == old(s.vaults)[vault.id := vault]
  {
    vault := VaultShell(e, factory.id);
    vault := UpdateVault(s, vault, cv);
    s.vaults := s.vaults[vault.id := vault];
  }

  /** The first lines of `handleCreateVault`: load the factory (creating it
      on the first vault), count the new vault and save the factory. */
  method CountVault(s: Store, cv: ChainView, e: VaultCreated) returns (factory: Factory)
    modifies s`factories
    ensures factory == CountedFactory(old(s.factories), cv, e.ctx.block)
    ensures s.factories == old(s.factories)[factory.id := factory]
  {
    if FACTORY_ADDRESS in s.factories {
      factory := s.factories[FACTORY_ADDRESS];
    } else {
      factory := CreateFactory(s, cv, e);
    }
    factory := factory.(vaultCount := factory.vaultCount + 1);
    s.factories := s.factories[factory.id := factory];
  }

  /** The body of `handleCreateVault`: count the vault, create and save it,
      and register its address. */
  method OnCreateVault(s: Store, cv: ChainView, e: VaultCreated)
    modifies s
    ensures s.State() == CreateVaultStep(old(s.State()), cv, e)
  {
    ghost var st := s.State();
    var factory := CountVault(s, cv, e);
    var vault := CreateVault(s, cv, e, factory);
    s.templates := s.templates + {e.vault};
    s.vaults := s.vaults[vault.id := vault];
    s.factories := s.factories[factory.id := factory];
    CreateVaultStepIs(st, cv, e, factory, vault);
  }

  /** `handleCreateVault` on a well-formed store, which it keeps well formed. */
  method HandleCreateVault(s: Store, cv: ChainView, e: VaultCreated)
    requires s.Valid()
    modifies s
    ensures s.State() == CreateVaultStep(old(s.State()), cv, e)
    ensures s.Valid()
  {
    ghost var before := s.State();
    OnCreateVault(s, cv, e);
    CreateVaultKeepsWellformed(before, cv, e);
  }

  /** The store `handleCreateVault` leaves, given the factory and the vault
      it saves. */
  lemma CreateVaultStepIs(st: StoreState, cv: ChainView, e: VaultCreated, factory: Factory, vault: Vault)
    requires factory == CountedFactory(st.factories, cv, e.ctx.block)
    requires vault == Resynced(VaultShell(e, factory.id), cv)
    ensures CreateVaultStep(st, cv, e) ==
      st.(factories := st.factories[factory.id := factory], vaults := st.vaults[vault.id := vault],
          templates := st.templates + {e.vault})
  {
  }

  /** `newSnapshot`: builds the snapshot and saves it under its id. */
  method NewSnapshot(s: Store, factory: Factory, cv: ChainView, vaultAddress: Address, block: Block,
                     triggeredByEvent: bool)
    modifies s`snapshots
    ensures s.snapshots == old(s.snapshots)[SnapshotId(vaultAddress, block.number) :=
              SnapshotOf(factory.id, cv, vaultAddress, block, triggeredByEvent)]
  {
    var snapshot := BuildSnapshot(factory.id, cv, vaultAddress, block, triggeredByEvent);
    s.snapshots := s.snapshots[snapshot.id := snapshot];
  }

  /** The handlers of the factory configuration events. */
  method HandleSetAccessManager(s: Store, cv: ChainView, newAccessManager: Address)
    requires s.Valid()
    modifies s
    ensures s.State() == FactoryConfigStep(old(s.State()), cv, SetAccessManager(newAccessManager))
    ensures s.Valid()
  {
    ghost var before := s.State();
    if FACTORY_ADDRESS !in s.factories { return; }
    var factory := s.factories[FACTORY_ADDRESS];
    factory := factory.(accessManager := newAccessManager);
    s.factories := s.factories[factory.id := factory];
    FactoryConfigKeepsWellformed(before, cv, SetAccessManager(newAccessManager));
  }

  method HandleSetFeesManager(s: Store, cv: ChainView, newFeesManager: Address)
    requires s.Valid()
    modifies s
    ensures s.State() == FactoryConfigStep(old(s.State()), cv, SetFeesManager(newFeesManager))
    ensures s.Valid()
  {
    ghost var before := s.State();
    if FACTORY_ADDRESS !in s.factories { return; }
    var factory := s.factories[FACTORY_ADDRESS];
    factory := factory.(feesManager := newFeesManager);
    s.factories := s.factories[factory.id := factory];
    FactoryConfigKeepsWellformed(before, cv, SetFeesManager(newFeesManager));
  }

  method HandleSetHarvester(s: Store, cv: ChainView, newHarvester: Address)
    requires s.Valid()
    modifies s
    ensures s.State() == FactoryConfigStep(old(s.State()), cv, SetHarvester(newHarvester))
    ensures s.Valid()
  {
    ghost var before := s.State();
    if FACTORY_ADDRESS !in s.factories { return; }
    var factory := s.factories[FACTORY_ADDRESS];
    factory := factory.(harvester := newHarvester);
    s.factories := s.factories[factory.id := factory];
    FactoryConfigKeepsWellformed(before, cv, SetHarvester(newHarvester));
  }

  method HandleSetSwapContracts(s: Store, cv: ChainView, newSwapProxy: Address, newSwapRouter: Address)
    requires s.Valid()
    modifies s
    ensures s.State() == FactoryConfigStep(old(s.State()), cv, SetSwapContracts(newSwapProxy, newSwapRouter))
    ensures s.Valid()
  {
    ghost var before := s.State();
    if FACTORY_ADDRESS !in s.factories { return; }
    var factory := s.factories[FACTORY_ADDRESS];
    factory := factory.(swapProxy := newSwapProxy);
    factory := factory.(swapRouter := newSwapRouter);
    s.factories := s.factories[factory.id := factory];
    FactoryConfigKeepsWellformed(before, cv, SetSwapContracts(newSwapProxy, newSwapRouter));
  }

  method HandleAddTokensAndPriceFeeds(s: Store, cv: ChainView)
    requires s.Valid()
    modifies s
    ensures s.State() == FactoryConfigStep(old(s.State()), cv, AddTokensAndPriceFeeds)
    ensures s.Valid()
  {
    ghost var before := s.State();
    if FACTORY_ADDRESS !in s.factories { return; }
    var factory := s.factories[FACTORY_ADDRESS];
    var currentTokens := cv.whitelistedTokens;
    var tmp := CopyAddresses(currentTokens);
    factory := factory.(tokens := tmp);
    s.factories := s.factories[factory.id := factory];
    FactoryConfigKeepsWellformed(before, cv, AddTokensAndPriceFeeds);
  }

  method HandleRemoveTokensAndPriceFeeds(s: Store, cv: ChainView)
    requires s.Valid()
    modifies s
    ensures s.State() == FactoryConfigStep(old(s.State()), cv, RemoveTokensAndPriceFeeds)
    ensures s.Valid()
  {
    ghost var before := s.State();
    if FACTORY_ADDRESS !in s.factories { return; }
    var factory := s.factories[FACTORY_ADDRESS];
    var currentTokens := cv.whitelistedTokens;
    var tmp := CopyAddresses(currentTokens);
    factory := factory.(tokens := tmp);
    s.factories := s.factories[factory.id := factory];
    FactoryConfigKeepsWellformed(before, cv, RemoveTokensAndPriceFeeds);
  }

  method HandleSetSwapAdapter(s: Store, cv: ChainView, newSwapAdapter: Address)
    requires s.Valid()
    modifies s
    ensures s.State() == FactoryConfigStep(old(s.State()), cv, SetSwapAdapter(newSwapAdapter))
    ensures s.Valid()
  {
    ghost var before := s.State();
    if FACTORY_ADDRESS !in s.factories { return; }
    var factory := s.factories[FACTORY_ADDRESS];
    factory := factory.(swapAdapter := newSwapAdapter);
    s.factories := s.factories[factory.id := factory];
    FactoryConfigKeepsWellformed(before, cv, SetSwapAdapter(newSwapAdapter));
  }

  /** The owner is not stored: the handler only loads the factory. */
  method HandleOwnershipTransferred(s: Store, cv: ChainView)
    requires s.Valid()
    modifies s
    ensures s.State() == FactoryConfigStep(old(s.State()), cv, OwnershipTransferred)
    ensures s.Valid()
  {
    if FACTORY_ADDRESS !in s.factories { return; }
  }

  /** One iteration of the tick's loop: the periodic snapshot of `vAddress`,
      then the resync of the vault found under `toKey(vAddress)`, if any. */
  method TickVault(s: Store, factory: Factory, cv: ChainView, toKey: Address -> string, vAddress: Address,
                   block: Block)
    modifies s`snapshots, s`vaults
    ensures s.snapshots == old(s.snapshots)[SnapshotId(vAddress, block.number) :=
              SnapshotOf(factory.id, cv, vAddress, block, false)]
    ensures s.vaults == ResyncAt(old(s.vaults), cv, toKey(vAddress))
  {
    NewSnapshot(s, factory, cv, vAddress, block, false);
    var vault: Vault;
    if toKey(vAddress) in s.vaults {
      vault := s.vaults[toKey(vAddress)];
      vault := UpdateVault(s, vault, cv);
    }
  }

  /** The loop of `handleNewBlock` over the factory's vault list. */
  method TickAll(s: Store, factory: Factory, cv: ChainView, toKey: Address -> string, vaults: seq<Address>,
                 block: Block)
    modifies s`snapshots, s`vaults
    ensures s.snapshots == TickSnapshots(old(s.snapshots), factory.id, cv, vaults, block)
    ensures s.vaults == TickResyncs(old(s.vaults), cv, toKey, vaults)
  {
    var x := 0;
    while x < |vaults|
      invariant 0 <= x <= |vaults|
      invariant s.snapshots == TickSnapshots(old(s.snapshots), factory.id, cv, vaults[..x], block)
      invariant s.vaults == TickResyncs(old(s.vaults), cv, toKey, vaults[..x])
      modifies s`snapshots, s`vaults
    {
      TickSnoc(old(s.snapshots), old(s.vaults), factory.id, cv, toKey, vaults, x, block);
      TickVault(s, factory, cv, toKey, vaults[x], block);
      x := x + 1;
    }
    assert vaults[..x] == vaults;
  }

  /** `handleNewBlock`. `toKey` is the host's `Address.toString()`, the key
      the source looks each listed vault up under; it is left unconstrained,
      in particular not assumed equal to `ToHexString`, the key vaults are
      created under. */
  method HandleNewBlock(s: Store, cv: ChainView, toKey: Address -> string, block: Block)
    requires s.Valid()
    modifies s
    ensures s.State() == NewBlockStep(old(s.State()), cv, toKey, block)
    ensures s.Valid()
  {
    ghost var st := s.State();
    ghost var expected := NewBlockStep(st, cv, toKey, block);
    if FACTORY_ADDRESS !in s.factories { return; }
    var factory := s.factories[FACTORY_ADDRESS];
    if SnapshotOrNot(s.State(), block) { return; }
    NewBlockStepIs(st, cv, toKey, block);
    var vaults := cv.factoryVaults;
    TickAll(s, factory, cv, toKey, vaults, block);
    factory := factory.(lastSnapshotBlockTimestamp := block.timestamp, lastSnapshotBlockNumber := block.number);
    s.factories := s.factories[factory.id := factory];
    assert s.factories == expected.factories;
    assert s.vaults == expected.vaults;
    assert s.snapshots == expected.snapshots;
    NewBlockKeepsWellformed(st, cv, toKey, block);
  }

  /** The store after a tick that passes the gate. */
  lemma NewBlockStepIs(st: StoreState, cv: ChainView, toKey: Address -> string, block: Block)
    requires FACTORY_ADDRESS in st.factories && !SnapshotOrNot(st, block)
    ensures var f := st.factories[FACTORY_ADDRESS];
      NewBlockStep(st, cv, toKey, block) ==
        st.(snapshots := TickSnapshots(st.snapshots, f.id, cv, cv.factoryVaults, block),
            vaults := TickResyncs(st.vaults, cv, toKey, cv.factoryVaults),
            factories := st.factories[f.id :=
              f.(lastSnapshotBlockTimestamp := block.timestamp, lastSnapshotBlockNumber := block.number)])
  {
  }
}
