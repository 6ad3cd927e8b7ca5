/** The vault handlers (src/mappings/vault.ts): the activity events that
    write a record, count or accumulate on the vault, take an event snapshot
    and resync the vault; the token-list refresh of `AddAsset`; and the
    property and role events that patch the vault and resync it. */
module VaultMappings {
  import opened Helpers
  import opened Schema
  import opened FactoryMappings

  /** The vault events that write an activity record. */
  datatype ActivityEvent =
    | DepositEvent(sharesMinted: nat, baseTokenAmountIn: nat)
    | RebalanceEvent(currentSignals: seq<int>, desiredSignals: seq<int>)
    | RedeemEvent(shareBurned: nat, amountReceived: nat)
    | HarvestManagementFeesEvent(amountToDAO: nat, amountToStrategist: nat)
    | HarvestPerformanceFeesEvent(amountToDAO: nat, amountToStrategist: nat)
  {
    predicate IsHarvest() {
      HarvestManagementFeesEvent? || HarvestPerformanceFeesEvent?
    }

    /** What a harvest pays out in total; zero for the other events. */
    function Harvested(): nat {
      if IsHarvest() then amountToDAO + amountToStrategist else 0
    }
  }

  /** The vault events that patch a vault and resync it, without a record. */
  datatype VaultConfigEvent =
    | SetShareTransferability(status: bool)
    | SetSecurityProps
    | SetConfigProps
    | SetFeesProps
    | RoleAdminChanged
    | RoleGranted
    | RoleRevoked

  // ---------------------------------------------------------------------
  // Specification functions
  // ---------------------------------------------------------------------

  /** The key the emitting vault is loaded under. */
  function VaultKey(ctx: EventContext): string {
    ToHexString(ctx.address)
  }

  /** The activity handlers and `handleAddAsset` run only when the factory
      exists and the emitting vault is indexed. */
  predicate Indexed(st: StoreState, ctx: EventContext) {
    FACTORY_ADDRESS in st.factories && VaultKey(ctx) in st.vaults
  }

  /** The three counters of deposits, rebalances and redemptions, summed. */
  function EventCount(a: VaultActivity): nat {
    a.depositsCount + a.rebalancesCount + a.redemptionsCount
  }

  /** The four fee accumulators, summed. */
  function FeesCollected(a: VaultActivity): nat {
    a.accManagementFeesToDAO + a.accPerformanceFeesToDAO +
    a.accManagementFeesToStrategists + a.accPerformanceFeesToStrategists
  }

  /** No counter or accumulator of `b` is below its value in `a`. */
  predicate Grown(a: VaultActivity, b: VaultActivity) {
    && a.accManagementFeesToDAO <= b.accManagementFeesToDAO
    && a.accPerformanceFeesToDAO <= b.accPerformanceFeesToDAO
    && a.accManagementFeesToStrategists <= b.accManagementFeesToStrategists
    && a.accPerformanceFeesToStrategists <= b.accPerformanceFeesToStrategists
    && a.depositsCount <= b.depositsCount
    && a.rebalancesCount <= b.rebalancesCount
    && a.redemptionsCount <= b.redemptionsCount
  }

  /** The vault's activity group after one event: a deposit, rebalance or
      redemption counts one more of its kind; a harvest adds its two amounts
      to the accumulators of its kind. */
  function Tallied(a: VaultActivity, e: ActivityEvent): (b: VaultActivity)
    ensures Grown(a, b)
    ensures EventCount(b) == EventCount(a) + (if e.IsHarvest() then 0 else 1)
    ensures FeesCollected(b) == FeesCollected(a) + e.Harvested()
    ensures e.DepositEvent? ==> b.depositsCount == a.depositsCount + 1
    ensures e.RebalanceEvent? ==> b.rebalancesCount == a.rebalancesCount + 1
    ensures e.RedeemEvent? ==> b.redemptionsCount == a.redemptionsCount + 1
    ensures e.HarvestManagementFeesEvent? ==>
      b.accManagementFeesToDAO == a.accManagementFeesToDAO + e.amountToDAO &&
      b.accManagementFeesToStrategists == a.accManagementFeesToStrategists + e.amountToStrategist
    ensures e.HarvestPerformanceFeesEvent? ==>
      b.accPerformanceFeesToDAO == a.accPerformanceFeesToDAO + e.amountToDAO &&
      b.accPerformanceFeesToStrategists == a.accPerformanceFeesToStrategists + e.amountToStrategist
  {
    match e
    case DepositEvent(_, _) => a.(depositsCount := a.depositsCount + 1)
    case RebalanceEvent(_, _) => a.(rebalancesCount := a.rebalancesCount + 1)
    case RedeemEvent(_, _) => a.(redemptionsCount := a.redemptionsCount + 1)
    case HarvestManagementFeesEvent(toDAO, toStrategist) =>
      a.(accManagementFeesToDAO := a.accManagementFeesToDAO + toDAO,
         accManagementFeesToStrategists := a.accManagementFeesToStrategists + toStrategist)
    case HarvestPerformanceFeesEvent(toDAO, toStrategist) =>
      a.(accPerformanceFeesToDAO := a.accPerformanceFeesToDAO + toDAO,
         accPerformanceFeesToStrategists := a.accPerformanceFeesToStrategists + toStrategist)
  }

  /** The store with the event's record saved under the transaction hash.
      Deposits, rebalances and redemptions carry the share price the vault
      reports after the event; a rebalance also the positions it reports. */
  function Recorded(st: StoreState, cv: ChainView, ctx: EventContext, vaultId: string, e: ActivityEvent)
    : (r: StoreState)
    ensures r == st.(deposits := r.deposits, rebalances := r.rebalances, redeems := r.redeems,
                     managementHarvests := r.managementHarvests, performanceHarvests := r.performanceHarvests)
    ensures var id := ToHexString(ctx.txHash);
      || id in r.deposits || id in r.rebalances || id in r.redeems
      || id in r.managementHarvests || id in r.performanceHarvests
  {
    var id := ToHexString(ctx.txHash);
    var status := cv.vaultAt(ctx.address).status;
    match e
    case DepositEvent(sharesMinted, baseTokenAmountIn) =>
      st.(deposits := st.deposits[id := Deposit(id, vaultId, ctx.from, sharesMinted, baseTokenAmountIn,
                                                ctx.block.timestamp, status.sharePrice)])
    case RebalanceEvent(currentSignals, desiredSignals) =>
      st.(rebalances := st.rebalances[id := Rebalance(id, vaultId, ctx.from, currentSignals, desiredSignals,
                                                      ctx.block.timestamp, status.positions, status.sharePrice)])
    case RedeemEvent(shareBurned, amountReceived) =>
      st.(redeems := st.redeems[id := Redeem(id, vaultId, ctx.from, shareBurned, amountReceived,
                                             ctx.block.timestamp, status.sharePrice)])
    case HarvestManagementFeesEvent(toDAO, toStrategist) =>
      st.(managementHarvests := st.managementHarvests[id := FeesHarvest(id, vaultId, ctx.from, toDAO, toStrategist,
                                                                        ctx.block.timestamp)])
    case HarvestPerformanceFeesEvent(toDAO, toStrategist) =>
      st.(performanceHarvests := st.performanceHarvests[id := FeesHarvest(id, vaultId, ctx.from, toDAO, toStrategist,
                                                                          ctx.block.timestamp)])
  }

  /** `handleDeposit`, `handleRebalance`, `handleRedeem`,
      `handleHarvestManagementFees` and `handleHarvestPerformanceFees`:
      without the factory or the vault nothing is written. Otherwise the
      record is saved, the vault's activity is tallied, an event snapshot is
      taken at the address the vault's id spells, and the tallied vault is
      resynced and saved. */
  function ActivityStep(st: StoreState, cv: ChainView, ctx: EventContext, e: ActivityEvent): (r: StoreState)
    ensures !Indexed(st, ctx) ==> r == st
  {
    if !Indexed(st, ctx) then st
    else
      var factory := st.factories[FACTORY_ADDRESS];
      var vault := st.vaults[VaultKey(ctx)];
      var tallied := vault.(activity := Tallied(vault.activity, e));
      var snapshot := SnapshotOf(factory.id, cv, ChainAddress(tallied), ctx.block, true);
      Recorded(st, cv, ctx, vault.id, e).(
        vaults := st.vaults[tallied.id := Resynced(tallied, cv)],
        snapshots := st.snapshots[snapshot.id := snapshot])
  }

  /** An indexed activity event leaves every other vault as it was and
      leaves the emitting vault reflecting the chain, with its identity kept
      and its activity tallied. */
  lemma ActivityVault(st: StoreState, cv: ChainView, ctx: EventContext, e: ActivityEvent)
    requires VaultsWellformed(st.vaults) && Indexed(st, ctx)
    ensures var r, k := ActivityStep(st, cv, ctx, e), VaultKey(ctx);
      && r.vaults.Keys == st.vaults.Keys
      && (forall k' :: k' in st.vaults && k' != k ==> r.vaults[k'] == st.vaults[k'])
      && SameIdentity(st.vaults[k], r.vaults[k])
      && r.vaults[k].activity == Tallied(st.vaults[k].activity, e)
      && Reflects(r.vaults[k], cv)
  {
    var v := st.vaults[VaultKey(ctx)];
    ResyncIdempotent(v.(activity := Tallied(v.activity, e)), cv);
  }

  /** The event snapshot is taken for the emitting address at this block,
      no other snapshot changes, and the factory and the data sources are
      left as they were. */
  lemma ActivitySnapshot(st: StoreState, cv: ChainView, ctx: EventContext, e: ActivityEvent)
    requires VaultsWellformed(st.vaults) && Indexed(st, ctx)
    ensures var r := ActivityStep(st, cv, ctx, e);
      && r.snapshots == st.snapshots[SnapshotId(ctx.address, ctx.block.number) :=
           SnapshotOf(st.factories[FACTORY_ADDRESS].id, cv, ctx.address, ctx.block, true)]
      && r.factories == st.factories && r.templates == st.templates
  {
    FromHexStringInverse(ctx.address);
  }

  /** Exactly one record is written, in the map of the event's kind, under
      the transaction hash: it points at the emitting vault and carries the
      event's sender, block time and payload, and for a deposit, rebalance or
      redemption the share price the vault reports after the event. */
  lemma ActivityRecord(st: StoreState, cv: ChainView, ctx: EventContext, e: ActivityEvent)
    requires VaultsWellformed(st.vaults) && Indexed(st, ctx)
    ensures var r, id, k := ActivityStep(st, cv, ctx, e), ToHexString(ctx.txHash), VaultKey(ctx);
      var status, time := cv.vaultAt(ctx.address).status, ctx.block.timestamp;
      && r.deposits == (if e.DepositEvent? then
           st.deposits[id := Deposit(id, k, ctx.from, e.sharesMinted, e.baseTokenAmountIn, time, status.sharePrice)]
         else st.deposits)
      && r.rebalances == (if e.RebalanceEvent? then
           st.rebalances[id := Rebalance(id, k, ctx.from, e.currentSignals, e.desiredSignals, time,
                                         status.positions, status.sharePrice)]
         else st.rebalances)
      && r.redeems == (if e.RedeemEvent? then
           st.redeems[id := Redeem(id, k, ctx.from, e.shareBurned, e.amountReceived, time, status.sharePrice)]
         else st.redeems)
      && r.managementHarvests == (if e.HarvestManagementFeesEvent? then
           st.managementHarvests[id := FeesHarvest(id, k, ctx.from, e.amountToDAO, e.amountToStrategist, time)]
         else st.managementHarvests)
      && r.performanceHarvests == (if e.HarvestPerformanceFeesEvent? then
           st.performanceHarvests[id := FeesHarvest(id, k, ctx.from, e.amountToDAO, e.amountToStrategist, time)]
         else st.performanceHarvests)
  {
    assert st.vaults[VaultKey(ctx)].id == VaultKey(ctx);
  }

  /** The record is saved under its own id. */
  lemma RecordedWellformed(st: StoreState, cv: ChainView, ctx: EventContext, vaultId: string, e: ActivityEvent)
    requires RecordsWellformed(st)
    ensures RecordsWellformed(Recorded(st, cv, ctx, vaultId, e))
  {
    var r := Recorded(st, cv, ctx, vaultId, e);
    match e {
      case DepositEvent(_, _) =>
        assert r == st.(deposits := r.deposits);
      case RebalanceEvent(_, _) =>
        assert r == st.(rebalances := r.rebalances);
      case RedeemEvent(_, _) =>
        assert r == st.(redeems := r.redeems);
      case HarvestManagementFeesEvent(_, _) =>
        assert r == st.(managementHarvests := r.managementHarvests);
      case HarvestPerformanceFeesEvent(_, _) =>
        assert r == st.(performanceHarvests := r.performanceHarvests);
    }
  }

  lemma ActivityRecordsWellformed(st: StoreState, cv: ChainView, ctx: EventContext, e: ActivityEvent)
    requires RecordsWellformed(st)
    ensures RecordsWellformed(ActivityStep(st, cv, ctx, e))
  {
    if Indexed(st, ctx) {
      var rec := Recorded(st, cv, ctx, st.vaults[VaultKey(ctx)].id, e);
      RecordedWellformed(st, cv, ctx, st.vaults[VaultKey(ctx)].id, e);
      var r := ActivityStep(st, cv, ctx, e);
      assert r.deposits == rec.deposits && r.rebalances == rec.rebalances && r.redeems == rec.redeems;
      assert r.managementHarvests == rec.managementHarvests && r.performanceHarvests == rec.performanceHarvests;
    }
  }

  lemma ActivityKeepsWellformed(st: StoreState, cv: ChainView, ctx: EventContext, e: ActivityEvent)
    requires Wellformed(st)
    ensures Wellformed(ActivityStep(st, cv, ctx, e))
  {
    if Indexed(st, ctx) {
      var r := ActivityStep(st, cv, ctx, e);
      assert VaultsWellformed(r.vaults) by { ActivityVault(st, cv, ctx, e); }
      assert FactoriesWellformed(r.factories) && SnapshotsWellformed(r.snapshots) by {
        ActivitySnapshot(st, cv, ctx, e);
      }
      assert RecordsWellformed(r) by { ActivityRecordsWellformed(st, cv, ctx, e); }
    }
  }

  /** `handleAddAsset`: without the factory or the vault nothing is
      written. Otherwise the vault's token list is re-read from the emitting
      contract, and the vault is resynced and saved. */
  function AddAssetStep(st: StoreState, cv: ChainView, ctx: EventContext): (r: StoreState)
    ensures !Indexed(st, ctx) ==> r == st
    ensures r == st.(vaults := r.vaults)
  {
    if !Indexed(st, ctx) then st
    else
      var vault := st.vaults[VaultKey(ctx)];
      var storage := cv.vaultAt(FromHexString(ToHexString(ctx.address)));
      var listed := vault.(table := vault.table.(tokens := TableOf(storage).tokens));
      st.(vaults := st.vaults[listed.id := Resynced(listed, cv)])
  }

  /** The token list written by `handleAddAsset` is overwritten by the
      resync that follows it: the handler amounts to a resync of the
      emitting vault. */
  lemma AddAssetResyncs(st: StoreState, cv: ChainView, ctx: EventContext)
    requires VaultsWellformed(st.vaults) && Indexed(st, ctx)
    ensures var k := VaultKey(ctx);
      AddAssetStep(st, cv, ctx).vaults == st.vaults[k := Resynced(st.vaults[k], cv)]
  {
    var v := st.vaults[VaultKey(ctx)];
    var storage := cv.vaultAt(FromHexString(ToHexString(ctx.address)));
    ResyncOverwrites(v.(table := v.table.(tokens := TableOf(storage).tokens)), v, cv);
  }

  lemma AddAssetKeepsWellformed(st: StoreState, cv: ChainView, ctx: EventContext)
    requires Wellformed(st)
    ensures Wellformed(AddAssetStep(st, cv, ctx))
  {
  }

  /** The vault after a property or role event, before the resync. The
      property groups are read from the emitting contract. */
  function Patched(v: Vault, cv: ChainView, ctx: EventContext, e: VaultConfigEvent): (r: Vault)
    ensures SameIdentity(r, v.(shareTransferability := r.shareTransferability)) && r.activity == v.activity
    ensures r.shareTransferability == if e.SetShareTransferability? then e.status else v.shareTransferability
  {
    var bdVault := cv.vaultAt(ctx.address);
    match e
    case SetShareTransferability(status) => v.(shareTransferability := status)
    case SetSecurityProps => v.(props := v.props.(security := bdVault.props.security))
    case SetConfigProps => v.(props := v.props.(config := bdVault.props.config))
    case SetFeesProps => v.(props := v.props.(fees := bdVault.props.fees))
    case RoleAdminChanged => v
    case RoleGranted => v
    case RoleRevoked => v
  }

  /** The property and role handlers: they need only the vault (not the
      factory); without it nothing is written. Otherwise the patched vault
      is resynced and saved. */
  function VaultConfigStep(st: StoreState, cv: ChainView, ctx: EventContext, e: VaultConfigEvent)
    : (r: StoreState)
    ensures VaultKey(ctx) !in st.vaults ==> r == st
    ensures r == st.(vaults := r.vaults)
  {
    if VaultKey(ctx) !in st.vaults then st
    else
      var patched := Patched(st.vaults[VaultKey(ctx)], cv, ctx, e);
      st.(vaults := st.vaults[patched.id := Resynced(patched, cv)])
  }

  /** Of a property or role event only the share-transferability flag
      survives: the property groups it patches are overwritten by the
      resync. */
  lemma VaultConfigEffect(st: StoreState, cv: ChainView, ctx: EventContext, e: VaultConfigEvent)
    requires VaultsWellformed(st.vaults) && VaultKey(ctx) in st.vaults
    ensures var k := VaultKey(ctx);
      var v := st.vaults[k];
      var flag := if e.SetShareTransferability? then e.status else v.shareTransferability;
      VaultConfigStep(st, cv, ctx, e).vaults == st.vaults[k := Resynced(v.(shareTransferability := flag), cv)]
  {
    var k := VaultKey(ctx);
    var v := st.vaults[k];
    var flag := if e.SetShareTransferability? then e.status else v.shareTransferability;
    var p := Patched(v, cv, ctx, e);
    assert VaultConfigStep(st, cv, ctx, e).vaults == st.vaults[p.id := Resynced(p, cv)];
    assert p.id == k;
    assert Resynced(p, cv) == Resynced(v.(shareTransferability := flag), cv) by {
      ResyncOverwrites(p, v.(shareTransferability := flag), cv);
    }
  }

  /** After a property or role event the vault reflects the chain, keeps
      its activity, and carries the flag the event set, if any. */
  lemma VaultConfigVault(st: StoreState, cv: ChainView, ctx: EventContext, e: VaultConfigEvent)
    requires VaultsWellformed(st.vaults) && VaultKey(ctx) in st.vaults
    ensures var r, k := VaultConfigStep(st, cv, ctx, e), VaultKey(ctx);
      var v := st.vaults[k];
      && k in r.vaults
      && r.vaults[k].activity == v.activity
      && r.vaults[k].shareTransferability == (if e.SetShareTransferability? then e.status else v.shareTransferability)
      && Reflects(r.vaults[k], cv)
  {
    ResyncIdempotent(Patched(st.vaults[VaultKey(ctx)], cv, ctx, e), cv);
  }

  lemma VaultConfigKeepsWellformed(st: StoreState, cv: ChainView, ctx: EventContext, e: VaultConfigEvent)
    requires Wellformed(st)
    ensures Wellformed(VaultConfigStep(st, cv, ctx, e))
  {
  }

  // ---------------------------------------------------------------------
  // Handlers over the store
  // ---------------------------------------------------------------------

  /** The common tail of the activity handlers: save the tallied vault,
      take the event snapshot at the address its id spells, resync and save
      it again. */
  method SaveSnapshotResync(s: Store, factory: Factory, vault: Vault, cv: ChainView, block: Block)
    modifies s`vaults, s`snapshots
    ensures s.vaults == old(s.vaults)[vault.id := Resynced(vault, cv)]
    ensures s.snapshots == old(s.snapshots)[SnapshotId(ChainAddress(vault), block.number) :=
              SnapshotOf(factory.id, cv, ChainAddress(vault), block, true)]
  {
    s.vaults := s.vaults[vault.id := vault];
    NewSnapshot(s, factory, cv, FromHexString(vault.id), block, true);
    var _ := UpdateVault(s, vault, cv);
  }

  /** The body of `handleDeposit`. */
  method OnDeposit(s: Store, cv: ChainView, ctx: EventContext, sharesMinted: nat, baseTokenAmountIn: nat)
    modifies s
    ensures s.State() == ActivityStep(old(s.State()), cv, ctx, DepositEvent(sharesMinted, baseTokenAmountIn))
  {
    ghost var expected := ActivityStep(s.State(), cv, ctx, DepositEvent(sharesMinted, baseTokenAmountIn));
    if FACTORY_ADDRESS !in s.factories { return; }
    var factory := s.factories[FACTORY_ADDRESS];
    if ToHexString(ctx.address) !in s.vaults { return; }
    var vault := s.vaults[ToHexString(ctx.address)];
    var vaultStatusAfter := cv.vaultAt(ctx.address).status;
    var deposit := Deposit(ToHexString(ctx.txHash), vault.id, ctx.from, sharesMinted, baseTokenAmountIn,
                           ctx.block.timestamp, vaultStatusAfter.sharePrice);
    s.deposits := s.deposits[deposit.id := deposit];
    vault := vault.(activity := vault.activity.(depositsCount := vault.activity.depositsCount + 1));
    SaveSnapshotResync(s, factory, vault, cv, ctx.block);
    assert s.deposits == expected.deposits;
    assert s.vaults == expected.vaults && s.snapshots == expected.snapshots;
  }

  /** `handleDeposit` on a well-formed store, which it keeps well formed. */
  method HandleDeposit(s: Store, cv: ChainView, ctx: EventContext, sharesMinted: nat, baseTokenAmountIn: nat)
    requires s.Valid()
    modifies s
    ensures s.State() == ActivityStep(old(s.State()), cv, ctx, DepositEvent(sharesMinted, baseTokenAmountIn))
    ensures s.Valid()
  {
    ghost var before := s.State();
    OnDeposit(s, cv, ctx, sharesMinted, baseTokenAmountIn);
    ActivityKeepsWellformed(before, cv, ctx, DepositEvent(sharesMinted, baseTokenAmountIn));
  }

  /** The body of `handleRebalance`. */
  method OnRebalance(s: Store, cv: ChainView, ctx: EventContext, currentSignals: seq<int>,
                     desiredSignals: seq<int>)
    modifies s
    ensures s.State() == ActivityStep(old(s.State()), cv, ctx, RebalanceEvent(currentSignals, desiredSignals))
  {
    ghost var expected := ActivityStep(s.State(), cv, ctx, RebalanceEvent(currentSignals, desiredSignals));
    if FACTORY_ADDRESS !in s.factories { return; }
    var factory := s.factories[FACTORY_ADDRESS];
    if ToHexString(ctx.address) !in s.vaults { return; }
    var vault := s.vaults[ToHexString(ctx.address)];
    var vaultStatusAfter := cv.vaultAt(ctx.address).status;
    var newRebalance := Rebalance(ToHexString(ctx.txHash), vault.id, ctx.from, currentSignals, desiredSignals,
                                  ctx.block.timestamp, vaultStatusAfter.positions, vaultStatusAfter.sharePrice);
    s.rebalances := s.rebalances[newRebalance.id := newRebalance];
    vault := vault.(activity := vault.activity.(rebalancesCount := vault.activity.rebalancesCount + 1));
    SaveSnapshotResync(s, factory, vault, cv, ctx.block);
    assert s.rebalances == expected.rebalances;
    assert s.vaults == expected.vaults && s.snapshots == expected.snapshots;
  }

  /** `handleRebalance` on a well-formed store, which it keeps well formed. */
  method HandleRebalance(s: Store, cv: ChainView, ctx: EventContext, currentSignals: seq<int>,
                         desiredSignals: seq<int>)
    requires s.Valid()
    modifies s
    ensures s.State() == ActivityStep(old(s.State()), cv, ctx, RebalanceEvent(currentSignals, desiredSignals))
    ensures s.Valid()
  {
    ghost var before := s.State();
    OnRebalance(s, cv, ctx, currentSignals, desiredSignals);
    ActivityKeepsWellformed(before, cv, ctx, RebalanceEvent(currentSignals, desiredSignals));
  }

  /** The body of `handleRedeem`. */
  method OnRedeem(s: Store, cv: ChainView, ctx: EventContext, shareBurned: nat, amountReceived: nat)
    modifies s
    ensures s.State() == ActivityStep(old(s.State()), cv, ctx, RedeemEvent(shareBurned, amountReceived))
  {
    ghost var expected := ActivityStep(s.State(), cv, ctx, RedeemEvent(shareBurned, amountReceived));
    if FACTORY_ADDRESS !in s.factories { return; }
    var factory := s.factories[FACTORY_ADDRESS];
    if ToHexString(ctx.address) !in s.vaults { return; }
    var vault := s.vaults[ToHexString(ctx.address)];
    var vaultStatusAfter := cv.vaultAt(ctx.address).status;
    var newRedeem := Redeem(ToHexString(ctx.txHash), vault.id, ctx.from, shareBurned, amountReceived,
                            ctx.block.timestamp, vaultStatusAfter.sharePrice);
    s.redeems := s.redeems[newRedeem.id := newRedeem];
    vault := vault.(activity := vault.activity.(redemptionsCount := vault.activity.redemptionsCount + 1));
    SaveSnapshotResync(s, factory, vault, cv, ctx.block);
    assert s.redeems == expected.redeems;
    assert s.vaults == expected.vaults && s.snapshots == expected.snapshots;
  }

  /** `handleRedeem` on a well-formed store, which it keeps well formed. */
  method HandleRedeem(s: Store, cv: ChainView, ctx: EventContext, shareBurned: nat, amountReceived: nat)
    requires s.Valid()
    modifies s
    ensures s.State() == ActivityStep(old(s.State()), cv, ctx, RedeemEvent(shareBurned, amountReceived))
    ensures s.Valid()
  {
    ghost var before := s.State();
    OnRedeem(s, cv, ctx, shareBurned, amountReceived);
    ActivityKeepsWellformed(before, cv, ctx, RedeemEvent(shareBurned, amountReceived));
  }

  /** The body of `handleHarvestManagementFees`. */
  method OnHarvestManagementFees(s: Store, cv: ChainView, ctx: EventContext, amountToDAO: nat,
                                 amountToStrategist: nat)
    modifies s
    ensures s.State() ==
      ActivityStep(old(s.State()), cv, ctx, HarvestManagementFeesEvent(amountToDAO, amountToStrategist))
  {
    ghost var expected := ActivityStep(s.State(), cv, ctx, HarvestManagementFeesEvent(amountToDAO, amountToStrategist));
    if FACTORY_ADDRESS !in s.factories { return; }
    var factory := s.factories[FACTORY_ADDRESS];
    if ToHexString(ctx.address) !in s.vaults { return; }
    var vault := s.vaults[ToHexString(ctx.address)];
    var harvest := FeesHarvest(ToHexString(ctx.txHash), vault.id, ctx.from, amountToDAO, amountToStrategist,
                               ctx.block.timestamp);
    var acc := vault.activity;
    vault := vault.(activity := acc.(accManagementFeesToDAO := acc.accManagementFeesToDAO + amountToDAO,
                                     accManagementFeesToStrategists :=
                                       acc.accManagementFeesToStrategists + amountToStrategist));
    s.managementHarvests := s.managementHarvests[harvest.id := harvest];
    SaveSnapshotResync(s, factory, vault, cv, ctx.block);
    assert s.managementHarvests == expected.managementHarvests;
    assert s.vaults == expected.vaults && s.snapshots == expected.snapshots;
  }

  /** `handleHarvestManagementFees` on a well-formed store, which it keeps well formed. */
  method HandleHarvestManagementFees(s: Store, cv: ChainView, ctx: EventContext, amountToDAO: nat,
                                     amountToStrategist: nat)
    requires s.Valid()
    modifies s
    ensures s.State() ==
      ActivityStep(old(s.State()), cv, ctx, HarvestManagementFeesEvent(amountToDAO, amountToStrategist))
    ensures s.Valid()
  {
    ghost var before := s.State();
    OnHarvestManagementFees(s, cv, ctx, amountToDAO, amountToStrategist);
    ActivityKeepsWellformed(before, cv, ctx, HarvestManagementFeesEvent(amountToDAO, amountToStrategist));
  }

  /** The body of `handleHarvestPerformanceFees`. */
  method OnHarvestPerformanceFees(s: Store, cv: ChainView, ctx: EventContext, amountToDAO: nat,
                                  amountToStrategist: nat)
    modifies s
    ensures s.State() ==
      ActivityStep(old(s.State()), cv, ctx, HarvestPerformanceFeesEvent(amountToDAO, amountToStrategist))
  {
    ghost var expected := ActivityStep(s.State(), cv, ctx, HarvestPerformanceFeesEvent(amountToDAO, amountToStrategist));
    if FACTORY_ADDRESS !in s.factories { return; }
    var factory := s.factories[FACTORY_ADDRESS];
    if ToHexString(ctx.address) !in s.vaults { return; }
    var vault := s.vaults[ToHexString(ctx.address)];
    var harvest := FeesHarvest(ToHexString(ctx.txHash), vault.id, ctx.from, amountToDAO, amountToStrategist,
                               ctx.block.timestamp);
    var acc := vault.activity;
    vault := vault.(activity := acc.(accPerformanceFeesToDAO := acc.accPerformanceFeesToDAO + amountToDAO,
                                     accPerformanceFeesToStrategists :=
                                       acc.accPerformanceFeesToStrategists + amountToStrategist));
    s.performanceHarvests := s.performanceHarvests[harvest.id := harvest];
    SaveSnapshotResync(s, factory, vault, cv, ctx.block);
    assert s.performanceHarvests == expected.performanceHarvests;
    assert s.vaults == expected.vaults && s.snapshots == expected.snapshots;
  }

  /** `handleHarvestPerformanceFees` on a well-formed store, which it keeps well formed. */
  method HandleHarvestPerformanceFees(s: Store, cv: ChainView, ctx: EventContext, amountToDAO: nat,
                                      amountToStrategist: nat)
    requires s.Valid()
    modifies s
    ensures s.State() ==
      ActivityStep(old(s.State()), cv, ctx, HarvestPerformanceFeesEvent(amountToDAO, amountToStrategist))
    ensures s.Valid()
  {
    ghost var before := s.State();
    OnHarvestPerformanceFees(s, cv, ctx, amountToDAO, amountToStrategist);
    ActivityKeepsWellformed(before, cv, ctx, HarvestPerformanceFeesEvent(amountToDAO, amountToStrategist));
  }

  /** The loop of `handleAddAsset` that re-reads the token addresses. */
  method ReadTokenList(storage: VaultReads) returns (newTokens: seq<Address>)
    ensures newTokens == TableOf(storage).tokens
  {
    var tokensLength := storage.tokensLength;
    var tokens := new Address[tokensLength];
    var x := 0;
    while x < tokensLength
      invariant 0 <= x <= tokensLength
      invariant forall k :: 0 <= k < x ==> tokens[k] == storage.tokenAt(k).token
    {
      var token := storage.tokenAt(x);
      tokens[x] := token.token;
      x := x + 1;
    }
    newTokens := tokens[..];
  }

  /** The body of `handleAddAsset`. */
  method OnAddAsset(s: Store, cv: ChainView, ctx: EventContext)
    modifies s
    ensures s.State() == AddAssetStep(old(s.State()), cv, ctx)
  {
    if FACTORY_ADDRESS !in s.factories { return; }
    if ToHexString(ctx.address) !in s.vaults { return; }
    var vault := s.vaults[ToHexString(ctx.address)];
    var storage := cv.vaultAt(FromHexString(ToHexString(ctx.address)));
    var newTokens := ReadTokenList(storage);
    vault := vault.(table := vault.table.(tokens := newTokens));
    s.vaults := s.vaults[vault.id := vault];
    var _ := UpdateVault(s, vault, cv);
  }

  /** `handleAddAsset` on a well-formed store, which it keeps well formed. */
  method HandleAddAsset(s: Store, cv: ChainView, ctx: EventContext)
    requires s.Valid()
    modifies s
    ensures s.State() == AddAssetStep(old(s.State()), cv, ctx)
    ensures s.Valid()
  {
    ghost var before := s.State();
    OnAddAsset(s, cv, ctx);
    AddAssetKeepsWellformed(before, cv, ctx);
  }

  /** The body of `handleSetShareTransferability`. */
  method OnSetShareTransferability(s: Store, cv: ChainView, ctx: EventContext, status: bool)
    modifies s
    ensures s.State() == VaultConfigStep(old(s.State()), cv, ctx, SetShareTransferability(status))
  {
    if ToHexString(ctx.address) !in s.vaults { return; }
    var vault := s.vaults[ToHexString(ctx.address)];
    vault := vault.(shareTransferability := status);
    s.vaults := s.vaults[vault.id := vault];
    var _ := UpdateVault(s, vault, cv);
  }

  /** `handleSetShareTransferability` on a well-formed store, which it keeps well formed. */
  method HandleSetShareTransferability(s: Store, cv: ChainView, ctx: EventContext, status: bool)
    requires s.Valid()
    modifies s
    ensures s.State() == VaultConfigStep(old(s.State()), cv, ctx, SetShareTransferability(status))
    ensures s.Valid()
  {
    ghost var before := s.State();
    OnSetShareTransferability(s, cv, ctx, status);
    VaultConfigKeepsWellformed(before, cv, ctx, SetShareTransferability(status));
  }

  /** The body of `handleSetSecurityProps`. */
  method OnSetSecurityProps(s: Store, cv: ChainView, ctx: EventContext)
    modifies s
    ensures s.State() == VaultConfigStep(old(s.State()), cv, ctx, SetSecurityProps)
  {
    if ToHexString(ctx.address) !in s.vaults { return; }
    var vault := s.vaults[ToHexString(ctx.address)];
    var securityProps := cv.vaultAt(ctx.address).props.security;
    vault := vault.(props := vault.props.(security := securityProps));
    s.vaults := s.vaults[vault.id := vault];
    var _ := UpdateVault(s, vault, cv);
  }

  /** `handleSetSecurityProps` on a well-formed store, which it keeps well formed. */
  method HandleSetSecurityProps(s: Store, cv: ChainView, ctx: EventContext)
    requires s.Valid()
    modifies s
    ensures s.State() == VaultConfigStep(old(s.State()), cv, ctx, SetSecurityProps)
    ensures s.Valid()
  {
    ghost var before := s.State();
    OnSetSecurityProps(s, cv, ctx);
    VaultConfigKeepsWellformed(before, cv, ctx, SetSecurityProps);
  }

  /** The body of `handleSetConfigProps`. */
  method OnSetConfigProps(s: Store, cv: ChainView, ctx: EventContext)
    modifies s
    ensures s.State() == VaultConfigStep(old(s.State()), cv, ctx, SetConfigProps)
  {
    if ToHexString(ctx.address) !in s.vaults { return; }
    var vault := s.vaults[ToHexString(ctx.address)];
    var configProps := cv.vaultAt(ctx.address).props.config;
    vault := vault.(props := vault.props.(config := configProps));
    s.vaults := s.vaults[vault.id := vault];
    var _ := UpdateVault(s, vault, cv);
  }

  /** `handleSetConfigProps` on a well-formed store, which it keeps well formed. */
  method HandleSetConfigProps(s: Store, cv: ChainView, ctx: EventContext)
    requires s.Valid()
    modifies s
    ensures s.State() == VaultConfigStep(old(s.State()), cv, ctx, SetConfigProps)
    ensures s.Valid()
  {
    ghost var before := s.State();
    OnSetConfigProps(s, cv, ctx);
    VaultConfigKeepsWellformed(before, cv, ctx, SetConfigProps);
  }

  /** The body of `handleSetFeesProps`. */
  method OnSetFeesProps(s: Store, cv: ChainView, ctx: EventContext)
    modifies s
    ensures s.State() == VaultConfigStep(old(s.State()), cv, ctx, SetFeesProps)
  {
    if ToHexString(ctx.address) !in s.vaults { return; }
    var vault := s.vaults[ToHexString(ctx.address)];
    var feesProps := cv.vaultAt(ctx.address).props.fees;
    vault := vault.(props := vault.props.(fees := feesProps));
    s.vaults := s.vaults[vault.id := vault];
    var _ := UpdateVault(s, vault, cv);
  }

  /** `handleSetFeesProps` on a well-formed store, which it keeps well formed. */
  method HandleSetFeesProps(s: Store, cv: ChainView, ctx: EventContext)
    requires s.Valid()
    modifies s
    ensures s.State() == VaultConfigStep(old(s.State()), cv, ctx, SetFeesProps)
    ensures s.Valid()
  {
    ghost var before := s.State();
    OnSetFeesProps(s, cv, ctx);
    VaultConfigKeepsWellformed(before, cv, ctx, SetFeesProps);
  }

  /** The body of `handleRoleAdminChanged`, `handleRoleGranted` and
      `handleRoleRevoked`: the roles are re-read by the resync. */
  method OnRoleEvent(s: Store, cv: ChainView, ctx: EventContext, e: VaultConfigEvent)
    requires e.RoleAdminChanged? || e.RoleGranted? || e.RoleRevoked?
    modifies s
    ensures s.State() == VaultConfigStep(old(s.State()), cv, ctx, e)
  {
    if ToHexString(ctx.address) !in s.vaults { return; }
    var vault := s.vaults[ToHexString(ctx.address)];
    var _ := UpdateVault(s, vault, cv);
  }

  /** The three role handlers on a well-formed store, which they keep well formed. */
  method HandleRoleEvent(s: Store, cv: ChainView, ctx: EventContext, e: VaultConfigEvent)
    requires e.RoleAdminChanged? || e.RoleGranted? || e.RoleRevoked?
    requires s.Valid()
    modifies s
    ensures s.State() == VaultConfigStep(old(s.State()), cv, ctx, e)
    ensures s.Valid()
  {
    ghost var before := s.State();
    OnRoleEvent(s, cv, ctx, e);
    VaultConfigKeepsWellformed(before, cv, ctx, e);
  }
}
