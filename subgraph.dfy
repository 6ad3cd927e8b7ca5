/** The subgraph as a whole: the triggers the host delivers to the
    handlers of factory.ts and vault.ts, one step per trigger, and what
    holds over any sequence of them. */
module Subgraph {
  import opened Helpers
  import opened Schema
  import opened FactoryMappings
  import opened VaultMappings

  /** What one trigger carries. */
  datatype Input =
    | Created(created: VaultCreated)
    | FactoryConfig(factoryEvent: FactoryConfigEvent)
    | NewBlock(block: Block)
    | Activity(ctx: EventContext, activity: ActivityEvent)
    | AddAsset(assetCtx: EventContext)
    | VaultConfig(configCtx: EventContext, configEvent: VaultConfigEvent)

  /** A trigger and the chain as its handler sees it. */
  datatype Trigger = Trigger(cv: ChainView, input: Input)

  /** The store after the handler of one trigger. `toKey` is the host's
      `Address.toString()`, the same for the whole run. */
  function Step(st: StoreState, toKey: Address -> string, t: Trigger): StoreState {
    match t.input
    case Created(e) => CreateVaultStep(st, t.cv, e)
    case FactoryConfig(e) => FactoryConfigStep(st, t.cv, e)
    case NewBlock(block) => NewBlockStep(st, t.cv, toKey, block)
    case Activity(ctx, e) => ActivityStep(st, t.cv, ctx, e)
    case AddAsset(ctx) => AddAssetStep(st, t.cv, ctx)
    case VaultConfig(ctx, e) => VaultConfigStep(st, t.cv, ctx, e)
  }

  /** The store after the triggers, in order. */
  function Run(st: StoreState, toKey: Address -> string, ts: seq<Trigger>): StoreState
    decreases |ts|
  {
    if ts == [] then st else Run(Step(st, toKey, ts[0]), toKey, ts[1..])
  }

  lemma StepKeepsWellformed(st: StoreState, toKey: Address -> string, t: Trigger)
    requires Wellformed(st)
    ensures Wellformed(Step(st, toKey, t))
  {
    match t.input
    case Created(e) => CreateVaultKeepsWellformed(st, t.cv, e);
    case FactoryConfig(e) => FactoryConfigKeepsWellformed(st, t.cv, e);
    case NewBlock(block) => NewBlockEffect(st, t.cv, toKey, block);
    case Activity(ctx, e) => ActivityKeepsWellformed(st, t.cv, ctx, e);
    case AddAsset(ctx) => AddAssetKeepsWellformed(st, t.cv, ctx);
    case VaultConfig(ctx, e) => VaultConfigKeepsWellformed(st, t.cv, ctx, e);
  }

  /** Every run from a well-formed store (the empty one, say) keeps every
      entity under its own id, the factory under the factory address, and
      every token table and snapshot aligned. */
  lemma {:induction false} RunKeepsWellformed(st: StoreState, toKey: Address -> string, ts: seq<Trigger>)
    requires Wellformed(st)
    ensures Wellformed(Run(st, toKey, ts))
    decreases |ts|
  {
    if ts != [] {
      StepKeepsWellformed(st, toKey, ts[0]);
      RunKeepsWellformed(Step(st, toKey, ts[0]), toKey, ts[1..]);
    }
  }

  /** The trigger is a `VaultCreated` for the vault stored under `k`. */
  predicate Recreates(t: Trigger, k: string) {
    t.input.Created? && ToHexString(t.input.created.vault) == k
  }

  /** The only handler that lowers a vault's counters or fee accumulators
      is a second `VaultCreated` for its address, which rebuilds the record
      with zeroes. */
  lemma CreateResetsActivity(st: StoreState, cv: ChainView, e: VaultCreated)
    requires ToHexString(e.vault) in st.vaults
    ensures CreateVaultStep(st, cv, e).vaults[ToHexString(e.vault)].activity == NoActivity()
  {
    CreateVaultRecord(st, cv, e);
  }

  lemma NewBlockKeepsActivity(st: StoreState, cv: ChainView, toKey: Address -> string, block: Block, k: string)
    requires Wellformed(st) && k in st.vaults
    ensures var r := NewBlockStep(st, cv, toKey, block);
      k in r.vaults && r.vaults[k].activity == st.vaults[k].activity
  {
    NewBlockEffect(st, cv, toKey, block);
  }

  lemma ActivityGrows(st: StoreState, cv: ChainView, ctx: EventContext, e: ActivityEvent, k: string)
    requires Wellformed(st) && k in st.vaults
    ensures var r := ActivityStep(st, cv, ctx, e);
      k in r.vaults && Grown(st.vaults[k].activity, r.vaults[k].activity)
  {
    if Indexed(st, ctx) {
      ActivityVault(st, cv, ctx, e);
    }
  }

  lemma VaultEventsKeepActivity(st: StoreState, toKey: Address -> string, t: Trigger, k: string)
    requires Wellformed(st) && k in st.vaults && (t.input.AddAsset? || t.input.VaultConfig?)
    ensures var r := Step(st, toKey, t);
      k in r.vaults && r.vaults[k].activity == st.vaults[k].activity
  {
    if t.input.AddAsset? && Indexed(st, t.input.assetCtx) {
      AddAssetResyncs(st, t.cv, t.input.assetCtx);
    } else if t.input.VaultConfig? && VaultKey(t.input.configCtx) in st.vaults {
      VaultConfigEffect(st, t.cv, t.input.configCtx, t.input.configEvent);
    }
  }

  /** No trigger other than a re-creation lowers a vault's counters or fee
      accumulators, or removes the vault. */
  lemma StepGrowsActivity(st: StoreState, toKey: Address -> string, t: Trigger, k: string)
    requires Wellformed(st) && k in st.vaults && !Recreates(t, k)
    ensures var r := Step(st, toKey, t);
      k in r.vaults && Grown(st.vaults[k].activity, r.vaults[k].activity)
  {
    match t.input
    case Created(e) => CreateVaultRecord(st, t.cv, e);
    case FactoryConfig(e) =>
    case NewBlock(block) => NewBlockKeepsActivity(st, t.cv, toKey, block, k);
    case Activity(ctx, e) => ActivityGrows(st, t.cv, ctx, e, k);
    case AddAsset(ctx) => VaultEventsKeepActivity(st, toKey, t, k);
    case VaultConfig(ctx, e) => VaultEventsKeepActivity(st, toKey, t, k);
  }

  /** Over any run without a re-creation of the vault under `k`, the
      vault stays indexed and none of its counters or fee accumulators
      decreases. */
  lemma {:induction false} RunGrowsActivity(st: StoreState, toKey: Address -> string, ts: seq<Trigger>, k: string)
    requires Wellformed(st) && k in st.vaults
    requires forall i :: 0 <= i < |ts| ==> !Recreates(ts[i], k)
    ensures var r := Run(st, toKey, ts);
      k in r.vaults && Grown(st.vaults[k].activity, r.vaults[k].activity)
    decreases |ts|
  {
    if ts != [] {
      var next := Step(st, toKey, ts[0]);
      StepGrowsActivity(st, toKey, ts[0], k);
      StepKeepsWellformed(st, toKey, ts[0]);
      assert forall i :: 0 <= i < |ts[1..]| ==> !Recreates(ts[1..][i], k) by {
        forall i | 0 <= i < |ts[1..]| ensures !Recreates(ts[1..][i], k) {
          assert ts[1..][i] == ts[i + 1];
        }
      }
      RunGrowsActivity(next, toKey, ts[1..], k);
    }
  }

  /** The block handler's gate: with a factory, a block leaves the store
      untouched exactly when at most one hour has passed since the
      watermark; a later block moves the watermark. */
  lemma TickGate(st: StoreState, cv: ChainView, toKey: Address -> string, block: Block)
    requires FACTORY_ADDRESS in st.factories && FactoriesWellformed(st.factories)
    ensures var last := st.factories[FACTORY_ADDRESS].lastSnapshotBlockTimestamp;
      NewBlockStep(st, cv, toKey, block) == st <==> block.timestamp <= last + SNAPSHOT_TIMEFRAME
  {
    var f := st.factories[FACTORY_ADDRESS];
    if block.timestamp > f.lastSnapshotBlockTimestamp + SNAPSHOT_TIMEFRAME {
      var r := NewBlockStep(st, cv, toKey, block);
      assert r.factories[FACTORY_ADDRESS].lastSnapshotBlockTimestamp == block.timestamp;
    }
  }

  /** The gate's boundary: a block exactly one hour after the watermark
      is skipped, one second later it is not. */
  lemma GateBoundary(st: StoreState, number: nat, number': nat)
    requires FACTORY_ADDRESS in st.factories
    ensures var last := st.factories[FACTORY_ADDRESS].lastSnapshotBlockTimestamp;
      SnapshotOrNot(st, Block(number, last + 3600)) && !SnapshotOrNot(st, Block(number', last + 3601))
  {
  }

  /** One snapshot per vault per block: an event snapshot and the periodic
      snapshot of the same vault in the same block share an id, so the
      tick's overwrites an earlier event snapshot. */
  lemma TickOverwritesEventSnapshot(st: StoreState, cv: ChainView, toKey: Address -> string, block: Block,
                                    a: Address)
    requires Wellformed(st) && FACTORY_ADDRESS in st.factories && !SnapshotOrNot(st, block)
    requires a in cv.factoryVaults && SnapshotId(a, block.number) in st.snapshots
    ensures var r := NewBlockStep(st, cv, toKey, block);
      r.snapshots.Keys == st.snapshots.Keys + TickIds(cv.factoryVaults, block) &&
      !r.snapshots[SnapshotId(a, block.number)].triggeredByEvent
  {
    NewBlockEffect(st, cv, toKey, block);
  }

  /** The tick resyncs a vault only if the host's `toString` of some listed
      address is that vault's key: when no listed address's `toString` is
      a stored key, the tick resyncs nothing. */
  lemma TickMissesVaults(st: StoreState, cv: ChainView, toKey: Address -> string, block: Block)
    requires Wellformed(st)
    requires forall a :: a in cv.factoryVaults ==> toKey(a) !in st.vaults
    ensures NewBlockStep(st, cv, toKey, block).vaults == st.vaults
  {
    if FACTORY_ADDRESS in st.factories && !SnapshotOrNot(st, block) {
      NewBlockStepIs(st, cv, toKey, block);
      TickResyncsUpdates(st.vaults, cv, toKey, cv.factoryVaults);
      assert forall k :: k in TickKeys(cv.factoryVaults, toKey) ==> k !in st.vaults;
    }
  }

  /** Were the lookup key the hex string vaults are stored under, the tick
      would resync every listed vault that is indexed. */
  lemma TickWithHexKeysResyncs(st: StoreState, cv: ChainView, block: Block, a: Address)
    requires Wellformed(st) && FACTORY_ADDRESS in st.factories && !SnapshotOrNot(st, block)
    requires a in cv.factoryVaults && ToHexString(a) in st.vaults
    ensures var r, k := NewBlockStep(st, cv, ToHexString, block), ToHexString(a);
      k in r.vaults && r.vaults[k] == Resynced(st.vaults[k], cv)
  {
    NewBlockEffect(st, cv, ToHexString, block);
    assert ToHexString(a) in TickKeys(cv.factoryVaults, ToHexString);
  }

  /** A run of two triggers is their two steps. */
  lemma RunTwo(st: StoreState, toKey: Address -> string, t1: Trigger, t2: Trigger)
    ensures Run(st, toKey, [t1, t2]) == Step(Step(st, toKey, t1), toKey, t2)
  {
    var ts := [t1, t2];
    assert ts[1..] == [t2];
    assert [t2][1..] == [];
    assert Run(st, toKey, ts) == Run(Step(st, toKey, t1), toKey, [t2]);
    assert Run(Step(st, toKey, t1), toKey, [t2]) == Run(Step(Step(st, toKey, t1), toKey, t2), toKey, []);
  }

  /** From an empty store, the creation of a vault followed by a deposit
      into it leaves one vault counted by the factory, one deposit counted
      on the vault (which reflects the deposit's reads), the deposit record,
      and the event snapshot. */
  lemma CreateThenDeposit(cv: ChainView, e: VaultCreated, cv2: ChainView, ctx: EventContext,
                          toKey: Address -> string, sharesMinted: nat, baseTokenAmountIn: nat)
    requires ctx.address == e.vault
    ensures var r := Run(EmptyStore(), toKey, [Trigger(cv, Created(e)),
                                               Trigger(cv2, Activity(ctx, DepositEvent(sharesMinted, baseTokenAmountIn)))]);
      var k := ToHexString(e.vault);
      && FACTORY_ADDRESS in r.factories && r.factories[FACTORY_ADDRESS].vaultCount == 1
      && k in r.vaults && r.vaults[k].activity == NoActivity().(depositsCount := 1)
      && ToHexString(ctx.txHash) in r.deposits && r.deposits[ToHexString(ctx.txHash)].vault == k
      && r.deposits[ToHexString(ctx.txHash)].sharesMinted == sharesMinted
      && Reflects(r.vaults[k], cv2)
      && SnapshotId(e.vault, ctx.block.number) in r.snapshots
      && r.snapshots[SnapshotId(e.vault, ctx.block.number)].triggeredByEvent
  {
    var deposit := DepositEvent(sharesMinted, baseTokenAmountIn);
    var t1, t2 := Trigger(cv, Created(e)), Trigger(cv2, Activity(ctx, deposit));
    RunTwo(EmptyStore(), toKey, t1, t2);
    FirstVault(cv, e);
    DepositFacts(Step(EmptyStore(), toKey, t1), toKey, cv2, ctx, deposit);
  }

  /** A deposit into an indexed vault counts one more deposit on it,
      resyncs it, and writes its record under the transaction hash and the
      event snapshot. */
  lemma DepositFacts(st: StoreState, toKey: Address -> string, cv: ChainView, ctx: EventContext,
                     deposit: ActivityEvent)
    requires Wellformed(st) && Indexed(st, ctx) && deposit.DepositEvent?
    ensures var r, k := Step(st, toKey, Trigger(cv, Activity(ctx, deposit))), VaultKey(ctx);
      && r.factories == st.factories
      && k in r.vaults
      && r.vaults[k].activity == st.vaults[k].activity.(depositsCount := st.vaults[k].activity.depositsCount + 1)
      && ToHexString(ctx.txHash) in r.deposits && r.deposits[ToHexString(ctx.txHash)].vault == k
      && r.deposits[ToHexString(ctx.txHash)].sharesMinted == deposit.sharesMinted
      && Reflects(r.vaults[k], cv)
      && SnapshotId(ctx.address, ctx.block.number) in r.snapshots
      && r.snapshots[SnapshotId(ctx.address, ctx.block.number)].triggeredByEvent
  {
    ActivityVault(st, cv, ctx, deposit);
    ActivitySnapshot(st, cv, ctx, deposit);
    ActivityRecord(st, cv, ctx, deposit);
  }

  /** The first vault creation creates the factory with a count of one and
      a vault with no activity. */
  lemma FirstVault(cv: ChainView, e: VaultCreated)
    ensures var st := CreateVaultStep(EmptyStore(), cv, e);
      && Wellformed(st)
      && FACTORY_ADDRESS in st.factories && st.factories[FACTORY_ADDRESS].vaultCount == 1
      && ToHexString(e.vault) in st.vaults && st.vaults[ToHexString(e.vault)].activity == NoActivity()
  {
    CreateVaultCounts(EmptyStore(), cv, e);
    CreateVaultRecord(EmptyStore(), cv, e);
    CreateVaultKeepsWellformed(EmptyStore(), cv, e);
  }
}
