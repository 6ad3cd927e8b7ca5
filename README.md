# Vault-factory subgraph mappings, modelled in Dafny

This project models the mapping layer of a subgraph that indexes an
on-chain vault factory and the vaults it deploys. Each handler reacts to one
event or one new block. It loads entities from the host's entity store,
applies the event's fields and re-reads contract state. It then saves
entities back. The model covers the following:

- **The store** (`Schema.Store`, a class of maps). It holds the single
  `Factory` under `FACTORY_ADDRESS`, the `Vault`s keyed by the hex string of
  their address, and the `Deposit`, `Rebalance`, `Redeem` and harvest records
  keyed by the transaction hash. It also holds the `VaultSnapshot`s keyed by
  `FACTORY_ADDRESS-<vault hex>-<block number>` and the set of addresses
  registered as vault data sources.
- **Every contract read** (`Schema.ChainView`). This is a fixed value passed
  to the handlers: whitelisted tokens, per-index token tuples, role lists,
  the five property groups, vault state and status, prices, pending fees and
  the factory's vault list.
- **The factory handlers** (module `FactoryMappings`, `src/mappings/factory.ts`):
  - vault creation, with lazy factory creation;
  - the full resync `updateVault`;
  - snapshot construction;
  - the one-hour chain-time gate and the block tick;
  - the seven configuration handlers and the ownership transfer.
- **The vault handlers** (module `VaultMappings`, `src/mappings/vault.ts`):
  - deposits, rebalances and redemptions;
  - the two fee harvests;
  - asset additions;
  - the share-transferability, property and role handlers.
- **Whole handler sequences** (module `Subgraph`). This module dispatches one
  trigger to its handler and runs a sequence of triggers.

Every handler is an imperative `method` on the store with a `modifies`
clause. It loads and saves through the store's maps, and where the source
has loops it fills arrays in `while` loops. Its `ensures` ties the new store
to a pure step function of the old one (`CreateVaultStep`, `ActivityStep`, …).
The properties the handlers promise are proved as lemmas about those step
functions. The constants `FACTORY_ADDRESS`, `SNAPSHOT_TIMEFRAME` (3600
seconds) and the zero of the counters are inlined from
`src/mappings/helpers.ts`.

### Gates and lookups, as the code has them

- **The activity handlers need the factory and the vault.** Deposits,
  rebalances, redemptions, harvests and asset additions load the factory
  first and return when it is missing, then do the same for the vault
  (`src/mappings/vault.ts:31-34`, `152-155`). `VaultMappings.Indexed`
  requires both.
- **The gate's result means "skip".** `snapshotOrNot` returns true, meaning
  *skip*, when at most 3600 seconds have elapsed since the watermark. Without
  a factory it returns false ("do not skip"), but `handleNewBlock` has
  already returned by then (`src/mappings/factory.ts:343-387`).
  `FactoryMappings.SnapshotOrNot` follows this.
- **The tick can miss vaults.** The tick writes a snapshot for every address
  of the factory, but it looks each vault up under `vAddress.toString()`
  (`src/mappings/factory.ts:356`), not under the hex key vaults are created
  with (`src/mappings/factory.ts:165`). The model makes that key function an
  unconstrained parameter `toKey`. `Subgraph.TickMissesVaults` shows that
  nothing is resynced when no key matches, and
  `Subgraph.TickWithHexKeysResyncs` shows what happens if the keys did match.
- **Property and role handlers skip the factory check.** These handlers only
  load the vault (`src/mappings/vault.ts:172-247`), so they run even without
  a factory. `VaultMappings.VaultConfigStep` gates on the vault alone.

### Behaviour worth knowing (modelled as written)

- **Swapped pending fees.** A snapshot stores the management-fee read in
  `pendingPerfFees` and the performance-fee read in `pendingMngFees`
  (`src/mappings/factory.ts:235-236`). See `FactoryMappings.SnapshotOf`.
- **Snapshots in one block share a key.** Snapshots of one vault in one
  block land on the same key, and the last write wins: the tick overwrites an
  event's snapshot (`Subgraph.TickOverwritesEventSnapshot`).
- **Records in one transaction share a key.** Two records of the same kind
  in one transaction share the transaction-hash key, so the later one
  replaces the earlier (`VaultMappings.ActivityRecord`).
- **A repeated `VaultCreated` resets the vault.** A second `VaultCreated` for
  an existing vault rebuilds it with zero counters and accumulators
  (`Subgraph.CreateResetsActivity`). Counters and accumulators grow under
  every other handler sequence (`Subgraph.RunGrowsActivity`).

## Model

| member | source | states |
|---|---|---|
| Helpers.ToHexStringShape | src/mappings/factory.ts:165 | a vault key is "0x" plus two hex digits per byte and never contains the snapshot-id separator |
| Helpers.HexBody | src/mappings/factory.ts:165 | two hex digits per byte, every character a lower-case hex digit |
| Helpers.ToHexString | src/mappings/factory.ts:165 | `toHexString()`: "0x" and two lower-case digits per byte; its shape, injectivity and inverse are the lemmas around it |
| Helpers.FromHexStringInverse | src/mappings/vault.ts:49 | parsing the hex id of a vault back to an address (`Address.fromString(vault.id)`) gives the original address |
| Helpers.FromHexString | src/mappings/vault.ts:49 | `Address.fromString` on an id: one byte per two hex digits after the "0x" prefix |
| Helpers.ToHexStringInjective | src/mappings/factory.ts:165 | two addresses have the same hex key exactly when they are equal, so vault keys never collide |
| Helpers.NatToString | src/mappings/factory.ts:214 | `block.number.toString()`: a non-empty string of decimal digits, at least two for numbers from 10 on |
| Helpers.NatToStringInjective | src/mappings/factory.ts:214 | distinct block numbers print as distinct decimal strings |
| Helpers.SnapshotId | src/mappings/factory.ts:214 | the snapshot key `FACTORY_ADDRESS-<vault hex>-<block number>`; its round trip and injectivity are the two lemmas below |
| Helpers.ParseSnapshotIdRoundTrip | src/mappings/factory.ts:214 | the vault hex and block number can be read back out of a snapshot id |
| Helpers.SnapshotIdInjective | src/mappings/factory.ts:214 | two snapshot ids are equal exactly when vault and block number are equal: one key per vault per block |
| Schema.Store.constructor | src/mappings/factory.ts:189-190 | the entity store starts empty and satisfies the store invariant that every handler keeps |
| FactoryMappings.CreatedFactory | src/mappings/factory.ts:29-48 | a fresh factory sits under the factory address with no vault counted and its watermark at the creating block |
| FactoryMappings.TableOf | src/mappings/factory.ts:67-83 | the four token sequences have length `tokensLength` and row x is the tuple `tokens(x)` |
| FactoryMappings.Resynced | src/mappings/factory.ts:59-156 | a resync keeps id, factory, vault, creator, shareTransferability, counters and accumulators, and leaves the token table aligned |
| FactoryMappings.ChainAddress | src/mappings/factory.ts:64 | `Address.fromString(vault.id)`: the address a resync reads at; by `Helpers.FromHexStringInverse` it is the vault's own address, which `FactoryMappings.ResyncedReads` uses |
| FactoryMappings.ResyncedReads | src/mappings/factory.ts:59-156 | after a resync, the token table, roles, the five property groups and the state equal the chain's reads at the vault's address |
| FactoryMappings.ResyncOverwrites | src/mappings/factory.ts:59-156 | a resync depends only on the fields it does not write, so any earlier patch to those fields is overwritten |
| FactoryMappings.ResyncIdempotent | src/mappings/factory.ts:59-156 | resyncing twice against the same chain view is the same as resyncing once |
| FactoryMappings.VaultShell | src/mappings/factory.ts:163-176 | the new vault before its first resync: keyed by the hex of its address, created by the sender, transfers off, counters and accumulators zero |
| FactoryMappings.CreateVaultStep | src/mappings/factory.ts:186-198 | vault creation changes only the factory, the vaults and the template set, and removes no vault and no template |
| FactoryMappings.CountedFactory | src/mappings/factory.ts:189-191 | the factory loaded, or created when absent, with its vault count raised by one; its contract is `FactoryMappings.CreateVaultCounts` |
| FactoryMappings.CreateVaultCounts | src/mappings/factory.ts:29-51 | vault creation counts one more vault; without a factory it creates one with count 1, the event block's watermark, the whitelisted tokens and the six addresses read from the factory contract |
| FactoryMappings.CreateVaultRecord | src/mappings/factory.ts:163-198 | the vault is stored under the hex of its address, linked to the factory just counted (the id `FACTORY_ADDRESS` on a well-formed store), with the sender as creator, zero counters and accumulators, transferability off and resynced fields; the address joins the template set; other vaults and maps are unchanged |
| FactoryMappings.CreateVaultKeepsWellformed | src/mappings/factory.ts:186-198 | vault creation preserves the store invariant (factory only under its key, entities under their ids, aligned tables) |
| FactoryMappings.SnapshotOf | src/mappings/factory.ts:207-240 | a snapshot's id is the composite key; it names the factory and vault, carries the balances, positions, tvl and share price read, one token and one price per on-chain token, the fee reads swapped, and the block's timestamp and trigger flag |
| FactoryMappings.Configured | src/mappings/factory.ts:247-334 | the factory after one configuration event; `FactoryMappings.FactoryConfigChanges` states that exactly the event's field(s) change |
| FactoryMappings.FactoryConfigStep | src/mappings/factory.ts:247-334 | each configuration handler is a no-op without a factory; the ownership transfer never changes state; only the factory map can change |
| FactoryMappings.FactoryConfigChanges | src/mappings/factory.ts:247-334 | with a factory, each handler changes exactly its own field(s) (access manager, fees manager, harvester, swap proxy and router, swap adapter, tokens) and nothing else |
| FactoryMappings.FactoryConfigKeepsWellformed | src/mappings/factory.ts:247-334 | configuration handlers preserve the store invariant |
| FactoryMappings.SnapshotOrNot | src/mappings/factory.ts:371-387 | false without a factory; otherwise true (skip) exactly when the block is at most 3600 seconds after the watermark |
| FactoryMappings.TickSnapshots | src/mappings/factory.ts:353-359 | the snapshots after the tick's loop: no snapshot is removed |
| FactoryMappings.TickIdsSnoc | src/mappings/factory.ts:353-359 | the snapshot keys of the tick grow by one key per loop iteration |
| FactoryMappings.TickSnapshotsKeys | src/mappings/factory.ts:353-359 | the tick adds exactly the snapshot keys of the factory's vaults for this block |
| FactoryMappings.TickSnapshotsWritten | src/mappings/factory.ts:353-359 | after the tick, every vault of the factory has its periodic snapshot (not event-triggered) for this block |
| FactoryMappings.TickSnapshotsKeeps | src/mappings/factory.ts:353-359 | the tick leaves every other snapshot unchanged |
| FactoryMappings.TickSnapshotsWrites | src/mappings/factory.ts:353-359 | the three facts above together |
| FactoryMappings.TickSnoc | src/mappings/factory.ts:353-359 | one more loop iteration writes one snapshot and resyncs the vault found under the tick's key |
| FactoryMappings.TickResyncs | src/mappings/factory.ts:353-359 | the vaults after the tick's resyncs: no vault is removed |
| FactoryMappings.TickKeysSnoc | src/mappings/factory.ts:356 | the lookup keys of the tick grow by one per iteration |
| FactoryMappings.ResyncAt | src/mappings/factory.ts:356-358 | the tick's load under a key and `updateVault`; `FactoryMappings.ResyncAtUpdates` states that only the vault found there changes |
| FactoryMappings.ResyncAtUpdates | src/mappings/factory.ts:356-358 | resyncing the vault under a key changes only that vault, if any, and keeps the vault map well formed |
| FactoryMappings.TickResyncsUpdates | src/mappings/factory.ts:353-359 | after the tick, exactly the vaults found under a lookup key are resynced and every other vault is unchanged |
| FactoryMappings.NewBlockStep | src/mappings/factory.ts:343-363 | a block is a no-op without a factory or when the gate says skip; only factories, snapshots and vaults can change |
| FactoryMappings.NewBlockEffect | src/mappings/factory.ts:343-363 | otherwise the watermark moves to the block, one non-event snapshot is written per factory vault, other snapshots stay, and only vaults found under the tick's keys are resynced |
| FactoryMappings.NewBlockKeepsWellformed | src/mappings/factory.ts:343-363 | the block tick preserves the store invariant |
| FactoryMappings.CopyAddresses | src/mappings/factory.ts:93-98 | the element-by-element copy of an address list read from the chain equals the list |
| FactoryMappings.ReadTokenTable | src/mappings/factory.ts:67-83 | the loop fills the four token arrays with the table the vault reports |
| FactoryMappings.ReadVault | src/mappings/factory.ts:59-156 | the in-place field updates of `updateVault` produce the resynced vault |
| FactoryMappings.BuildSnapshot | src/mappings/factory.ts:207-238 | the loop over the token table builds the specified snapshot |
| FactoryMappings.CreateFactory | src/mappings/factory.ts:29-51 | saves the new factory, with the copied whitelist, under the factory address |
| FactoryMappings.UpdateVault | src/mappings/factory.ts:59-156 | saves the resynced vault under its own id |
| FactoryMappings.CreateVault | src/mappings/factory.ts:163-180 | saves the new vault, resynced, under its own id |
| FactoryMappings.CountVault | src/mappings/factory.ts:188-191 | loads or creates the factory and saves it with one more vault |
| FactoryMappings.OnCreateVault | src/mappings/factory.ts:186-198 | the body of the handler: the new store is `CreateVaultStep` of the old |
| FactoryMappings.HandleCreateVault | src/mappings/factory.ts:186-198 | on a well-formed store, the new store is `CreateVaultStep` of the old and is well formed |
| FactoryMappings.NewSnapshot | src/mappings/factory.ts:207-240 | saves the snapshot under its composite key and changes no other snapshot |
| FactoryMappings.HandleSetAccessManager | src/mappings/factory.ts:247-252 | on a well-formed store, the new store is `FactoryConfigStep` of the old and is well formed |
| FactoryMappings.HandleSetFeesManager | src/mappings/factory.ts:259-264 | on a well-formed store, the new store is `FactoryConfigStep` of the old and is well formed |
| FactoryMappings.HandleSetHarvester | src/mappings/factory.ts:271-277 | on a well-formed store, the new store is `FactoryConfigStep` of the old and is well formed |
| FactoryMappings.HandleSetSwapContracts | src/mappings/factory.ts:284-290 | on a well-formed store, the new store is `FactoryConfigStep` of the old and is well formed |
| FactoryMappings.HandleAddTokensAndPriceFeeds | src/mappings/factory.ts:297-306 | on a well-formed store, the new store is `FactoryConfigStep` of the old, with the copy loop for the token list, and is well formed |
| FactoryMappings.HandleRemoveTokensAndPriceFeeds | src/mappings/factory.ts:313-322 | on a well-formed store, the new store is `FactoryConfigStep` of the old, with the copy loop for the token list, and is well formed |
| FactoryMappings.HandleSetSwapAdapter | src/mappings/factory.ts:329-334 | on a well-formed store, the new store is `FactoryConfigStep` of the old and is well formed |
| FactoryMappings.HandleOwnershipTransferred | src/mappings/factory.ts:389-392 | the store is unchanged and stays well formed |
| FactoryMappings.TickVault | src/mappings/factory.ts:354-358 | one loop iteration writes one periodic snapshot and resyncs the vault under the tick's key, if any |
| FactoryMappings.TickAll | src/mappings/factory.ts:353-359 | the tick's loop writes `TickSnapshots` and `TickResyncs` of the factory's vault list |
| FactoryMappings.HandleNewBlock | src/mappings/factory.ts:343-363 | on a well-formed store, the new store is `NewBlockStep` of the old and is well formed |
| VaultMappings.Tallied | src/mappings/vault.ts:30-142 | a deposit, rebalance or redemption raises its own counter by one; a harvest adds its two amounts to its own two accumulators; nothing decreases and the rest is unchanged |
| VaultMappings.Recorded | src/mappings/vault.ts:35-138 | saving the event's record changes only the five record maps and leaves a record under the transaction hash |
| VaultMappings.VaultKey | src/mappings/vault.ts:33 | `event.address.toHexString()`: the emitting vault's key, the same key vault creation saves under (`Helpers.ToHexStringInjective` makes it one key per address) |
| VaultMappings.Indexed | src/mappings/vault.ts:31-34 | the two-level gate, factory then vault; `VaultMappings.ActivityStep` and `VaultMappings.AddAssetStep` are no-ops whenever it fails |
| VaultMappings.ActivityStep | src/mappings/vault.ts:31-34 | an activity event is a silent no-op unless the factory exists and the vault is indexed |
| VaultMappings.ActivityVault | src/mappings/vault.ts:30-142 | the event's vault keeps its identity, has its activity tallied and ends resynced; every other vault is unchanged |
| VaultMappings.ActivitySnapshot | src/mappings/vault.ts:49-50 | exactly one event-triggered snapshot of the emitting vault is written for the event's block; factory and templates are unchanged |
| VaultMappings.ActivityRecord | src/mappings/vault.ts:35-138 | exactly the record map of the event's kind gains, under the tx hash, the record naming the vault, sender, block time, every payload field and (for deposit, rebalance, redeem) the share price read after the event; the other record maps are unchanged |
| VaultMappings.RecordedWellformed | src/mappings/vault.ts:35-138 | saving a record keeps every record under its own id |
| VaultMappings.ActivityRecordsWellformed | src/mappings/vault.ts:30-142 | activity handlers keep every record under its own id |
| VaultMappings.ActivityKeepsWellformed | src/mappings/vault.ts:30-142 | activity handlers preserve the store invariant |
| VaultMappings.AddAssetStep | src/mappings/vault.ts:151-168 | adding an asset is a no-op unless the factory and vault exist, and otherwise changes only the vault map |
| VaultMappings.AddAssetResyncs | src/mappings/vault.ts:151-168 | with factory and vault present, the vault ends exactly as a resync alone would leave it |
| VaultMappings.AddAssetKeepsWellformed | src/mappings/vault.ts:151-168 | adding an asset preserves the store invariant |
| VaultMappings.Patched | src/mappings/vault.ts:172-247 | a configuration event changes neither identity nor activity, and sets shareTransferability only for its own event |
| VaultMappings.VaultConfigStep | src/mappings/vault.ts:172-247 | property and role handlers are no-ops without the vault, need no factory, and change only the vault map |
| VaultMappings.VaultConfigEffect | src/mappings/vault.ts:172-247 | the vault ends as a resync alone leaves it, plus the new flag for a share-transferability event |
| VaultMappings.VaultConfigVault | src/mappings/vault.ts:172-247 | the vault keeps its counters and accumulators, carries the event's flag and reflects the chain |
| VaultMappings.VaultConfigKeepsWellformed | src/mappings/vault.ts:172-247 | property and role handlers preserve the store invariant |
| VaultMappings.SaveSnapshotResync | src/mappings/vault.ts:49-50 | writes the event snapshot and saves the resynced vault |
| VaultMappings.OnDeposit | src/mappings/vault.ts:30-51 | the body of the handler: the new store is `ActivityStep` of the old for the deposit |
| VaultMappings.HandleDeposit | src/mappings/vault.ts:30-51 | on a well-formed store, the new store is `ActivityStep` of the old for the deposit and is well formed |
| VaultMappings.OnRebalance | src/mappings/vault.ts:53-75 | the body of the handler: the new store is `ActivityStep` of the old for the rebalance |
| VaultMappings.HandleRebalance | src/mappings/vault.ts:53-75 | on a well-formed store, the new store is `ActivityStep` of the old for the rebalance and is well formed |
| VaultMappings.OnRedeem | src/mappings/vault.ts:79-99 | the body of the handler: the new store is `ActivityStep` of the old for the redemption |
| VaultMappings.HandleRedeem | src/mappings/vault.ts:79-99 | on a well-formed store, the new store is `ActivityStep` of the old for the redemption and is well formed |
| VaultMappings.OnHarvestManagementFees | src/mappings/vault.ts:101-120 | the body of the handler: the new store is `ActivityStep` of the old for the harvest |
| VaultMappings.HandleHarvestManagementFees | src/mappings/vault.ts:101-120 | on a well-formed store, the new store is `ActivityStep` of the old for the harvest and is well formed |
| VaultMappings.OnHarvestPerformanceFees | src/mappings/vault.ts:122-142 | the body of the handler: the new store is `ActivityStep` of the old for the harvest |
| VaultMappings.HandleHarvestPerformanceFees | src/mappings/vault.ts:122-142 | on a well-formed store, the new store is `ActivityStep` of the old for the harvest and is well formed |
| VaultMappings.ReadTokenList | src/mappings/vault.ts:160-164 | the loop rebuilds the token list the vault reports |
| VaultMappings.OnAddAsset | src/mappings/vault.ts:151-168 | the body of the handler: the new store is `AddAssetStep` of the old |
| VaultMappings.HandleAddAsset | src/mappings/vault.ts:151-168 | on a well-formed store, the new store is `AddAssetStep` of the old and is well formed |
| VaultMappings.OnSetShareTransferability | src/mappings/vault.ts:172-179 | the body of the handler: the new store is `VaultConfigStep` of the old |
| VaultMappings.HandleSetShareTransferability | src/mappings/vault.ts:172-179 | on a well-formed store, the new store is `VaultConfigStep` of the old and is well formed |
| VaultMappings.OnSetSecurityProps | src/mappings/vault.ts:181-196 | the body of the handler: the new store is `VaultConfigStep` of the old |
| VaultMappings.HandleSetSecurityProps | src/mappings/vault.ts:181-196 | on a well-formed store, the new store is `VaultConfigStep` of the old and is well formed |
| VaultMappings.OnSetConfigProps | src/mappings/vault.ts:198-210 | the body of the handler: the new store is `VaultConfigStep` of the old |
| VaultMappings.HandleSetConfigProps | src/mappings/vault.ts:198-210 | on a well-formed store, the new store is `VaultConfigStep` of the old and is well formed |
| VaultMappings.OnSetFeesProps | src/mappings/vault.ts:212-226 | the body of the handler: the new store is `VaultConfigStep` of the old |
| VaultMappings.HandleSetFeesProps | src/mappings/vault.ts:212-226 | on a well-formed store, the new store is `VaultConfigStep` of the old and is well formed |
| VaultMappings.OnRoleEvent | src/mappings/vault.ts:228-247 | the body of the handler: the new store is `VaultConfigStep` of the old for any of the three role events |
| VaultMappings.HandleRoleEvent | src/mappings/vault.ts:228-247 | on a well-formed store, the new store is `VaultConfigStep` of the old for any of the three role events and is well formed |
| Subgraph.StepKeepsWellformed | src/mappings/factory.ts:186-392 | every handler preserves the store invariant |
| Subgraph.RunKeepsWellformed | src/mappings/vault.ts:30-247 | every sequence of handlers preserves the store invariant |
| Subgraph.CreateResetsActivity | src/mappings/factory.ts:163-178 | a repeated creation of an existing vault resets its counters and accumulators to zero |
| Subgraph.NewBlockKeepsActivity | src/mappings/factory.ts:343-363 | the block tick never changes counters or accumulators |
| Subgraph.ActivityGrows | src/mappings/vault.ts:30-142 | activity handlers never lower a counter or accumulator of any vault |
| Subgraph.VaultEventsKeepActivity | src/mappings/vault.ts:151-247 | asset, property and role handlers leave counters and accumulators unchanged |
| Subgraph.StepGrowsActivity | src/mappings/vault.ts:30-247 | any handler other than a re-creation of the vault never lowers its counters or accumulators |
| Subgraph.RunGrowsActivity | src/mappings/factory.ts:163-363 | across any handler sequence without a re-creation, counters and accumulators never decrease |
| Subgraph.TickGate | src/mappings/factory.ts:343-387 | with a factory, a block leaves the store unchanged exactly when it is at most 3600 seconds after the watermark |
| Subgraph.GateBoundary | src/mappings/factory.ts:371-387 | an elapsed 3600 seconds skips, and 3601 seconds proceeds |
| Subgraph.TickOverwritesEventSnapshot | src/mappings/factory.ts:214 | in the same block, the tick's snapshot replaces an event-triggered snapshot of the same vault |
| Subgraph.TickMissesVaults | src/mappings/factory.ts:356 | when no lookup key of the tick names a stored vault, the tick resyncs nothing |
| Subgraph.TickWithHexKeysResyncs | src/mappings/factory.ts:356 | if the tick looked vaults up by their hex key, every factory vault would be resynced |
| Subgraph.CreateThenDeposit | src/mappings/vault.ts:30-51 | creating a vault then depositing into it gives a factory count of 1, one deposit counted, a vault reflecting the deposit's reads, the deposit record with its shares and an event snapshot |
| Subgraph.DepositFacts | src/mappings/vault.ts:30-51 | a deposit into an indexed vault counts one deposit, leaves the factory alone, resyncs the vault, saves the record with its shares and writes the event snapshot |
| Subgraph.FirstVault | src/mappings/factory.ts:186-198 | the first vault creation on an empty store yields a well-formed store with one counted vault and zero activity |

## Left out

- The host runtime: `log.debug` calls, and `load`/`save` beyond map lookup and update. `VaultTemplate.create` is modelled only as adding the address to a set, because dynamic data-source registration is host I/O.
- Contract bindings and view calls. Their results come from the immutable `ChainView` parameter. A reverting call, which would abort the handler in the host, is not modelled.
- BigInt and `i32` widths and conversions (`toI32`, `fromI32`). The model uses unbounded `nat`/`int`, because overflow plays no part in the mapping logic.
- Concurrency and chain reorganisations. Handlers run one at a time to completion.
- `Address.fromString` on a string that is not a hex address. `Helpers.FromHexString` is specified only on the hex strings the mappings produce (`Helpers.FromHexStringInverse`), since vault ids are always such strings.
- The text of `Address.toString()` on a vault address (`src/mappings/factory.ts:356`). It is an unconstrained parameter `toKey`, because its relation to the hex key is not part of this model.
- Entity field layout. The `Vault` entity's many flat fields are grouped into sub-records: identity, activity, token table, roles, properties and state. `Factory`, the activity records and the snapshots keep the fields the handlers write.
- `Subgraph.RunGrowsActivity`: it holds only for sequences that do not re-create the vault, because a repeated `VaultCreated` resets the counters (`Subgraph.CreateResetsActivity`).
