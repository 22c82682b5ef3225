# BuildAz: the azurerm provider block generator

`BuildAz` (az_prov_inject.go) takes a populated `AzProv` record and builds
the Terraform `provider "<prov>" { ... }` block for the Azure provider with
hclwrite:

- the credential strings become string attributes of the provider body;
- the auxiliary tenant identifiers become one list attribute;
- the feature flags become a nested `features` block, appended last.

Inside `features`, the flag groups are handled first:

- the key-vault flags by an if/else chain;
- the virtual-machine flags by a second chain;
- the scale-set flags by a third.

Then a loop over the flag map `feats` handles the single flags, with a
`switch` on the boolean value. A loop over the string map `extras` writes
the credentials.

The model has three modules:

- `Hcl` (hcl.dfy) is the abstract tree hclwrite builds. A block has a type,
  labels and a body. A body is an ordered list of attributes and nested
  blocks. A `Body` class has the two operations the generator uses:
  - `SetAttributeValue` replaces the first attribute with that name in
    place, or appends a new one;
  - `AppendBlock` appends a block.

  Nested blocks are held by value. For the key_vault, virtual_machine,
  scale-set, single-flag and `features` blocks that is exact, because each
  body is complete before it is appended (lines 148, 429, 619). The provider
  block is the exception: the source appends it to the root at line 120 and
  fills its body afterwards. The model builds the root at the end instead.
  The final tree is the same, because nothing reads the root before
  `writer.Bytes()` at line 621.
- `MapRange` (map_range.dfy) models a Go `for k, v := range m` over a map
  with fixed keys. The iteration order is any sequence that is a
  permutation of the map's entries. It proves the generic facts:
  - the items added, as a multiset, do not depend on the order;
  - a loop that sets each name at most once only ever appends.
- `AzProvInject` (az_prov_inject.dfy) holds:
  - the record (`AzProv` and the datatypes under it, lines 19-67), field
    for field;
  - the two map literals (`FeatEntries`, `ExtraEntries`);
  - closed-form tables of what each chain and loop writes;
  - the generator as imperative methods over `Body` objects, each proved
    against its table.

  `AzProvProperties` (az_prov_properties.dfy) holds the theorems: the
  decision table, what the loops write, which keys are never written, the
  shape of the tree, and order independence.

`BuildAz` takes the two iteration orders (`featOrder`, `extraOrder`) as
parameters, because Go chooses them at run time. Its result is stated for
every order. The theorems assume what Go guarantees: each order is a
permutation of its map's entries.

What the code does, and the model with it:

- **Key-vault attributes are cross-wired.** `recover_soft_deleted_key_vaults`
  carries the purge flag and `purge_soft_delete_on_destroy` carries the
  soft-delete flag.
- **The virtual-machine block** is written only when at least two of its
  three flags are true: (T,T,T), (T,T,F), (F,T,T) and (T,F,T).
  - For (T,F,T) the block has no `delete_os_disk_on_deletion` attribute.
  - The arms at lines 245 and 323 repeat the condition of line 219, so they
    are never taken. They are `assert false` in `AppendVirtualMachine`.
- **The flag loop switches on the boolean.** It takes the first case whose
  boolean equals the value.
  - A false value therefore lands in a case whose body is guarded by
    `v == true`, and nothing is written.
  - The map keys `APIMngmtPurge` and `DisablePartnerId` do not match the
    case labels `"ApiMngmtPurge"` and `"DisablePartnerID"`. So no
    `api_management` block and no `disable_partner_id` attribute is ever
    written.
- **`use_msi`, `skip_provider_registration` and `storage_use_azuread`** are
  written on the `features` body, not the provider body.

## Model

| member | source | states |
|---|---|---|
| Hcl.SetAttr | az_prov_inject.go:488 | SetAttributeValue on a body: afterwards the body's attribute names are the old ones plus the name set. A name not yet present is appended at the end. |
| Hcl.SetAttrLookup | az_prov_inject.go:488 | After SetAttributeValue, the attribute set holds the value given. |
| Hcl.SetAttrOthers | az_prov_inject.go:488 | SetAttributeValue leaves the value of every other attribute unchanged. |
| Hcl.SetAttrInPlace | az_prov_inject.go:488 | Setting a name already present replaces it in place, so the body keeps its length. |
| Hcl.SetAttrTwice | az_prov_inject.go:488 | Setting the same name twice gives the body that setting it once to the second value gives. |
| Hcl.Body.constructor | az_prov_inject.go:124-126 | A new block body (`features`, or a nested block's `set`) is empty. |
| Hcl.Body.SetAttributeValue | az_prov_inject.go:140 | The body's new items are SetAttr of the old ones. |
| Hcl.Body.AppendBlock | az_prov_inject.go:148 | The block is appended after the body's old items. |
| MapRange.EmitsPermutation | az_prov_inject.go:416-521 | A range loop over any permutation of a map's entries adds the same multiset of items. |
| MapRange.RunLoopAppends | az_prov_inject.go:523-606 | On a body with no attributes, a loop whose entries set each name at most once only appends: the body becomes the old items followed by what each entry adds, in visiting order. |
| MapRange.DistinctKeysCount | az_prov_inject.go:77-94 | A map literal with distinct keys holds each entry at most once. |
| MapRange.NameSetOnlyBy | az_prov_inject.go:523-606 | If only entry e sets name n, then n is set only when e is visited. |
| MapRange.NameNeverSet | az_prov_inject.go:523-617 | A name that no entry can set is absent after the loop. Used for the credential loop: no credential key sets auxiliary_tenant_ids, so the SetAttributeValue at line 614 always appends. |
| AzProvInject.FeatEntries | az_prov_inject.go:77-94 | The flag map `feats`: sixteen entries with distinct keys, the feature flags and then the provider flags. Each key is bound to the record field it is read from, with the source's spellings `APIMngmtPurge` and `DisablePartnerId`. |
| AzProvInject.FeatureFlagEntries | az_prov_inject.go:78-89 | The twelve feature-flag entries of `feats`, with distinct keys. |
| AzProvInject.ProviderFlagEntries | az_prov_inject.go:90-93 | The four provider-flag entries of `feats` (UseMsi, DisablePartnerId, SkipProviderReg, StorageUseAzureAd), with distinct keys. |
| AzProvInject.ExtraEntries | az_prov_inject.go:96-107 | The credential map `extras`: ten entries with distinct keys, each bound to its record string. |
| AzProvInject.StringValues | az_prov_inject.go:609-613 | The tenant list has one string value per tenant, in order. |
| AzProvInject.AppendKeyVault | az_prov_inject.go:128-191 | The three-arm key-vault chain appends exactly KeyVaultPart to `features`. |
| AzProvInject.AppendVirtualMachine | az_prov_inject.go:193-349 | The six-arm virtual-machine chain appends exactly VirtualMachinePart; the arms at 245 and 323 are unreachable, and the guard at 307 never holds. |
| AzProvInject.VirtualMachineArm | az_prov_inject.go:193-218 | The body of one arm of the virtual-machine chain: a new virtual_machine block holding, in order, exactly the attributes whose inner guard holds, each set from that arm's vmopts. |
| AzProvInject.AppendScaleSet | az_prov_inject.go:351-414 | The three-arm scale-set chain appends exactly ScaleSetPart. |
| AzProvInject.ApplyFlag | az_prov_inject.go:417-520 | One iteration of the bool switch changes `features` exactly as FlagEffect of the entry says. |
| AzProvInject.ApplyExtra | az_prov_inject.go:524-605 | One iteration of the credential switch changes the provider body exactly as ExtraEffect of the entry says. |
| AzProvInject.TenantValues | az_prov_inject.go:609-613 | The append loop yields one StringVal per tenant identifier, same length, same order. |
| AzProvInject.BuildAz | az_prov_inject.go:75-626 | For the given map orders, the root body is the one provider block ProviderBlock describes. Its properties are the theorems below. |
| AzProvProperties.KeyVaultDecision | az_prov_inject.go:128-191 | A key_vault block is appended iff a key-vault flag is true. It has exactly the two attributes: recover_soft_deleted_key_vaults = purge flag, purge_soft_delete_on_destroy = soft-delete flag. |
| AzProvProperties.VirtualMachineMajority | az_prov_inject.go:193-349 | A virtual_machine block is appended iff at least two of its three flags are true, and at most one is appended. |
| AzProvProperties.VirtualMachineDecision | az_prov_inject.go:193-349 | An appended virtual_machine block has graceful_shutdown and skip_shutdown_and_force_delete equal to their flags. For (T,F,T) (lines 297-322) those two are its only attributes, so graceful_shutdown = false and skip_shutdown_and_force_delete = true. In the other arms it also holds delete_os_disk_on_deletion = its flag, and nothing else. |
| AzProvProperties.ScaleSetDecision | az_prov_inject.go:351-414 | A virtual_machine_scale_set block is appended iff a scale-set flag is true; force_delete and roll_instances_when_required equal their flags. |
| AzProvProperties.GroupBlocksShape | az_prov_inject.go:128-414 | The three chains add at most three items, all key_vault, virtual_machine or virtual_machine_scale_set blocks, and no attribute. |
| AzProvProperties.FalseFlagIgnored | az_prov_inject.go:416-430 | A false flag adds nothing, whatever its key. |
| AzProvProperties.FlagKeysIgnored | az_prov_inject.go:418-430 | APIMngmtPurge, KvPurge and KvSoftDelete add nothing for either value. |
| AzProvProperties.DisablePartnerIdIgnored | az_prov_inject.go:490-497 | The DisablePartnerId entry has no effect for either value. |
| AzProvProperties.VirtualMachineFlagKeysIgnored | az_prov_inject.go:514-519 | The three virtual-machine keys add nothing in the loop. |
| AzProvProperties.ScaleSetFlagKeysIgnored | az_prov_inject.go:514-519 | The two scale-set keys add nothing in the loop. |
| AzProvProperties.FeatureFlagKeysHandled | az_prov_inject.go:431-481 | CogAccountPurge, LogAnalyticsPermDelete, ResourceGroupPrevDelete and TempDeploy each append one single-attribute block (value true) when true, and nothing when false. |
| AzProvProperties.ProviderFlagKeysHandled | az_prov_inject.go:482-513 | UseMsi, SkipProviderReg and StorageUseAzureAd each set their attribute to true on `features` when true, and nothing when false. |
| AzProvProperties.FlagAttributeOwner | az_prov_inject.go:482-513 | An entry sets an attribute iff its value is true and its key is one of the four attribute case labels. |
| AzProvProperties.FlagAttributeName | az_prov_inject.go:482-513 | Each of those labels sets its own attribute name, to true. |
| AzProvProperties.FlagEntriesSetOnce | az_prov_inject.go:77-94 | In the flag map, every attribute-setting entry occurs once, and no two entries set the same name. |
| AzProvProperties.ExtraEffectSets | az_prov_inject.go:523-606 | A credential entry sets an attribute iff its key has a case and its string is non-empty. It sets its case's name to `Str(v)`, the model of `cty.StringVal(v)`. |
| AzProvProperties.ExtraEntriesSetOnce | az_prov_inject.go:96-107 | In the credential map, every entry occurs once, and no two entries set the same name. |
| AzProvProperties.FeatureFlagLoop | az_prov_inject.go:416-521 | Over the twelve feature flags, the loop adds exactly FeatureFlagTable. |
| AzProvProperties.ProviderFlagLoop | az_prov_inject.go:482-513 | Over the four provider flags, the loop adds exactly ProviderFlagTable, which has no disable_partner_id. |
| AzProvProperties.FlagLoop | az_prov_inject.go:416-521 | Over the flag map in written order, the loop adds exactly FlagTable. |
| AzProvProperties.CredentialKeysFirst | az_prov_inject.go:525-556 | ClientId, Env, SubId and TenantId set client_id, environment, subscription_id and tenant_id to a non-empty string, and skip an empty one. |
| AzProvProperties.CredentialKeysMiddle | az_prov_inject.go:557-588 | The same for client_certificate_password, client_certificate_path, client_secret and msi_endpoint. |
| AzProvProperties.CredentialKeysLast | az_prov_inject.go:589-604 | The same for metadata_host and partner_id. |
| AzProvProperties.CredentialLoop | az_prov_inject.go:523-606 | Over the credential map in written order, the loop adds exactly CredentialTable. |
| AzProvProperties.FeaturesContents | az_prov_inject.go:416-521 | In any order, the features body is the grouped blocks followed by what the loop adds, and that is FlagTable up to order. |
| AzProvProperties.FlagLoopItems | az_prov_inject.go:416-521 | In any order, every item the flag loop adds belongs to FlagTable. |
| AzProvProperties.FlagLoopNeverWrites | az_prov_inject.go:416-521 | In any order, the flag loop adds no api_management block and no disable_partner_id attribute. |
| AzProvProperties.NeverWritten | az_prov_inject.go:418-497 | In any order, the features body holds no api_management block and no disable_partner_id attribute. |
| AzProvProperties.CredentialLoopAppends | az_prov_inject.go:523-606 | In any order, the credential loop only appends attributes, none named auxiliary_tenant_ids. |
| AzProvProperties.ProviderAttributesAppend | az_prov_inject.go:608-617 | auxiliary_tenant_ids is appended after the credentials iff the tenant list is non-empty. |
| AzProvProperties.CredentialsAnyOrder | az_prov_inject.go:523-606 | In any order, the credential loop adds CredentialTable up to order. |
| AzProvProperties.ProviderAttributesContents | az_prov_inject.go:523-617 | The provider attributes are the credentials, which are CredentialTable up to order, then the tenant list; all of them are attributes. |
| AzProvProperties.ProviderAttributesMultiset | az_prov_inject.go:523-617 | The provider attributes are CredentialTable plus the tenant list, as a multiset. |
| AzProvProperties.ProviderAttributesShape | az_prov_inject.go:523-617 | The provider attributes: count, all attributes, multiset, and the tenant list last. |
| AzProvProperties.FeaturesSplit | az_prov_inject.go:128-521 | The features body starts with the grouped blocks in order; the rest is FlagTable up to order. |
| AzProvProperties.BuildAzTree | az_prov_inject.go:118-619 | One provider block labelled prov. Its body is the provider attributes followed by the features block, which is appended last even when empty. The shapes of both are as stated above. |
| AzProvProperties.WrittenOrderTree | az_prov_inject.go:77-619 | When both maps are ranged in written order, the tree is exactly CredentialTable, the tenant list, and features = grouped blocks + FlagTable. |
| AzProvProperties.OrderIndependence | az_prov_inject.go:416-606 | Two runs with different map orders write the same provider attributes and the same features contents, as multisets. |

## Left out

- Opening the target file, writing the serialised bytes, `log.Fatal` on errors, and the byte count returned (lines 113-116, 621-625): these are operating-system I/O. `BuildAz` returns the root body instead.
- `ReadFile`, JSON unmarshalling into the global `prov`, and the struct tags (lines 69-71, 628-643): file I/O and a foreign parser. The record is taken as already populated.
- hclwrite and cty themselves, and serialisation (`writer.Bytes()`): a foreign library. Only the abstract tree and the two body operations are modelled.
- Progress logging with `fmt.Println`/`Printf`, including the `default` case's print loop (lines 515-519): it has no effect on the tree.
- The local `kvopts`, `vmopts` and `vmssopts` slices are kept as sequence literals, not built by `append`.
- The concrete order Go picks for each map: it is a parameter, constrained only to be a permutation of the entries. The theorems state contents up to order, and exact order only for the written order.
- `Str(v)` stands for `cty.StringVal(v)`. The model does not capture cty's normalisation of strings to Unicode NFC, since strings here are plain character sequences. Credential and tenant strings are therefore written as given only up to that normalisation.
- A nil `fields` argument: the record is passed by value, so the panic on a nil dereference is not modelled.
- Reads of the map inside the flag-group chains (`feats["KvPurge"]`) are modelled as reads of the record field the map entry was initialised from.
