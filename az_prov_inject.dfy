/**
 BuildAz: turns a populated Azure configuration record into a `provider`
 block with a nested `features` block. The model builds the block tree with
 the same body calls, in the same order, as the generator does; the Go maps
 `feats` and `extras` are ranged over in any order that visits each of their
 entries once.
 */
module AzProvInject {
  import opened Hcl
  import opened MapRange

  // The configuration record (AzProv), field for field.
  datatype ApiMngmt = ApiMngmt(purgeOnDestroy: bool)
  datatype CogAccount = CogAccount(purgeOnDestroy: bool)
  datatype KeyVault = KeyVault(purgeOnDestroy: bool, recoverSoftDelete: bool)
  datatype LogAnalyticsWrkSpc = LogAnalyticsWrkSpc(permDeleteOnDestroy: bool)
  datatype ResourceGroup = ResourceGroup(prevDeleteIfRes: bool)
  datatype TempDeploy = TempDeploy(deleteNestedItems: bool)
  datatype VirtMachine = VirtMachine(deleteOsDisk: bool, gracefulShutdown: bool, skipShutForceDelete: bool)
  datatype Vmss = Vmss(forceDelete: bool, rollInstances: bool)

  datatype Features = Features(
    apiMngmt: ApiMngmt,
    cogAccount: CogAccount,
    keyVault: KeyVault,
    logAnalyticsWrkSpc: LogAnalyticsWrkSpc,
    resourceGroup: ResourceGroup,
    tempDeploy: TempDeploy,
    virtMachine: VirtMachine,
    vmss: Vmss)

  datatype Azure = Azure(
    features: Features,
    clientId: string,
    environment: string,
    subId: string,
    tenantId: string,
    auxTenantId: seq<string>,
    clientCertPass: string,
    clientCertPath: string,
    clientSecret: string,
    msiEndpoint: string,
    useMsi: bool,
    disablePartnerId: bool,
    metaHost: string,
    partnerId: string,
    skipProviderReg: bool,
    storageUseAzureAd: bool)

  datatype AzProv = AzProv(azure: Azure)

  /** The entries of the flag map `feats`, in the order they are written: the feature flags, then the provider flags. */
  function FeatEntries(a: Azure): (r: seq<(string, bool)>)
    ensures |r| == 16 && DistinctKeys(r)
  {
    FeatureFlagEntries(a.features) + ProviderFlagEntries(a)
  }

  function FeatureFlagEntries(f: Features): (r: seq<(string, bool)>)
    ensures |r| == 12 && DistinctKeys(r)
  {
    [ ("APIMngmtPurge", f.apiMngmt.purgeOnDestroy),
      ("CogAccountPurge", f.cogAccount.purgeOnDestroy),
      ("KvPurge", f.keyVault.purgeOnDestroy),
      ("KvSoftDelete", f.keyVault.recoverSoftDelete),
      ("LogAnalyticsPermDelete", f.logAnalyticsWrkSpc.permDeleteOnDestroy),
      ("ResourceGroupPrevDelete", f.resourceGroup.prevDeleteIfRes),
      ("TempDeploy", f.tempDeploy.deleteNestedItems),
      ("VirtMachineDeleteOsDisk", f.virtMachine.deleteOsDisk),
      ("VirtMachineGracefulShutdown", f.virtMachine.gracefulShutdown),
      ("VirtMachineForceDelete", f.virtMachine.skipShutForceDelete),
      ("VmssForceDelete", f.vmss.forceDelete),
      ("VmssRollInstances", f.vmss.rollInstances) ]
  }

  function ProviderFlagEntries(a: Azure): (r: seq<(string, bool)>)
    ensures |r| == 4 && DistinctKeys(r)
  {
    [ ("UseMsi", a.useMsi),
      ("DisablePartnerId", a.disablePartnerId),
      ("SkipProviderReg", a.skipProviderReg),
      ("StorageUseAzureAd", a.storageUseAzureAd) ]
  }

  /** The entries of the credential map `extras`, in the order they are written. */
  function ExtraEntries(a: Azure): (r: seq<(string, string)>)
    ensures |r| == 10 && DistinctKeys(r)
  {
    [ ("ClientId", a.clientId),
      ("Env", a.environment),
      ("SubId", a.subId),
      ("TenantId", a.tenantId),
      ("ClientCertPass", a.clientCertPass),
      ("ClientCertPath", a.clientCertPath),
      ("ClientSecret", a.clientSecret),
      ("MsiEndpoint", a.msiEndpoint),
      ("MetaHost", a.metaHost),
      ("PartnerId", a.partnerId) ]
  }

  // ---------------------------------------------------------------------------
  // The grouped flags: what each if/else chain appends to `features`.

  function KeyVaultBlock(purge: bool, softDelete: bool): Block {
    Block("key_vault", [], [
      Attribute("recover_soft_deleted_key_vaults", Bool(purge)),
      Attribute("purge_soft_delete_on_destroy", Bool(softDelete))])
  }

  /**
   A key_vault block is appended unless both flags are false. The purge flag
   is written as recover_soft_deleted_key_vaults and the soft-delete flag as
   purge_soft_delete_on_destroy.
   */
  function KeyVaultPart(kv: KeyVault): seq<Item> {
    if kv.purgeOnDestroy || kv.recoverSoftDelete then
      [Nested(KeyVaultBlock(kv.purgeOnDestroy, kv.recoverSoftDelete))]
    else []
  }

  /** The combinations the virtual-machine chain handles: at least two of the three flags are true. */
  predicate VirtualMachineHandled(vm: VirtMachine) {
    var d, g, f := vm.deleteOsDisk, vm.gracefulShutdown, vm.skipShutForceDelete;
    (d && g) || (g && f) || (d && f)
  }

  /**
   A virtual_machine block is appended for (T,T,T), (T,T,F), (F,T,T) and
   (T,F,T). For (T,F,T) the block has no delete_os_disk_on_deletion
   attribute; otherwise all three attributes carry their flags.
   */
  function VirtualMachinePart(vm: VirtMachine): seq<Item> {
    var d, g, f := vm.deleteOsDisk, vm.gracefulShutdown, vm.skipShutForceDelete;
    if !VirtualMachineHandled(vm) then []
    else if d && !g && f then
      [Nested(Block("virtual_machine", [], [
        Attribute("graceful_shutdown", Bool(false)),
        Attribute("skip_shutdown_and_force_delete", Bool(true))]))]
    else
      [Nested(Block("virtual_machine", [], [
        Attribute("delete_os_disk_on_deletion", Bool(d)),
        Attribute("graceful_shutdown", Bool(g)),
        Attribute("skip_shutdown_and_force_delete", Bool(f))]))]
  }

  /** A virtual_machine_scale_set block is appended unless both flags are false. */
  function ScaleSetPart(vmss: Vmss): seq<Item> {
    if vmss.forceDelete || vmss.rollInstances then
      [Nested(Block("virtual_machine_scale_set", [], [
        Attribute("force_delete", Bool(vmss.forceDelete)),
        Attribute("roll_instances_when_required", Bool(vmss.rollInstances))]))]
    else []
  }

  /** The blocks in `features` before the flag loop runs. */
  function GroupBlocks(f: Features): seq<Item> {
    KeyVaultPart(f.keyVault) + VirtualMachinePart(f.virtMachine) + ScaleSetPart(f.vmss)
  }

  // ---------------------------------------------------------------------------
  // The flag loop.

  function SingleFlagBlock(kind: string, attr: string): Block {
    Block(kind, [], [Attribute(attr, Bool(true))])
  }

  /**
   What one iteration of the flag loop does with the entry (k, v). A false
   value does nothing. A true value does what the case labelled with k does;
   the labels are spelled "ApiMngmtPurge" and "DisablePartnerID", and a key
   that matches no label reaches the default case, which only logs.
   */
  function FlagEffect(k: string, v: bool): Effect {
    if !v then NoEffect
    else if k == "ApiMngmtPurge" then AppendBlockEffect(SingleFlagBlock("api_management", "purge_soft_delete_on_destroy"))
    else if k == "CogAccountPurge" then AppendBlockEffect(SingleFlagBlock("cognitive_account", "purge_soft_delete_on_destroy"))
    else if k == "LogAnalyticsPermDelete" then AppendBlockEffect(SingleFlagBlock("log_analytics_workspace", "permanently_delete_on_destroy"))
    else if k == "ResourceGroupPrevDelete" then AppendBlockEffect(SingleFlagBlock("resource_group", "prevent_deletion_if_contains_resources"))
    else if k == "TempDeploy" then AppendBlockEffect(SingleFlagBlock("template_deployment", "delete_nested_items_during_deletion"))
    else if k == "UseMsi" then SetAttributeEffect("use_msi", Bool(true))
    else if k == "DisablePartnerID" then SetAttributeEffect("disable_partner_id", Bool(true))
    else if k == "SkipProviderReg" then SetAttributeEffect("skip_provider_registration", Bool(true))
    else if k == "StorageUseAzureAd" then SetAttributeEffect("storage_use_azuread", Bool(true))
    else NoEffect
  }

  function FlagEntryEffect(e: (string, bool)): Effect {
    FlagEffect(e.0, e.1)
  }

  /** What the flag loop adds to `features`, for the flags as they are in the record. */
  function FlagTable(a: Azure): seq<Item> {
    FeatureFlagTable(a.features) + ProviderFlagTable(a)
  }

  /** Only four of the feature flags are handled by the loop; the case for the api-management flag never matches. */
  function FeatureFlagTable(f: Features): seq<Item> {
    (if f.cogAccount.purgeOnDestroy then [Nested(SingleFlagBlock("cognitive_account", "purge_soft_delete_on_destroy"))] else [])
    + (if f.logAnalyticsWrkSpc.permDeleteOnDestroy then [Nested(SingleFlagBlock("log_analytics_workspace", "permanently_delete_on_destroy"))] else [])
    + (if f.resourceGroup.prevDeleteIfRes then [Nested(SingleFlagBlock("resource_group", "prevent_deletion_if_contains_resources"))] else [])
    + (if f.tempDeploy.deleteNestedItems then [Nested(SingleFlagBlock("template_deployment", "delete_nested_items_during_deletion"))] else [])
  }

  /** The disable-partner-id flag's key does not match its case, so it is never written. */
  function ProviderFlagTable(a: Azure): seq<Item> {
    (if a.useMsi then [Attribute("use_msi", Bool(true))] else [])
    + (if a.skipProviderReg then [Attribute("skip_provider_registration", Bool(true))] else [])
    + (if a.storageUseAzureAd then [Attribute("storage_use_azuread", Bool(true))] else [])
  }

  // ---------------------------------------------------------------------------
  // The credential loop.

  /** The attribute each credential key is written under; None for a key without a case. */
  function CredentialAttribute(k: string): Option<string> {
    if k == "ClientId" then Some("client_id")
    else if k == "Env" then Some("environment")
    else if k == "SubId" then Some("subscription_id")
    else if k == "TenantId" then Some("tenant_id")
    else if k == "ClientCertPass" then Some("client_certificate_password")
    else if k == "ClientCertPath" then Some("client_certificate_path")
    else if k == "ClientSecret" then Some("client_secret")
    else if k == "MsiEndpoint" then Some("msi_endpoint")
    else if k == "MetaHost" then Some("metadata_host")
    else if k == "PartnerId" then Some("partner_id")
    else None
  }

  /** A non-empty string is set verbatim under its attribute name; an empty one is skipped. */
  function ExtraEffect(k: string, v: string): Effect {
    match CredentialAttribute(k)
    case Some(n) => if |v| != 0 then SetAttributeEffect(n, Str(v)) else NoEffect
    case None => NoEffect
  }

  function ExtraEntryEffect(e: (string, string)): Effect {
    ExtraEffect(e.0, e.1)
  }

  function OptionalString(n: string, v: string): seq<Item> {
    if |v| != 0 then [Attribute(n, Str(v))] else []
  }

  /** What the credential loop adds to the provider body, for the strings as they are in the record. */
  function CredentialTable(a: Azure): seq<Item> {
    OptionalString("client_id", a.clientId)
    + OptionalString("environment", a.environment)
    + OptionalString("subscription_id", a.subId)
    + OptionalString("tenant_id", a.tenantId)
    + OptionalString("client_certificate_password", a.clientCertPass)
    + OptionalString("client_certificate_path", a.clientCertPath)
    + OptionalString("client_secret", a.clientSecret)
    + OptionalString("msi_endpoint", a.msiEndpoint)
    + OptionalString("metadata_host", a.metaHost)
    + OptionalString("partner_id", a.partnerId)
  }

  // ---------------------------------------------------------------------------
  // The auxiliary tenant list.

  /** The list value for the tenants: one string value per tenant, in order. */
  function StringValues(ids: seq<string>): (r: seq<Value>)
    ensures |r| == |ids|
    ensures forall i :: 0 <= i < |ids| ==> r[i] == Str(ids[i])
    decreases |ids|
  {
    if ids == [] then [] else StringValues(ids[..|ids| - 1]) + [Str(ids[|ids| - 1])]
  }

  /** auxiliary_tenant_ids is written only for a non-empty list. */
  function AuxTenantItems(ids: seq<string>): seq<Item> {
    if |ids| != 0 then [Attribute("auxiliary_tenant_ids", List(StringValues(ids)))] else []
  }

  // ---------------------------------------------------------------------------
  // The tree BuildAz builds, for given iteration orders of the two maps.

  function FeaturesBody(a: Azure, featOrder: seq<(string, bool)>): seq<Item> {
    RunLoop(FlagEntryEffect, GroupBlocks(a.features), featOrder)
  }

  function ProviderAttributes(a: Azure, extraOrder: seq<(string, string)>): seq<Item> {
    var credentials := RunLoop(ExtraEntryEffect, [], extraOrder);
    if |a.auxTenantId| != 0 then
      SetAttr(credentials, "auxiliary_tenant_ids", List(StringValues(a.auxTenantId)))
    else credentials
  }

  function ProviderBlock(prov: string, a: Azure, featOrder: seq<(string, bool)>, extraOrder: seq<(string, string)>): Block {
    Block("provider", [prov],
      ProviderAttributes(a, extraOrder) + [Nested(Block("features", [], FeaturesBody(a, featOrder)))])
  }

  // ---------------------------------------------------------------------------
  // The generator, step by step.

  /** Lines 128-191: the key-vault chain. */
  method AppendKeyVault(features: Body, kv: KeyVault)
    modifies features
    ensures features.items == old(features.items) + KeyVaultPart(kv)
  {
    var purge, softDelete := kv.purgeOnDestroy, kv.recoverSoftDelete;
    if purge && softDelete == true {
      var kvopts := [true, true];
      var blockBody := new Body();
      if purge {
        blockBody.SetAttributeValue("recover_soft_deleted_key_vaults", Bool(kvopts[0]));
      }
      if softDelete {
        blockBody.SetAttributeValue("purge_soft_delete_on_destroy", Bool(kvopts[1]));
      }
      assert blockBody.items == KeyVaultPart(kv)[0].block.body;
      features.AppendBlock(Block("key_vault", [], blockBody.items));
    } else if purge == true && softDelete == false {
      var kvopts := [true, false];
      var blockBody := new Body();
      if purge {
        blockBody.SetAttributeValue("recover_soft_deleted_key_vaults", Bool(kvopts[0]));
      }
      if softDelete == false {
        blockBody.SetAttributeValue("purge_soft_delete_on_destroy", Bool(kvopts[1]));
      }
      assert blockBody.items == KeyVaultPart(kv)[0].block.body;
      features.AppendBlock(Block("key_vault", [], blockBody.items));
    } else if purge == false && softDelete == true {
      var kvopts := [false, true];
      var blockBody := new Body();
      if purge == false {
        blockBody.SetAttributeValue("recover_soft_deleted_key_vaults", Bool(kvopts[0]));
      }
      if softDelete {
        blockBody.SetAttributeValue("purge_soft_delete_on_destroy", Bool(kvopts[1]));
      }
      assert blockBody.items == KeyVaultPart(kv)[0].block.body;
      features.AppendBlock(Block("key_vault", [], blockBody.items));
    } else {
      assert features.items + KeyVaultPart(kv) == features.items;
    }
  }

  function OptionalAttribute(present: bool, n: string, v: bool): seq<Item> {
    if present then [Attribute(n, Bool(v))] else []
  }

  /**
   The body of one arm of the virtual-machine chain: a new virtual_machine
   block whose three attributes are each set from vmopts when that arm's
   inner guard (setDelete, setGraceful, setForce) holds.
   */
  method VirtualMachineArm(vmopts: seq<bool>, setDelete: bool, setGraceful: bool, setForce: bool) returns (block: Block)
    requires |vmopts| == 3
    ensures block == Block("virtual_machine", [],
      OptionalAttribute(setDelete, "delete_os_disk_on_deletion", vmopts[0])
      + OptionalAttribute(setGraceful, "graceful_shutdown", vmopts[1])
      + OptionalAttribute(setForce, "skip_shutdown_and_force_delete", vmopts[2]))
  {
    var first := OptionalAttribute(setDelete, "delete_os_disk_on_deletion", vmopts[0]);
    var second := OptionalAttribute(setGraceful, "graceful_shutdown", vmopts[1]);
    var third := OptionalAttribute(setForce, "skip_shutdown_and_force_delete", vmopts[2]);
    var blockBody := new Body();
    if setDelete {
      blockBody.SetAttributeValue("delete_os_disk_on_deletion", Bool(vmopts[0]));
    }
    assert blockBody.items == first;
    assert Names(first) <= {"delete_os_disk_on_deletion"};
    if setGraceful {
      blockBody.SetAttributeValue("graceful_shutdown", Bool(vmopts[1]));
    }
    assert blockBody.items == first + second;
    NamesConcat(first, second);
    assert Names(second) <= {"graceful_shutdown"};
    if setForce {
      blockBody.SetAttributeValue("skip_shutdown_and_force_delete", Bool(vmopts[2]));
    }
    assert blockBody.items == first + second + third;
    block := Block("virtual_machine", [], blockBody.items);
  }

  /**
   Lines 193-349: the virtual-machine chain. The arms at lines 245 and 323
   test the same combination as the arm at line 219, so they are never taken.
   In the arm at line 297 the guard at line 307 is false, so that arm never
   sets delete_os_disk_on_deletion.
   */
  method AppendVirtualMachine(features: Body, vm: VirtMachine)
    modifies features
    ensures features.items == old(features.items) + VirtualMachinePart(vm)
  {
    var d, g, f := vm.deleteOsDisk, vm.gracefulShutdown, vm.skipShutForceDelete;
    if d && g && f == true {
      var block := VirtualMachineArm([true, true, true], d, g, f);
      assert block.body == [Attribute("delete_os_disk_on_deletion", Bool(true)), Attribute("graceful_shutdown", Bool(true)),
                            Attribute("skip_shutdown_and_force_delete", Bool(true))];
      features.AppendBlock(block);
    } else if d && g == true && f == false {
      var block := VirtualMachineArm([true, true, false], d, g, f == false);
      assert block.body == [Attribute("delete_os_disk_on_deletion", Bool(true)), Attribute("graceful_shutdown", Bool(true)),
                            Attribute("skip_shutdown_and_force_delete", Bool(false))];
      features.AppendBlock(block);
    } else if d == true && g && f == false {
      // line 245
      assert false;
    } else if d == false && g && f == true {
      var block := VirtualMachineArm([false, true, true], d == false, g, f);
      assert block.body == [Attribute("delete_os_disk_on_deletion", Bool(false)), Attribute("graceful_shutdown", Bool(true)),
                            Attribute("skip_shutdown_and_force_delete", Bool(true))];
      features.AppendBlock(block);
    } else if d && g == false && f == true {
      var block := VirtualMachineArm([false, false, true], d == false, g == false, f);
      assert block.body == [Attribute("graceful_shutdown", Bool(false)), Attribute("skip_shutdown_and_force_delete", Bool(true))];
      features.AppendBlock(block);
    } else if d && f == false && g == true {
      // line 323
      assert false;
    } else {
      assert features.items + VirtualMachinePart(vm) == features.items;
    }
  }

  /** Lines 351-414: the scale-set chain. */
  method AppendScaleSet(features: Body, vmss: Vmss)
    modifies features
    ensures features.items == old(features.items) + ScaleSetPart(vmss)
  {
    var force, roll := vmss.forceDelete, vmss.rollInstances;
    if force && roll == true {
      var vmssopts := [true, true];
      var blockBody := new Body();
      if force {
        blockBody.SetAttributeValue("force_delete", Bool(vmssopts[0]));
      }
      if roll {
        blockBody.SetAttributeValue("roll_instances_when_required", Bool(vmssopts[1]));
      }
      assert blockBody.items == ScaleSetPart(vmss)[0].block.body;
      features.AppendBlock(Block("virtual_machine_scale_set", [], blockBody.items));
    } else if force == false && roll == true {
      var vmssopts := [false, true];
      var blockBody := new Body();
      if force == false {
        blockBody.SetAttributeValue("force_delete", Bool(vmssopts[0]));
      }
      if roll {
        blockBody.SetAttributeValue("roll_instances_when_required", Bool(vmssopts[1]));
      }
      assert blockBody.items == ScaleSetPart(vmss)[0].block.body;
      features.AppendBlock(Block("virtual_machine_scale_set", [], blockBody.items));
    } else if force == true && roll == false {
      var vmssopts := [true, false];
      var blockBody := new Body();
      if force {
        blockBody.SetAttributeValue("force_delete", Bool(vmssopts[0]));
      }
      if roll == false {
        blockBody.SetAttributeValue("roll_instances_when_required", Bool(vmssopts[1]));
      }
      assert blockBody.items == ScaleSetPart(vmss)[0].block.body;
      features.AppendBlock(Block("virtual_machine_scale_set", [], blockBody.items));
    } else {
      assert features.items + ScaleSetPart(vmss) == features.items;
    }
  }

  /**
   Lines 417-520: one iteration of the flag loop, `switch v { case k == "...": }`.
   The switch takes the first case whose boolean equals v.
   */
  method ApplyFlag(features: Body, k: string, v: bool)
    modifies features
    ensures features.items == Apply(old(features.items), FlagEffect(k, v))
  {
    if v == (k == "ApiMngmtPurge") {
      if v == true {
        var blockBody := new Body();
        blockBody.SetAttributeValue("purge_soft_delete_on_destroy", Bool(v));
        features.AppendBlock(Block("api_management", [], blockBody.items));
      }
    } else if v == (k == "CogAccountPurge") {
      if v == true {
        var blockBody := new Body();
        blockBody.SetAttributeValue("purge_soft_delete_on_destroy", Bool(v));
        features.AppendBlock(Block("cognitive_account", [], blockBody.items));
      }
    } else if v == (k == "LogAnalyticsPermDelete") {
      if v == true {
        var blockBody := new Body();
        blockBody.SetAttributeValue("permanently_delete_on_destroy", Bool(v));
        features.AppendBlock(Block("log_analytics_workspace", [], blockBody.items));
      }
    } else if v == (k == "ResourceGroupPrevDelete") {
      if v == true {
        var blockBody := new Body();
        blockBody.SetAttributeValue("prevent_deletion_if_contains_resources", Bool(v));
        features.AppendBlock(Block("resource_group", [], blockBody.items));
      }
    } else if v == (k == "TempDeploy") {
      if v == true {
        var blockBody := new Body();
        blockBody.SetAttributeValue("delete_nested_items_during_deletion", Bool(v));
        features.AppendBlock(Block("template_deployment", [], blockBody.items));
      }
    } else if v == (k == "UseMsi") {
      if v == true {
        features.SetAttributeValue("use_msi", Bool(v));
      }
    } else if v == (k == "DisablePartnerID") {
      if v == true {
        features.SetAttributeValue("disable_partner_id", Bool(v));
      }
    } else if v == (k == "SkipProviderReg") {
      if v == true {
        features.SetAttributeValue("skip_provider_registration", Bool(v));
      }
    } else if v == (k == "StorageUseAzureAd") {
      if v == true {
        features.SetAttributeValue("storage_use_azuread", Bool(v));
      }
    }
    // default: the false entries are only logged
  }

  /** Lines 524-605: one iteration of the credential loop, `switch k`. */
  method ApplyExtra(providerBody: Body, k: string, v: string)
    modifies providerBody
    ensures providerBody.items == Apply(old(providerBody.items), ExtraEffect(k, v))
  {
    if k == "ClientId" {
      if |v| != 0 { providerBody.SetAttributeValue("client_id", Str(v)); }
    } else if k == "Env" {
      if |v| != 0 { providerBody.SetAttributeValue("environment", Str(v)); }
    } else if k == "SubId" {
      if |v| != 0 { providerBody.SetAttributeValue("subscription_id", Str(v)); }
    } else if k == "TenantId" {
      if |v| != 0 { providerBody.SetAttributeValue("tenant_id", Str(v)); }
    } else if k == "ClientCertPass" {
      if |v| != 0 { providerBody.SetAttributeValue("client_certificate_password", Str(v)); }
    } else if k == "ClientCertPath" {
      if |v| != 0 { providerBody.SetAttributeValue("client_certificate_path", Str(v)); }
    } else if k == "ClientSecret" {
      if |v| != 0 { providerBody.SetAttributeValue("client_secret", Str(v)); }
    } else if k == "MsiEndpoint" {
      if |v| != 0 { providerBody.SetAttributeValue("msi_endpoint", Str(v)); }
    } else if k == "MetaHost" {
      if |v| != 0 { providerBody.SetAttributeValue("metadata_host", Str(v)); }
    } else if k == "PartnerId" {
      if |v| != 0 { providerBody.SetAttributeValue("partner_id", Str(v)); }
    }
  }

  /** Lines 609-613: the list of string values for the auxiliary tenants. */
  method TenantValues(ids: seq<string>) returns (vals: seq<Value>)
    ensures |vals| == |ids|
    ensures forall i :: 0 <= i < |ids| ==> vals[i] == Str(ids[i])
  {
    vals := [];
    for i := 0 to |ids|
      invariant |vals| == i
      invariant forall j :: 0 <= j < i ==> vals[j] == Str(ids[j])
    {
      vals := vals + [Str(ids[i])];
    }
  }

  /**
   BuildAz without the file: the root body of the generated file. featOrder
   and extraOrder are the orders in which the two map loops visit their
   maps; Go makes each a permutation of the map's entries (Permutes with
   FeatEntries and ExtraEntries). The result is stated for every order, and
   the theorems below assume that one.
   */
  method BuildAz(prov: string, fields: AzProv, featOrder: seq<(string, bool)>, extraOrder: seq<(string, string)>)
    returns (root: seq<Item>)
    ensures root == [Nested(ProviderBlock(prov, fields.azure, featOrder, extraOrder))]
  {
    var a := fields.azure;
    var providerBody := new Body();
    var features := new Body();

    AppendKeyVault(features, a.features.keyVault);
    AppendVirtualMachine(features, a.features.virtMachine);
    AppendScaleSet(features, a.features.vmss);

    for i := 0 to |featOrder|
      modifies features
      invariant features.items == RunLoop(FlagEntryEffect, GroupBlocks(a.features), featOrder[..i])
    {
      assert featOrder[..i + 1][..i] == featOrder[..i];
      ApplyFlag(features, featOrder[i].0, featOrder[i].1);
    }
    assert featOrder[..|featOrder|] == featOrder;

    for i := 0 to |extraOrder|
      modifies providerBody
      invariant providerBody.items == RunLoop(ExtraEntryEffect, [], extraOrder[..i])
    {
      assert extraOrder[..i + 1][..i] == extraOrder[..i];
      ApplyExtra(providerBody, extraOrder[i].0, extraOrder[i].1);
    }
    assert extraOrder[..|extraOrder|] == extraOrder;

    if |a.auxTenantId| != 0 {
      var vals := TenantValues(a.auxTenantId);
      assert vals == StringValues(a.auxTenantId);
      providerBody.SetAttributeValue("auxiliary_tenant_ids", List(vals));
    }
    assert providerBody.items == ProviderAttributes(a, extraOrder);
    assert features.items == FeaturesBody(a, featOrder);

    providerBody.AppendBlock(Block("features", [], features.items));
    assert providerBody.items == ProviderBlock(prov, a, featOrder, extraOrder).body;
    root := [Nested(Block("provider", [prov], providerBody.items))];
  }
}
