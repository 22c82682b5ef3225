/**
 What BuildAz emits, whatever order Go ranges over the two maps in: the
 provider block's attributes, the features block's contents, and the
 flags and strings that are never written.
 */
module AzProvProperties {
  import opened Hcl
  import opened MapRange
  import opened AzProvInject

  // ---------------------------------------------------------------------------
  // The flag loop sets each attribute at most once.

  ghost predicate ProviderFlagKey(k: string) {
    k == "UseMsi" || k == "DisablePartnerID" || k == "SkipProviderReg" || k == "StorageUseAzureAd"
  }

  /** Only a true UseMsi, DisablePartnerID, SkipProviderReg or StorageUseAzureAd entry sets an attribute, each its own. */
  lemma FlagAttributeOwner(k: string, v: bool)
    ensures FlagEffect(k, v).SetAttributeEffect? <==> v && ProviderFlagKey(k)
  {
  }

  /** Each of those four keys sets its own attribute, to true. */
  lemma FlagAttributeName(k: string, v: bool)
    ensures FlagEffect(k, v).SetAttributeEffect? ==>
            FlagEffect(k, v).value == Bool(true) &&
            (FlagEffect(k, v).name == "use_msi" <==> k == "UseMsi") &&
            (FlagEffect(k, v).name == "disable_partner_id" <==> k == "DisablePartnerID") &&
            (FlagEffect(k, v).name == "skip_provider_registration" <==> k == "SkipProviderReg") &&
            (FlagEffect(k, v).name == "storage_use_azuread" <==> k == "StorageUseAzureAd")
  {
  }

  lemma ConcatFour<T>(a: seq<T>, b: seq<T>, c: seq<T>, d: seq<T>)
    ensures a + (b + c + d) + [] == a + b + c + d
  {
  }

  /** The flag loop sets no attribute twice: each entry occurs once and each setting entry has its own name. */
  lemma FlagEntriesSetOnce(a: Azure)
    ensures SetsEachNameOnce(FlagEntryEffect, multiset(FeatEntries(a)))
  {
    var m := multiset(FeatEntries(a));
    forall e | FlagEntryEffect(e).SetAttributeEffect? ensures m[e] <= 1 {
      DistinctKeysCount(FeatEntries(a), e);
    }
    forall e1, e2 | e1 in m && e2 in m && FlagEntryEffect(e1).SetAttributeEffect? &&
        FlagEntryEffect(e2).SetAttributeEffect? && FlagEntryEffect(e1).name == FlagEntryEffect(e2).name
      ensures e1 == e2
    {
      FlagAttributeOwner(e1.0, e1.1);
      FlagAttributeOwner(e2.0, e2.1);
      FlagAttributeName(e1.0, e1.1);
      FlagAttributeName(e2.0, e2.1);
    }
  }

  // ---------------------------------------------------------------------------
  // The credential loop sets each attribute at most once.

  lemma CredentialAttributeInjective(k1: string, k2: string)
    requires CredentialAttribute(k1).Some? && CredentialAttribute(k1) == CredentialAttribute(k2)
    ensures k1 == k2
  {
  }

  /** A credential entry sets an attribute only under its key's name, and only when its string is not empty. */
  lemma ExtraEffectSets(e: (string, string))
    ensures ExtraEntryEffect(e).SetAttributeEffect? <==> CredentialAttribute(e.0).Some? && |e.1| != 0
    ensures ExtraEntryEffect(e).SetAttributeEffect? ==>
            ExtraEntryEffect(e).name == CredentialAttribute(e.0).value && ExtraEntryEffect(e).value == Str(e.1)
  {
  }

  /** The credential loop sets no attribute twice. */
  lemma ExtraEntriesSetOnce(a: Azure)
    ensures SetsEachNameOnce(ExtraEntryEffect, multiset(ExtraEntries(a)))
  {
    var m := multiset(ExtraEntries(a));
    forall e | ExtraEntryEffect(e).SetAttributeEffect? ensures m[e] <= 1 {
      DistinctKeysCount(ExtraEntries(a), e);
    }
    forall e1, e2 | e1 in m && e2 in m && ExtraEntryEffect(e1).SetAttributeEffect? &&
        ExtraEntryEffect(e2).SetAttributeEffect? && ExtraEntryEffect(e1).name == ExtraEntryEffect(e2).name
      ensures e1 == e2
    {
      ExtraEffectSets(e1);
      ExtraEffectSets(e2);
      CredentialAttributeInjective(e1.0, e2.0);
      DistinctKeysSameKey(ExtraEntries(a), e1, e2);
    }
  }

  // ---------------------------------------------------------------------------
  // What the two loops add, entry by entry in the order the maps are written.

  /** An optional block, as the flag loop appends it for a true flag. */
  function OptionalBlock(b: bool, block: Block): seq<Item> {
    if b then [Nested(block)] else []
  }

  /**
   A false flag adds nothing, whatever its key: the switch takes the first
   case whose boolean is false, and every case's body is guarded by v == true.
   For the keys of the map that is the first case, since none of them is
   "ApiMngmtPurge".
   */
  lemma FalseFlagIgnored(k: string)
    ensures FlagEffect(k, false) == NoEffect
  {
  }

  /** The api-management case is labelled "ApiMngmtPurge", so its key matches no case; the key-vault flags fall to the default case. */
  lemma FlagKeysIgnored()
    ensures forall v :: Emitted(FlagEntryEffect(("APIMngmtPurge", v))) == []
    ensures forall v :: Emitted(FlagEntryEffect(("KvPurge", v))) == []
    ensures forall v :: Emitted(FlagEntryEffect(("KvSoftDelete", v))) == []
  {
  }

  /** The disable-partner-id case is labelled "DisablePartnerID", so its key "DisablePartnerId" matches no case. */
  lemma DisablePartnerIdIgnored(v: bool)
    ensures FlagEntryEffect(("DisablePartnerId", v)) == NoEffect
  {
  }

  /** The flags of the virtual-machine chain fall to the default case. */
  lemma VirtualMachineFlagKeysIgnored()
    ensures forall v :: Emitted(FlagEntryEffect(("VirtMachineDeleteOsDisk", v))) == []
    ensures forall v :: Emitted(FlagEntryEffect(("VirtMachineGracefulShutdown", v))) == []
    ensures forall v :: Emitted(FlagEntryEffect(("VirtMachineForceDelete", v))) == []
  {
  }

  /** The flags of the scale-set chain fall to the default case. */
  lemma ScaleSetFlagKeysIgnored()
    ensures forall v :: Emitted(FlagEntryEffect(("VmssForceDelete", v))) == []
    ensures forall v :: Emitted(FlagEntryEffect(("VmssRollInstances", v))) == []
  {
  }

  /** A true flag of the four handled feature keys appends its one-attribute block; a false one adds nothing. */
  lemma FeatureFlagKeysHandled()
    ensures forall v :: Emitted(FlagEntryEffect(("CogAccountPurge", v))) == OptionalBlock(v, SingleFlagBlock("cognitive_account", "purge_soft_delete_on_destroy"))
    ensures forall v :: Emitted(FlagEntryEffect(("LogAnalyticsPermDelete", v))) == OptionalBlock(v, SingleFlagBlock("log_analytics_workspace", "permanently_delete_on_destroy"))
    ensures forall v :: Emitted(FlagEntryEffect(("ResourceGroupPrevDelete", v))) == OptionalBlock(v, SingleFlagBlock("resource_group", "prevent_deletion_if_contains_resources"))
    ensures forall v :: Emitted(FlagEntryEffect(("TempDeploy", v))) == OptionalBlock(v, SingleFlagBlock("template_deployment", "delete_nested_items_during_deletion"))
  {
  }

  /** A true flag of the three matching provider keys sets its attribute to true; a false one adds nothing. */
  lemma ProviderFlagKeysHandled()
    ensures forall v :: Emitted(FlagEntryEffect(("UseMsi", v))) == OptionalFlag(v, "use_msi")
    ensures forall v :: Emitted(FlagEntryEffect(("SkipProviderReg", v))) == OptionalFlag(v, "skip_provider_registration")
    ensures forall v :: Emitted(FlagEntryEffect(("StorageUseAzureAd", v))) == OptionalFlag(v, "storage_use_azuread")
  {
  }

  function OptionalFlag(b: bool, n: string): seq<Item> {
    if b then [Attribute(n, Bool(true))] else []
  }

  // The flag map literal, cut into the pieces its proofs go through.

  function FirstFeatureFlags(f: Features): seq<(string, bool)> {
    [ ("APIMngmtPurge", f.apiMngmt.purgeOnDestroy), ("CogAccountPurge", f.cogAccount.purgeOnDestroy),
      ("KvPurge", f.keyVault.purgeOnDestroy), ("KvSoftDelete", f.keyVault.recoverSoftDelete) ]
  }

  function MiddleFeatureFlags(f: Features): seq<(string, bool)> {
    [ ("LogAnalyticsPermDelete", f.logAnalyticsWrkSpc.permDeleteOnDestroy), ("ResourceGroupPrevDelete", f.resourceGroup.prevDeleteIfRes),
      ("TempDeploy", f.tempDeploy.deleteNestedItems), ("VirtMachineDeleteOsDisk", f.virtMachine.deleteOsDisk) ]
  }

  function LastFeatureFlags(f: Features): seq<(string, bool)> {
    [ ("VirtMachineGracefulShutdown", f.virtMachine.gracefulShutdown), ("VirtMachineForceDelete", f.virtMachine.skipShutForceDelete),
      ("VmssForceDelete", f.vmss.forceDelete), ("VmssRollInstances", f.vmss.rollInstances) ]
  }

  lemma FeatureFlagEntriesPieces(f: Features)
    ensures FeatureFlagEntries(f) == FirstFeatureFlags(f) + MiddleFeatureFlags(f) + LastFeatureFlags(f)
  {
  }

  function CogAccountItems(f: Features): seq<Item> {
    OptionalBlock(f.cogAccount.purgeOnDestroy, SingleFlagBlock("cognitive_account", "purge_soft_delete_on_destroy"))
  }

  function LaterFeatureItems(f: Features): seq<Item> {
    OptionalBlock(f.logAnalyticsWrkSpc.permDeleteOnDestroy, SingleFlagBlock("log_analytics_workspace", "permanently_delete_on_destroy"))
    + OptionalBlock(f.resourceGroup.prevDeleteIfRes, SingleFlagBlock("resource_group", "prevent_deletion_if_contains_resources"))
    + OptionalBlock(f.tempDeploy.deleteNestedItems, SingleFlagBlock("template_deployment", "delete_nested_items_during_deletion"))
  }

  lemma FeatureFlagsFirst(f: Features)
    ensures Emits(FlagEntryEffect, FirstFeatureFlags(f)) == CogAccountItems(f)
  {
    FlagKeysIgnored();
    FeatureFlagKeysHandled();
    EmitsFour(FlagEntryEffect,
      ("APIMngmtPurge", f.apiMngmt.purgeOnDestroy), ("CogAccountPurge", f.cogAccount.purgeOnDestroy),
      ("KvPurge", f.keyVault.purgeOnDestroy), ("KvSoftDelete", f.keyVault.recoverSoftDelete),
      [], CogAccountItems(f), [], []);
    assert [] + CogAccountItems(f) + [] + [] == CogAccountItems(f);
  }

  lemma FeatureFlagsMiddle(f: Features)
    ensures Emits(FlagEntryEffect, MiddleFeatureFlags(f)) == LaterFeatureItems(f)
  {
    var t2 := OptionalBlock(f.logAnalyticsWrkSpc.permDeleteOnDestroy, SingleFlagBlock("log_analytics_workspace", "permanently_delete_on_destroy"));
    var t3 := OptionalBlock(f.resourceGroup.prevDeleteIfRes, SingleFlagBlock("resource_group", "prevent_deletion_if_contains_resources"));
    var t4 := OptionalBlock(f.tempDeploy.deleteNestedItems, SingleFlagBlock("template_deployment", "delete_nested_items_during_deletion"));
    FeatureFlagKeysHandled();
    VirtualMachineFlagKeysIgnored();
    EmitsFour(FlagEntryEffect,
      ("LogAnalyticsPermDelete", f.logAnalyticsWrkSpc.permDeleteOnDestroy), ("ResourceGroupPrevDelete", f.resourceGroup.prevDeleteIfRes),
      ("TempDeploy", f.tempDeploy.deleteNestedItems), ("VirtMachineDeleteOsDisk", f.virtMachine.deleteOsDisk),
      t2, t3, t4, []);
    assert t2 + t3 + t4 + [] == LaterFeatureItems(f);
  }

  lemma FeatureFlagsLast(f: Features)
    ensures Emits(FlagEntryEffect, LastFeatureFlags(f)) == []
  {
    VirtualMachineFlagKeysIgnored();
    ScaleSetFlagKeysIgnored();
    EmitsFour(FlagEntryEffect,
      ("VirtMachineGracefulShutdown", f.virtMachine.gracefulShutdown), ("VirtMachineForceDelete", f.virtMachine.skipShutForceDelete),
      ("VmssForceDelete", f.vmss.forceDelete), ("VmssRollInstances", f.vmss.rollInstances),
      [], [], [], []);
  }

  /** Ranging over the feature flags in the order they are written adds the four handled blocks. */
  lemma FeatureFlagLoop(f: Features)
    ensures Emits(FlagEntryEffect, FeatureFlagEntries(f)) == FeatureFlagTable(f)
  {
    var x, y, z := FirstFeatureFlags(f), MiddleFeatureFlags(f), LastFeatureFlags(f);
    FeatureFlagEntriesPieces(f);
    FeatureFlagsFirst(f);
    FeatureFlagsMiddle(f);
    FeatureFlagsLast(f);
    EmitsConcat(FlagEntryEffect, x + y, z);
    EmitsConcat(FlagEntryEffect, x, y);
    var t1 := OptionalBlock(f.cogAccount.purgeOnDestroy, SingleFlagBlock("cognitive_account", "purge_soft_delete_on_destroy"));
    var t2 := OptionalBlock(f.logAnalyticsWrkSpc.permDeleteOnDestroy, SingleFlagBlock("log_analytics_workspace", "permanently_delete_on_destroy"));
    var t3 := OptionalBlock(f.resourceGroup.prevDeleteIfRes, SingleFlagBlock("resource_group", "prevent_deletion_if_contains_resources"));
    var t4 := OptionalBlock(f.tempDeploy.deleteNestedItems, SingleFlagBlock("template_deployment", "delete_nested_items_during_deletion"));
    assert FeatureFlagTable(f) == t1 + t2 + t3 + t4;
    ConcatFour(t1, t2, t3, t4);
  }

  /** Ranging over the provider flags: the disable-partner-id key matches no case. */
  lemma ProviderFlagLoop(a: Azure)
    ensures Emits(FlagEntryEffect, ProviderFlagEntries(a)) == ProviderFlagTable(a)
  {
    ProviderFlagKeysHandled();
    DisablePartnerIdIgnored(a.disablePartnerId);
    var u, k, z := OptionalFlag(a.useMsi, "use_msi"), OptionalFlag(a.skipProviderReg, "skip_provider_registration"),
      OptionalFlag(a.storageUseAzureAd, "storage_use_azuread");
    EmitsFour(FlagEntryEffect,
      ("UseMsi", a.useMsi), ("DisablePartnerId", a.disablePartnerId),
      ("SkipProviderReg", a.skipProviderReg), ("StorageUseAzureAd", a.storageUseAzureAd),
      u, [], k, z);
    assert u + [] + k + z == ProviderFlagTable(a);
  }

  /** The flag loop, over the map in the order it is written, adds exactly FlagTable. */
  lemma FlagLoop(a: Azure)
    ensures Emits(FlagEntryEffect, FeatEntries(a)) == FlagTable(a)
  {
    FeatureFlagLoop(a.features);
    ProviderFlagLoop(a);
    EmitsConcat(FlagEntryEffect, FeatureFlagEntries(a.features), ProviderFlagEntries(a));
  }

  /** A credential key sets its attribute to a non-empty string and skips an empty one. */
  lemma CredentialKeysFirst()
    ensures forall v :: Emitted(ExtraEntryEffect(("ClientId", v))) == OptionalString("client_id", v)
    ensures forall v :: Emitted(ExtraEntryEffect(("Env", v))) == OptionalString("environment", v)
    ensures forall v :: Emitted(ExtraEntryEffect(("SubId", v))) == OptionalString("subscription_id", v)
    ensures forall v :: Emitted(ExtraEntryEffect(("TenantId", v))) == OptionalString("tenant_id", v)
  {
  }

  lemma CredentialKeysMiddle()
    ensures forall v :: Emitted(ExtraEntryEffect(("ClientCertPass", v))) == OptionalString("client_certificate_password", v)
    ensures forall v :: Emitted(ExtraEntryEffect(("ClientCertPath", v))) == OptionalString("client_certificate_path", v)
    ensures forall v :: Emitted(ExtraEntryEffect(("ClientSecret", v))) == OptionalString("client_secret", v)
    ensures forall v :: Emitted(ExtraEntryEffect(("MsiEndpoint", v))) == OptionalString("msi_endpoint", v)
  {
  }

  lemma CredentialKeysLast()
    ensures forall v :: Emitted(ExtraEntryEffect(("MetaHost", v))) == OptionalString("metadata_host", v)
    ensures forall v :: Emitted(ExtraEntryEffect(("PartnerId", v))) == OptionalString("partner_id", v)
  {
  }

  // The credential map literal, cut into the pieces its proofs go through.

  function FirstCredentials(a: Azure): seq<(string, string)> {
    [("ClientId", a.clientId), ("Env", a.environment), ("SubId", a.subId), ("TenantId", a.tenantId)]
  }

  function MiddleCredentials(a: Azure): seq<(string, string)> {
    [("ClientCertPass", a.clientCertPass), ("ClientCertPath", a.clientCertPath), ("ClientSecret", a.clientSecret), ("MsiEndpoint", a.msiEndpoint)]
  }

  function LastCredentials(a: Azure): seq<(string, string)> {
    [("MetaHost", a.metaHost), ("PartnerId", a.partnerId)]
  }

  lemma ExtraEntriesPieces(a: Azure)
    ensures ExtraEntries(a) == FirstCredentials(a) + MiddleCredentials(a) + LastCredentials(a)
  {
  }

  lemma CredentialsFirst(a: Azure)
    ensures Emits(ExtraEntryEffect, FirstCredentials(a)) ==
            OptionalString("client_id", a.clientId) + OptionalString("environment", a.environment)
            + OptionalString("subscription_id", a.subId) + OptionalString("tenant_id", a.tenantId)
  {
    CredentialKeysFirst();
    EmitsFour(ExtraEntryEffect,
      ("ClientId", a.clientId), ("Env", a.environment), ("SubId", a.subId), ("TenantId", a.tenantId),
      OptionalString("client_id", a.clientId), OptionalString("environment", a.environment),
      OptionalString("subscription_id", a.subId), OptionalString("tenant_id", a.tenantId));
  }

  lemma CredentialsMiddle(a: Azure)
    ensures Emits(ExtraEntryEffect, MiddleCredentials(a)) ==
            OptionalString("client_certificate_password", a.clientCertPass) + OptionalString("client_certificate_path", a.clientCertPath)
            + OptionalString("client_secret", a.clientSecret) + OptionalString("msi_endpoint", a.msiEndpoint)
  {
    CredentialKeysMiddle();
    EmitsFour(ExtraEntryEffect,
      ("ClientCertPass", a.clientCertPass), ("ClientCertPath", a.clientCertPath),
      ("ClientSecret", a.clientSecret), ("MsiEndpoint", a.msiEndpoint),
      OptionalString("client_certificate_password", a.clientCertPass), OptionalString("client_certificate_path", a.clientCertPath),
      OptionalString("client_secret", a.clientSecret), OptionalString("msi_endpoint", a.msiEndpoint));
  }

  lemma CredentialsLast(a: Azure)
    ensures Emits(ExtraEntryEffect, LastCredentials(a)) ==
            OptionalString("metadata_host", a.metaHost) + OptionalString("partner_id", a.partnerId)
  {
    CredentialKeysLast();
    EmitsTwo(ExtraEntryEffect, ("MetaHost", a.metaHost), ("PartnerId", a.partnerId),
      OptionalString("metadata_host", a.metaHost), OptionalString("partner_id", a.partnerId));
  }

  lemma ConcatTen<T>(x0: seq<T>, x1: seq<T>, x2: seq<T>, x3: seq<T>, x4: seq<T>, x5: seq<T>, x6: seq<T>, x7: seq<T>, x8: seq<T>, x9: seq<T>)
    ensures (x0 + x1 + x2 + x3) + (x4 + x5 + x6 + x7) + (x8 + x9) == x0 + x1 + x2 + x3 + x4 + x5 + x6 + x7 + x8 + x9
  {
  }

  /** The credential loop, over the map in the order it is written, adds exactly CredentialTable. */
  lemma CredentialLoop(a: Azure)
    ensures Emits(ExtraEntryEffect, ExtraEntries(a)) == CredentialTable(a)
  {
    var x, y, z := FirstCredentials(a), MiddleCredentials(a), LastCredentials(a);
    ExtraEntriesPieces(a);
    CredentialsFirst(a);
    CredentialsMiddle(a);
    CredentialsLast(a);
    EmitsConcat(ExtraEntryEffect, x + y, z);
    EmitsConcat(ExtraEntryEffect, x, y);
    var o0, o1, o2, o3 := OptionalString("client_id", a.clientId), OptionalString("environment", a.environment),
      OptionalString("subscription_id", a.subId), OptionalString("tenant_id", a.tenantId);
    var o4, o5, o6, o7 := OptionalString("client_certificate_password", a.clientCertPass), OptionalString("client_certificate_path", a.clientCertPath),
      OptionalString("client_secret", a.clientSecret), OptionalString("msi_endpoint", a.msiEndpoint);
    var o8, o9 := OptionalString("metadata_host", a.metaHost), OptionalString("partner_id", a.partnerId);
    ConcatTen(o0, o1, o2, o3, o4, o5, o6, o7, o8, o9);
  }

  // ---------------------------------------------------------------------------
  // The grouped chains append blocks only.

  /** Ones among the three virtual-machine flags. */
  function TrueCount(d: bool, g: bool, f: bool): (r: nat)
    ensures r <= 3
  {
    (if d then 1 else 0) + (if g then 1 else 0) + (if f then 1 else 0)
  }

  /** The virtual-machine chain appends its block exactly when at least two of its flags are true. */
  lemma VirtualMachineMajority(vm: VirtMachine)
    ensures VirtualMachinePart(vm) != [] <==> TrueCount(vm.deleteOsDisk, vm.gracefulShutdown, vm.skipShutForceDelete) >= 2
    ensures |VirtualMachinePart(vm)| <= 1
  {
  }

  /**
   A key_vault block is appended iff one of the two flags is true; it holds
   exactly two attributes, recover_soft_deleted_key_vaults carrying the purge
   flag and purge_soft_delete_on_destroy carrying the soft-delete flag.
   */
  lemma KeyVaultDecision(kv: KeyVault)
    ensures KeyVaultPart(kv) != [] <==> kv.purgeOnDestroy || kv.recoverSoftDelete
    ensures KeyVaultPart(kv) != [] ==>
              |KeyVaultPart(kv)| == 1 && KeyVaultPart(kv)[0].Nested? &&
              var b := KeyVaultPart(kv)[0].block;
              && b.kind == "key_vault" && b.labels == []
              && Names(b.body) == {"recover_soft_deleted_key_vaults", "purge_soft_delete_on_destroy"}
              && Lookup(b.body, "recover_soft_deleted_key_vaults") == Some(Bool(kv.purgeOnDestroy))
              && Lookup(b.body, "purge_soft_delete_on_destroy") == Some(Bool(kv.recoverSoftDelete))
  {
    TwoAttributes("recover_soft_deleted_key_vaults", Bool(kv.purgeOnDestroy), "purge_soft_delete_on_destroy", Bool(kv.recoverSoftDelete));
  }

  /**
   When the virtual-machine chain appends its block, each attribute it holds
   carries its flag, except that for (T,F,T) delete_os_disk_on_deletion is
   missing.
   */
  lemma VirtualMachineDecision(vm: VirtMachine)
    ensures VirtualMachinePart(vm) != [] ==>
              |VirtualMachinePart(vm)| == 1 && VirtualMachinePart(vm)[0].Nested? &&
              var b := VirtualMachinePart(vm)[0].block;
              && b.kind == "virtual_machine" && b.labels == []
              && Names(b.body) == (if vm.deleteOsDisk && !vm.gracefulShutdown
                                   then {"graceful_shutdown", "skip_shutdown_and_force_delete"}
                                   else {"delete_os_disk_on_deletion", "graceful_shutdown", "skip_shutdown_and_force_delete"})
              && Lookup(b.body, "graceful_shutdown") == Some(Bool(vm.gracefulShutdown))
              && Lookup(b.body, "skip_shutdown_and_force_delete") == Some(Bool(vm.skipShutForceDelete))
              && (Lookup(b.body, "delete_os_disk_on_deletion") ==
                  if vm.deleteOsDisk && !vm.gracefulShutdown then None else Some(Bool(vm.deleteOsDisk)))
  {
    var d, g, f := vm.deleteOsDisk, vm.gracefulShutdown, vm.skipShutForceDelete;
    if VirtualMachineHandled(vm) {
      if d && !g && f {
        TwoAttributes("graceful_shutdown", Bool(false), "skip_shutdown_and_force_delete", Bool(true));
      } else {
        ThreeAttributes("delete_os_disk_on_deletion", Bool(d), "graceful_shutdown", Bool(g), "skip_shutdown_and_force_delete", Bool(f));
      }
    }
  }

  /**
   A virtual_machine_scale_set block is appended iff one of the two flags is
   true; force_delete and roll_instances_when_required carry their flags.
   */
  lemma ScaleSetDecision(vmss: Vmss)
    ensures ScaleSetPart(vmss) != [] <==> vmss.forceDelete || vmss.rollInstances
    ensures ScaleSetPart(vmss) != [] ==>
              |ScaleSetPart(vmss)| == 1 && ScaleSetPart(vmss)[0].Nested? &&
              var b := ScaleSetPart(vmss)[0].block;
              && b.kind == "virtual_machine_scale_set" && b.labels == []
              && Names(b.body) == {"force_delete", "roll_instances_when_required"}
              && Lookup(b.body, "force_delete") == Some(Bool(vmss.forceDelete))
              && Lookup(b.body, "roll_instances_when_required") == Some(Bool(vmss.rollInstances))
  {
    TwoAttributes("force_delete", Bool(vmss.forceDelete), "roll_instances_when_required", Bool(vmss.rollInstances));
  }

  /**
   The chains append at most one key_vault, one virtual_machine and one
   virtual_machine_scale_set block, in that order, and no attribute.
   */
  lemma GroupBlocksShape(f: Features)
    ensures Names(GroupBlocks(f)) == {}
    ensures |GroupBlocks(f)| <= 3
    ensures forall i :: 0 <= i < |GroupBlocks(f)| ==>
              GroupBlocks(f)[i].Nested? &&
              GroupBlocks(f)[i].block.kind in {"key_vault", "virtual_machine", "virtual_machine_scale_set"}
  {
    var k, v, m := KeyVaultPart(f.keyVault), VirtualMachinePart(f.virtMachine), ScaleSetPart(f.vmss);
    NamesConcat(k + v, m);
    NamesConcat(k, v);
    assert Names(k) == {} && Names(v) == {} && Names(m) == {};
  }

  // ---------------------------------------------------------------------------
  // What BuildAz builds, for any order Go ranges over the two maps in.

  /** Neither credential attribute is called auxiliary_tenant_ids. */
  lemma CredentialNotAux(k: string)
    ensures CredentialAttribute(k).Some? ==> CredentialAttribute(k).value != "auxiliary_tenant_ids"
  {
  }

  /**
   The features body: the grouped blocks, then what the flag loop adds, which
   is FlagTable up to order. No flag overwrites another: SetAttributeValue
   always appends in this loop.
   */
  lemma FeaturesContents(a: Azure, featOrder: seq<(string, bool)>)
    requires Permutes(featOrder, FeatEntries(a))
    ensures FeaturesBody(a, featOrder) == GroupBlocks(a.features) + Emits(FlagEntryEffect, featOrder)
    ensures multiset(Emits(FlagEntryEffect, featOrder)) == multiset(FlagTable(a))
  {
    FlagEntriesSetOnce(a);
    GroupBlocksShape(a.features);
    RunLoopAppends(FlagEntryEffect, GroupBlocks(a.features), featOrder);
    EmitsPermutation(FlagEntryEffect, featOrder, FeatEntries(a));
    FlagLoop(a);
  }

  lemma FeatureFlagTableKinds(f: Features)
    ensures forall x :: x in FeatureFlagTable(f) ==> x.Nested? && x.block.kind != "api_management"
  {
  }

  lemma ProviderFlagTableKinds(a: Azure)
    ensures forall x :: x in ProviderFlagTable(a) ==> x.Attribute? && x.name != "disable_partner_id"
  {
  }

  /** The flag loop, in any order, adds only items of FlagTable. */
  lemma FlagLoopItems(a: Azure, featOrder: seq<(string, bool)>)
    requires Permutes(featOrder, FeatEntries(a))
    ensures forall x :: x in Emits(FlagEntryEffect, featOrder) ==> x in FlagTable(a)
  {
    var e := Emits(FlagEntryEffect, featOrder);
    FeaturesContents(a, featOrder);
    forall x | x in e ensures x in FlagTable(a) {
      assert x in multiset(e);
    }
  }

  /**
   The flag loop, in any order, appends no api_management block and sets no
   disable_partner_id attribute: their map keys match no case of the switch.
   */
  lemma FlagLoopNeverWrites(a: Azure, featOrder: seq<(string, bool)>)
    requires Permutes(featOrder, FeatEntries(a))
    ensures forall x :: x in Emits(FlagEntryEffect, featOrder) ==>
              (x.Nested? ==> x.block.kind != "api_management") && (x.Attribute? ==> x.name != "disable_partner_id")
  {
    FlagLoopItems(a, featOrder);
    FeatureFlagTableKinds(a.features);
    ProviderFlagTableKinds(a);
    forall x | x in Emits(FlagEntryEffect, featOrder)
      ensures (x.Nested? ==> x.block.kind != "api_management") && (x.Attribute? ==> x.name != "disable_partner_id")
    {
      assert x in FeatureFlagTable(a.features) || x in ProviderFlagTable(a);
    }
  }

  lemma GroupedThenFlags(g: seq<Item>, e: seq<Item>)
    requires Names(g) == {}
    requires forall i :: 0 <= i < |g| ==> g[i].Nested? && g[i].block.kind in {"key_vault", "virtual_machine", "virtual_machine_scale_set"}
    requires forall x :: x in e ==> (x.Nested? ==> x.block.kind != "api_management") && (x.Attribute? ==> x.name != "disable_partner_id")
    ensures forall i :: 0 <= i < |g + e| && (g + e)[i].Nested? ==> (g + e)[i].block.kind != "api_management"
    ensures "disable_partner_id" !in Names(g + e)
  {
    forall i | 0 <= i < |g + e| && (g + e)[i].Nested? ensures (g + e)[i].block.kind != "api_management" {
      if i >= |g| {
        assert (g + e)[i] == e[i - |g|];
      }
    }
    NamesConcat(g, e);
    if "disable_partner_id" in Names(e) {
      var j := NamesWitness(e, "disable_partner_id");
    }
  }

  /** Whatever the flags and the iteration order, the features body holds no api_management block and no disable_partner_id attribute. */
  lemma NeverWritten(a: Azure, featOrder: seq<(string, bool)>)
    requires Permutes(featOrder, FeatEntries(a))
    ensures var body := FeaturesBody(a, featOrder);
      && (forall i :: 0 <= i < |body| && body[i].Nested? ==> body[i].block.kind != "api_management")
      && "disable_partner_id" !in Names(body)
  {
    FeaturesContents(a, featOrder);
    GroupBlocksShape(a.features);
    FlagLoopNeverWrites(a, featOrder);
    GroupedThenFlags(GroupBlocks(a.features), Emits(FlagEntryEffect, featOrder));
  }

  lemma CredentialsNeverAux()
    ensures forall x :: ExtraEntryEffect(x).SetAttributeEffect? ==> ExtraEntryEffect(x).name != "auxiliary_tenant_ids"
  {
    forall x | ExtraEntryEffect(x).SetAttributeEffect? ensures ExtraEntryEffect(x).name != "auxiliary_tenant_ids" {
      ExtraEffectSets(x);
      CredentialNotAux(x.0);
    }
  }

  lemma CredentialsNeverBlocks()
    ensures forall x :: !ExtraEntryEffect(x).AppendBlockEffect?
  {
    forall x ensures !ExtraEntryEffect(x).AppendBlockEffect? {
      ExtraEffectSets(x);
    }
  }

  /** The credential loop only appends, and only attributes other than auxiliary_tenant_ids. */
  lemma CredentialLoopAppends(a: Azure, extraOrder: seq<(string, string)>)
    requires Permutes(extraOrder, ExtraEntries(a))
    ensures RunLoop(ExtraEntryEffect, [], extraOrder) == Emits(ExtraEntryEffect, extraOrder)
    ensures "auxiliary_tenant_ids" !in Names(Emits(ExtraEntryEffect, extraOrder))
    ensures forall i :: 0 <= i < |Emits(ExtraEntryEffect, extraOrder)| ==> Emits(ExtraEntryEffect, extraOrder)[i].Attribute?
  {
    ExtraEntriesSetOnce(a);
    RunLoopAppends(ExtraEntryEffect, [], extraOrder);
    assert [] + Emits(ExtraEntryEffect, extraOrder) == Emits(ExtraEntryEffect, extraOrder);
    CredentialsNeverAux();
    NameNeverSet(ExtraEntryEffect, extraOrder, "auxiliary_tenant_ids");
    CredentialsNeverBlocks();
    EmitsOnlyAttributes(ExtraEntryEffect, extraOrder);
  }

  /** auxiliary_tenant_ids is appended after the credentials, since none of them has that name. */
  lemma ProviderAttributesAppend(a: Azure, extraOrder: seq<(string, string)>)
    requires Permutes(extraOrder, ExtraEntries(a))
    ensures ProviderAttributes(a, extraOrder) == Emits(ExtraEntryEffect, extraOrder) + AuxTenantItems(a.auxTenantId)
  {
    CredentialLoopAppends(a, extraOrder);
  }

  /** Ranging over the credentials in any order adds CredentialTable's attributes, up to order. */
  lemma CredentialsAnyOrder(a: Azure, extraOrder: seq<(string, string)>)
    requires Permutes(extraOrder, ExtraEntries(a))
    ensures multiset(Emits(ExtraEntryEffect, extraOrder)) == multiset(CredentialTable(a))
  {
    EmitsPermutation(ExtraEntryEffect, extraOrder, ExtraEntries(a));
    CredentialLoop(a);
  }

  lemma ConcatAttributes(c: seq<Item>, x: seq<Item>)
    requires forall i :: 0 <= i < |c| ==> c[i].Attribute?
    requires forall i :: 0 <= i < |x| ==> x[i].Attribute?
    ensures forall i :: 0 <= i < |c + x| ==> (c + x)[i].Attribute?
  {
    forall i | 0 <= i < |c + x| ensures (c + x)[i].Attribute? {
      if i >= |c| {
        assert (c + x)[i] == x[i - |c|];
      }
    }
  }

  lemma CredentialsAreAttributes(extraOrder: seq<(string, string)>)
    ensures forall i :: 0 <= i < |Emits(ExtraEntryEffect, extraOrder)| ==> Emits(ExtraEntryEffect, extraOrder)[i].Attribute?
  {
    CredentialsNeverBlocks();
    EmitsOnlyAttributes(ExtraEntryEffect, extraOrder);
  }

  /** The credentials followed by the auxiliary tenant list hold only attributes. */
  lemma CredentialsThenAuxAreAttributes(extraOrder: seq<(string, string)>, ids: seq<string>)
    ensures var p := Emits(ExtraEntryEffect, extraOrder) + AuxTenantItems(ids);
      forall i :: 0 <= i < |p| ==> p[i].Attribute?
  {
    CredentialsAreAttributes(extraOrder);
    ConcatAttributes(Emits(ExtraEntryEffect, extraOrder), AuxTenantItems(ids));
  }

  lemma ProviderAttributesAreAttributes(a: Azure, extraOrder: seq<(string, string)>)
    requires Permutes(extraOrder, ExtraEntries(a))
    ensures forall i :: 0 <= i < |ProviderAttributes(a, extraOrder)| ==> ProviderAttributes(a, extraOrder)[i].Attribute?
  {
    ProviderAttributesAppend(a, extraOrder);
    CredentialsThenAuxAreAttributes(extraOrder, a.auxTenantId);
  }

  /**
   The provider attributes: the non-empty credential strings, CredentialTable
   up to order, then the auxiliary tenant list when it is not empty.
   */
  lemma ProviderAttributesContents(a: Azure, extraOrder: seq<(string, string)>)
    requires Permutes(extraOrder, ExtraEntries(a))
    ensures ProviderAttributes(a, extraOrder) == Emits(ExtraEntryEffect, extraOrder) + AuxTenantItems(a.auxTenantId)
    ensures multiset(Emits(ExtraEntryEffect, extraOrder)) == multiset(CredentialTable(a))
    ensures forall i :: 0 <= i < |ProviderAttributes(a, extraOrder)| ==> ProviderAttributes(a, extraOrder)[i].Attribute?
  {
    ProviderAttributesAppend(a, extraOrder);
    CredentialsAnyOrder(a, extraOrder);
    ProviderAttributesAreAttributes(a, extraOrder);
  }

  lemma ProviderAttributesMultiset(a: Azure, extraOrder: seq<(string, string)>)
    requires Permutes(extraOrder, ExtraEntries(a))
    ensures multiset(ProviderAttributes(a, extraOrder)) == multiset(CredentialTable(a) + AuxTenantItems(a.auxTenantId))
  {
    var c, x := Emits(ExtraEntryEffect, extraOrder), AuxTenantItems(a.auxTenantId);
    ProviderAttributesAppend(a, extraOrder);
    CredentialsAnyOrder(a, extraOrder);
    assert multiset(c + x) == multiset(c) + multiset(x);
    assert multiset(CredentialTable(a) + x) == multiset(CredentialTable(a)) + multiset(x);
  }

  lemma FeaturesSplit(a: Azure, featOrder: seq<(string, bool)>)
    requires Permutes(featOrder, FeatEntries(a))
    ensures var body, g := FeaturesBody(a, featOrder), GroupBlocks(a.features);
      |g| <= |body| && body[..|g|] == g && multiset(body[|g|..]) == multiset(FlagTable(a))
  {
    var body, g := FeaturesBody(a, featOrder), GroupBlocks(a.features);
    FeaturesContents(a, featOrder);
    assert body[..|g|] == g;
    assert body[|g|..] == Emits(FlagEntryEffect, featOrder);
  }

  /** The provider attributes: as many as CredentialTable and the auxiliary list hold, all attributes, the list last. */
  lemma ProviderAttributesShape(a: Azure, extraOrder: seq<(string, string)>)
    requires Permutes(extraOrder, ExtraEntries(a))
    ensures var p, x := ProviderAttributes(a, extraOrder), AuxTenantItems(a.auxTenantId);
      && |p| == |CredentialTable(a)| + |x|
      && (forall i :: 0 <= i < |p| ==> p[i].Attribute?)
      && multiset(p) == multiset(CredentialTable(a) + x)
      && p[|p| - |x|..] == x
  {
    var p, x := ProviderAttributes(a, extraOrder), AuxTenantItems(a.auxTenantId);
    ProviderAttributesAreAttributes(a, extraOrder);
    ProviderAttributesMultiset(a, extraOrder);
    assert |multiset(p)| == |CredentialTable(a) + x|;
    ProviderAttributesAppend(a, extraOrder);
    assert p[|p| - |x|..] == x;
  }

  /**
   The tree BuildAz returns holds one provider block labelled with the
   provider's name. Its body is the provider attributes, which are
   CredentialTable up to order followed by the auxiliary tenant list, and then
   the features block, which holds the grouped blocks in order followed by
   FlagTable up to order.
   */
  lemma BuildAzTree(prov: string, fields: AzProv, featOrder: seq<(string, bool)>, extraOrder: seq<(string, string)>)
    requires Permutes(featOrder, FeatEntries(fields.azure))
    requires Permutes(extraOrder, ExtraEntries(fields.azure))
    ensures var a := fields.azure;
      var p, x := ProviderAttributes(a, extraOrder), AuxTenantItems(a.auxTenantId);
      var fb, g := FeaturesBody(a, featOrder), GroupBlocks(a.features);
      && ProviderBlock(prov, a, featOrder, extraOrder) == Block("provider", [prov], p + [Nested(Block("features", [], fb))])
      && |p| == |CredentialTable(a)| + |x|
      && (forall i :: 0 <= i < |p| ==> p[i].Attribute?)
      && multiset(p) == multiset(CredentialTable(a) + x)
      && p[|p| - |x|..] == x
      && |g| <= |fb| && fb[..|g|] == g
      && multiset(fb[|g|..]) == multiset(FlagTable(a))
  {
    ProviderAttributesShape(fields.azure, extraOrder);
    FeaturesSplit(fields.azure, featOrder);
  }

  /** In the order the maps are written, the tree is exactly the tables. */
  lemma WrittenOrderTree(prov: string, a: Azure)
    ensures ProviderBlock(prov, a, FeatEntries(a), ExtraEntries(a)) ==
            Block("provider", [prov],
              CredentialTable(a) + AuxTenantItems(a.auxTenantId)
              + [Nested(Block("features", [], GroupBlocks(a.features) + FlagTable(a)))])
  {
    FeaturesContents(a, FeatEntries(a));
    FlagLoop(a);
    assert FeaturesBody(a, FeatEntries(a)) == GroupBlocks(a.features) + FlagTable(a);
    ProviderAttributesAppend(a, ExtraEntries(a));
    CredentialLoop(a);
    assert ProviderAttributes(a, ExtraEntries(a)) == CredentialTable(a) + AuxTenantItems(a.auxTenantId);
  }

  /**
   Two runs that range over the maps in different orders write the same
   provider attributes and the same features contents, each up to order.
   */
  lemma OrderIndependence(a: Azure, featOrder1: seq<(string, bool)>, extraOrder1: seq<(string, string)>,
                          featOrder2: seq<(string, bool)>, extraOrder2: seq<(string, string)>)
    requires Permutes(featOrder1, FeatEntries(a)) && Permutes(featOrder2, FeatEntries(a))
    requires Permutes(extraOrder1, ExtraEntries(a)) && Permutes(extraOrder2, ExtraEntries(a))
    ensures multiset(ProviderAttributes(a, extraOrder1)) == multiset(ProviderAttributes(a, extraOrder2))
    ensures multiset(FeaturesBody(a, featOrder1)) == multiset(FeaturesBody(a, featOrder2))
  {
    ProviderAttributesMultiset(a, extraOrder1);
    ProviderAttributesMultiset(a, extraOrder2);
    FeaturesContents(a, featOrder1);
    FeaturesContents(a, featOrder2);
    var g := GroupBlocks(a.features);
    assert multiset(FeaturesBody(a, featOrder1)) == multiset(g) + multiset(Emits(FlagEntryEffect, featOrder1));
    assert multiset(FeaturesBody(a, featOrder2)) == multiset(g) + multiset(Emits(FlagEntryEffect, featOrder2));
  }
}
