/**
 * The stored tenants with their credential registry, and both lookups over them (postgres.go, memory.go,
 * auth_lookup.go).
 */
module TenantStore {
  import opened Text
  import opened Collections
  import opened Credentials

  datatype Outcome = Done | NameEmpty | CredentialConflict | AlreadyExists | NotFound | DefaultTenantStays

  datatype Change = Create(tenant: Tenant) | Update(tenant: Tenant) | Delete(tenantId: string)

  lemma {:induction false} NormalizedOnce(id: string)
    ensures NormalizeTenantId(NormalizeTenantId(id)) == NormalizeTenantId(id)
  {
    TrimSpaceIdempotent(id);
  }

  class CredentialStore {
    const digest: Digest
    var tenants: Tenants
    var registry: Registry

    /** No two credentials share a hash, and the registry holds exactly the stored credentials. */
    ghost predicate Valid()
      reads this
    {
      Sound(tenants, registry)
    }

    constructor (digest: Digest)
      ensures Valid() && this.digest == digest && tenants == map[] && registry == map[]
    {
      this.digest := digest;
      tenants, registry := map[], map[];
    }

    /**
     * replaceTenantCredentialHashes: the tenant's old rows go, its credentials are inserted; the unique index
     * never refuses one.
     */
    method ReplaceRows(t: Tenant) returns (ok: bool)
      requires Valid() && Admissible(tenants, t)
      modifies this`registry
      ensures ok && Indexed(tenants[t.id := t], registry)
    {
      registry := Without(registry, t.id);
      var slots := Slots(t);
      for k := 0 to |slots|
        invariant PartlyIndexed(tenants, t, registry, k)
      {
        NextRowIsNew(tenants, t, registry, k);
        NextRow(tenants, t, registry, k);
        if slots[k] != "" {
          if slots[k] in registry {
            return false;
          }
          registry := registry[slots[k] := RowFor(t, k)];
        }
      }
      FullyIndexed(tenants, t, registry);
      return true;
    }

    /** The transaction that create and update share. */
    method StoreTenant(t: Tenant)
      requires Valid() && Admissible(tenants, t) && NormalizeTenantId(t.id) == t.id
      modifies this
      ensures Valid() && tenants == old(tenants)[t.id := t]
    {
      StoredIsUnique(tenants, t);
      var ok := ReplaceRows(t);
      tenants := tenants[t.id := t];
    }

    method CreateTenant(tenant: Tenant) returns (outcome: Outcome)
      requires Valid()
      modifies this
      ensures Valid()
      ensures var t := ToCreate(digest, tenant);
              && (outcome == Done <==> t.name != "" && Admissible(old(tenants), t) && t.id !in old(tenants))
              && (outcome == CredentialConflict ==> !Admissible(old(tenants), t))
              && (outcome == AlreadyExists ==> t.id in old(tenants))
              && tenants == (if outcome == Done then old(tenants)[t.id := t] else old(tenants))
      ensures outcome != Done ==> registry == old(registry)
      ensures outcome == Done && TrimSpace(tenant.id) !in {"", DEFAULT_TENANT_ID} ==>
                forall now :: FoundByKeys(digest, tenants, tenant, TrimSpace(tenant.id), now)
    {
      var t := ToCreate(digest, tenant);
      NormalizedOnce(tenant.id);
      if t.name == "" {
        return NameEmpty;
      }
      var unique := ValidateUniqueness(tenants, t);
      if !unique {
        return CredentialConflict;
      }
      if t.id in tenants {
        return AlreadyExists;
      }
      StoreTenant(t);
      if t.id != DEFAULT_TENANT_ID {
        forall now ensures FoundByKeys(digest, tenants, tenant, t.id, now) {
          PreparedIsFound(digest, tenants, tenant, t.id, now);
        }
      }
      return Done;
    }

    method UpdateTenant(tenant: Tenant) returns (outcome: Outcome)
      requires Valid()
      modifies this
      ensures Valid()
      ensures var t := ToUpdate(digest, tenant);
              && (outcome == Done <==> tenant.name != "" && Admissible(old(tenants), t) && t.id in old(tenants))
              && (outcome == CredentialConflict ==> !Admissible(old(tenants), t))
              && tenants == (if outcome == Done then old(tenants)[t.id := t] else old(tenants))
      ensures outcome != Done ==> registry == old(registry)
      ensures outcome == Done ==>
                var id := if TrimSpace(tenant.id) == "" then DEFAULT_TENANT_ID else TrimSpace(tenant.id);
                forall now :: FoundByKeys(digest, tenants, tenant, id, now)
    {
      var t := ToUpdate(digest, tenant);
      NormalizedOnce(tenant.id);
      if tenant.name == "" {
        return NameEmpty;
      }
      var unique := ValidateUniqueness(tenants, t);
      if !unique {
        return CredentialConflict;
      }
      if t.id !in tenants {
        return NotFound;
      }
      StoreTenant(t);
      forall now ensures FoundByKeys(digest, tenants, tenant, t.id, now) {
        PreparedIsFound(digest, tenants, tenant, t.id, now);
      }
      return Done;
    }

    method DeleteTenant(tenantId: string) returns (outcome: Outcome)
      requires Valid()
      modifies this
      ensures Valid()
      ensures outcome == if NormalizeTenantId(tenantId) == DEFAULT_TENANT_ID then DefaultTenantStays else Done
      ensures tenants == if outcome == Done then old(tenants) - {NormalizeTenantId(tenantId)} else old(tenants)
      ensures outcome == Done ==> registry == Without(old(registry), NormalizeTenantId(tenantId))
    {
      var id := NormalizeTenantId(tenantId);
      if id == DEFAULT_TENANT_ID {
        return DefaultTenantStays;
      }
      DeletedIsIndexed(tenants, registry, id);
      registry := Without(registry, id);
      tenants := tenants - {id};
      return Done;
    }

    /**
     * After any sequence of changes the two lookups agree on every hash, exactly if all usable accounts can
     * be named.
     */
    method Run(changes: seq<Change>)
      requires Valid()
      modifies this
      ensures Valid()
      ensures forall now :: LookupsAgree(tenants, registry, now) <==> AllAddressable(tenants, now)
    {
      for i := 0 to |changes|
        invariant Valid()
      {
        match changes[i]
        case Create(t) => var _ := CreateTenant(t);
        case Update(t) => var _ := UpdateTenant(t);
        case Delete(id) => var _ := DeleteTenant(id);
      }
      forall now ensures LookupsAgree(tenants, registry, now) <==> AllAddressable(tenants, now) {
        AgreeIffAddressable(tenants, registry, now);
      }
    }

    // ---------- Lookups ----------

    /** The scan visits the tenants in any order, and its answer does not depend on it. */
    method LookupByScan(credentialHash: string, now: int) returns (answer: Answer)
      requires Valid()
      ensures answer ==
              if TrimSpace(credentialHash) == "" then Nobody else ByScan(tenants, TrimSpace(credentialHash), now)
      ensures TrimSpace(credentialHash) != "" ==> Right(tenants, TrimSpace(credentialHash), now, answer)
    {
      var hash := TrimSpace(credentialHash);
      ScanRight(tenants, hash, now);
      if hash == "" {
        return Nobody;
      }
      var rest := tenants.Keys;
      while rest != {}
        invariant rest <= tenants.Keys
        invariant forall id :: id in tenants && id !in rest ==> InTenant(tenants[id], hash, now) == Nobody
      {
        var id :| id in rest;
        rest := rest - {id};
        answer := ScanTenant(tenants[id], hash, now);
        if answer.Found? {
          HashOfAnswer(tenants, id, hash, now);
          return;
        }
      }
      return Nobody;
    }

    method LookupByRegistry(credentialHash: string, now: int) returns (answer: Answer)
      requires Valid()
      ensures answer == if TrimSpace(credentialHash) == "" then Nobody
                        else ByRegistry(tenants, registry, TrimSpace(credentialHash), now)
      ensures AllAddressable(tenants, now) && TrimSpace(credentialHash) != "" ==>
                answer == ByScan(tenants, TrimSpace(credentialHash), now)
      ensures TrimSpace(credentialHash) != "" && (answer.Found? || AllAddressable(tenants, now)) ==>
                Right(tenants, TrimSpace(credentialHash), now, answer)
    {
      var hash := TrimSpace(credentialHash);
      if hash == "" {
        return Nobody;
      }
      answer := FollowRow(hash, now);
      AgreeIffAddressable(tenants, registry, now);
      if answer.Found? {
        RegistryRight(tenants, registry, hash, now);
      } else {
        ScanRight(tenants, hash, now);
      }
    }

    /** The registry's row for the hash, and the tenant and account it names. */
    method FollowRow(hash: string, now: int) returns (answer: Answer)
      ensures answer == ByRegistry(tenants, registry, hash, now)
    {
      if hash !in registry {
        return Nobody;
      }
      var row := registry[hash];
      var id := NormalizeTenantId(row.tenantId);
      if id !in tenants || !tenants[id].active {
        return Nobody;
      }
      var t := tenants[id];
      if !row.ofAccount {
        return if TrimSpace(t.apiKeyHash) == hash then Found(t, None) else Nobody;
      }
      var k := FindFirst(t.accounts, (a: Account) => Named(a, TrimSpace(row.accountId), now));
      if k.None? || TrimSpace(t.accounts[k.value].apiKeyHash) != hash {
        return Nobody;
      }
      return Found(t, Some(WithIdOf(t, k.value)));
    }
  }

  method FindFirst(accounts: seq<Account>, p: Account -> bool) returns (r: Option<nat>)
    ensures r == First(accounts, p, 0)
  {
    for k := 0 to |accounts|
      invariant First(accounts, p, 0) == First(accounts, p, k)
    {
      if p(accounts[k]) {
        return Some(k);
      }
    }
    return None;
  }

  /** The scan's work on one tenant. */
  method ScanTenant(t: Tenant, hash: string, now: int) returns (answer: Answer)
    ensures answer == InTenant(t, hash, now)
  {
    if !t.active {
      return Nobody;
    }
    if TrimSpace(t.apiKeyHash) == hash {
      return Found(t, None);
    }
    var k := FindFirst(t.accounts, (a: Account) => Carries(a, hash, now));
    if k.None? {
      return Nobody;
    }
    return Found(t, Some(WithIdOf(t, k.value)));
  }

  /** An answer comes from the holder of the hash, so it is the scan's answer whatever the order. */
  lemma {:induction false} HashOfAnswer(tenants: Tenants, id: string, hash: string, now: int)
    requires Unique(tenants) && id in tenants && hash != "" && InTenant(tenants[id], hash, now).Found?
    ensures ByScan(tenants, hash, now) == InTenant(tenants[id], hash, now)
  {
    if hash !in Slots(tenants[id]) {
      AbsentHash(tenants[id], hash, now);
    }
    var k: nat :| k < |Slots(tenants[id])| && Slots(tenants[id])[k] == hash;
    ScanFindsHolder(tenants, id, k, hash, now);
  }

  /** For instance: a new tenant whose only account has a blank ID and the credential h. */
  method BlankAccountMissed(digest: Digest, now: int) returns (byScan: Answer, byRegistry: Answer)
    ensures byScan.Found? && byRegistry == Nobody
  {
    var store := new CredentialStore(digest);
    var tenant := Tenant("acme", "Acme", "", "", true, [Account("", "", "h", true, 0)]);
    var t := ToCreate(digest, tenant);
    assert t == tenant;
    assert Slots(t) == ["", "h"];
    var outcome := store.CreateTenant(tenant);
    assert store.tenants == map["acme" := t];
    UnnamedAccountMissed(t, store.tenants, store.registry, 0, now);
    byScan := store.LookupByScan("h", now);
    byRegistry := store.LookupByRegistry("h", now);
  }

  /**
   * A usable account with a blank ID, or the ID of an earlier active account: the scan finds its credential,
   * the registry does not.
   */
  lemma {:induction false} UnnamedAccountMissed(t: Tenant, tenants: Tenants, registry: Registry, k: nat, now: int)
    requires Sound(tenants, registry) && t.id in tenants && tenants[t.id] == t
    requires k < |t.accounts| && Usable(t, k, now)
    requires TrimSpace(t.accounts[k].id) == "" || exists i :: 0 <= i < k && Named(t.accounts[i], t.accounts[k].id, now)
    ensures ByScan(tenants, TrimSpace(t.accounts[k].apiKeyHash), now).Found?
    ensures ByRegistry(tenants, registry, TrimSpace(t.accounts[k].apiKeyHash), now) == Nobody
  {
    var hash := TrimSpace(t.accounts[k].apiKeyHash);
    assert At(tenants, t.id, k + 1, hash);
    UsableIsScanned(tenants, t.id, k, now);
    assert registry[hash] == RowFor(t, k + 1);
    SlotsUnique(tenants, t.id);
    HolderAnswers(t, k, hash, now);
  }

  lemma {:induction false} UsableIsScanned(tenants: Tenants, id: string, k: nat, now: int)
    requires Unique(tenants) && id in tenants && k < |tenants[id].accounts| && Usable(tenants[id], k, now)
    ensures ByScan(tenants, TrimSpace(tenants[id].accounts[k].apiKeyHash), now).Found?
  {
    var hash := TrimSpace(tenants[id].accounts[k].apiKeyHash);
    assert At(tenants, id, k + 1, hash);
    SlotsUnique(tenants, id);
    HolderAnswers(tenants[id], k, hash, now);
    ScanFindsHolder(tenants, id, k + 1, hash, now);
  }
}
