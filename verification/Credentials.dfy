/** Tenants, their credentials and the two ways to find a credential's owner (credentials.go, auth_lookup.go). */
module Credentials {
  import opened Text
  import opened Collections

  datatype Account = Account(id: string, apiKey: string, apiKeyHash: string, active: bool, expiresAt: int)

  datatype Tenant = Tenant(
    id: string, name: string, apiKey: string, apiKeyHash: string, active: bool, accounts: seq<Account>)

  /** A row of the registry: the owner of a credential hash. */
  datatype Row = Row(tenantId: string, ofAccount: bool, accountId: string)

  datatype Answer = Found(tenant: Tenant, account: Option<Account>) | Nobody

  type Tenants = map<string, Tenant>
  type Registry = map<string, Row>

  // ---------- Credentials of a tenant ----------

  /** The tenant's own hash, then one per account; blank where there is none. */
  function Slots(t: Tenant): (r: seq<string>)
    ensures |r| == 1 + |t.accounts|
  {
    [TrimSpace(t.apiKeyHash)] +
        seq(|t.accounts|, i requires 0 <= i < |t.accounts| => TrimSpace(t.accounts[i].apiKeyHash))
  }

  function RowFor(t: Tenant, k: nat): Row
    requires k <= |t.accounts|
  {
    if k == 0 then Row(t.id, false, "")
    else Row(t.id, TrimSpace(t.accounts[k - 1].id) != "", t.accounts[k - 1].id)
  }

  ghost predicate UniqueWithin(slots: seq<string>) {
    forall i, j :: 0 <= i < j < |slots| && slots[i] != "" ==> slots[i] != slots[j]
  }

  /** The k-th credential of tenant id has this hash. */
  ghost predicate At(tenants: Tenants, id: string, k: nat, hash: string) {
    id in tenants && k < |Slots(tenants[id])| && Slots(tenants[id])[k] == hash
  }

  /** No two credentials have the same hash. */
  ghost predicate Unique(tenants: Tenants) {
    forall hash, id, k, id', k' :: hash != "" && At(tenants, id, k, hash) && At(tenants, id', k', hash) ==>
        id == id' && k == k'
  }

  /** The registry holds exactly the credentials of the tenants. */
  ghost predicate Indexed(tenants: Tenants, registry: Registry) {
    && (forall hash :: hash in registry ==> hash != "" && Owned(tenants, registry, hash))
    && (forall hash, id, k :: hash != "" && At(tenants, id, k, hash) ==>
        hash in registry && registry[hash] == RowFor(tenants[id], k))
  }

  ghost predicate Owned(tenants: Tenants, registry: Registry, hash: string)
    requires hash in registry
  {
    exists id, k :: At(tenants, id, k, hash) && registry[hash] == RowFor(tenants[id], k)
  }

  /** The tenant's credentials differ from one another and from those of all other tenants. */
  ghost predicate Admissible(tenants: Tenants, t: Tenant) {
    && UniqueWithin(Slots(t))
    && forall id, k :: id in tenants && id != t.id && 0 <= k < |Slots(t)| && Slots(t)[k] != "" ==>
        Slots(t)[k] !in Slots(tenants[id])
  }

  // ---------- Storing and removing a tenant ----------

  function Without(registry: Registry, id: string): Registry {
    map h | h in registry && registry[h].tenantId != id :: registry[h]
  }

  ghost predicate IdsAreKeys(tenants: Tenants) {
    forall id :: id in tenants ==> tenants[id].id == id
  }

  lemma {:induction false} StoredIsUnique(tenants: Tenants, t: Tenant)
    requires Unique(tenants) && Admissible(tenants, t)
    ensures Unique(tenants[t.id := t])
  {
    var after := tenants[t.id := t];
    forall hash, id, k, id', k' | hash != "" && At(after, id, k, hash) && At(after, id', k', hash)
      ensures id == id' && k == k'
    {
      if id != t.id && id' != t.id {
        assert At(tenants, id, k, hash) && At(tenants, id', k', hash);
      }
    }
  }

  /** The rows of a tenant's first n credentials have been added to those of the other tenants. */
  ghost predicate PartlyIndexed(tenants: Tenants, t: Tenant, registry: Registry, n: nat)
    requires n <= |Slots(t)|
  {
    RowsOwned(tenants, t, registry, n) && OthersListed(tenants, t.id, registry) && SlotsListed(t, registry, n)
  }

  ghost predicate RowsOwned(tenants: Tenants, t: Tenant, registry: Registry, n: nat)
    requires n <= |Slots(t)|
  {
    forall hash :: hash in registry ==>
      hash != "" && (OwnedByOther(tenants, t.id, registry, hash) || OwnedBySlot(t, registry, hash, n))
  }

  ghost predicate OthersListed(tenants: Tenants, id: string, registry: Registry) {
    forall hash, other, k :: hash != "" && other != id && At(tenants, other, k, hash) ==>
      hash in registry && registry[hash] == RowFor(tenants[other], k)
  }

  ghost predicate SlotsListed(t: Tenant, registry: Registry, n: nat)
    requires n <= |Slots(t)|
  {
    forall k :: 0 <= k < n && Slots(t)[k] != "" ==> Slots(t)[k] in registry && registry[Slots(t)[k]] == RowFor(t, k)
  }

  ghost predicate OwnedByOther(tenants: Tenants, id: string, registry: Registry, hash: string)
    requires hash in registry
  {
    exists other, k :: other != id && At(tenants, other, k, hash) && registry[hash] == RowFor(tenants[other], k)
  }

  ghost predicate OwnedBySlot(t: Tenant, registry: Registry, hash: string, n: nat)
    requires hash in registry && n <= |Slots(t)|
  {
    exists k :: 0 <= k < n && Slots(t)[k] == hash && registry[hash] == RowFor(t, k)
  }

  /** A fresh hash: the unique index cannot refuse the next row. */
  lemma {:induction false} NextRowIsNew(tenants: Tenants, t: Tenant, registry: Registry, n: nat)
    requires Admissible(tenants, t) && n < |Slots(t)| && PartlyIndexed(tenants, t, registry, n)
    ensures Slots(t)[n] !in registry
  {
    var hash := Slots(t)[n];
    assert forall other, k :: At(tenants, other, k, hash) ==> hash in Slots(tenants[other]);
    assert hash != "" ==> forall other, k :: other != t.id ==> !At(tenants, other, k, hash);
  }

  /** Adding a row under a new hash changes no other row's owner. */
  lemma {:induction false} OwnerStays(tenants: Tenants, t: Tenant, registry: Registry, after: Registry, n: nat,
                                      h: string)
    requires h in registry && h in after && after[h] == registry[h] && n < |Slots(t)|
    requires OwnedByOther(tenants, t.id, registry, h) || OwnedBySlot(t, registry, h, n)
    ensures OwnedByOther(tenants, t.id, after, h) || OwnedBySlot(t, after, h, n + 1)
  {
    if OwnedByOther(tenants, t.id, registry, h) {
      var other, k: nat :| other != t.id && At(tenants, other, k, h) && registry[h] == RowFor(tenants[other], k);
      assert after[h] == RowFor(tenants[other], k);
    } else {
      var k: nat :| k < n && Slots(t)[k] == h && registry[h] == RowFor(t, k);
      assert after[h] == RowFor(t, k);
    }
  }

  lemma {:induction false} RowsOwnedNext(tenants: Tenants, t: Tenant, registry: Registry, n: nat)
    requires n < |Slots(t)| && RowsOwned(tenants, t, registry, n) && Slots(t)[n] !in registry
    ensures Slots(t)[n] == "" ==> RowsOwned(tenants, t, registry, n + 1)
    ensures Slots(t)[n] != "" ==> RowsOwned(tenants, t, registry[Slots(t)[n] := RowFor(t, n)], n + 1)
  {
    var hash := Slots(t)[n];
    var after := if hash == "" then registry else registry[hash := RowFor(t, n)];
    forall h | h in after
      ensures h != "" && (OwnedByOther(tenants, t.id, after, h) || OwnedBySlot(t, after, h, n + 1))
    {
      if h in registry {
        OwnerStays(tenants, t, registry, after, n, h);
      }
    }
  }

  lemma {:induction false} ListedNext(tenants: Tenants, t: Tenant, registry: Registry, n: nat)
    requires n < |Slots(t)| && Slots(t)[n] !in registry
    requires OthersListed(tenants, t.id, registry) && SlotsListed(t, registry, n)
    ensures Slots(t)[n] == "" ==> SlotsListed(t, registry, n + 1)
    ensures var after := registry[Slots(t)[n] := RowFor(t, n)];
            Slots(t)[n] != "" ==> OthersListed(tenants, t.id, after) && SlotsListed(t, after, n + 1)
  {
  }

  lemma {:induction false} NextRow(tenants: Tenants, t: Tenant, registry: Registry, n: nat)
    requires n < |Slots(t)| && PartlyIndexed(tenants, t, registry, n) && Slots(t)[n] !in registry
    ensures Slots(t)[n] == "" ==> PartlyIndexed(tenants, t, registry, n + 1)
    ensures Slots(t)[n] != "" ==> PartlyIndexed(tenants, t, registry[Slots(t)[n] := RowFor(t, n)], n + 1)
  {
    RowsOwnedNext(tenants, t, registry, n);
    ListedNext(tenants, t, registry, n);
  }

  lemma {:induction false} OwnerStored(tenants: Tenants, t: Tenant, registry: Registry, hash: string)
    requires hash in registry
    requires OwnedByOther(tenants, t.id, registry, hash) || OwnedBySlot(t, registry, hash, |Slots(t)|)
    ensures Owned(tenants[t.id := t], registry, hash)
  {
    var after := tenants[t.id := t];
    if OwnedByOther(tenants, t.id, registry, hash) {
      var other, k: nat :| other != t.id && At(tenants, other, k, hash) && registry[hash] == RowFor(tenants[other], k);
      assert At(after, other, k, hash) && registry[hash] == RowFor(after[other], k);
    } else {
      var k: nat :| k < |Slots(t)| && Slots(t)[k] == hash && registry[hash] == RowFor(t, k);
      assert At(after, t.id, k, hash) && registry[hash] == RowFor(after[t.id], k);
    }
  }

  lemma {:induction false} AllOwned(tenants: Tenants, t: Tenant, registry: Registry)
    requires RowsOwned(tenants, t, registry, |Slots(t)|)
    ensures forall hash :: hash in registry ==> hash != "" && Owned(tenants[t.id := t], registry, hash)
  {
    forall hash | hash in registry ensures hash != "" && Owned(tenants[t.id := t], registry, hash) {
      OwnerStored(tenants, t, registry, hash);
    }
  }

  lemma {:induction false} AllListed(tenants: Tenants, t: Tenant, registry: Registry, hash: string, id: string, k: nat)
    requires OthersListed(tenants, t.id, registry) && SlotsListed(t, registry, |Slots(t)|)
    requires hash != "" && At(tenants[t.id := t], id, k, hash)
    ensures hash in registry && registry[hash] == RowFor(tenants[t.id := t][id], k)
  {
    if id != t.id {
      assert At(tenants, id, k, hash);
    }
  }

  lemma {:induction false} FullyIndexed(tenants: Tenants, t: Tenant, registry: Registry)
    requires PartlyIndexed(tenants, t, registry, |Slots(t)|)
    ensures Indexed(tenants[t.id := t], registry)
  {
    var after := tenants[t.id := t];
    AllOwned(tenants, t, registry);
    forall hash, id, k | hash != "" && At(after, id, k, hash)
      ensures hash in registry && registry[hash] == RowFor(after[id], k)
    {
      AllListed(tenants, t, registry, hash, id, k);
    }
  }

  lemma {:induction false} DeletedIsIndexed(tenants: Tenants, registry: Registry, id: string)
    requires Unique(tenants) && Indexed(tenants, registry) && IdsAreKeys(tenants)
    ensures Unique(tenants - {id}) && Indexed(tenants - {id}, Without(registry, id))
  {
    var after, rest := tenants - {id}, Without(registry, id);
    forall hash, i, k | At(after, i, k, hash) ensures At(tenants, i, k, hash) {
    }
    forall hash | hash in rest ensures hash != "" && Owned(after, rest, hash) {
      assert Owned(tenants, registry, hash);
      var i, k :| At(tenants, i, k, hash) && registry[hash] == RowFor(tenants[i], k);
      assert At(after, i, k, hash);
    }
  }

  // ---------- Validation ----------

  /** validateCredentialUniquenessWithinTenant. */
  method ValidateWithin(t: Tenant) returns (ok: bool)
    ensures ok <==> UniqueWithin(Slots(t))
  {
    var slots := Slots(t);
    var seen: set<string> := {};
    for k := 0 to |slots|
      invariant forall h :: h in seen <==> h != "" && h in slots[..k]
      invariant UniqueWithin(slots[..k])
    {
      var hash := slots[k];
      if hash != "" && hash in seen {
        var i :| 0 <= i < k && slots[i] == hash;
        return false;
      }
      assert slots[..k + 1] == slots[..k] + [hash];
      if hash != "" {
        seen := seen + {hash};
      }
    }
    assert slots[..|slots|] == slots;
    return true;
  }

  /** tenantCredentialOwners, as the set of its keys. */
  function Hashes(t: Tenant): set<string> {
    set h | h in Slots(t) && h != ""
  }

  /** validateCredentialUniqueness against all stored tenants, in any order. */
  method ValidateUniqueness(tenants: Tenants, t: Tenant) returns (ok: bool)
    requires IdsAreKeys(tenants)
    ensures ok <==> Admissible(tenants, t)
  {
    ok := ValidateWithin(t);
    if !ok {
      return;
    }
    var rest := tenants.Keys;
    while rest != {}
      invariant rest <= tenants.Keys
      invariant forall id :: id in tenants && id !in rest && id != t.id ==> Hashes(tenants[id]) !! Hashes(t)
    {
      var id :| id in rest;
      rest := rest - {id};
      if tenants[id].id != t.id && !(Hashes(tenants[id]) !! Hashes(t)) {
        var h :| h in Hashes(tenants[id]) && h in Hashes(t);
        var k :| 0 <= k < |Slots(t)| && Slots(t)[k] == h;
        return false;
      }
    }
    forall id, k | id in tenants && id != t.id && 0 <= k < |Slots(t)| && Slots(t)[k] != ""
      ensures Slots(t)[k] !in Slots(tenants[id])
    {
      assert Slots(t)[k] in Hashes(t);
      assert Slots(t)[k] !in Hashes(tenants[id]);
    }
  }

  // ---------- Preparing a tenant ----------

  const DEFAULT_TENANT_ID := "default"

  function NormalizeTenantId(id: string): string {
    if TrimSpace(id) == "" then DEFAULT_TENANT_ID else TrimSpace(id)
  }

  function DefaultTenant(): Tenant {
    Tenant(DEFAULT_TENANT_ID, "Default Tenant", "", "", true, [])
  }

  /** SHA-256 is any function. */
  type Digest = string -> string

  function HashApiKey(digest: Digest, key: string): string {
    if TrimSpace(key) == "" then "" else digest(TrimSpace(key))
  }

  function NormalizedHash(digest: Digest, key: string, stored: string): string {
    if HashApiKey(digest, key) != "" then HashApiKey(digest, key) else TrimSpace(stored)
  }

  /** prepareTenantCredentials: keys are replaced by their hashes. */
  function Prepared(digest: Digest, t: Tenant): (r: Tenant)
    ensures r.id == t.id && r.apiKey == "" && |r.accounts| == |t.accounts|
    ensures forall i :: 0 <= i < |r.accounts| ==> r.accounts[i].apiKey == ""
  {
    t.(apiKeyHash := NormalizedHash(digest, t.apiKey, t.apiKeyHash), apiKey := "",
       accounts := seq(|t.accounts|, i requires 0 <= i < |t.accounts| =>
         t.accounts[i].(apiKeyHash := NormalizedHash(digest, t.accounts[i].apiKey, t.accounts[i].apiKeyHash),
             apiKey := "")))
  }

  function ToCreate(digest: Digest, t: Tenant): Tenant {
    var id := NormalizeTenantId(t.id);
    Prepared(digest, if id == DEFAULT_TENANT_ID then DefaultTenant() else t.(id := id))
  }

  /** The default tenant keeps its name, whatever the update says. */
  function ToUpdate(digest: Digest, t: Tenant): Tenant {
    var id := NormalizeTenantId(t.id);
    Prepared(digest, if id == DEFAULT_TENANT_ID
                     then DefaultTenant().(apiKey := t.apiKey, apiKeyHash := t.apiKeyHash, active := t.active,
                                           accounts := t.accounts)
                     else t.(id := id))
  }

  // ---------- Finding an owner ----------

  predicate AccountActive(a: Account, now: int) {
    a.active && (a.expiresAt == 0 || now <= a.expiresAt)
  }

  predicate Carries(a: Account, hash: string, now: int) {
    AccountActive(a, now) && TrimSpace(a.apiKeyHash) == hash
  }

  predicate Named(a: Account, id: string, now: int) {
    AccountActive(a, now) && a.id == id
  }

  /** The first account from k on with a property. */
  function First(accounts: seq<Account>, p: Account -> bool, k: nat): (r: Option<nat>)
    requires k <= |accounts|
    ensures r.Some? ==>
              k <= r.value < |accounts| && p(accounts[r.value]) && forall i :: k <= i < r.value ==> !p(accounts[i])
    ensures r.None? ==> forall i :: k <= i < |accounts| ==> !p(accounts[i])
    decreases |accounts| - k
  {
    if k == |accounts| then None else if p(accounts[k]) then Some(k) else First(accounts, p, k + 1)
  }

  function FirstCarrying(t: Tenant, hash: string, now: int): Option<nat> {
    First(t.accounts, (a: Account) => Carries(a, hash, now), 0)
  }

  function FirstNamed(t: Tenant, id: string, now: int): Option<nat> {
    First(t.accounts, (a: Account) => Named(a, id, now), 0)
  }

  /** The first account, active or not, with the ID of account k: the one that both lookups return. */
  function WithIdOf(t: Tenant, k: nat): Account
    requires k < |t.accounts|
  {
    var first := First(t.accounts, (a: Account) => a.id == t.accounts[k].id, 0);
    if first.Some? then t.accounts[first.value] else t.accounts[k]
  }

  /** What the scan finds in one tenant. */
  function InTenant(t: Tenant, hash: string, now: int): Answer {
    if !t.active then Nobody
    else if TrimSpace(t.apiKeyHash) == hash then Found(t, None)
    else
      match FirstCarrying(t, hash, now)
      case Some(k) => Found(t, Some(WithIdOf(t, k)))
      case None => Nobody
  }

  /** The scan of the active tenants. */
  ghost function ByScan(tenants: Tenants, hash: string, now: int): Answer {
    if exists id :: id in tenants && InTenant(tenants[id], hash, now).Found?
    then var id :| id in tenants && InTenant(tenants[id], hash, now).Found?; InTenant(tenants[id], hash, now)
    else Nobody
  }

  /** The lookup through the registry. */
  function ByRegistry(tenants: Tenants, registry: Registry, hash: string, now: int): Answer {
    if hash !in registry then Nobody
    else
      var row := registry[hash];
      var id := NormalizeTenantId(row.tenantId);
      if id !in tenants || !tenants[id].active then Nobody
      else if !row.ofAccount then
        if TrimSpace(tenants[id].apiKeyHash) == hash then Found(tenants[id], None) else Nobody
      else
        match FirstNamed(tenants[id], TrimSpace(row.accountId), now)
        case Some(k) =>
          if TrimSpace(tenants[id].accounts[k].apiKeyHash) == hash then
            Found(tenants[id], Some(WithIdOf(tenants[id], k)))
          else
            Nobody
        case None => Nobody
  }

  // ---------- What an answer means ----------

  /** The tenant has an active, unexpired account with this credential. */
  ghost predicate Holds(t: Tenant, hash: string, now: int, a: Account) {
    && a in t.accounts && TrimSpace(a.apiKeyHash) == hash
    && a.active && (a.expiresAt == 0 || now <= a.expiresAt)
  }

  /** The account is the first of the tenant with its ID. */
  ghost predicate FirstWithId(t: Tenant, a: Account) {
    exists i :: 0 <= i < |t.accounts| && t.accounts[i] == a && forall j :: 0 <= j < i ==> t.accounts[j].id != a.id
  }

  /**
   * An active tenant is named that has the credential itself, or has an active, unexpired account with
   * it, whose ID is that of the account named; nobody, only if no active tenant has either.
   */
  ghost predicate Right(tenants: Tenants, hash: string, now: int, answer: Answer) {
    match answer
    case Found(t, None) => t in tenants.Values && t.active && TrimSpace(t.apiKeyHash) == hash
    case Found(t, Some(a)) =>
      t in tenants.Values && t.active && FirstWithId(t, a) && exists b :: Holds(t, hash, now, b) && b.id == a.id
    case Nobody => forall t :: t in tenants.Values && t.active ==> Lacks(t, hash, now)
  }

  ghost predicate Lacks(t: Tenant, hash: string, now: int) {
    TrimSpace(t.apiKeyHash) != hash && forall a :: a in t.accounts ==> !Holds(t, hash, now, a)
  }

  lemma {:induction false} FirstHasId(t: Tenant, k: nat)
    requires k < |t.accounts|
    ensures FirstWithId(t, WithIdOf(t, k)) && WithIdOf(t, k).id == t.accounts[k].id
  {
    var first := First(t.accounts, (a: Account) => a.id == t.accounts[k].id, 0);
    assert first.Some?;
  }

  lemma {:induction false} TenantRight(tenants: Tenants, id: string, hash: string, now: int)
    requires id in tenants
    ensures var answer := InTenant(tenants[id], hash, now);
            if answer.Found? then Right(tenants, hash, now, answer)
            else tenants[id].active ==> Lacks(tenants[id], hash, now)
  {
    var t := tenants[id];
    var first := FirstCarrying(t, hash, now);
    if first.Some? {
      FirstHasId(t, first.value);
      assert Carries(t.accounts[first.value], hash, now);
      assert TrimSpace(t.apiKeyHash) != hash && t.active ==> Holds(t, hash, now, t.accounts[first.value]);
    }
  }

  /** The scan's answer is right. */
  lemma {:induction false} ScanRight(tenants: Tenants, hash: string, now: int)
    ensures Right(tenants, hash, now, ByScan(tenants, hash, now))
  {
    forall id | id in tenants
      ensures var answer := InTenant(tenants[id], hash, now);
              if answer.Found? then Right(tenants, hash, now, answer)
              else tenants[id].active ==> Lacks(tenants[id], hash, now)
    {
      TenantRight(tenants, id, hash, now);
    }
  }

  /** Whom the registry names is right as well. */
  lemma {:induction false} RegistryRight(tenants: Tenants, registry: Registry, hash: string, now: int)
    requires ByRegistry(tenants, registry, hash, now).Found?
    ensures Right(tenants, hash, now, ByRegistry(tenants, registry, hash, now))
  {
    var row := registry[hash];
    var t := tenants[NormalizeTenantId(row.tenantId)];
    if row.ofAccount {
      var k := FirstNamed(t, TrimSpace(row.accountId), now).value;
      FirstHasId(t, k);
      assert Named(t.accounts[k], TrimSpace(row.accountId), now) && Holds(t, hash, now, t.accounts[k]);
    }
  }

  /** The hash under which a credential is stored; blank if there is none. */
  ghost function KeyHash(digest: Digest, key: string, stored: string): string {
    if TrimSpace(key) == "" then TrimSpace(stored) else TrimSpace(digest(TrimSpace(key)))
  }

  /** Every credential given for an active tenant leads the scan to the tenant, or to an account with the right ID. */
  ghost predicate FoundByKeys(digest: Digest, tenants: Tenants, given: Tenant, id: string, now: int) {
    && id in tenants
    && (given.active && KeyHash(digest, given.apiKey, given.apiKeyHash) != "" ==>
          ByScan(tenants, KeyHash(digest, given.apiKey, given.apiKeyHash), now) == Found(tenants[id], None))
    && (forall i :: 0 <= i < |given.accounts| && given.active ==>
          FoundByKey(digest, tenants, given.accounts[i], id, now))
  }

  ghost predicate FoundByKey(digest: Digest, tenants: Tenants, a: Account, id: string, now: int)
    requires id in tenants
  {
    var hash := KeyHash(digest, a.apiKey, a.apiKeyHash);
    hash != "" && a.active && (a.expiresAt == 0 || now <= a.expiresAt) ==>
      var answer := ByScan(tenants, hash, now);
      answer.Found? && answer.tenant == tenants[id] && answer.account.Some? && answer.account.value.id == a.id
  }

  lemma {:induction false} TrimmedHash(digest: Digest, key: string, stored: string)
    requires KeyHash(digest, key, stored) != ""
    ensures TrimSpace(NormalizedHash(digest, key, stored)) == KeyHash(digest, key, stored)
  {
    TrimSpaceIdempotent(stored);
    assert TrimSpace("") == "";
  }

  lemma {:induction false} PreparedIsFound(digest: Digest, tenants: Tenants, given: Tenant, id: string, now: int)
    requires Unique(tenants) && id in tenants && tenants[id].active == given.active
    requires tenants[id].apiKeyHash == NormalizedHash(digest, given.apiKey, given.apiKeyHash)
    requires tenants[id].accounts == Prepared(digest, given).accounts
    ensures FoundByKeys(digest, tenants, given, id, now)
  {
    var t := tenants[id];
    if given.active && KeyHash(digest, given.apiKey, given.apiKeyHash) != "" {
      TrimmedHash(digest, given.apiKey, given.apiKeyHash);
      ScanFindsHolder(tenants, id, 0, KeyHash(digest, given.apiKey, given.apiKeyHash), now);
    }
    forall i | 0 <= i < |given.accounts| && given.active
      ensures FoundByKey(digest, tenants, given.accounts[i], id, now)
    {
      AccountIsFound(digest, tenants, given.accounts[i], id, i, now);
    }
  }

  lemma {:induction false} AccountIsFound(digest: Digest, tenants: Tenants, a: Account, id: string, k: nat, now: int)
    requires Unique(tenants) && id in tenants && tenants[id].active && k < |tenants[id].accounts|
    requires tenants[id].accounts[k] == a.(apiKeyHash := NormalizedHash(digest, a.apiKey, a.apiKeyHash), apiKey := "")
    ensures FoundByKey(digest, tenants, a, id, now)
  {
    var t, hash := tenants[id], KeyHash(digest, a.apiKey, a.apiKeyHash);
    if hash != "" {
      TrimmedHash(digest, a.apiKey, a.apiKeyHash);
      SlotsUnique(tenants, id);
      HolderAnswers(t, k, hash, now);
      assert At(tenants, id, k + 1, hash);
      ScanFindsHolder(tenants, id, k + 1, hash, now);
      FirstHasId(t, k);
    }
  }

  // ---------- When the two agree ----------

  /** The registry can name account k: its ID is not blank, is trimmed, and no earlier active account has it. */
  ghost predicate Addressable(t: Tenant, k: nat, now: int)
    requires k < |t.accounts|
  {
    && TrimSpace(t.accounts[k].id) != "" && TrimSpace(t.accounts[k].id) == t.accounts[k].id
    && forall i :: 0 <= i < k ==> !Named(t.accounts[i], t.accounts[k].id, now)
  }

  /** Every usable account credential can be named by the registry. */
  ghost predicate AllAddressable(tenants: Tenants, now: int) {
    forall id, k: nat :: id in tenants && k < |tenants[id].accounts| && Usable(tenants[id], k, now) ==>
      Addressable(tenants[id], k, now)
  }

  /** Account k has a credential that the scan would find. */
  predicate Usable(t: Tenant, k: nat, now: int)
    requires k < |t.accounts|
  {
    t.active && AccountActive(t.accounts[k], now) && TrimSpace(t.accounts[k].apiKeyHash) != ""
  }

  ghost predicate Sound(tenants: Tenants, registry: Registry) {
    && Unique(tenants) && Indexed(tenants, registry) && IdsAreKeys(tenants)
    && forall id :: id in tenants ==> NormalizeTenantId(id) == id
  }

  /** The scan finds nothing in a tenant without the hash. */
  lemma {:induction false} AbsentHash(t: Tenant, hash: string, now: int)
    requires hash !in Slots(t)
    ensures InTenant(t, hash, now) == Nobody
  {
    assert Slots(t)[0] != hash;
    forall i | 0 <= i < |t.accounts| ensures TrimSpace(t.accounts[i].apiKeyHash) != hash {
      assert Slots(t)[i + 1] == TrimSpace(t.accounts[i].apiKeyHash);
    }
  }

  /** Only the tenant that holds the hash can answer. */
  lemma {:induction false} ScanFindsHolder(tenants: Tenants, id: string, k: nat, hash: string, now: int)
    requires Unique(tenants) && hash != "" && At(tenants, id, k, hash)
    ensures ByScan(tenants, hash, now) == InTenant(tenants[id], hash, now)
  {
    forall other | other in tenants && other != id ensures InTenant(tenants[other], hash, now) == Nobody {
      if hash in Slots(tenants[other]) {
        var j: nat :| j < |Slots(tenants[other])| && Slots(tenants[other])[j] == hash;
        assert At(tenants, other, j, hash);
        assert false;
      }
      AbsentHash(tenants[other], hash, now);
    }
  }

  /** Within one tenant without repeated hashes, the scan finds exactly the active account that has the hash. */
  lemma {:induction false} HolderAnswers(t: Tenant, k: nat, hash: string, now: int)
    requires UniqueWithin(Slots(t)) && hash != "" && k < |t.accounts| && TrimSpace(t.accounts[k].apiKeyHash) == hash
    ensures TrimSpace(t.apiKeyHash) != hash
    ensures forall i :: 0 <= i < |t.accounts| && i != k ==> TrimSpace(t.accounts[i].apiKeyHash) != hash
    ensures FirstCarrying(t, hash, now) == if AccountActive(t.accounts[k], now) then Some(k) else None
  {
    assert Slots(t)[0] == TrimSpace(t.apiKeyHash) && Slots(t)[k + 1] == hash;
    forall i | 0 <= i < |t.accounts| && i != k ensures TrimSpace(t.accounts[i].apiKeyHash) != hash {
      assert Slots(t)[i + 1] == TrimSpace(t.accounts[i].apiKeyHash);
    }
  }

  lemma {:induction false} SlotsUnique(tenants: Tenants, id: string)
    requires Unique(tenants) && id in tenants
    ensures UniqueWithin(Slots(tenants[id]))
  {
    var slots := Slots(tenants[id]);
    forall i, j | 0 <= i < j < |slots| && slots[i] != "" ensures slots[i] != slots[j] {
      assert At(tenants, id, i, slots[i]);
      assert slots[i] == slots[j] ==> At(tenants, id, j, slots[i]);
    }
  }

  /** At an account credential the two lookups differ exactly if the account is usable and cannot be named. */
  lemma {:induction false} AtAccount(tenants: Tenants, registry: Registry, id: string, k: nat, hash: string, now: int)
    requires Sound(tenants, registry) && hash != "" && id in tenants && k < |tenants[id].accounts|
    requires At(tenants, id, k + 1, hash)
    ensures (ByScan(tenants, hash, now) == ByRegistry(tenants, registry, hash, now)) <==>
            (Usable(tenants[id], k, now) ==> Addressable(tenants[id], k, now))
  {
    var t := tenants[id];
    SlotsUnique(tenants, id);
    assert TrimSpace(t.accounts[k].apiKeyHash) == hash;
    HolderAnswers(t, k, hash, now);
    ScanFindsHolder(tenants, id, k + 1, hash, now);
    assert registry[hash] == RowFor(t, k + 1);
    if TrimSpace(t.accounts[k].id) != "" {
      NameFinds(t, k, now);
    }
  }

  /** The first active account with account k's trimmed ID is account k exactly if k is active and can be named. */
  lemma {:induction false} NameFinds(t: Tenant, k: nat, now: int)
    requires k < |t.accounts| && TrimSpace(t.accounts[k].id) != ""
    ensures (FirstNamed(t, TrimSpace(t.accounts[k].id), now) == Some(k)) <==>
            (AccountActive(t.accounts[k], now) && Addressable(t, k, now))
  {
  }

  lemma {:induction false} AtTenant(tenants: Tenants, registry: Registry, id: string, hash: string, now: int)
    requires Sound(tenants, registry) && hash != "" && At(tenants, id, 0, hash)
    ensures ByScan(tenants, hash, now) == ByRegistry(tenants, registry, hash, now)
  {
    ScanFindsHolder(tenants, id, 0, hash, now);
    assert registry[hash] == RowFor(tenants[id], 0);
  }

  lemma {:induction false} AtNobody(tenants: Tenants, registry: Registry, hash: string, now: int)
    requires Sound(tenants, registry) && NoHolder(tenants, hash)
    ensures ByScan(tenants, hash, now) == Nobody && ByRegistry(tenants, registry, hash, now) == Nobody
  {
    assert hash in registry ==> Owned(tenants, registry, hash);
    forall id | id in tenants ensures InTenant(tenants[id], hash, now) == Nobody {
      forall k: nat | k < |Slots(tenants[id])| ensures Slots(tenants[id])[k] != hash {
        assert !At(tenants, id, k, hash);
      }
      AbsentHash(tenants[id], hash, now);
    }
  }

  ghost predicate LookupsAgree(tenants: Tenants, registry: Registry, now: int) {
    forall hash :: hash != "" ==> ByScan(tenants, hash, now) == ByRegistry(tenants, registry, hash, now)
  }

  /** The registry answers as the scan does, for every hash, exactly if it can name every usable account. */
  lemma {:induction false} AgreeIffAddressable(tenants: Tenants, registry: Registry, now: int)
    requires Sound(tenants, registry)
    ensures LookupsAgree(tenants, registry, now) <==> AllAddressable(tenants, now)
  {
    if AllAddressable(tenants, now) {
      forall hash | hash != "" ensures ByScan(tenants, hash, now) == ByRegistry(tenants, registry, hash, now) {
        AgreeAt(tenants, registry, hash, now);
      }
    }
    if LookupsAgree(tenants, registry, now) {
      forall id, k: nat | id in tenants && k < |tenants[id].accounts| && Usable(tenants[id], k, now)
        ensures Addressable(tenants[id], k, now)
      {
        var hash := TrimSpace(tenants[id].accounts[k].apiKeyHash);
        assert At(tenants, id, k + 1, hash);
        AtAccount(tenants, registry, id, k, hash, now);
      }
    }
  }

  lemma {:induction false} AgreeAt(tenants: Tenants, registry: Registry, hash: string, now: int)
    requires Sound(tenants, registry) && AllAddressable(tenants, now) && hash != ""
    ensures ByScan(tenants, hash, now) == ByRegistry(tenants, registry, hash, now)
  {
    var held, id, k := Holder(tenants, hash);
    if !held {
      AtNobody(tenants, registry, hash, now);
    } else if k == 0 {
      AtTenant(tenants, registry, id, hash, now);
    } else {
      AgreeAtAccount(tenants, registry, id, k - 1, hash, now);
    }
  }

  ghost predicate NoHolder(tenants: Tenants, hash: string) {
    forall id, k: nat :: !At(tenants, id, k, hash)
  }

  lemma {:induction false} Holder(tenants: Tenants, hash: string) returns (held: bool, id: string, k: nat)
    ensures if held then At(tenants, id, k, hash) else NoHolder(tenants, hash)
  {
    if i, j: nat :| At(tenants, i, j, hash) {
      held, id, k := true, i, j;
    } else {
      held, id, k := false, "", 0;
    }
  }

  lemma {:induction false} AgreeAtAccount(tenants: Tenants, registry: Registry, id: string, k: nat, hash: string,
                                          now: int)
    requires Sound(tenants, registry) && AllAddressable(tenants, now) && hash != "" && At(tenants, id, k + 1, hash)
    ensures ByScan(tenants, hash, now) == ByRegistry(tenants, registry, hash, now)
  {
    assert Usable(tenants[id], k, now) ==> Addressable(tenants[id], k, now);
    AtAccount(tenants, registry, id, k, hash, now);
  }

  /** Account IDs that are trimmed, not blank and unique within each tenant. */
  ghost predicate ProperIds(tenants: Tenants) {
    forall id :: id in tenants ==> ProperAccounts(tenants[id].accounts)
  }

  ghost predicate ProperAccounts(accounts: seq<Account>) {
    && (forall i :: 0 <= i < |accounts| ==> accounts[i].id != "" && TrimSpace(accounts[i].id) == accounts[i].id)
    && (forall i, j :: 0 <= i < j < |accounts| ==> accounts[i].id != accounts[j].id)
  }

  /** With proper account IDs the two lookups agree on every hash at every time. */
  lemma {:induction false} ProperIdsAgree(tenants: Tenants, registry: Registry, now: int)
    requires Sound(tenants, registry) && ProperIds(tenants)
    ensures LookupsAgree(tenants, registry, now)
  {
    AgreeIffAddressable(tenants, registry, now);
  }
}
