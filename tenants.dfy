/**
 * The tenant manager: tenant records held in a cache and, when configured, a tenants
 * database; client credentials held in a secret vault as one `client_id:client_secret`
 * string per tenant; field-protected updates; and the choice of tenants due a sync.
 */
module Tenants {
  import opened Wrappers
  import opened Seqs
  import opened Text

  /**
   * A value of a tenant record. An ISO-8601 timestamp is modelled by the instant it
   * denotes (`Time`); `Str` is any other text.
   */
  datatype Value = Str(s: string) | Flag(b: bool) | Time(t: real) | Null

  /** A tenant record as the cache and the database hold it. */
  type TenantData = map<string, Value>

  datatype TenantCreate = TenantCreate(id: string, name: string, azureTenantId: string, isActive: bool,
                                       clientId: string, clientSecret: string)

  datatype Tenant = Tenant(id: string, name: string, azureTenantId: string, isActive: bool,
                           createdAt: real, lastSync: Option<real>)

  // ------------------------------------------------------------------ credentials

  /** `f"tenant-{tenant_id}-credentials"`. */
  function SecretName(tenantId: string): string {
    "tenant-" + tenantId + "-credentials"
  }

  /** `f"{client_id}:{client_secret}"`. */
  function EncodeSecret(clientId: string, clientSecret: string): string {
    clientId + ":" + clientSecret
  }

  /**
   * `client_id, client_secret = value.split(":", 1)`: the text before the first `:` and
   * the rest; without a `:` the unpacking raises.
   */
  function DecodeSecret(value: string): (r: Result<(string, string)>)
    ensures r.Ok? <==> ':' in value
    ensures r.Ok? ==> ':' !in r.value.0 && EncodeSecret(r.value.0, r.value.1) == value
  {
    match IndexOf(value, ':')
      case None => Failure("not enough values to unpack")
      case Some(i) =>
        assert value == value[..i] + ":" + value[i + 1..];
        Ok((value[..i], value[i + 1..]))
  }

  /** Decoding gives back the stored pair exactly when the client id holds no `:`. */
  lemma SecretRoundTrip(clientId: string, clientSecret: string)
    ensures DecodeSecret(EncodeSecret(clientId, clientSecret)) == Ok((clientId, clientSecret)) <==> ':' !in clientId
  {
    var value := EncodeSecret(clientId, clientSecret);
    var i := IndexOf(value, ':').value;
    assert value[|clientId|] == ':';
    if ':' !in clientId {
      assert value[..i] == clientId && value[i + 1..] == clientSecret;
    } else {
      var j :| 0 <= j < |clientId| && clientId[j] == ':';
      assert value[j] == ':';
      assert value[..i] != clientId;
    }
  }

  /** Each tenant has its own secret name, so one tenant's rotation leaves the others' secrets alone. */
  lemma SecretNamesDistinct(a: string, b: string)
    ensures SecretName(a) == SecretName(b) <==> a == b
  {
    if SecretName(a) == SecretName(b) {
      assert |a| == |b|;
      assert forall k :: 0 <= k < |a| ==> a[k] == SecretName(a)[7 + k] == SecretName(b)[7 + k] == b[k];
    }
  }

  /** `get_tenant_credentials` over the vault's secrets; a missing secret raises. */
  function CredentialsIn(secrets: map<string, string>, tenantId: string): Result<(string, string)> {
    if SecretName(tenantId) in secrets then DecodeSecret(secrets[SecretName(tenantId)])
    else Failure("secret not found")
  }

  /**
   * After storing a tenant's credentials, reading them back yields the stored pair iff the
   * client id has no `:`, and every other tenant's credentials read as before.
   */
  lemma StoredCredentialsReadBack(secrets: map<string, string>, tenantId: string, clientId: string, clientSecret: string, other: string)
    requires other != tenantId
    ensures var after := secrets[SecretName(tenantId) := EncodeSecret(clientId, clientSecret)];
      (CredentialsIn(after, tenantId) == Ok((clientId, clientSecret)) <==> ':' !in clientId) &&
      CredentialsIn(after, other) == CredentialsIn(secrets, other)
  {
    SecretRoundTrip(clientId, clientSecret);
    SecretNamesDistinct(tenantId, other);
  }

  // ------------------------------------------------------------------ records

  /** The record `register_tenant` stores. */
  function NewRecord(t: TenantCreate, createdAt: real): TenantData {
    map["id" := Str(t.id), "name" := Str(t.name), "azure_tenant_id" := Str(t.azureTenantId),
        "is_active" := Flag(t.isActive), "created_at" := Time(createdAt), "last_sync" := Value.Null,
        "partition_key" := Str(t.id)]
  }

  function TextField(data: TenantData, key: string): Option<string> {
    if key in data && data[key].Str? then Some(data[key].s) else None
  }

  /**
   * `_dict_to_tenant`: `None` where it raises (a missing name field, or a value the
   * `Tenant` model rejects). `now` is the clock, the default creation time.
   */
  function TenantOf(data: TenantData, now: real): Option<Tenant> {
    var id, name, azure := TextField(data, "id"), TextField(data, "name"), TextField(data, "azure_tenant_id");
    var active: Option<bool> :=
      if "is_active" !in data then Some(true) else if data["is_active"].Flag? then Some(data["is_active"].b) else None;
    var created: Option<real> :=
      if "created_at" !in data then Some(now) else if data["created_at"].Time? then Some(data["created_at"].t) else None;
    var synced: Option<Option<real>> :=
      if "last_sync" !in data || data["last_sync"].Null? then Some(None)
      else if data["last_sync"].Time? then Some(Some(data["last_sync"].t)) else None;
    if id.None? || name.None? || azure.None? || active.None? || created.None? || synced.None? then None
    else Some(Tenant(id.value, name.value, azure.value, active.value, created.value, synced.value))
  }

  /** A registered record reads back as the registered tenant, created at the stored time and never synced. */
  lemma RegisteredReadsBack(t: TenantCreate, createdAt: real, now: real)
    ensures TenantOf(NewRecord(t, createdAt), now) == Some(Tenant(t.id, t.name, t.azureTenantId, t.isActive, createdAt, None))
  {
  }

  const ProtectedKeys: set<string> := {"id", "created_at", "partition_key"}

  /** The record after `update_tenant`'s loop: every update except the protected keys copied over. */
  function Patched(data: TenantData, updates: map<string, Value>): TenantData {
    map k | k in data.Keys + (updates.Keys - ProtectedKeys) ::
      if k in updates && k !in ProtectedKeys then updates[k] else data[k]
  }

  /** The updates among `keys`. */
  function Restrict(updates: map<string, Value>, keys: set<string>): map<string, Value> {
    map k | k in keys && k in updates :: updates[k]
  }

  /** `update_tenant`'s loop over the updates, skipping the protected keys. */
  method ApplyUpdates(data: TenantData, updates: map<string, Value>) returns (patched: TenantData)
    ensures patched == Patched(data, updates)
  {
    patched := data;
    var todo := updates.Keys;
    ghost var done: set<string> := {};
    while todo != {}
      invariant todo + done == updates.Keys && todo !! done
      invariant patched == Patched(data, Restrict(updates, done))
      decreases todo
    {
      var key :| key in todo;
      if key !in ProtectedKeys {
        patched := patched[key := updates[key]];
      }
      todo, done := todo - {key}, done + {key};
    }
    assert Restrict(updates, done) == updates;
  }

  /**
   * An update keeps the protected keys as they were (present or absent), sets every other
   * updated key to its new value, and keeps every key it does not name.
   */
  lemma PatchedFacts(data: TenantData, updates: map<string, Value>)
    ensures var r := Patched(data, updates);
      (forall k :: k in ProtectedKeys ==> (k in r <==> k in data) && (k in data ==> r[k] == data[k])) &&
      (forall k :: k in updates && k !in ProtectedKeys ==> k in r && r[k] == updates[k]) &&
      (forall k :: k in data && k !in updates ==> k in r && r[k] == data[k]) &&
      r.Keys == data.Keys + (updates.Keys - ProtectedKeys)
  {
  }

  /** An update never changes which tenant a record is, nor when it was created. */
  lemma PatchKeepsIdentity(data: TenantData, updates: map<string, Value>, now: real)
    requires TenantOf(data, now).Some? && TenantOf(Patched(data, updates), now).Some?
    ensures TenantOf(Patched(data, updates), now).value.id == TenantOf(data, now).value.id
    ensures TenantOf(Patched(data, updates), now).value.createdAt == TenantOf(data, now).value.createdAt
  {
    PatchedFacts(data, updates);
  }

  /** Deactivating sets the flag: the record, when it still reads, reads as inactive. */
  lemma DeactivatedIsInactive(data: TenantData, now: real)
    ensures TenantOf(Patched(data, map["is_active" := Flag(false)]), now).Some? ==>
      !TenantOf(Patched(data, map["is_active" := Flag(false)]), now).value.isActive
  {
    PatchedFacts(data, map["is_active" := Flag(false)]);
  }

  /**
   * The record `update_tenant` works on: the cached one unless it is missing or empty,
   * then the database's when there is one; a failed read, or an empty record, is none.
   */
  function Found(cache: map<string, TenantData>, database: Option<map<string, TenantData>>, tenantId: string): Option<TenantData> {
    var cached: TenantData := if tenantId in cache then cache[tenantId] else map[];
    var data: TenantData :=
      if cached == map[] && database.Some? then (if tenantId in database.value then database.value[tenantId] else map[])
      else cached;
    if data == map[] then None else Some(data)
  }

  /** The database after an upsert, when there is one. */
  function Upserted(database: Option<map<string, TenantData>>, tenantId: string, data: TenantData): Option<map<string, TenantData>> {
    if database.Some? then Some(database.value[tenantId := data]) else None
  }

  /** The cache's key order after storing `tenantId`: a new key goes last. */
  function CachedOrder(order: seq<string>, cache: map<string, TenantData>, tenantId: string): seq<string> {
    if tenantId in cache then order else order + [tenantId]
  }

  /** What an update returns for the record it wrote: the tenant, or the conversion's failure. */
  function UpdateResult(data: TenantData, now: real): Result<Option<Tenant>> {
    match TenantOf(data, now)
      case None => Failure("invalid tenant record")
      case Some(t) => Ok(Some(t))
  }

  // ------------------------------------------------------------------ sync

  /** Not synced yet, or last synced before the cutoff. */
  function NeedsSync(cutoff: real): Tenant -> bool {
    (t: Tenant) => t.lastSync.None? || t.lastSync.value < cutoff
  }

  /** `datetime.utcnow().timestamp() - (max_age_minutes * 60)`. */
  function SyncCutoff(now: real, maxAgeMinutes: int): real {
    now - (maxAgeMinutes * 60) as real
  }

  /** `get_tenants_needing_sync`'s loop over the listed tenants. */
  method TenantsNeedingSync(all: seq<Tenant>, now: real, maxAgeMinutes: int) returns (due: seq<Tenant>)
    ensures due == Filter(all, NeedsSync(SyncCutoff(now, maxAgeMinutes)))
  {
    var cutoff := now - (maxAgeMinutes * 60) as real;
    due := [];
    for i := 0 to |all|
      invariant due == Filter(all[..i], NeedsSync(cutoff))
    {
      FilterStep(all, NeedsSync(cutoff), i);
      var tenant := all[i];
      if tenant.lastSync.None? {
        due := due + [tenant];
      } else if tenant.lastSync.value < cutoff {
        due := due + [tenant];
      }
    }
    assert all[..|all|] == all;
  }

  /**
   * The tenants due a sync are the listed ones never synced or synced before
   * `now - 60 * maxAgeMinutes`, in listing order; a longer allowed age never makes more due.
   */
  lemma NeedingSyncFacts(all: seq<Tenant>, now: real, maxAgeMinutes: int, longer: int)
    requires maxAgeMinutes <= longer
    ensures forall t :: t in Filter(all, NeedsSync(SyncCutoff(now, maxAgeMinutes))) <==>
      t in all && (t.lastSync.None? || t.lastSync.value < now - (maxAgeMinutes * 60) as real)
    ensures Count(all, NeedsSync(SyncCutoff(now, longer))) <= Count(all, NeedsSync(SyncCutoff(now, maxAgeMinutes)))
  {
    forall t ensures t in Filter(all, NeedsSync(SyncCutoff(now, maxAgeMinutes))) <==> t in all && NeedsSync(SyncCutoff(now, maxAgeMinutes))(t) {
      FilterMembers(all, NeedsSync(SyncCutoff(now, maxAgeMinutes)), t);
    }
    CountMono(all, NeedsSync(SyncCutoff(now, longer)), NeedsSync(SyncCutoff(now, maxAgeMinutes)));
  }

  /** Converting every record, as `[self._dict_to_tenant(t) for t in ...]` does: one failure raises. */
  function ConvertAll(records: seq<TenantData>, now: real): (r: Option<seq<Tenant>>)
    ensures r.Some? ==> |r.value| == |records| && forall i :: 0 <= i < |records| ==> TenantOf(records[i], now) == Some(r.value[i])
    ensures r.None? ==> exists i :: 0 <= i < |records| && TenantOf(records[i], now).None?
  {
    if records == [] then Some([])
    else match (TenantOf(records[0], now), ConvertAll(records[1..], now))
      case (Some(t), Some(rest)) => Some([t] + rest)
      case (None, _) => None
      case (_, None) =>
        var i :| 0 <= i < |records[1..]| && TenantOf(records[1..][i], now).None?;
        assert TenantOf(records[i + 1], now).None?;
        None
  }

  function CachedRecords(order: seq<string>, cache: map<string, TenantData>): seq<TenantData> {
    MapSeq(order, (id: string) => if id in cache then cache[id] else map[])
  }

  /**
   * `list_tenants` without a database, as written: every cached tenant, whether or not
   * `active_only` asks for the active ones alone.
   */
  function CachedTenantsAsWritten(order: seq<string>, cache: map<string, TenantData>, activeOnly: bool, now: real): Option<seq<Tenant>> {
    ConvertAll(CachedRecords(order, cache), now)
  }

  function IsActive(t: Tenant): bool { t.isActive }

  /** `list_tenants` without a database as its `active_only` parameter means it: the active cached tenants. */
  function CachedTenants(order: seq<string>, cache: map<string, TenantData>, activeOnly: bool, now: real): (r: Option<seq<Tenant>>)
    ensures r.None? <==> CachedTenantsAsWritten(order, cache, activeOnly, now).None?
    ensures r.Some? ==> forall t :: t in r.value <==> t in CachedTenantsAsWritten(order, cache, activeOnly, now).value && (activeOnly ==> t.isActive)
    ensures r.Some? && activeOnly ==> r.value == Filter(CachedTenantsAsWritten(order, cache, activeOnly, now).value, IsActive)
    ensures !activeOnly ==> r == CachedTenantsAsWritten(order, cache, activeOnly, now)
  {
    match ConvertAll(CachedRecords(order, cache), now)
      case None => None
      case Some(all) =>
        if activeOnly then
          var active := Filter(all, IsActive);
          assert forall t :: t in active <==> t in all && t.isActive by {
            forall t ensures t in active <==> t in all && t.isActive {
              FilterMembers(all, IsActive, t);
            }
          }
          Some(active)
        else Some(all)
  }

  /** A cache holding one deactivated tenant that was never synced. */
  function DeactivatedCache(): map<string, TenantData> {
    map["t1" := Patched(NewRecord(TenantCreate("t1", "Contoso", "az1", true, "c", "s"), 0.0), map["is_active" := Flag(false)])]
  }

  lemma DeactivatedRecordReads(now: real)
    ensures TenantOf(DeactivatedCache()["t1"], now) == Some(Tenant("t1", "Contoso", "az1", false, 0.0, None))
  {
    var record := NewRecord(TenantCreate("t1", "Contoso", "az1", true, "c", "s"), 0.0);
    var update := map["is_active" := Flag(false)];
    PatchedFacts(record, update);
  }

  lemma ConvertOne(record: TenantData, now: real)
    ensures ConvertAll([record], now) == if TenantOf(record, now).Some? then Some([TenantOf(record, now).value]) else None
  {
    assert [record][1..] == [];
    assert ConvertAll([], now) == Some([]);
    if TenantOf(record, now).Some? {
      assert [TenantOf(record, now).value] + [] == [TenantOf(record, now).value];
    }
  }

  /**
   * Without a database the deactivated tenant is still listed with `active_only=True`
   * and so still comes up for sync; listing the active tenants alone leaves it out.
   */
  lemma DeactivatedTenantStillSynced(now: real)
    ensures var asWritten := CachedTenantsAsWritten(["t1"], DeactivatedCache(), true, now);
      var corrected := CachedTenants(["t1"], DeactivatedCache(), true, now);
      asWritten == Some([Tenant("t1", "Contoso", "az1", false, 0.0, None)]) &&
      Filter(asWritten.value, NeedsSync(SyncCutoff(now, 240))) == asWritten.value &&
      corrected == Some([])
  {
    var t := Tenant("t1", "Contoso", "az1", false, 0.0, None);
    var record := DeactivatedCache()["t1"];
    assert CachedRecords(["t1"], DeactivatedCache()) == [record];
    DeactivatedRecordReads(now);
    ConvertOne(record, now);
    assert Filter([t], NeedsSync(SyncCutoff(now, 240))) == [t] + Filter([], NeedsSync(SyncCutoff(now, 240)));
    assert Filter([t], IsActive) == [] + Filter([], IsActive);
  }

  // ------------------------------------------------------------------ the manager

  /** `TenantManager`: the vault's secrets, the tenant cache in insertion order, and the optional database. */
  class TenantManager {
    var secrets: map<string, string>
    var cache: map<string, TenantData>
    /** The cache's keys in insertion order, the order `values()` lists them in. */
    var cacheOrder: seq<string>
    var database: Option<map<string, TenantData>>

    ghost predicate Valid()
      reads this
    {
      Distinct(cacheOrder) && forall id :: id in cacheOrder <==> id in cache
    }

    constructor (database: Option<map<string, TenantData>>)
      ensures secrets == map[] && cache == map[] && cacheOrder == [] && this.database == database
      ensures Valid()
    {
      secrets, cache, cacheOrder := map[], map[], [];
      this.database := database;
    }

    /** `self._tenant_cache[tenant_id] = data`. */
    method CacheStore(tenantId: string, data: TenantData)
      requires Valid()
      modifies this`cache, this`cacheOrder
      ensures Valid()
      ensures cache == old(cache)[tenantId := data] && cacheOrder == CachedOrder(old(cacheOrder), old(cache), tenantId)
    {
      if tenantId !in cache {
        DistinctSnoc(cacheOrder, tenantId);
        cacheOrder := cacheOrder + [tenantId];
      }
      cache := cache[tenantId := data];
    }

    /**
     * `register_tenant`: store the encoded credentials, then the new record in the
     * database (when there is one) and the cache. `createdAt` and `returnedAt` are the
     * two clock readings.
     */
    method RegisterTenant(t: TenantCreate, createdAt: real, returnedAt: real) returns (tenant: Tenant)
      requires Valid()
      modifies this
      ensures Valid()
      ensures secrets == old(secrets)[SecretName(t.id) := EncodeSecret(t.clientId, t.clientSecret)]
      ensures database == Upserted(old(database), t.id, NewRecord(t, createdAt))
      ensures cache == old(cache)[t.id := NewRecord(t, createdAt)] && cacheOrder == CachedOrder(old(cacheOrder), old(cache), t.id)
      ensures tenant == Tenant(t.id, t.name, t.azureTenantId, t.isActive, returnedAt, None)
    {
      secrets := secrets[SecretName(t.id) := EncodeSecret(t.clientId, t.clientSecret)];
      var tenantData := NewRecord(t, createdAt);
      if database.Some? {
        database := Some(database.value[t.id := tenantData]);
      }
      CacheStore(t.id, tenantData);
      tenant := Tenant(t.id, t.name, t.azureTenantId, t.isActive, returnedAt, None);
    }

    /** `get_tenant_credentials`. */
    function Credentials(tenantId: string): Result<(string, string)>
      reads this
    {
      CredentialsIn(secrets, tenantId)
    }

    /**
     * `rotate_credentials`: overwrite the tenant's secret. `vaultFails` says whether the
     * vault's `set_secret` raises; the error is logged and the rotation reports false.
     */
    method RotateCredentials(tenantId: string, newClientId: string, newClientSecret: string, vaultFails: bool) returns (rotated: bool)
      modifies this`secrets
      ensures rotated <==> !vaultFails
      ensures vaultFails ==> secrets == old(secrets)
      ensures !vaultFails ==> secrets == old(secrets)[SecretName(tenantId) := EncodeSecret(newClientId, newClientSecret)]
    {
      if vaultFails {
        return false;
      }
      secrets := secrets[SecretName(tenantId) := EncodeSecret(newClientId, newClientSecret)];
      rotated := true;
    }

    /**
     * `update_tenant`: find the record, copy the unprotected updates into it, write it
     * to the database and the cache, and return it as a tenant. An unknown tenant
     * changes nothing and gives `None`. `now` is the clock.
     */
    method UpdateTenant(tenantId: string, updates: map<string, Value>, now: real) returns (r: Result<Option<Tenant>>)
      requires Valid()
      modifies this`cache, this`cacheOrder, this`database
      ensures Valid()
      ensures Found(old(cache), old(database), tenantId).None? ==>
        r == Ok(None) && cache == old(cache) && cacheOrder == old(cacheOrder) && database == old(database)
      ensures Found(old(cache), old(database), tenantId).Some? ==>
        var data := Patched(Found(old(cache), old(database), tenantId).value, updates);
        cache == old(cache)[tenantId := data] && cacheOrder == CachedOrder(old(cacheOrder), old(cache), tenantId) &&
        database == Upserted(old(database), tenantId, data) && r == UpdateResult(data, now)
    {
      var found := Found(cache, database, tenantId);
      if found.None? {
        return Ok(None);
      }
      var tenantData := ApplyUpdates(found.value, updates);
      if database.Some? {
        database := Some(database.value[tenantId := tenantData]);
      }
      CacheStore(tenantId, tenantData);
      r := UpdateResult(tenantData, now);
    }

    /**
     * `deactivate_tenant`: an update of `is_active` to false; true iff the tenant was found,
     * and the conversion's failure when the patched record does not convert.
     */
    method DeactivateTenant(tenantId: string, now: real) returns (r: Result<bool>)
      requires Valid()
      modifies this`cache, this`cacheOrder, this`database
      ensures Valid()
      ensures r == Ok(false) <==> Found(old(cache), old(database), tenantId).None?
      ensures Found(old(cache), old(database), tenantId).None? ==>
        cache == old(cache) && cacheOrder == old(cacheOrder) && database == old(database)
      ensures Found(old(cache), old(database), tenantId).Some? ==>
        var data := Patched(Found(old(cache), old(database), tenantId).value, map["is_active" := Flag(false)]);
        cache == old(cache)[tenantId := data] && cacheOrder == CachedOrder(old(cacheOrder), old(cache), tenantId) &&
        database == Upserted(old(database), tenantId, data) &&
        r == (if TenantOf(data, now).Some? then Ok(true) else Failure("invalid tenant record"))
      ensures Found(old(cache), old(database), tenantId).Some? ==> cache[tenantId]["is_active"] == Flag(false)
    {
      ghost var found := Found(cache, database, tenantId);
      if found.Some? {
        PatchedFacts(found.value, map["is_active" := Flag(false)]);
      }
      var result := UpdateTenant(tenantId, map["is_active" := Flag(false)], now);
      match result {
        case Ok(t) => r := Ok(t.Some?);
        case Failure(e) => r := Failure(e);
      }
    }
  }
}
