/**
 * Request-log enablement: a global flag key and a set of per-service
 * bucket keys; logging is on for a service when both say so.
 */
module RequestLogs {
  import opened Wrappers
  import opened Numeric
  import opened Storage

  const GlobalLockKey: string := "cubert_request_log_storage_enabled"
  const AllBucketKeysKey: string := "cubert_bucket_keys"

  function BucketIdKey(serviceId: string): string {
    "cubert_request_log_bucket_service_" + serviceId
  }

  /** Bucket keys are injective in the service id. */
  lemma BucketIdKeyInjective(s1: string, s2: string)
    ensures BucketIdKey(s1) == BucketIdKey(s2) ==> s1 == s2
  {
    if BucketIdKey(s1) == BucketIdKey(s2) {
      PrefixCancel("cubert_request_log_bucket_service_", s1, s2);
    }
  }

  /** `globally_enabled?`: the flag reads as 1 (`to_i`); an absent flag is off, a flag "1" is on. */
  predicate GloballyEnabled(kv: Kv)
    ensures kv.Get(GlobalLockKey).None? ==> !GloballyEnabled(kv)
    ensures kv.Get(GlobalLockKey) == Some("1") ==> GloballyEnabled(kv)
  {
    OptToI(kv.Get(GlobalLockKey)) == 1
  }

  /** `service_enabled?`: set membership alone; the flag is not consulted, and only an existing set can enable. */
  predicate ServiceEnabled(kv: Kv, serviceId: string)
    ensures ServiceEnabled(kv, serviceId) ==> kv.Exists(AllBucketKeysKey)
  {
    kv.SIsMember(AllBucketKeysKey, BucketIdKey(serviceId))
  }

  /** `enabled?`: the flag reads as 1 and the service's bucket key is in the set. */
  function Enabled(kv: Kv, serviceId: string): (b: bool)
    ensures b <==> GloballyEnabled(kv) && ServiceEnabled(kv, serviceId)
  {
    var globallyEnabled := kv.Get(GlobalLockKey);
    var serviceBucket := kv.SIsMember(AllBucketKeysKey, BucketIdKey(serviceId));
    OptToI(globallyEnabled) == 1 && serviceBucket
  }

  method GlobalEnable(db: Db)
    modifies db
    ensures db.kv == old(db.kv).Set(GlobalLockKey, IntToString(1))
    ensures GloballyEnabled(db.kv)
  {
    db.kv := db.kv.Set(GlobalLockKey, IntToString(1));
    ToIOfIntToString(1);
  }

  method GlobalDisable(db: Db)
    modifies db
    ensures db.kv == old(db.kv).Del(GlobalLockKey)
  {
    db.kv := db.kv.Del(GlobalLockKey);
  }

  /** `clean_cubert_redis_keys`: the flag and the whole set are removed. */
  method CleanCubertRedisKeys(db: Db)
    modifies db
    ensures db.kv == old(db.kv).Del(GlobalLockKey).Del(AllBucketKeysKey)
  {
    db.kv := db.kv.Del(GlobalLockKey);
    db.kv := db.kv.Del(AllBucketKeysKey);
  }

  method EnableService(db: Db, serviceId: string)
    modifies db
    ensures db.kv == old(db.kv).SAdd(AllBucketKeysKey, BucketIdKey(serviceId))
  {
    db.kv := db.kv.SAdd(AllBucketKeysKey, BucketIdKey(serviceId));
  }

  method DisableService(db: Db, serviceId: string)
    modifies db
    ensures db.kv == old(db.kv).SRem(AllBucketKeysKey, BucketIdKey(serviceId))
  {
    db.kv := db.kv.SRem(AllBucketKeysKey, BucketIdKey(serviceId));
  }

  /** Right after `global_enable` the flag reads as 1; with the flag absent it does not. */
  lemma GlobalEnableEnables(kv: Kv)
    ensures GloballyEnabled(kv.Set(GlobalLockKey, IntToString(1)))
    ensures kv.Get(GlobalLockKey).None? ==> !GloballyEnabled(kv)
  {
    ToIOfIntToString(1);
  }

  /** After `global_disable` nothing is enabled, and the bucket set is as it was. */
  lemma GlobalDisableDisablesAll(kv: Kv, serviceId: string)
    ensures !Enabled(kv.Del(GlobalLockKey), serviceId)
    ensures kv.Del(GlobalLockKey).SMembers(AllBucketKeysKey) == kv.SMembers(AllBucketKeysKey)
    ensures ServiceEnabled(kv.Del(GlobalLockKey), serviceId) == ServiceEnabled(kv, serviceId)
  {
  }

  /** After `clean_cubert_redis_keys` neither the flag nor any service is enabled. */
  lemma CleanDisablesAll(kv: Kv, serviceId: string)
    ensures var r := kv.Del(GlobalLockKey).Del(AllBucketKeysKey);
      !GloballyEnabled(r) && !ServiceEnabled(r, serviceId) && !Enabled(r, serviceId)
  {
  }

  /**
   * `enable_service(s)` turns `s` on and `disable_service(s)` turns it off,
   * each changing only `s`'s membership; both are idempotent.
   */
  lemma ServiceToggles(kv: Kv, s: string, other: string)
    requires other != s
    ensures ServiceEnabled(kv.SAdd(AllBucketKeysKey, BucketIdKey(s)), s)
    ensures !ServiceEnabled(kv.SRem(AllBucketKeysKey, BucketIdKey(s)), s)
    ensures ServiceEnabled(kv.SAdd(AllBucketKeysKey, BucketIdKey(s)), other) == ServiceEnabled(kv, other)
    ensures ServiceEnabled(kv.SRem(AllBucketKeysKey, BucketIdKey(s)), other) == ServiceEnabled(kv, other)
    ensures GloballyEnabled(kv.SAdd(AllBucketKeysKey, BucketIdKey(s))) == GloballyEnabled(kv)
    ensures GloballyEnabled(kv.SRem(AllBucketKeysKey, BucketIdKey(s))) == GloballyEnabled(kv)
    ensures var once := kv.SAdd(AllBucketKeysKey, BucketIdKey(s));
      once.SAdd(AllBucketKeysKey, BucketIdKey(s)).SMembers(AllBucketKeysKey) == once.SMembers(AllBucketKeysKey)
    ensures var once := kv.SRem(AllBucketKeysKey, BucketIdKey(s));
      once.SRem(AllBucketKeysKey, BucketIdKey(s)).SMembers(AllBucketKeysKey) == once.SMembers(AllBucketKeysKey)
  {
    BucketIdKeyInjective(s, other);
  }
}
