/**
 * The User entity: one hash record per (service, username), and the
 * memoized `load_or_create!` that opens a user on first sight with a
 * snapshot of the service's default plan.
 */
module Users {
  import opened Wrappers
  import opened Errors
  import opened Storage
  import opened Entities
  import opened Memoizer

  /** `key`: the hash holding one user's record. */
  function UserKey(serviceId: string, username: string): (k: string)
    ensures |k| > 8 && k[..8] == "service:"
    ensures |k| >= |username| && k[|k| - |username|..] == username
  {
    "service:" + serviceId + "/user:" + username
  }

  /** Distinct usernames of one service have distinct records. */
  lemma UserKeyInjective(serviceId: string, u1: string, u2: string)
    requires UserKey(serviceId, u1) == UserKey(serviceId, u2)
    ensures u1 == u2
  {
    PrefixCancel("service:" + serviceId + "/user:", u1, u2);
  }

  /** `exists?`: the record exists; a user that loads exists. */
  function UserExists(kv: Kv, serviceId: string, username: string): (b: bool)
    ensures Load(kv, serviceId, username).Some? ==> b
  {
    kv.Exists(UserKey(serviceId, username))
  }

  /** `load`: nil without a `state` field, else the record's state, plan_id and plan_name. */
  function Load(kv: Kv, serviceId: string, username: string): (r: Option<User>)
    ensures r.None? <==> kv.HGet(UserKey(serviceId, username), "state").None?
    ensures r.Some? ==>
      var k := UserKey(serviceId, username);
      r.value == User(serviceId, username, kv.HGet(k, "state"), kv.HGet(k, "plan_id"), kv.HGet(k, "plan_name"))
  {
    var k := UserKey(serviceId, username);
    var state := kv.HGet(k, "state");
    if state.None? then None
    else Some(User(serviceId, username, state, kv.HGet(k, "plan_id"), kv.HGet(k, "plan_name")))
  }

  /** `hset k, f, x if x`. */
  function HSetIf(kv: Kv, k: string, f: string, o: Option<string>): (r: Kv)
    ensures r.HGet(k, f) == (if o.Some? then o else kv.HGet(k, f))
    ensures forall f' :: f' != f ==> r.HGet(k, f') == kv.HGet(k, f')
    ensures forall k', f' :: k' != k ==> r.HGet(k', f') == kv.HGet(k', f')
    ensures r.strings == kv.strings && r.sets == kv.sets
  {
    if o.Some? then kv.HSet(k, f, o.value) else kv
  }

  /**
   * `save_attributes`: the non-nil fields, one `hset` each, all in the
   * user's own record; no other hash, string or set changes.
   */
  function SavedAttributes(kv: Kv, user: User): (r: Kv)
    ensures var k := UserKey(user.serviceId, user.username);
      && r.HGet(k, "username") == Some(user.username) && r.HGet(k, "service_id") == Some(user.serviceId)
      && r.HGet(k, "state") == (if user.state.Some? then user.state else kv.HGet(k, "state"))
      && r.HGet(k, "plan_id") == (if user.planId.Some? then user.planId else kv.HGet(k, "plan_id"))
      && r.HGet(k, "plan_name") == (if user.planName.Some? then user.planName else kv.HGet(k, "plan_name"))
    ensures forall f :: f != "state" && f != "plan_id" && f != "plan_name" && f != "username" && f != "service_id" ==>
      r.HGet(UserKey(user.serviceId, user.username), f) == kv.HGet(UserKey(user.serviceId, user.username), f)
    ensures forall k', f :: k' != UserKey(user.serviceId, user.username) ==> r.HGet(k', f) == kv.HGet(k', f)
    ensures r.strings == kv.strings && r.sets == kv.sets
  {
    var k := UserKey(user.serviceId, user.username);
    var kv1 := HSetIf(kv, k, "state", user.state);
    var kv2 := HSetIf(kv1, k, "plan_id", user.planId);
    var kv3 := HSetIf(kv2, k, "plan_name", user.planName);
    var kv4 := kv3.HSet(k, "username", user.username);
    var kv5 := kv4.HSet(k, "service_id", user.serviceId);
    assert kv5.HGet(k, "state") == kv1.HGet(k, "state");
    assert kv5.HGet(k, "plan_id") == kv2.HGet(k, "plan_id");
    assert kv5.HGet(k, "plan_name") == kv3.HGet(k, "plan_name");
    kv5
  }

  /**
   * A saved user loads back with its own fields where they are given and
   * the record's earlier ones where they are nil; with neither a new nor
   * an earlier state it does not load.
   */
  lemma SaveThenLoad(kv: Kv, user: User)
    ensures var k := UserKey(user.serviceId, user.username);
      var state := if user.state.Some? then user.state else kv.HGet(k, "state");
      Load(SavedAttributes(kv, user), user.serviceId, user.username) ==
        if state.None? then None
        else Some(User(user.serviceId, user.username, state,
                       if user.planId.Some? then user.planId else kv.HGet(k, "plan_id"),
                       if user.planName.Some? then user.planName else kv.HGet(k, "plan_name")))
  {
  }

  /** A saved user's record exists; after the record is deleted it neither exists nor loads. */
  lemma SavedUserExists(kv: Kv, user: User)
    ensures UserExists(SavedAttributes(kv, user), user.serviceId, user.username)
    ensures var gone := kv.Del(UserKey(user.serviceId, user.username));
      !UserExists(gone, user.serviceId, user.username) && Load(gone, user.serviceId, user.username).None?
  {
  }

  /** The memo entry of `load_or_create!` for one user. */
  function UserMemo(serviceId: string, username: string): Key {
    Key(UserClass, OpLoadOrCreate, [Some(serviceId), Some(username)])
  }

  /** `clear_cache`: removes exactly the user's `load_or_create!` entry. */
  method ClearCache(cache: Cache, serviceId: string, username: string)
    modifies cache
    ensures cache.entries == old(cache.entries) - {UserMemo(serviceId, username)}
  {
    cache.Clear({UserMemo(serviceId, username)});
  }

  /** `save`: write the record, then clear the user's memo entry. */
  method Save(db: Db, cache: Cache, user: User)
    modifies db, cache
    ensures db.kv == SavedAttributes(old(db.kv), user)
    ensures cache.entries == old(cache.entries) - {UserMemo(user.serviceId, user.username)}
  {
    var k := UserKey(user.serviceId, user.username);
    db.kv := HSetIf(db.kv, k, "state", user.state);
    db.kv := HSetIf(db.kv, k, "plan_id", user.planId);
    db.kv := HSetIf(db.kv, k, "plan_name", user.planName);
    db.kv := db.kv.HSet(k, "username", user.username);
    db.kv := db.kv.HSet(k, "service_id", user.serviceId);
    ClearCache(cache, user.serviceId, user.username);
  }

  /**
   * The uncached outcome of `load_or_create!`: an existing user as loaded;
   * a missing one refused when the service requires registration or lacks
   * a default plan; otherwise a new active user on the default plan.
   */
  function LoadOrCreateOutcome(kv: Kv, service: Service, username: string): (r: Result<User, Error>)
    ensures Load(kv, service.id, username).Some? ==> r == Ok(Load(kv, service.id, username).value)
    ensures Load(kv, service.id, username).None? && service.userRegistrationRequired ==>
      r == Err(ServiceRequiresRegisteredUser)
    ensures Load(kv, service.id, username).None? && !service.userRegistrationRequired &&
            (service.defaultUserPlanId.None? || service.defaultUserPlanName.None?) ==>
      r == Err(ServiceRequiresDefaultUserPlan)
    ensures Load(kv, service.id, username).None? && !service.userRegistrationRequired &&
            service.defaultUserPlanId.Some? && service.defaultUserPlanName.Some? ==>
      r == Ok(User(service.id, username, Some("active"), service.defaultUserPlanId, service.defaultUserPlanName))
    ensures r.Ok? ==> r.value.serviceId == service.id && r.value.username == username && r.value.state.Some?
  {
    var existing := Load(kv, service.id, username);
    if existing.Some? then Ok(existing.value)
    else if service.userRegistrationRequired then Err(ServiceRequiresRegisteredUser)
    else if service.defaultUserPlanId.None? || service.defaultUserPlanName.None? then Err(ServiceRequiresDefaultUserPlan)
    else Ok(User(service.id, username, Some("active"), service.defaultUserPlanId, service.defaultUserPlanName))
  }

  /** Whether the uncached `load_or_create!` writes a new record. */
  predicate Creates(kv: Kv, service: Service, username: string) {
    Load(kv, service.id, username).None? && LoadOrCreateOutcome(kv, service, username).Ok?
  }

  /**
   * `load_or_create!`, memoized per (service id, username): a memo hit is
   * answered as is; otherwise the outcome above, with a created user saved
   * and the result memoized (a raise writes and memoizes nothing).
   */
  method LoadOrCreate(db: Db, cache: Cache, service: Service, username: string) returns (r: Result<Option<User>, Error>)
    modifies db, cache
    ensures r == LoadOrCreateView(old(db.kv), old(cache.entries), service, username)
    ensures r.Ok? ==> LoadOrCreateView(db.kv, cache.entries, service, username) == r
    ensures db.kv == LoadOrCreateKv(old(db.kv), old(cache.entries), service, username)
    ensures cache.entries == LoadOrCreateEntries(old(db.kv), old(cache.entries), service, username)
    ensures var k := UserMemo(service.id, username);
      if k in old(cache.entries) && old(cache.entries)[k].UserValue? then
        r == Ok(old(cache.entries)[k].user) && db.kv == old(db.kv) && cache.entries == old(cache.entries)
      else
        var out := LoadOrCreateOutcome(old(db.kv), service, username);
        && (out.Err? ==> r == Err(out.error) && db.kv == old(db.kv) && cache.entries == old(cache.entries))
        && (out.Ok? ==>
              && r == Ok(Some(out.value))
              && cache.entries == old(cache.entries)[k := UserValue(Some(out.value))]
              && db.kv == AfterLoadOrCreate(old(db.kv), service, username))
  {
    var k := UserMemo(service.id, username);
    var hit := cache.Lookup(k);
    if hit.Some? && hit.value.UserValue? {
      return Ok(hit.value.user);
    }
    var out := LoadOrCreateUncached(db, cache, service, username);
    if out.Err? {
      return Err(out.error);
    }
    ghost var before := cache.entries;
    cache.Memoize(k, UserValue(Some(out.value)));
    assert before[k := UserValue(Some(out.value))] == old(cache.entries)[k := UserValue(Some(out.value))];
    r := Ok(Some(out.value));
  }

  /**
   * The block `load_or_create!` memoizes: the outcome above, saving a
   * user it creates (which clears the user's memo entry).
   */
  method LoadOrCreateUncached(db: Db, cache: Cache, service: Service, username: string) returns (r: Result<User, Error>)
    modifies db, cache
    ensures r == LoadOrCreateOutcome(old(db.kv), service, username)
    ensures db.kv == AfterLoadOrCreate(old(db.kv), service, username)
    ensures cache.entries ==
      old(cache.entries) - (if Creates(old(db.kv), service, username) then {UserMemo(service.id, username)} else {})
    ensures r.Err? ==> db.kv == old(db.kv) && cache.entries == old(cache.entries)
  {
    var user := Load(db.kv, service.id, username);
    if user.Some? {
      return Ok(user.value);
    }
    if service.userRegistrationRequired {
      return Err(ServiceRequiresRegisteredUser);
    }
    if service.defaultUserPlanId.None? || service.defaultUserPlanName.None? {
      return Err(ServiceRequiresDefaultUserPlan);
    }
    var created := User(service.id, username, Some("active"), service.defaultUserPlanId, service.defaultUserPlanName);
    Save(db, cache, created);
    r := Ok(created);
  }

  /** The store after the uncached `load_or_create!`: the created user saved, else unchanged. */
  function AfterLoadOrCreate(kv: Kv, service: Service, username: string): Kv {
    if Creates(kv, service, username) then SavedAttributes(kv, LoadOrCreateOutcome(kv, service, username).value) else kv
  }

  /**
   * The store after the memoized `load_or_create!`: untouched on a memo
   * hit, else as the uncached call leaves it; only the user's own record
   * can change.
   */
  function LoadOrCreateKv(kv: Kv, entries: map<Key, Value>, service: Service, username: string): (r: Kv)
    ensures forall k', f :: k' != UserKey(service.id, username) ==> r.HGet(k', f) == kv.HGet(k', f)
    ensures r.strings == kv.strings && r.sets == kv.sets
  {
    var k := UserMemo(service.id, username);
    if k in entries && entries[k].UserValue? then kv else AfterLoadOrCreate(kv, service, username)
  }

  /**
   * The memo cache after the memoized `load_or_create!`: a success is
   * memoized under the user's entry, a raise leaves the cache as it was,
   * and no other entry changes.
   */
  function LoadOrCreateEntries(kv: Kv, entries: map<Key, Value>, service: Service, username: string)
    : (r: map<Key, Value>)
    ensures var answer := LoadOrCreateView(kv, entries, service, username);
      answer.Ok? ==> UserMemo(service.id, username) in r && r[UserMemo(service.id, username)] == UserValue(answer.value)
    ensures LoadOrCreateView(kv, entries, service, username).Err? ==> r == entries
    ensures forall k :: k != UserMemo(service.id, username) ==> (k in r <==> k in entries) && (k in r ==> r[k] == entries[k])
  {
    var k := UserMemo(service.id, username);
    if k in entries && entries[k].UserValue? then entries
    else
      match LoadOrCreateOutcome(kv, service, username)
      case Ok(u) => entries[k := UserValue(Some(u))]
      case Err(_) => entries
  }

  /** What the memoized `load_or_create!` answers: a memo entry as is, else the uncached outcome. */
  function LoadOrCreateView(kv: Kv, entries: map<Key, Value>, service: Service, username: string): Result<Option<User>, Error> {
    var k := UserMemo(service.id, username);
    if k in entries && entries[k].UserValue? then Ok(entries[k].user)
    else
      match LoadOrCreateOutcome(kv, service, username)
      case Ok(u) => Ok(Some(u))
      case Err(e) => Err(e)
  }

  /**
   * After the uncached `load_or_create!` succeeds, the user loads back as
   * the answer it gave: an existing user untouched, a created one as the
   * snapshot of the service's default plan.
   */
  lemma LoadOrCreateThenLoad(kv: Kv, service: Service, username: string)
    requires LoadOrCreateOutcome(kv, service, username).Ok?
    ensures Load(AfterLoadOrCreate(kv, service, username), service.id, username) ==
            Some(LoadOrCreateOutcome(kv, service, username).value)
    ensures Creates(kv, service, username) ==>
      Load(AfterLoadOrCreate(kv, service, username), service.id, username) ==
        Some(User(service.id, username, Some("active"), service.defaultUserPlanId, service.defaultUserPlanName))
    ensures !Creates(kv, service, username) ==> AfterLoadOrCreate(kv, service, username) == kv
  {
    if Creates(kv, service, username) {
      SaveThenLoad(kv, LoadOrCreateOutcome(kv, service, username).value);
    }
  }

  /** The attributes `save!` is given; every one may be missing. */
  datatype Attributes = Attributes(serviceId: Option<string>, username: Option<string>,
                                   state: Option<string>, planId: Option<string>, planName: Option<string>)

  /**
   * `validate_attributes`: username and service id required, the service
   * must exist, the plan defaults from the service and must then be
   * defined, the state defaults to "active".
   */
  function ValidateAttributes(a: Attributes, services: map<string, Service>): (r: Result<Attributes, Error>)
    ensures a.username.None? ==> r == Err(UserRequiresUsername)
    ensures a.username.Some? && a.serviceId.None? ==> r == Err(UserRequiresServiceId)
    ensures a.username.Some? && a.serviceId.Some? && a.serviceId.value !in services ==> r == Err(UserRequiresValidService)
    ensures r.Ok? ==>
      var svc := services[a.serviceId.value];
      && r.value.serviceId == a.serviceId && r.value.username == a.username
      && r.value.planId == a.planId.OrElse(svc.defaultUserPlanId)
      && r.value.planName == a.planName.OrElse(svc.defaultUserPlanName)
      && r.value.planId.Some? && r.value.planName.Some?
      && r.value.state == Some(a.state.GetOr("active"))
    ensures a.username.Some? && a.serviceId.Some? && a.serviceId.value in services ==>
      var svc := services[a.serviceId.value];
      (r == Err(UserRequiresDefinedPlan) <==>
         a.planId.OrElse(svc.defaultUserPlanId).None? || a.planName.OrElse(svc.defaultUserPlanName).None?)
    ensures a.username.Some? && a.serviceId.Some? && a.serviceId.value in services ==>
      var svc := services[a.serviceId.value];
      a.planId.OrElse(svc.defaultUserPlanId).Some? && a.planName.OrElse(svc.defaultUserPlanName).Some? ==>
      r == Ok(a.(planId := a.planId.OrElse(svc.defaultUserPlanId), planName := a.planName.OrElse(svc.defaultUserPlanName),
                 state := Some(a.state.GetOr("active"))))
  {
    if a.username.None? then Err(UserRequiresUsername)
    else if a.serviceId.None? then Err(UserRequiresServiceId)
    else if a.serviceId.value !in services then Err(UserRequiresValidService)
    else
      var svc := services[a.serviceId.value];
      var planId := a.planId.OrElse(svc.defaultUserPlanId);
      var planName := a.planName.OrElse(svc.defaultUserPlanName);
      if planId.None? || planName.None? then Err(UserRequiresDefinedPlan)
      else Ok(a.(planId := planId, planName := planName, state := Some(a.state.GetOr("active"))))
  }

  /** `save!`: validate, build the user, save it. */
  method SaveBang(db: Db, cache: Cache, attributes: Attributes, services: map<string, Service>)
    returns (r: Result<User, Error>)
    modifies db, cache
    ensures var v := ValidateAttributes(attributes, services);
      && (v.Err? ==> r == Err(v.error) && db.kv == old(db.kv) && cache.entries == old(cache.entries))
      && (v.Ok? ==>
            && r == Ok(User(v.value.serviceId.value, v.value.username.value, v.value.state, v.value.planId, v.value.planName))
            && db.kv == SavedAttributes(old(db.kv), r.value)
            && cache.entries == old(cache.entries) - {UserMemo(r.value.serviceId, r.value.username)})
  {
    var v := ValidateAttributes(attributes, services);
    if v.Err? {
      return Err(v.error);
    }
    var a := v.value;
    var user := User(a.serviceId.value, a.username.value, a.state, a.planId, a.planName);
    Save(db, cache, user);
    r := Ok(user);
  }

  /**
   * `delete!`: UserRequiresValidService (and no change) for an unknown
   * service; otherwise the memo entry is cleared and the record deleted.
   */
  method Delete(db: Db, cache: Cache, services: map<string, Service>, serviceId: string, username: string)
    returns (r: Result<(), Error>)
    modifies db, cache
    ensures r.Err? <==> serviceId !in services
    ensures r.Err? ==> r.error == UserRequiresValidService && db.kv == old(db.kv) && cache.entries == old(cache.entries)
    ensures r.Ok? ==>
      && db.kv == old(db.kv).Del(UserKey(serviceId, username))
      && cache.entries == old(cache.entries) - {UserMemo(serviceId, username)}
      && Load(db.kv, serviceId, username).None?
  {
    if serviceId !in services {
      return Err(UserRequiresValidService);
    }
    ClearCache(cache, serviceId, username);
    db.kv := db.kv.Del(UserKey(serviceId, username));
    r := Ok(());
  }
}
