/**
 * The Application entity: six attribute keys per application, the service's
 * application set, the key->id index, the two credential collections (keys
 * and referrer filters), and the memo entries that shadow them.
 */
module Applications {
  import opened Wrappers
  import opened Errors
  import opened Numeric
  import opened Storage
  import opened Entities
  import opened Memoizer

  /** The per-application store keys: the six attributes and the two sets. */
  datatype Attribute = State | PlanId | PlanName | RedirectUrl | UserRequired | Version
                     | KeysSet | ReferrerFiltersSet

  function AttributeName(a: Attribute): string {
    match a
    case State => "state"
    case PlanId => "plan_id"
    case PlanName => "plan_name"
    case RedirectUrl => "redirect_url"
    case UserRequired => "user_required"
    case Version => "version"
    case KeysSet => "keys"
    case ReferrerFiltersSet => "referrer_filters"
  }

  /** Ruby string interpolation renders nil as the empty string. */
  function Interp(o: Option<string>): string {
    o.GetOr("")
  }

  function AttrPrefix(serviceId: string, id: string): string {
    "application/service_id:" + serviceId + "/id:" + id + "/"
  }

  /** `storage_key`: the application's namespace, then the attribute's name. */
  function StorageKey(serviceId: string, id: string, a: Attribute): (k: string)
    ensures |k| > 12 && k[..12] == "application/"
    ensures |k| > |AttributeName(a)| && k[|k| - |AttributeName(a)|..] == AttributeName(a)
  {
    AttrPrefix(serviceId, id) + AttributeName(a)
  }

  /** `applications_set_key`: the set of a service's application ids. */
  function ApplicationsSetKey(serviceId: string): (k: string)
    ensures |k| > 11 && k[..11] == "service_id:"
  {
    "service_id:" + serviceId + "/applications"
  }

  /** `id_by_key_storage_key`: the index entry from a user key to its application id. */
  function IdByKeyStorageKey(serviceId: string, key: string): (k: string)
    ensures |k| > 3 && k[|k| - 3..] == "/id"
    ensures |k| > 12 && k[..12] == "application/"
  {
    "application/service_id:" + serviceId + "/key:" + key + "/id"
  }

  /**
   * The three key spaces never meet: neither a service's application set
   * nor an index entry is ever the attribute key of some application.
   */
  lemma KeySpacesApart(serviceId: string, key: string, s: string, i: string, a: Attribute)
    ensures ApplicationsSetKey(serviceId) != StorageKey(s, i, a)
    ensures IdByKeyStorageKey(serviceId, key) != StorageKey(s, i, a)
  {
    var sk, ak := StorageKey(s, i, a), ApplicationsSetKey(serviceId);
    assert ak[0] == ak[..11][0] == 's';
    assert sk[0] == sk[..12][0] == 'a';
    var ik, n := IdByKeyStorageKey(serviceId, key), AttributeName(a);
    NameNotIndexSuffix(a);
    assert sk[|sk| - 3] == sk[|sk| - |n|..][|n| - 3] != '/';
    assert ik[|ik| - 3] == ik[|ik| - 3..][0] == '/';
  }

  /** No attribute name ends the way an index entry does. */
  lemma NameNotIndexSuffix(a: Attribute)
    ensures |AttributeName(a)| >= 3 && AttributeName(a)[|AttributeName(a)| - 3] != '/'
  {
  }

  /** The attributes `delete_attributes` removes. */
  const AttributeKeys: seq<Attribute> := [State, PlanId, PlanName, RedirectUrl, UserRequired, Version]

  /** The keys of one application never collide with each other. */
  lemma {:induction false} StorageKeysDistinct(serviceId: string, id: string, a: Attribute, b: Attribute)
    requires a != b
    ensures StorageKey(serviceId, id, a) != StorageKey(serviceId, id, b)
  {
    if StorageKey(serviceId, id, a) == StorageKey(serviceId, id, b) {
      PrefixCancel(AttrPrefix(serviceId, id), AttributeName(a), AttributeName(b));
      assert false;
    }
  }

  lemma AllStorageKeysDistinct(serviceId: string, id: string)
    ensures forall a, b :: a != b ==> StorageKey(serviceId, id, a) != StorageKey(serviceId, id, b)
  {
    forall a, b | a != b
      ensures StorageKey(serviceId, id, a) != StorageKey(serviceId, id, b)
    {
      StorageKeysDistinct(serviceId, id, a, b);
    }
  }

  /** Ruby's `blank?` on a possibly nil string: nil, empty or only white space. */
  predicate Blank(o: Option<string>) {
    match o
    case None => true
    case Some(s) => forall i :: 0 <= i < |s| ==> IsSpace(s[i])
  }

  /**
   * The characters `[[:space:]]` matches in a Unicode string: the Unicode
   * White_Space property (tab through carriage return, space, next line,
   * no-break space, ogham space mark, the en quad through hair space, the
   * line and paragraph separators, the narrow no-break space, the medium
   * mathematical space and the ideographic space).
   */
  predicate IsSpace(c: char) {
    || ('\U{0009}' <= c <= '\U{000D}')
    || c == ' ' || c == '\U{0085}' || c == '\U{00A0}' || c == '\U{1680}'
    || ('\U{2000}' <= c <= '\U{200A}')
    || c == '\U{2028}' || c == '\U{2029}' || c == '\U{202F}' || c == '\U{205F}' || c == '\U{3000}'
  }

  // ---------------------------------------------------------------------
  // Memo keys

  function MemoArgs(serviceId: Option<string>, id: Option<string>): seq<Option<string>> {
    [serviceId, id]
  }

  function MemoKey(op: Op, serviceId: Option<string>, id: Option<string>): Key {
    Key(ApplicationClass, op, MemoArgs(serviceId, id))
  }

  /** `clear_cache`: the `load`, `load!` and `exists?` entries of one application. */
  function ClearCacheKeys(serviceId: string, id: string): (ks: set<Key>)
    ensures forall k :: k in ks <==>
      k.owner == ApplicationClass && k.args == [Some(serviceId), Some(id)] &&
      (k.op == OpLoad || k.op == OpLoadBang || k.op == OpExists)
    ensures MemoKey(OpKeys, Some(serviceId), Some(id)) !in ks
    ensures MemoKey(OpReferrerFilters, Some(serviceId), Some(id)) !in ks
  {
    KeysForClass(ApplicationClass, {OpLoad, OpLoadBang, OpExists}, MemoArgs(Some(serviceId), Some(id)))
  }

  // ---------------------------------------------------------------------
  // load

  datatype Loaded = Loaded(app: Option<App>, kv: Kv)

  /**
   * What an uncached `load` returns and what the store holds afterwards:
   * nothing without both ids or without a `state`; otherwise the decoded
   * application, with a version assigned (and written) when none is stored.
   */
  function LoadedFrom(kv: Kv, serviceId: Option<string>, id: Option<string>): (r: Loaded)
    ensures serviceId.None? || id.None? ==> r == Loaded(None, kv)
    ensures serviceId.Some? && id.Some? ==>
      var s, i := serviceId.value, id.value;
      var vk := StorageKey(s, i, Version);
      && (kv.Get(StorageKey(s, i, State)).None? <==> r.app.None?)
      && (r.app.None? ==> r.kv == kv)
      && (r.app.Some? ==>
            && r.app.value == App(s, i, kv.Get(StorageKey(s, i, State)),
                                  kv.Get(StorageKey(s, i, PlanId)),
                                  kv.Get(StorageKey(s, i, PlanName)),
                                  kv.Get(StorageKey(s, i, RedirectUrl)),
                                  OptToI(kv.Get(StorageKey(s, i, UserRequired))) > 0,
                                  Some(if kv.Get(vk).Some? then kv.Get(vk).value else "1"))
            && r.kv == if kv.Get(vk).Some? then kv else kv.Set(vk, "1"))
  {
    if serviceId.None? || id.None? then Loaded(None, kv)
    else
      var s, i := serviceId.value, id.value;
      var state := kv.Get(StorageKey(s, i, State));
      if state.None? then Loaded(None, kv)
      else
        var vk := StorageKey(s, i, Version);
        var userRequired := OptToI(kv.Get(StorageKey(s, i, UserRequired))) > 0;
        var version := if kv.Get(vk).Some? then kv.Get(vk).value else IntToString(kv.IncrValue(vk, 1));
        var kv' := if kv.Get(vk).Some? then kv else kv.IncrBy(vk, 1);
        assert IntToString(1) == "1";
        Loaded(Some(App(s, i, state, kv.Get(StorageKey(s, i, PlanId)), kv.Get(StorageKey(s, i, PlanName)),
                        kv.Get(StorageKey(s, i, RedirectUrl)), userRequired, Some(version))),
               kv')
  }

  /** The uncached body of `load`: one multi-key read, then a lazy version. */
  method LoadUncached(db: Db, serviceId: Option<string>, id: Option<string>) returns (app: Option<App>)
    modifies db
    ensures Loaded(app, db.kv) == LoadedFrom(old(db.kv), serviceId, id)
  {
    if serviceId.None? || id.None? {
      return None;
    }
    var s, i := serviceId.value, id.value;
    var state := db.kv.Get(StorageKey(s, i, State));
    var planId := db.kv.Get(StorageKey(s, i, PlanId));
    var planName := db.kv.Get(StorageKey(s, i, PlanName));
    var redirectUrl := db.kv.Get(StorageKey(s, i, RedirectUrl));
    var userRequired := db.kv.Get(StorageKey(s, i, UserRequired));
    var version := db.kv.Get(StorageKey(s, i, Version));
    if state.None? {
      return None;
    }
    var required := OptToI(userRequired) > 0;
    if version.None? {
      var v := db.kv.IncrValue(StorageKey(s, i, Version), 1);
      db.kv := db.kv.IncrBy(StorageKey(s, i, Version), 1);
      version := Some(IntToString(v));
    }
    app := Some(App(s, i, state, planId, planName, redirectUrl, required, version));
  }

  /**
   * What the memoized `load` answers: the memo entry if there is one, else
   * the store. The only write it can make is the lazy version "1".
   */
  function LoadView(kv: Kv, entries: map<Key, Value>, serviceId: Option<string>, id: Option<string>): (r: Loaded)
    ensures r.kv == kv ||
            (serviceId.Some? && id.Some? && r.app.Some? && r.app.value.id == id.value &&
             r.kv == kv.Set(StorageKey(serviceId.value, id.value, Version), "1"))
  {
    var k := MemoKey(OpLoad, serviceId, id);
    if k in entries && entries[k].AppValue? then Loaded(entries[k].app, kv)
    else LoadedFrom(kv, serviceId, id)
  }

  /** `load`, memoized per (service_id, id). */
  method Load(db: Db, cache: Cache, serviceId: Option<string>, id: Option<string>) returns (app: Option<App>)
    modifies db, cache
    ensures Loaded(app, db.kv) == LoadView(old(db.kv), old(cache.entries), serviceId, id)
    ensures cache.entries == old(cache.entries)[MemoKey(OpLoad, serviceId, id) := AppValue(app)]
    ensures LoadView(db.kv, cache.entries, serviceId, id) == Loaded(app, db.kv)
  {
    var k := MemoKey(OpLoad, serviceId, id);
    var hit := cache.Lookup(k);
    if hit.Some? && hit.value.AppValue? {
      app := hit.value.app;
    } else {
      app := LoadUncached(db, serviceId, id);
      cache.Memoize(k, AppValue(app));
    }
  }

  /**
   * `load!`, memoized per (service_id, id): the application, or
   * ApplicationNotFound (a raise memoizes nothing).
   */
  method LoadBang(db: Db, cache: Cache, serviceId: Option<string>, id: Option<string>)
    returns (r: Result<App, Error>)
    modifies db, cache
    ensures var k := MemoKey(OpLoadBang, serviceId, id);
      if k in old(cache.entries) && old(cache.entries)[k].AppValue? && old(cache.entries)[k].app.Some? then
        r == Ok(old(cache.entries)[k].app.value) && db.kv == old(db.kv) && cache.entries == old(cache.entries)
      else
        var v := LoadView(old(db.kv), old(cache.entries), serviceId, id);
        && db.kv == v.kv
        && (v.app.None? ==>
              r == Err(ApplicationNotFound) &&
              cache.entries == old(cache.entries)[MemoKey(OpLoad, serviceId, id) := AppValue(None)])
        && (v.app.Some? ==>
              r == Ok(v.app.value) &&
              cache.entries == old(cache.entries)[MemoKey(OpLoad, serviceId, id) := AppValue(v.app)][k := AppValue(v.app)])
  {
    var k := MemoKey(OpLoadBang, serviceId, id);
    var hit := cache.Lookup(k);
    if hit.Some? && hit.value.AppValue? && hit.value.app.Some? {
      return Ok(hit.value.app.value);
    }
    var app := Load(db, cache, serviceId, id);
    if app.None? {
      return Err(ApplicationNotFound);
    }
    cache.Memoize(k, AppValue(app));
    r := Ok(app.value);
  }

  // ---------------------------------------------------------------------
  // exists?

  /** What the memoized `exists?` answers; without a memo entry, an application that loads exists. */
  function ExistsView(kv: Kv, entries: map<Key, Value>, serviceId: Option<string>, id: Option<string>): (b: bool)
    ensures MemoKey(OpExists, serviceId, id) !in entries && LoadedFrom(kv, serviceId, id).app.Some? ==> b
  {
    var k := MemoKey(OpExists, serviceId, id);
    if k in entries && entries[k].FlagValue? then entries[k].flag
    else kv.Exists(StorageKey(Interp(serviceId), Interp(id), State))
  }

  /** `exists?`: does the `state` key exist; memoized per (service_id, id). */
  method Exists(db: Db, cache: Cache, serviceId: Option<string>, id: Option<string>) returns (b: bool)
    modifies cache
    ensures b == ExistsView(db.kv, old(cache.entries), serviceId, id)
    ensures cache.entries == old(cache.entries)[MemoKey(OpExists, serviceId, id) := FlagValue(b)]
  {
    var k := MemoKey(OpExists, serviceId, id);
    var hit := cache.Lookup(k);
    if hit.Some? && hit.value.FlagValue? {
      b := hit.value.flag;
    } else {
      b := db.kv.Exists(StorageKey(Interp(serviceId), Interp(id), State));
      cache.Memoize(k, FlagValue(b));
    }
  }

  /** `incr_version`: bump the version key and return its new value. */
  method IncrVersion(db: Db, serviceId: string, id: string) returns (v: int)
    modifies db
    ensures v == old(db.kv).IncrValue(StorageKey(serviceId, id, Version), 1)
    ensures db.kv == old(db.kv).IncrBy(StorageKey(serviceId, id, Version), 1)
  {
    v := db.kv.IncrValue(StorageKey(serviceId, id, Version), 1);
    db.kv := db.kv.IncrBy(StorageKey(serviceId, id, Version), 1);
  }

  // ---------------------------------------------------------------------
  // the key -> id index

  function IdByKeyMemo(serviceId: Option<string>, key: Option<string>): Key {
    Key(ApplicationClass, OpLoadIdByKey, [serviceId, key])
  }

  /** What the memoized `load_id_by_key` answers. */
  function IdByKeyView(kv: Kv, entries: map<Key, Value>, serviceId: string, key: string): Option<string> {
    var k := IdByKeyMemo(Some(serviceId), Some(key));
    if k in entries && entries[k].TextValue? then entries[k].text
    else kv.Get(IdByKeyStorageKey(serviceId, key))
  }

  method LoadIdByKey(db: Db, cache: Cache, serviceId: string, key: string) returns (id: Option<string>)
    modifies cache
    ensures id == IdByKeyView(db.kv, old(cache.entries), serviceId, key)
    ensures cache.entries == old(cache.entries)[IdByKeyMemo(Some(serviceId), Some(key)) := TextValue(id)]
  {
    var k := IdByKeyMemo(Some(serviceId), Some(key));
    var hit := cache.Lookup(k);
    if hit.Some? && hit.value.TextValue? {
      id := hit.value.text;
    } else {
      id := db.kv.Get(IdByKeyStorageKey(serviceId, key));
      cache.Memoize(k, TextValue(id));
    }
  }

  /**
   * `save_id_by_key`: refuses a blank argument before any change; otherwise
   * writes the index entry and memoizes it.
   */
  method SaveIdByKey(db: Db, cache: Cache, serviceId: Option<string>, key: Option<string>, id: Option<string>)
    returns (r: Result<(), Error>)
    modifies db, cache
    ensures (Blank(serviceId) || Blank(id) || Blank(key)) <==> r == Err(ApplicationHasInconsistentData)
    ensures r.Err? ==> db.kv == old(db.kv) && cache.entries == old(cache.entries)
    ensures r.Ok? ==>
      && db.kv == old(db.kv).Set(IdByKeyStorageKey(serviceId.value, key.value), id.value)
      && cache.entries == old(cache.entries)[IdByKeyMemo(serviceId, key) := TextValue(id)]
  {
    if Blank(serviceId) || Blank(id) || Blank(key) {
      return Err(ApplicationHasInconsistentData);
    }
    db.kv := db.kv.Set(IdByKeyStorageKey(serviceId.value, key.value), id.value);
    cache.Memoize(IdByKeyMemo(serviceId, key), TextValue(id));
    r := Ok(());
  }

  /** `delete_id_by_key`: removes the index entry and its memo entry. */
  method DeleteIdByKey(db: Db, cache: Cache, serviceId: string, key: string)
    modifies db, cache
    ensures db.kv == old(db.kv).Del(IdByKeyStorageKey(serviceId, key))
    ensures cache.entries == old(cache.entries) - {IdByKeyMemo(Some(serviceId), Some(key))}
  {
    db.kv := db.kv.Del(IdByKeyStorageKey(serviceId, key));
    cache.Clear({IdByKeyMemo(Some(serviceId), Some(key))});
  }

  // ---------------------------------------------------------------------
  // identity resolution

  /**
   * `with_app_id_from_params`: an explicit app id (refused together with a
   * user key), else the user key's mapping, else the access token's
   * application, else ApplicationNotFound; the id found is handed to
   * `block`, and a nil block result is ApplicationNotFound as well.
   */
  function WithAppIdFromParams<T>(appId: Option<string>, userKey: Option<string>, accessToken: Option<string>,
                                  idByKey: string -> Option<string>,
                                  credentials: string -> Result<Option<string>, Error>,
                                  block: Option<string> -> Option<T>): (r: Result<T, Error>)
    ensures appId.Some? && userKey.Some? ==> r == Err(AuthenticationError)
    ensures appId.Some? && userKey.None? ==>
      r == if block(appId).Some? then Ok(block(appId).value) else Err(ApplicationNotFound)
    ensures appId.None? && userKey.Some? && idByKey(userKey.value).None? ==> r == Err(UserKeyInvalid)
    ensures appId.None? && userKey.Some? && idByKey(userKey.value).Some? ==>
      r == if block(idByKey(userKey.value)).Some? then Ok(block(idByKey(userKey.value)).value)
           else Err(ApplicationNotFound)
    ensures appId.None? && userKey.None? && accessToken.Some? && credentials(accessToken.value).Err? ==>
      r == Err(credentials(accessToken.value).error)
    ensures appId.None? && userKey.None? && accessToken.Some? && credentials(accessToken.value).Ok? ==>
      var tokenApp := credentials(accessToken.value).value;
      r == if block(tokenApp).Some? then Ok(block(tokenApp).value) else Err(ApplicationNotFound)
    ensures appId.None? && userKey.None? && accessToken.None? ==> r == Err(ApplicationNotFound)
    ensures r.Ok? ==> exists a :: block(a) == Some(r.value)
  {
    var resolved: Result<Option<string>, Error> :=
      if appId.Some? then (if userKey.None? then Ok(appId) else Err(AuthenticationError))
      else if userKey.Some? then (if idByKey(userKey.value).Some? then Ok(idByKey(userKey.value)) else Err(UserKeyInvalid))
      else if accessToken.Some? then credentials(accessToken.value)
      else Err(ApplicationNotFound);
    match resolved
    case Err(e) => Err(e)
    case Ok(a) => if block(a).Some? then Ok(block(a).value) else Err(ApplicationNotFound)
  }

  /** The outcome of `load_by_id_or_user_key!` against a store and a memo cache. */
  function ResolveApp(kv: Kv, entries: map<Key, Value>, serviceId: string, appId: Option<string>, userKey: Option<string>)
    : Result<App, Error>
  {
    WithAppIdFromParams(appId, userKey, None,
                        k => IdByKeyView(kv, entries, serviceId, k),
                        t => Err(AccessTokenInvalid),
                        a => LoadView(kv, entries, Some(serviceId), a).app)
  }

  /** An answer of `load_by_id_or_user_key!` with the store and the memo cache it leaves. */
  datatype Resolution = Resolution(result: Result<App, Error>, kv: Kv, entries: map<Key, Value>)

  /** The memoized `load` as the block of identity resolution: its answer is memoized either way. */
  function LoadResolution(kv: Kv, entries: map<Key, Value>, serviceId: string, id: Option<string>): (r: Resolution)
    ensures r.entries == entries[MemoKey(OpLoad, Some(serviceId), id) := AppValue(LoadView(kv, entries, Some(serviceId), id).app)]
    ensures r.result.Ok? <==> LoadView(kv, entries, Some(serviceId), id).app.Some?
  {
    var v := LoadView(kv, entries, Some(serviceId), id);
    Resolution(if v.app.Some? then Ok(v.app.value) else Err(ApplicationNotFound), v.kv,
               entries[MemoKey(OpLoad, Some(serviceId), id) := AppValue(v.app)])
  }

  /**
   * `load_by_id_or_user_key!` step by step: the memoized index lookup (for
   * a user key), then the memoized `load`. It answers as identity
   * resolution does, and the store changes at most by the lazy version of
   * the application it found.
   */
  function Resolve(kv: Kv, entries: map<Key, Value>, serviceId: string, appId: Option<string>, userKey: Option<string>)
    : (r: Resolution)
    ensures r.result == ResolveApp(kv, entries, serviceId, appId, userKey)
    ensures r.kv == kv || (r.result.Ok? && r.kv == kv.Set(StorageKey(serviceId, r.result.value.id, Version), "1"))
    ensures forall k :: k in entries ==> k in r.entries
    ensures forall k :: k in r.entries && k != IdByKeyMemo(Some(serviceId), userKey) && k != MemoKey(OpLoad, Some(serviceId), appId) &&
                        !(k.owner == ApplicationClass && k.op == OpLoad) ==>
                        k in entries && r.entries[k] == entries[k]
  {
    if appId.Some? then
      if userKey.Some? then Resolution(Err(AuthenticationError), kv, entries)
      else LoadResolution(kv, entries, serviceId, appId)
    else if userKey.Some? then
      var id := IdByKeyView(kv, entries, serviceId, userKey.value);
      var indexed := entries[IdByKeyMemo(Some(serviceId), userKey) := TextValue(id)];
      if id.None? then Resolution(Err(UserKeyInvalid), kv, indexed)
      else
        assert LoadView(kv, indexed, Some(serviceId), id) == LoadView(kv, entries, Some(serviceId), id);
        LoadResolution(kv, indexed, serviceId, id)
    else Resolution(Err(ApplicationNotFound), kv, entries)
  }

  /**
   * `load_by_id_or_user_key!`: identity resolution whose block is the
   * memoized `load`.
   */
  method LoadByIdOrUserKey(db: Db, cache: Cache, serviceId: string, appId: Option<string>, userKey: Option<string>)
    returns (r: Result<App, Error>)
    modifies db, cache
    ensures r == ResolveApp(old(db.kv), old(cache.entries), serviceId, appId, userKey)
    ensures Resolution(r, db.kv, cache.entries) == Resolve(old(db.kv), old(cache.entries), serviceId, appId, userKey)
  {
    var id := appId;
    if appId.Some? {
      if userKey.Some? {
        return Err(AuthenticationError);
      }
    } else if userKey.Some? {
      id := LoadIdByKey(db, cache, serviceId, userKey.value);
      if id.None? {
        return Err(UserKeyInvalid);
      }
    } else {
      return Err(ApplicationNotFound);
    }
    ghost var kv0, entries0 := db.kv, cache.entries;
    assert LoadView(kv0, entries0, Some(serviceId), id) == LoadView(old(db.kv), old(cache.entries), Some(serviceId), id);
    var app := Load(db, cache, Some(serviceId), id);
    if app.None? {
      return Err(ApplicationNotFound);
    }
    r := Ok(app.value);
  }

  // ---------------------------------------------------------------------
  // save

  /** `set(k, x) if x` persistence: a nil attribute leaves what was stored. */
  function Kept(written: Option<string>, stored: Option<string>): Option<string> {
    if written.Some? then written else stored
  }

  /** `set(k, x) if x`: write only a non-nil value. */
  function SetIf(kv: Kv, k: string, o: Option<string>): (r: Kv)
    ensures r.Get(k) == Kept(o, kv.Get(k))
    ensures forall k' :: k' != k ==> r.Get(k') == kv.Get(k')
    ensures r.sets == kv.sets && r.hashes == kv.hashes
  {
    if o.Some? then kv.Set(k, o.value) else kv
  }

  /**
   * `save`'s pipelined writes before the version bump (`persist_attributes`
   * and `persist_set`): the non-nil attributes, `user_required` as 1 or 0,
   * and membership in the service's application set.
   */
  function Persisted(kv: Kv, app: App): (r: Kv)
    ensures r.SMembers(ApplicationsSetKey(app.serviceId)) == kv.SMembers(ApplicationsSetKey(app.serviceId)) + {app.id}
    ensures forall k :: k != ApplicationsSetKey(app.serviceId) ==> r.SMembers(k) == kv.SMembers(k)
    ensures r.hashes == kv.hashes
  {
    var s, i := app.serviceId, app.id;
    var kv1 := SetIf(kv, StorageKey(s, i, State), app.state);
    var kv2 := SetIf(kv1, StorageKey(s, i, PlanId), app.planId);
    var kv3 := SetIf(kv2, StorageKey(s, i, PlanName), app.planName);
    var kv4 := kv3.Set(StorageKey(s, i, UserRequired), if app.userRequired then "1" else "0");
    var kv5 := SetIf(kv4, StorageKey(s, i, RedirectUrl), app.redirectUrl);
    kv5.SAdd(ApplicationsSetKey(s), i)
  }

  /** What `persist_attributes` leaves in the state, plan_id and plan_name keys. */
  lemma PersistedReadsPlan(kv: Kv, app: App)
    ensures var s, i, r := app.serviceId, app.id, Persisted(kv, app);
      && r.Get(StorageKey(s, i, State)) == Kept(app.state, kv.Get(StorageKey(s, i, State)))
      && r.Get(StorageKey(s, i, PlanId)) == Kept(app.planId, kv.Get(StorageKey(s, i, PlanId)))
      && r.Get(StorageKey(s, i, PlanName)) == Kept(app.planName, kv.Get(StorageKey(s, i, PlanName)))
  {
    var s, i := app.serviceId, app.id;
    var kS, kP, kN := StorageKey(s, i, State), StorageKey(s, i, PlanId), StorageKey(s, i, PlanName);
    var kU, kR := StorageKey(s, i, UserRequired), StorageKey(s, i, RedirectUrl);
    StorageKeysDistinct(s, i, State, PlanId);
    StorageKeysDistinct(s, i, State, PlanName);
    StorageKeysDistinct(s, i, State, UserRequired);
    StorageKeysDistinct(s, i, State, RedirectUrl);
    StorageKeysDistinct(s, i, PlanId, PlanName);
    StorageKeysDistinct(s, i, PlanId, UserRequired);
    StorageKeysDistinct(s, i, PlanId, RedirectUrl);
    StorageKeysDistinct(s, i, PlanName, UserRequired);
    StorageKeysDistinct(s, i, PlanName, RedirectUrl);
    var kv1 := SetIf(kv, kS, app.state);
    var kv2 := SetIf(kv1, kP, app.planId);
    var kv3 := SetIf(kv2, kN, app.planName);
    var kv4 := kv3.Set(kU, if app.userRequired then "1" else "0");
    var kv5 := SetIf(kv4, kR, app.redirectUrl);
    assert kv5.Get(kS) == kv1.Get(kS);
    assert kv5.Get(kP) == kv2.Get(kP);
    assert kv5.Get(kN) == kv3.Get(kN);
  }

  /** A key `persist_attributes` does not write keeps its value. */
  lemma PersistedFrame(kv: Kv, app: App, k: string)
    requires var s, i := app.serviceId, app.id;
      && k != StorageKey(s, i, State) && k != StorageKey(s, i, PlanId) && k != StorageKey(s, i, PlanName)
      && k != StorageKey(s, i, UserRequired) && k != StorageKey(s, i, RedirectUrl)
    ensures Persisted(kv, app).Get(k) == kv.Get(k)
  {
  }

  /** What `persist_attributes` and `persist_set` leave in the other keys. */
  lemma PersistedReadsRest(kv: Kv, app: App)
    ensures var s, i, r := app.serviceId, app.id, Persisted(kv, app);
      && r.Get(StorageKey(s, i, RedirectUrl)) == Kept(app.redirectUrl, kv.Get(StorageKey(s, i, RedirectUrl)))
      && r.Get(StorageKey(s, i, UserRequired)) == Some(if app.userRequired then "1" else "0")
      && r.Get(StorageKey(s, i, Version)) == kv.Get(StorageKey(s, i, Version))
      && i in r.SMembers(ApplicationsSetKey(s))
  {
    var s, i := app.serviceId, app.id;
    StorageKeysDistinct(s, i, UserRequired, RedirectUrl);
    StorageKeysDistinct(s, i, Version, State);
    StorageKeysDistinct(s, i, Version, PlanId);
    StorageKeysDistinct(s, i, Version, PlanName);
    StorageKeysDistinct(s, i, Version, UserRequired);
    StorageKeysDistinct(s, i, Version, RedirectUrl);
    PersistedFrame(kv, app, StorageKey(s, i, Version));
  }

  /** What `persist_attributes` and `persist_set` leave in each key. */
  lemma PersistedReads(kv: Kv, app: App)
    ensures var s, i, r := app.serviceId, app.id, Persisted(kv, app);
      && r.Get(StorageKey(s, i, State)) == Kept(app.state, kv.Get(StorageKey(s, i, State)))
      && r.Get(StorageKey(s, i, PlanId)) == Kept(app.planId, kv.Get(StorageKey(s, i, PlanId)))
      && r.Get(StorageKey(s, i, PlanName)) == Kept(app.planName, kv.Get(StorageKey(s, i, PlanName)))
      && r.Get(StorageKey(s, i, RedirectUrl)) == Kept(app.redirectUrl, kv.Get(StorageKey(s, i, RedirectUrl)))
      && r.Get(StorageKey(s, i, UserRequired)) == Some(if app.userRequired then "1" else "0")
      && r.Get(StorageKey(s, i, Version)) == kv.Get(StorageKey(s, i, Version))
      && i in r.SMembers(ApplicationsSetKey(s))
  {
    PersistedReadsPlan(kv, app);
    PersistedReadsRest(kv, app);
  }

  /** The store after `save`. */
  function SavedKv(kv: Kv, app: App): Kv {
    Persisted(kv, app).IncrBy(StorageKey(app.serviceId, app.id, Version), 1)
  }

  /** The version `save` assigns: the incremented value, as a string. */
  function SavedVersion(kv: Kv, app: App): string {
    IntToString(Persisted(kv, app).IncrValue(StorageKey(app.serviceId, app.id, Version), 1))
  }

  /** The memo cache after `save`. */
  function SavedEntries(entries: map<Key, Value>, app: App): (r: map<Key, Value>)
    ensures var args := [Some(app.serviceId), Some(app.id)];
      forall k: Key ::
        (!(k.owner == ApplicationClass && k.args == args &&
           (k.op == OpLoad || k.op == OpLoadBang || k.op == OpExists))) ==>
        (k in r <==> k in entries) && (k in r ==> r[k] == entries[k])
    ensures MemoKey(OpExists, Some(app.serviceId), Some(app.id)) in r
    ensures r[MemoKey(OpExists, Some(app.serviceId), Some(app.id))] == FlagValue(app.state.Some?)
    ensures MemoKey(OpLoad, Some(app.serviceId), Some(app.id)) !in r
    ensures MemoKey(OpLoadBang, Some(app.serviceId), Some(app.id)) !in r
  {
    (entries - ClearCacheKeys(app.serviceId, app.id))[MemoKey(OpExists, Some(app.serviceId), Some(app.id)) := FlagValue(app.state.Some?)]
  }

  /**
   * `save` (and the class-level `save(attributes)`, which builds the
   * instance first): persist, bump the version, clear the three memo
   * entries and memoize existence.
   */
  method Save(db: Db, cache: Cache, app: App) returns (saved: App)
    modifies db, cache
    ensures saved == app.(version := Some(SavedVersion(old(db.kv), app)))
    ensures db.kv == SavedKv(old(db.kv), app)
    ensures cache.entries == SavedEntries(old(cache.entries), app)
  {
    var s, i := app.serviceId, app.id;
    ghost var kv0 := db.kv;
    db.kv := SetIf(db.kv, StorageKey(s, i, State), app.state);
    db.kv := SetIf(db.kv, StorageKey(s, i, PlanId), app.planId);
    db.kv := SetIf(db.kv, StorageKey(s, i, PlanName), app.planName);
    db.kv := db.kv.Set(StorageKey(s, i, UserRequired), if app.userRequired then "1" else "0");
    db.kv := SetIf(db.kv, StorageKey(s, i, RedirectUrl), app.redirectUrl);
    db.kv := db.kv.SAdd(ApplicationsSetKey(s), i);
    assert db.kv == Persisted(kv0, app);
    var v := IncrVersion(db, s, i);
    saved := app.(version := Some(IntToString(v)));
    ClearCache(cache, s, i);
    cache.Memoize(MemoKey(OpExists, Some(s), Some(i)), FlagValue(app.state.Some?));
  }

  /** What each attribute key holds after `save`. */
  lemma SavedReads(kv: Kv, app: App)
    ensures var s, i, r := app.serviceId, app.id, SavedKv(kv, app);
      && r.Get(StorageKey(s, i, State)) == Kept(app.state, kv.Get(StorageKey(s, i, State)))
      && r.Get(StorageKey(s, i, PlanId)) == Kept(app.planId, kv.Get(StorageKey(s, i, PlanId)))
      && r.Get(StorageKey(s, i, PlanName)) == Kept(app.planName, kv.Get(StorageKey(s, i, PlanName)))
      && r.Get(StorageKey(s, i, RedirectUrl)) == Kept(app.redirectUrl, kv.Get(StorageKey(s, i, RedirectUrl)))
      && r.Get(StorageKey(s, i, UserRequired)) == Some(if app.userRequired then "1" else "0")
      && r.Get(StorageKey(s, i, Version)) == Some(SavedVersion(kv, app))
  {
    var s, i := app.serviceId, app.id;
    PersistedReads(kv, app);
    StorageKeysDistinct(s, i, State, Version);
    StorageKeysDistinct(s, i, PlanId, Version);
    StorageKeysDistinct(s, i, PlanName, Version);
    StorageKeysDistinct(s, i, RedirectUrl, Version);
    StorageKeysDistinct(s, i, UserRequired, Version);
  }

  /**
   * An uncached `load` right after `save` reads back every attribute that
   * was written (an unwritten one keeps its old stored value), the
   * user_required flag, and the version `save` returned.
   */
  lemma SaveThenLoad(kv: Kv, app: App)
    requires app.state.Some?
    ensures var s, i := app.serviceId, app.id;
      LoadedFrom(SavedKv(kv, app), Some(s), Some(i)) ==
        Loaded(Some(App(s, i, app.state,
                        Kept(app.planId, kv.Get(StorageKey(s, i, PlanId))),
                        Kept(app.planName, kv.Get(StorageKey(s, i, PlanName))),
                        Kept(app.redirectUrl, kv.Get(StorageKey(s, i, RedirectUrl))),
                        app.userRequired,
                        Some(SavedVersion(kv, app)))),
               SavedKv(kv, app))
  {
    var s, i := app.serviceId, app.id;
    SavedReads(kv, app);
    assert ToI("1") == 1 && ToI("0") == 0;
    LoadedFromStored(SavedKv(kv, app), s, i);
  }

  /** `load` of an application whose state and version are both stored reads them back and writes nothing. */
  lemma LoadedFromStored(kv: Kv, s: string, i: string)
    requires kv.Get(StorageKey(s, i, State)).Some? && kv.Get(StorageKey(s, i, Version)).Some?
    ensures LoadedFrom(kv, Some(s), Some(i)) ==
      Loaded(Some(App(s, i, kv.Get(StorageKey(s, i, State)), kv.Get(StorageKey(s, i, PlanId)),
                      kv.Get(StorageKey(s, i, PlanName)), kv.Get(StorageKey(s, i, RedirectUrl)),
                      OptToI(kv.Get(StorageKey(s, i, UserRequired))) > 0, kv.Get(StorageKey(s, i, Version)))),
             kv)
  {
  }

  /** The round trip: with every attribute given, load after save returns the saved application. */
  lemma SaveLoadRoundTrip(kv: Kv, app: App)
    requires app.state.Some? && app.planId.Some? && app.planName.Some? && app.redirectUrl.Some?
    ensures LoadedFrom(SavedKv(kv, app), Some(app.serviceId), Some(app.id)).app ==
            Some(app.(version := Some(SavedVersion(kv, app))))
  {
    SaveThenLoad(kv, app);
  }

  /**
   * `save` joins the application set and bumps the stored version by
   * exactly one; the version it returns is the stored one.
   */
  lemma SaveBumpsVersion(kv: Kv, app: App)
    ensures var vk := StorageKey(app.serviceId, app.id, Version);
      && OptToI(SavedKv(kv, app).Get(vk)) == OptToI(kv.Get(vk)) + 1
      && SavedKv(kv, app).Get(vk) == Some(SavedVersion(kv, app))
      && app.id in SavedKv(kv, app).SMembers(ApplicationsSetKey(app.serviceId))
  {
    PersistedReads(kv, app);
  }

  // ---------------------------------------------------------------------
  // delete

  /** The six attribute keys of one application. */
  function AttributeStorageKeys(serviceId: string, id: string): (ks: seq<string>)
    ensures |ks| == |AttributeKeys| && forall j :: 0 <= j < |ks| ==> ks[j] == StorageKey(serviceId, id, AttributeKeys[j])
    ensures forall a :: a in AttributeKeys ==> StorageKey(serviceId, id, a) in ks
  {
    [StorageKey(serviceId, id, State), StorageKey(serviceId, id, PlanId), StorageKey(serviceId, id, PlanName),
     StorageKey(serviceId, id, RedirectUrl), StorageKey(serviceId, id, UserRequired), StorageKey(serviceId, id, Version)]
  }

  /** A set key of an application is none of its attribute keys. */
  lemma StorageKeysApart(serviceId: string, id: string, c: Attribute)
    requires c !in AttributeKeys
    ensures forall a :: a in AttributeKeys ==> StorageKey(serviceId, id, c) != StorageKey(serviceId, id, a)
  {
    forall a | a in AttributeKeys
      ensures StorageKey(serviceId, id, c) != StorageKey(serviceId, id, a)
    {
      StorageKeysDistinct(serviceId, id, c, a);
    }
  }

  /** The store after `delete_data`: out of the set, all six attributes gone. */
  function DeletedKv(kv: Kv, serviceId: string, id: string): Kv {
    kv.SRem(ApplicationsSetKey(serviceId), id).DelKeys(AttributeStorageKeys(serviceId, id))
  }

  /** After `delete_data` the application no longer loads nor exists, and is out of its service's set. */
  lemma DeleteThenLoad(kv: Kv, serviceId: string, id: string)
    ensures var r := DeletedKv(kv, serviceId, id);
      && LoadedFrom(r, Some(serviceId), Some(id)) == Loaded(None, r)
      && id !in r.SMembers(ApplicationsSetKey(serviceId))
      && (forall a :: a in AttributeKeys ==> r.Get(StorageKey(serviceId, id, a)) == None)
      && !r.Exists(StorageKey(serviceId, id, State))
  {
  }

  /**
   * `delete_data` touches nothing but the application's six attribute keys
   * and the service's application set: its keys, its referrer filters and
   * every other key keep their contents.
   */
  lemma DeletedFrame(kv: Kv, serviceId: string, id: string, k: string)
    requires forall a :: a in AttributeKeys ==> k != StorageKey(serviceId, id, a)
    ensures var r := DeletedKv(kv, serviceId, id);
      && r.Get(k) == kv.Get(k)
      && (k != ApplicationsSetKey(serviceId) ==> r.SMembers(k) == kv.SMembers(k))
      && (forall f :: r.HGet(k, f) == kv.HGet(k, f))
  {
    OutsideAttributeKeys(serviceId, id, k);
    DeletedFrameOutside(kv, serviceId, id, k);
  }

  /** The frame of `delete_data` for a key outside the removed list. */
  lemma DeletedFrameOutside(kv: Kv, serviceId: string, id: string, k: string)
    requires k !in AttributeStorageKeys(serviceId, id)
    ensures var r := DeletedKv(kv, serviceId, id);
      && r.Get(k) == kv.Get(k)
      && (k != ApplicationsSetKey(serviceId) ==> r.SMembers(k) == kv.SMembers(k))
      && (forall f :: r.HGet(k, f) == kv.HGet(k, f))
  {
    var removed := kv.SRem(ApplicationsSetKey(serviceId), id);
    assert removed.strings == kv.strings && removed.hashes == kv.hashes;
  }

  /** A key that is none of the six attribute keys is not in the list `delete_data` removes. */
  lemma OutsideAttributeKeys(serviceId: string, id: string, k: string)
    requires forall a :: a in AttributeKeys ==> k != StorageKey(serviceId, id, a)
    ensures k !in AttributeStorageKeys(serviceId, id)
  {
    var ks := AttributeStorageKeys(serviceId, id);
    forall j | 0 <= j < |ks|
      ensures ks[j] != k
    {
      assert AttributeKeys[j] in AttributeKeys;
    }
  }

  /** `delete_set`: the application leaves its service's set. */
  lemma DeletedFromSet(kv: Kv, serviceId: string, id: string)
    ensures var r := DeletedKv(kv, serviceId, id);
      r.SMembers(ApplicationsSetKey(serviceId)) == kv.SMembers(ApplicationsSetKey(serviceId)) - {id}
  {
    var sk := ApplicationsSetKey(serviceId);
    forall a | a in AttributeKeys
      ensures sk != StorageKey(serviceId, id, a)
    {
      KeySpacesApart(serviceId, "", serviceId, id, a);
    }
    OutsideAttributeKeys(serviceId, id, sk);
  }

  /** In particular the application's credentials survive `delete_data`. */
  lemma DeleteKeepsCredentials(kv: Kv, serviceId: string, id: string)
    ensures var r := DeletedKv(kv, serviceId, id);
      && r.SMembers(StorageKey(serviceId, id, KeysSet)) == kv.SMembers(StorageKey(serviceId, id, KeysSet))
      && r.SMembers(StorageKey(serviceId, id, ReferrerFiltersSet)) == kv.SMembers(StorageKey(serviceId, id, ReferrerFiltersSet))
  {
    StorageKeysApart(serviceId, id, KeysSet);
    StorageKeysApart(serviceId, id, ReferrerFiltersSet);
    KeySpacesApart(serviceId, "", serviceId, id, KeysSet);
    KeySpacesApart(serviceId, "", serviceId, id, ReferrerFiltersSet);
    DeletedFrame(kv, serviceId, id, StorageKey(serviceId, id, KeysSet));
    DeletedFrame(kv, serviceId, id, StorageKey(serviceId, id, ReferrerFiltersSet));
  }

  /**
   * `delete`: ApplicationNotFound when the memoized existence check says
   * no (the store is untouched; the lookup memoizes its answer); otherwise
   * the data is removed and the three memo entries are cleared.
   */
  method Delete(db: Db, cache: Cache, serviceId: string, id: string) returns (r: Result<(), Error>)
    modifies db, cache
    ensures var ex := ExistsView(old(db.kv), old(cache.entries), Some(serviceId), Some(id));
      && (r.Err? <==> !ex)
      && (r.Err? ==>
            r.error == ApplicationNotFound && db.kv == old(db.kv) &&
            cache.entries == old(cache.entries)[MemoKey(OpExists, Some(serviceId), Some(id)) := FlagValue(false)])
      && (r.Ok? ==>
            db.kv == DeletedKv(old(db.kv), serviceId, id) &&
            cache.entries == old(cache.entries) - ClearCacheKeys(serviceId, id))
  {
    var ex := Exists(db, cache, Some(serviceId), Some(id));
    if !ex {
      return Err(ApplicationNotFound);
    }
    ghost var k := MemoKey(OpExists, Some(serviceId), Some(id));
    assert k in ClearCacheKeys(serviceId, id);
    assert cache.entries - ClearCacheKeys(serviceId, id) == old(cache.entries) - ClearCacheKeys(serviceId, id);
    DeleteData(db, serviceId, id);
    ClearCache(cache, serviceId, id);
    r := Ok(());
  }

  /** `delete_data`: `delete_set`, then `delete_attributes` in one multi-key delete. */
  method DeleteData(db: Db, serviceId: string, id: string)
    modifies db
    ensures db.kv == DeletedKv(old(db.kv), serviceId, id)
  {
    db.kv := db.kv.SRem(ApplicationsSetKey(serviceId), id);
    db.kv := db.kv.DelKeys(AttributeStorageKeys(serviceId, id));
  }

  /** `clear_cache`: drop the `load`, `load!` and `exists?` entries of one application. */
  method ClearCache(cache: Cache, serviceId: string, id: string)
    modifies cache
    ensures cache.entries == old(cache.entries) - ClearCacheKeys(serviceId, id)
  {
    cache.Clear(ClearCacheKeys(serviceId, id));
  }

  // ---------------------------------------------------------------------
  // keys and referrer filters

  /** Which collection, and the memo operation that shadows it. */
  predicate IsCollection(c: Attribute) {
    c == KeysSet || c == ReferrerFiltersSet
  }

  function CollectionOp(c: Attribute): Op
    requires IsCollection(c)
  {
    if c == KeysSet then OpKeys else OpReferrerFilters
  }

  function CollectionMemo(serviceId: string, id: string, c: Attribute): Key
    requires IsCollection(c)
  {
    MemoKey(CollectionOp(c), Some(serviceId), Some(id))
  }

  /** The store after adding (`add`) or removing `v` from collection `c`: version bump first, then the set change. */
  function Changed(kv: Kv, serviceId: string, id: string, c: Attribute, v: string, add: bool): Kv
    requires IsCollection(c)
  {
    var bumped := kv.IncrBy(StorageKey(serviceId, id, Version), 1);
    if add then bumped.SAdd(StorageKey(serviceId, id, c), v) else bumped.SRem(StorageKey(serviceId, id, c), v)
  }

  /**
   * A collection change bumps the version by exactly one, adds or removes
   * exactly `v`, and leaves the other collection and every other attribute
   * as they were.
   */
  lemma ChangedFrame(kv: Kv, serviceId: string, id: string, c: Attribute, v: string, add: bool)
    requires IsCollection(c)
    ensures var r, vk := Changed(kv, serviceId, id, c, v, add), StorageKey(serviceId, id, Version);
      && OptToI(r.Get(vk)) == OptToI(kv.Get(vk)) + 1
      && r.SMembers(StorageKey(serviceId, id, c)) ==
           (if add then kv.SMembers(StorageKey(serviceId, id, c)) + {v}
            else kv.SMembers(StorageKey(serviceId, id, c)) - {v})
      && (forall a :: a != Version ==> r.Get(StorageKey(serviceId, id, a)) == kv.Get(StorageKey(serviceId, id, a)))
      && (forall a :: IsCollection(a) && a != c ==>
            r.SMembers(StorageKey(serviceId, id, a)) == kv.SMembers(StorageKey(serviceId, id, a)))
  {
    AllStorageKeysDistinct(serviceId, id);
  }

  /** The memoized members of collection `c`. */
  method Members(db: Db, cache: Cache, serviceId: string, id: string, c: Attribute) returns (m: set<string>)
    requires IsCollection(c)
    modifies cache
    ensures var k := CollectionMemo(serviceId, id, c);
      m == (if k in old(cache.entries) && old(cache.entries)[k].MembersValue? then old(cache.entries)[k].members
            else db.kv.SMembers(StorageKey(serviceId, id, c)))
    ensures cache.entries == old(cache.entries)[CollectionMemo(serviceId, id, c) := MembersValue(m)]
  {
    var k := CollectionMemo(serviceId, id, c);
    var hit := cache.Lookup(k);
    if hit.Some? && hit.value.MembersValue? {
      m := hit.value.members;
    } else {
      m := db.kv.SMembers(StorageKey(serviceId, id, c));
      cache.Memoize(k, MembersValue(m));
    }
  }

  /** `keys`: the application's keys, memoized. */
  method AppKeys(db: Db, cache: Cache, app: App) returns (m: set<string>)
    modifies cache
    ensures var k := CollectionMemo(app.serviceId, app.id, KeysSet);
      m == (if k in old(cache.entries) && old(cache.entries)[k].MembersValue? then old(cache.entries)[k].members
            else db.kv.SMembers(StorageKey(app.serviceId, app.id, KeysSet)))
    ensures cache.entries == old(cache.entries)[CollectionMemo(app.serviceId, app.id, KeysSet) := MembersValue(m)]
  {
    m := Members(db, cache, app.serviceId, app.id, KeysSet);
  }

  /** `referrer_filters`: the application's referrer filters, memoized. */
  method AppReferrerFilters(db: Db, cache: Cache, app: App) returns (m: set<string>)
    modifies cache
    ensures var k := CollectionMemo(app.serviceId, app.id, ReferrerFiltersSet);
      m == (if k in old(cache.entries) && old(cache.entries)[k].MembersValue? then old(cache.entries)[k].members
            else db.kv.SMembers(StorageKey(app.serviceId, app.id, ReferrerFiltersSet)))
    ensures cache.entries == old(cache.entries)[CollectionMemo(app.serviceId, app.id, ReferrerFiltersSet) := MembersValue(m)]
  {
    m := Members(db, cache, app.serviceId, app.id, ReferrerFiltersSet);
  }

  /** Bump the version, clear only the collection's memo entry, then add or remove `v`. */
  method Change(db: Db, cache: Cache, serviceId: string, id: string, c: Attribute, v: string, add: bool)
    requires IsCollection(c)
    modifies db, cache
    ensures db.kv == Changed(old(db.kv), serviceId, id, c, v, add)
    ensures cache.entries == old(cache.entries) - {CollectionMemo(serviceId, id, c)}
  {
    var _ := IncrVersion(db, serviceId, id);
    cache.Clear({CollectionMemo(serviceId, id, c)});
    if add {
      db.kv := db.kv.SAdd(StorageKey(serviceId, id, c), v);
    } else {
      db.kv := db.kv.SRem(StorageKey(serviceId, id, c), v);
    }
  }

  /**
   * `create_key`: the given value, or when nil the freshly generated
   * `generated` one, joins the keys.
   */
  method CreateKey(db: Db, cache: Cache, app: App, value: Option<string>, generated: string) returns (v: string)
    modifies db, cache
    ensures v == value.GetOr(generated)
    ensures db.kv == Changed(old(db.kv), app.serviceId, app.id, KeysSet, v, true)
    ensures cache.entries == old(cache.entries) - {CollectionMemo(app.serviceId, app.id, KeysSet)}
  {
    v := value.GetOr(generated);
    Change(db, cache, app.serviceId, app.id, KeysSet, v, true);
  }

  /** `delete_key`; answers whether the key was there. */
  method DeleteKey(db: Db, cache: Cache, app: App, value: string) returns (removed: bool)
    modifies db, cache
    ensures removed == (value in old(db.kv).SMembers(StorageKey(app.serviceId, app.id, KeysSet)))
    ensures db.kv == Changed(old(db.kv), app.serviceId, app.id, KeysSet, value, false)
    ensures cache.entries == old(cache.entries) - {CollectionMemo(app.serviceId, app.id, KeysSet)}
  {
    removed := db.kv.SIsMember(StorageKey(app.serviceId, app.id, KeysSet), value);
    Change(db, cache, app.serviceId, app.id, KeysSet, value, false);
  }

  /** `has_keys?`: the key set is not empty. */
  function HasKeys(kv: Kv, app: App): (b: bool)
    ensures b <==> kv.SMembers(StorageKey(app.serviceId, app.id, KeysSet)) != {}
  {
    kv.SCard(StorageKey(app.serviceId, app.id, KeysSet)) > 0
  }

  /** `has_key?`: an application that has a given key has keys. */
  function HasKey(kv: Kv, app: App, value: string): (b: bool)
    ensures b <==> value in kv.SMembers(StorageKey(app.serviceId, app.id, KeysSet))
    ensures b ==> HasKeys(kv, app)
  {
    kv.SIsMember(StorageKey(app.serviceId, app.id, KeysSet), value)
  }

  /**
   * `create_referrer_filter`: a blank value is ReferrerFilterInvalid and
   * changes nothing; otherwise the value joins the filters.
   */
  method CreateReferrerFilter(db: Db, cache: Cache, app: App, value: Option<string>) returns (r: Result<string, Error>)
    modifies db, cache
    ensures Blank(value) <==> r.Err?
    ensures r.Err? ==> r.error == ReferrerFilterInvalid && db.kv == old(db.kv) && cache.entries == old(cache.entries)
    ensures r.Ok? ==>
      && r.value == value.value
      && db.kv == Changed(old(db.kv), app.serviceId, app.id, ReferrerFiltersSet, value.value, true)
      && cache.entries == old(cache.entries) - {CollectionMemo(app.serviceId, app.id, ReferrerFiltersSet)}
  {
    if Blank(value) {
      return Err(ReferrerFilterInvalid);
    }
    Change(db, cache, app.serviceId, app.id, ReferrerFiltersSet, value.value, true);
    r := Ok(value.value);
  }

  /** `delete_referrer_filter`; answers whether the filter was there. */
  method DeleteReferrerFilter(db: Db, cache: Cache, app: App, value: string) returns (removed: bool)
    modifies db, cache
    ensures removed == (value in old(db.kv).SMembers(StorageKey(app.serviceId, app.id, ReferrerFiltersSet)))
    ensures db.kv == Changed(old(db.kv), app.serviceId, app.id, ReferrerFiltersSet, value, false)
    ensures cache.entries == old(cache.entries) - {CollectionMemo(app.serviceId, app.id, ReferrerFiltersSet)}
  {
    removed := db.kv.SIsMember(StorageKey(app.serviceId, app.id, ReferrerFiltersSet), value);
    Change(db, cache, app.serviceId, app.id, ReferrerFiltersSet, value, false);
  }

  /** `has_referrer_filters?`: the filter set is not empty. */
  function HasReferrerFilters(kv: Kv, app: App): (b: bool)
    ensures b <==> kv.SMembers(StorageKey(app.serviceId, app.id, ReferrerFiltersSet)) != {}
  {
    kv.SCard(StorageKey(app.serviceId, app.id, ReferrerFiltersSet)) > 0
  }

  /**
   * A created key is present afterwards and the application has keys; a
   * deleted one is absent, and the application has keys exactly when others remain.
   */
  lemma KeyLifecycle(kv: Kv, app: App, v: string)
    ensures var added := Changed(kv, app.serviceId, app.id, KeysSet, v, true);
      HasKey(added, app, v) && HasKeys(added, app)
    ensures var removed := Changed(kv, app.serviceId, app.id, KeysSet, v, false);
      && !HasKey(removed, app, v)
      && (HasKeys(removed, app) <==> kv.SMembers(StorageKey(app.serviceId, app.id, KeysSet)) - {v} != {})
  {
    ChangedFrame(kv, app.serviceId, app.id, KeysSet, v, true);
    ChangedFrame(kv, app.serviceId, app.id, KeysSet, v, false);
  }
}
