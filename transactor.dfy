/**
 * The authorization and reporting decisions: parameter normalization and
 * OAuth id merging, the short-circuiting validator chain, the user
 * decision table, the authrep gate and the ungated report.
 */
module Transactor {
  import opened Wrappers
  import opened Errors
  import opened Storage
  import opened Entities
  import opened Memoizer
  import Applications
  import Users

  /** A request parameter that need not be a string (ids written back from the token store). */
  datatype Param = Str(s: string) | NonString

  /** The request parameters the decisions read and write. */
  datatype Params = Params(appId: Option<string>,
                           userId: Option<Param>,
                           userKey: Option<string>,
                           accessToken: Option<string>,
                           usage: Option<map<string, string>>,
                           log: Option<map<string, string>>)

  /** The outcome of one validation pass; `rejection` holds the reason once a validator refuses. */
  datatype Status = Status(serviceId: string,
                           application: App,
                           user: Option<User>,
                           oauth: bool,
                           usage: Option<map<string, string>>,
                           predictedUsage: bool,
                           hierarchy: bool,
                           rejection: Option<string>)
  {
    predicate Authorized() {
      rejection.None?
    }
  }

  /**
   * A validator inspects the status and the parameters and either lets the
   * request through (None) or rejects it with a reason.
   */
  type Validator = (Status, Params) -> Option<string>

  // ---------------------------------------------------------------------
  // apply_validators

  /**
   * `apply_validators`: run the validators in order and stop at the first
   * that rejects, recording its reason; the status is returned either way.
   */
  function ApplyValidators(vs: seq<Validator>, st: Status, p: Params): (r: Status)
    ensures r == st.(rejection := r.rejection)
    ensures (forall i :: 0 <= i < |vs| ==> vs[i](st, p).None?) ==> r == st
    ensures r.rejection != st.rejection ==>
      exists i :: 0 <= i < |vs| && vs[i](st, p) == r.rejection &&
                  forall j :: 0 <= j < i ==> vs[j](st, p).None?
    ensures st.Authorized() ==> (r.Authorized() <==> forall i :: 0 <= i < |vs| ==> vs[i](st, p).None?)
  {
    if vs == [] then st
    else
      match vs[0](st, p)
      case Some(reason) => st.(rejection := Some(reason))
      case None =>
        var r := ApplyValidators(vs[1..], st, p);
        assert forall i :: 1 <= i < |vs| ==> vs[i] == vs[1..][i - 1];
        r
  }

  /**
   * Validators after the first rejection are never applied: appending any
   * further validators to a rejecting chain changes nothing.
   */
  lemma {:induction false} LaterValidatorsNeverApplied(vs: seq<Validator>, ws: seq<Validator>, st: Status, p: Params)
    requires exists i :: 0 <= i < |vs| && vs[i](st, p).Some?
    ensures ApplyValidators(vs + ws, st, p) == ApplyValidators(vs, st, p)
  {
    if vs[0](st, p).None? {
      var i :| 0 <= i < |vs| && vs[i](st, p).Some?;
      assert i > 0 && vs[1..][i - 1] == vs[i];
      assert (vs + ws)[1..] == vs[1..] + ws;
      LaterValidatorsNeverApplied(vs[1..], ws, st, p);
    }
  }

  /** A chain whose every validator passes hands the rest of the list the same status. */
  lemma {:induction false} PassingPrefix(vs: seq<Validator>, ws: seq<Validator>, st: Status, p: Params)
    requires forall i :: 0 <= i < |vs| ==> vs[i](st, p).None?
    ensures ApplyValidators(vs + ws, st, p) == ApplyValidators(ws, st, p)
  {
    if vs != [] {
      var all := vs + ws;
      assert all[0] == vs[0] && all[1..] == vs[1..] + ws;
      assert all[0](st, p).None?;
      assert forall i :: 0 <= i < |vs[1..]| ==> vs[1..][i] == vs[i + 1];
      PassingPrefix(vs[1..], ws, st, p);
    } else {
      assert vs + ws == ws;
    }
  }

  // ---------------------------------------------------------------------
  // validate: normalization and OAuth merging

  /** What the token store holds for one (access token, service id): the ids it stands for. */
  datatype Creds = Creds(appId: Option<string>, userId: Option<string>)

  type TokenStore = map<(string, string), Creds>

  function ToParam(o: Option<string>): Option<Param> {
    match o
    case None => None
    case Some(s) => Some(Str(s))
  }

  /** Ruby's `x && x.empty?` on a string parameter. */
  predicate IsEmptyStr(o: Option<string>) {
    o == Some("")
  }

  predicate IsEmptyParam(o: Option<Param>) {
    o == Some(Str(""))
  }

  /** The ids the rest of `validate` works with, the parameters as rewritten, the validator list chosen. */
  datatype Merged = Merged(appId: Option<string>, userId: Option<Param>, params: Params, oauthValidators: bool)

  /** Whether `validate` consults the token store and the OAuth validators. */
  predicate OAuthPath(oauth: bool, appId: Option<string>, userId: Option<Param>) {
    oauth && (userId.None? || appId.None?)
  }

  /**
   * The OAuth block of `validate`. `appId` and `userId` are the parameter
   * values as the request gave them; `params` is the hash after empty ids
   * were nilled.
   */
  function OAuthMerge(oauth: bool, serviceId: string, appId: Option<string>, userId: Option<Param>,
                      params: Params, tokens: TokenStore): (r: Result<Merged, Error>)
    ensures !OAuthPath(oauth, appId, userId) ==> r == Ok(Merged(appId, userId, params, false))
    ensures r.Ok? ==> r.value.oauthValidators == OAuthPath(oauth, appId, userId)
    ensures OAuthPath(oauth, appId, userId) && (params.accessToken.None? || IsEmptyStr(params.accessToken)) ==>
      r == if appId.None? then Err(ApplicationNotFound) else Ok(Merged(appId, userId, params, true))
    ensures r.Err? ==> appId.None? && (r.error == ApplicationNotFound || r.error == AccessTokenInvalid)
    ensures OAuthPath(oauth, appId, userId) && params.accessToken.Some? && !IsEmptyStr(params.accessToken) &&
            (params.accessToken.value, serviceId) !in tokens ==>
      r == if appId.None? then Err(AccessTokenInvalid)
           else Ok(Merged(appId, userId, if userId.None? then params.(userId := None) else params, true))
    ensures r.Ok? && appId.Some? ==> r.value.appId == appId && r.value.params.appId == params.appId
    ensures r.Ok? && userId.Some? ==> r.value.userId == userId && r.value.params.userId == params.userId
    ensures OAuthPath(oauth, appId, userId) && params.accessToken.Some? && !IsEmptyStr(params.accessToken) &&
            (params.accessToken.value, serviceId) in tokens ==>
      var creds := tokens[(params.accessToken.value, serviceId)];
      && r.Ok? && r.value.oauthValidators
      && r.value.appId == (if appId.None? then creds.appId else appId)
      && r.value.userId == (if userId.None? then ToParam(creds.userId) else userId)
      && r.value.params == params.(appId := if appId.None? then creds.appId else params.appId,
                                   userId := if userId.None? then ToParam(creds.userId) else params.userId)
    ensures r.Ok? ==> r.value.params == params.(appId := r.value.params.appId, userId := r.value.params.userId)
  {
    if !OAuthPath(oauth, appId, userId) then Ok(Merged(appId, userId, params, false))
    else
      var accessToken := if IsEmptyStr(params.accessToken) then None else params.accessToken;
      if accessToken.None? then
        if appId.None? then Err(ApplicationNotFound) else Ok(Merged(appId, userId, params, true))
      else
        var key := (accessToken.value, serviceId);
        if key !in tokens && appId.None? then Err(AccessTokenInvalid)
        else
          // an invalid token tolerated beside an app id leaves both token ids nil
          var creds := if key in tokens then tokens[key] else Creds(None, None);
          var a := if appId.None? then creds.appId else appId;
          var pa := if appId.None? then params.(appId := creds.appId) else params;
          var u := if userId.None? then ToParam(creds.userId) else userId;
          var pu := if userId.None? then pa.(userId := ToParam(creds.userId)) else pa;
          Ok(Merged(a, u, pu, true))
  }

  /** `x = nil if x && x.empty?` on a string parameter. */
  function NilIfEmpty(o: Option<string>): Option<string> {
    if IsEmptyStr(o) then None else o
  }

  function NilIfEmptyParam(o: Option<Param>): Option<Param> {
    if IsEmptyParam(o) then None else o
  }

  /**
   * The parameter handling of `validate` up to the application lookup:
   * empty `app_id` and `user_id` are nilled in the parameters only, the
   * OAuth block runs, then an empty `user_key` is nilled. The parameters
   * come back as rewritten so far, also when a raise cuts it short.
   */
  function Prepare(oauth: bool, serviceId: string, params: Params, tokens: TokenStore): (r: (Params, Result<Merged, Error>))
    ensures var nilled := params.(appId := if IsEmptyStr(params.appId) then None else params.appId,
                                  userId := if IsEmptyParam(params.userId) then None else params.userId);
      r.1 == (match OAuthMerge(oauth, serviceId, params.appId, params.userId, nilled, tokens)
              case Err(e) => Err(e)
              case Ok(m) => Ok(m.(params := r.0)))
    ensures IsEmptyStr(params.appId) ==>
      !OAuthPath(oauth, params.appId, params.userId) ==> r.0.appId == None && r.1.Ok? && r.1.value.appId == Some("")
    ensures r.1.Ok? ==> r.0 == r.1.value.params && !IsEmptyStr(r.0.userKey)
    ensures r.0.usage == params.usage && r.0.log == params.log
    ensures r.1.Err? ==> r.0 == params.(appId := NilIfEmpty(params.appId), userId := NilIfEmptyParam(params.userId))
    ensures r.1.Ok? ==>
      r.0 == params.(appId := if params.appId.None? then r.1.value.appId else NilIfEmpty(params.appId),
                     userId := if params.userId.None? then r.1.value.userId else NilIfEmptyParam(params.userId),
                     userKey := NilIfEmpty(params.userKey))
  {
    var nilled := params.(appId := if IsEmptyStr(params.appId) then None else params.appId,
                          userId := if IsEmptyParam(params.userId) then None else params.userId);
    match OAuthMerge(oauth, serviceId, params.appId, params.userId, nilled, tokens)
    case Err(e) => (nilled, Err(e))
    case Ok(m) =>
      var p := m.params.(userKey := if IsEmptyStr(m.params.userKey) then None else m.params.userKey);
      (p, Ok(m.(params := p)))
  }

  // ---------------------------------------------------------------------
  // load_user!

  datatype UserDecision = NoUser | LoadOrCreateUser(username: string) | RaiseUserNotDefined

  /** A user id counts as given only when it is a non-empty string. */
  predicate UserIdGiven(userId: Option<Param>) {
    userId.Some? && userId.value.Str? && userId.value.s != ""
  }

  /** The decision table of `load_user!`. */
  function LoadUserDecision(userId: Option<Param>, userRequired: bool): (d: UserDecision)
    ensures !UserIdGiven(userId) && userRequired ==> d == RaiseUserNotDefined
    ensures !UserIdGiven(userId) && !userRequired ==> d == NoUser
    ensures UserIdGiven(userId) && !userRequired ==> d == NoUser
    ensures UserIdGiven(userId) && userRequired ==> d == LoadOrCreateUser(userId.value.s)
  {
    if UserIdGiven(userId) then
      if userRequired then LoadOrCreateUser(userId.value.s) else NoUser
    else if userRequired then RaiseUserNotDefined
    else NoUser
  }

  /** `load_user!` given what `load_or_create!` would answer. */
  function LoadUserOutcome(d: UserDecision, loaded: Result<Option<User>, Error>): (r: Result<Option<User>, Error>)
    ensures d == NoUser ==> r == Ok(None)
    ensures d == RaiseUserNotDefined ==> r == Err(UserNotDefined)
    ensures d.LoadOrCreateUser? && loaded == Ok(None) ==> r == Err(UserRequiresRegistration)
    ensures d.LoadOrCreateUser? && loaded.Err? ==> r == loaded
    ensures d.LoadOrCreateUser? && r.Ok? ==> r.value.Some? && loaded == r
    ensures d.LoadOrCreateUser? && loaded.Ok? && loaded.value.Some? ==> r == loaded
  {
    match d
    case NoUser => Ok(None)
    case RaiseUserNotDefined => Err(UserNotDefined)
    case LoadOrCreateUser(_) =>
      match loaded
      case Err(e) => Err(e)
      case Ok(None) => Err(UserRequiresRegistration)
      case Ok(Some(u)) => Ok(Some(u))
  }

  /** An answer of `load_user!` with the store and the memo cache it leaves. */
  datatype UserLoad = UserLoad(result: Result<Option<User>, Error>, kv: Kv, entries: map<Key, Value>)

  /**
   * `load_user!` against a store and a memo cache: only a user required
   * and named calls `load_or_create!`, and a raise changes neither the
   * store nor the cache.
   */
  function LoadUserState(kv: Kv, entries: map<Key, Value>, app: App, service: Service, userId: Option<Param>)
    : (r: UserLoad)
    ensures !LoadUserDecision(userId, app.userRequired).LoadOrCreateUser? ==> r.kv == kv && r.entries == entries
    ensures r.result.Err? ==> r.kv == kv && r.entries == entries
    ensures r.result.Ok? && r.result.value.Some? ==> UserIdGiven(userId) && app.userRequired
  {
    var d := LoadUserDecision(userId, app.userRequired);
    if d.LoadOrCreateUser? then
      UserLoad(LoadUserOutcome(d, Users.LoadOrCreateView(kv, entries, service, d.username)),
               Users.LoadOrCreateKv(kv, entries, service, d.username),
               Users.LoadOrCreateEntries(kv, entries, service, d.username))
    else UserLoad(LoadUserOutcome(d, Ok(None)), kv, entries)
  }

  method LoadUser(db: Db, cache: Cache, app: App, service: Service, userId: Option<Param>)
    returns (r: Result<Option<User>, Error>)
    modifies db, cache
    ensures var d := LoadUserDecision(userId, app.userRequired);
      r == LoadUserOutcome(d, if d.LoadOrCreateUser? then Users.LoadOrCreateView(old(db.kv), old(cache.entries), service, d.username)
                              else Ok(None))
    ensures UserLoad(r, db.kv, cache.entries) == LoadUserState(old(db.kv), old(cache.entries), app, service, userId)
  {
    var d := LoadUserDecision(userId, app.userRequired);
    if d.LoadOrCreateUser? {
      var loaded := Users.LoadOrCreate(db, cache, service, d.username);
      r := LoadUserOutcome(d, loaded);
    } else {
      r := LoadUserOutcome(d, Ok(None));
    }
  }

  // ---------------------------------------------------------------------
  // validate

  /** What `validate` leaves: the parameters as rewritten, its answer, the store and the memo cache. */
  datatype Validated = Validated(params: Params, result: Result<Status, Error>, kv: Kv, entries: map<Key, Value>)

  /**
   * `validate` against a store and a memo cache: the service lookup's
   * outcome is given; the parameters are rewritten and the ids merged, and
   * a raise so far changes nothing; then the rest of `validate` runs on the
   * prepared parameters.
   */
  function ValidateOutcome(kv: Kv, entries: map<Key, Value>, oauth: bool, service: Result<Service, Error>,
                           reportUsage: bool, params: Params, tokens: TokenStore,
                           validators: seq<Validator>, oauthValidators: seq<Validator>, hierarchy: bool)
    : (v: Validated)
    ensures service.Err? ==> v == Validated(params, Err(service.error), kv, entries)
    ensures service.Ok? ==> v.params == Prepare(oauth, service.value.id, params, tokens).0
    ensures service.Ok? && Prepare(oauth, service.value.id, params, tokens).1.Err? ==>
      v == Validated(v.params, Err(Prepare(oauth, service.value.id, params, tokens).1.error), kv, entries)
    ensures v.result.Ok? ==> v.result.value.usage == params.usage && v.params.log == params.log
    ensures service.Ok? && Prepare(oauth, service.value.id, params, tokens).1.Ok? ==>
      var prepared := Prepare(oauth, service.value.id, params, tokens);
      v == ValidatePrepared(kv, entries, service.value, oauth, reportUsage, prepared.0, prepared.1.value,
                            if prepared.1.value.oauthValidators then oauthValidators else validators, hierarchy)
  {
    if service.Err? then Validated(params, Err(service.error), kv, entries)
    else
      var prepared := Prepare(oauth, service.value.id, params, tokens);
      if prepared.1.Err? then Validated(prepared.0, Err(prepared.1.error), kv, entries)
      else
        var m := prepared.1.value;
        ValidatePrepared(kv, entries, service.value, oauth, reportUsage, prepared.0, m,
                         if m.oauthValidators then oauthValidators else validators, hierarchy)
  }

  /**
   * `validate` once the parameters are prepared: the application is the
   * one identity resolution finds for the merged app_id and the nilled
   * user_key, and its errors propagate.
   */
  function ValidatePrepared(kv: Kv, entries: map<Key, Value>, svc: Service, oauth: bool, reportUsage: bool,
                            p: Params, m: Merged, vs: seq<Validator>, hierarchy: bool)
    : (v: Validated)
    ensures v.params == p
    ensures var app := Applications.ResolveApp(kv, entries, svc.id, m.appId, p.userKey);
      && (app.Err? ==> v.result == Err(app.error))
      && (v.result.Ok? ==> app == Ok(v.result.value.application))
      && (app.Ok? && LoadUserDecision(m.userId, app.value.userRequired) == RaiseUserNotDefined ==>
            v.result == Err(UserNotDefined))
    ensures var resolved := Applications.Resolve(kv, entries, svc.id, m.appId, p.userKey);
      && (resolved.result.Err? ==> v.kv == resolved.kv && v.entries == resolved.entries)
      && (resolved.result.Ok? ==>
            v == ValidateResolved(resolved.kv, resolved.entries, svc, resolved.result.value, oauth, reportUsage,
                                  p, m.userId, vs, hierarchy))
  {
    var resolved := Applications.Resolve(kv, entries, svc.id, m.appId, p.userKey);
    if resolved.result.Err? then Validated(p, Err(resolved.result.error), resolved.kv, resolved.entries)
    else ValidateResolved(resolved.kv, resolved.entries, svc, resolved.result.value, oauth, reportUsage, p, m.userId, vs, hierarchy)
  }

  /**
   * `validate` once the application is found: the user is loaded (a raise
   * propagates), and the answer is the validator list applied to a fresh
   * status for that application and user; it is authorized exactly when
   * every validator of the list lets the request through.
   */
  function ValidateResolved(kv: Kv, entries: map<Key, Value>, svc: Service, app: App, oauth: bool, reportUsage: bool,
                            p: Params, userId: Option<Param>, vs: seq<Validator>, hierarchy: bool)
    : (v: Validated)
    ensures v.params == p
    ensures LoadUserDecision(userId, app.userRequired) == RaiseUserNotDefined ==> v.result == Err(UserNotDefined)
    ensures v.result.Ok? ==>
      var st := v.result.value;
      var st0 := st.(rejection := None);
      && st == ApplyValidators(vs, st0, p)
      && (st.Authorized() <==> forall i :: 0 <= i < |vs| ==> vs[i](st0, p).None?)
      && st.application == app && st.serviceId == svc.id && st.oauth == oauth
      && st.usage == p.usage && st.predictedUsage == !reportUsage && st.hierarchy == hierarchy
      && (LoadUserDecision(userId, app.userRequired) == NoUser ==> st.user == None)
      && (LoadUserDecision(userId, app.userRequired).LoadOrCreateUser? ==> st.user.Some?)
    ensures var u := LoadUserState(kv, entries, app, svc, userId);
      && (u.result.Err? ==> v == Validated(p, Err(u.result.error), u.kv, u.entries))
      && (u.result.Ok? ==> v.result.Ok? && v.result.value.user == u.result.value && v.kv == u.kv && v.entries == u.entries)
  {
    var user := LoadUserState(kv, entries, app, svc, userId);
    if user.result.Err? then Validated(p, Err(user.result.error), user.kv, user.entries)
    else
      var st0 := Status(svc.id, app, user.result.value, oauth, p.usage, !reportUsage, hierarchy, None);
      Validated(p, Ok(ApplyValidators(vs, st0, p)), user.kv, user.entries)
  }

  /** `validate`, step by step over the shared store and memo cache. */
  method Validate(db: Db, cache: Cache, oauth: bool, service: Result<Service, Error>, reportUsage: bool,
                  params: Params, tokens: TokenStore, validators: seq<Validator>, oauthValidators: seq<Validator>,
                  hierarchy: bool)
    returns (p: Params, r: Result<Status, Error>)
    requires service.Err? ==> ServiceLookupError(service.error)
    modifies db, cache
    ensures Validated(p, r, db.kv, cache.entries) ==
      ValidateOutcome(old(db.kv), old(cache.entries), oauth, service, reportUsage, params, tokens,
                      validators, oauthValidators, hierarchy)
  {
    if service.Err? {
      return params, Err(service.error);
    }
    var svc := service.value;
    var prepared := Prepare(oauth, svc.id, params, tokens);
    p := prepared.0;
    if prepared.1.Err? {
      return p, Err(prepared.1.error);
    }
    var m := prepared.1.value;
    var app := Applications.LoadByIdOrUserKey(db, cache, svc.id, m.appId, p.userKey);
    if app.Err? {
      return p, Err(app.error);
    }
    var user := LoadUser(db, cache, app.value, svc, m.userId);
    if user.Err? {
      return p, Err(user.error);
    }
    var st0 := Status(svc.id, app.value, user.value, oauth, p.usage, !reportUsage, hierarchy, None);
    var vs := if m.oauthValidators then oauthValidators else validators;
    r := Ok(ApplyValidators(vs, st0, p));
  }

  // ---------------------------------------------------------------------
  // the job queue and the notifications

  /** One transaction of a report job. */
  datatype Transaction = Transaction(appId: Option<string>, usage: Option<map<string, string>>,
                                     userId: Option<string>, log: Option<map<string, string>>)

  /** A `ReportJob` on the background queue. */
  datatype Job = ReportJob(serviceId: string, transactions: seq<Transaction>, contextInfo: map<string, string>)

  datatype Notification =
    | NotifyAuthorize(providerKey: string)
    | NotifyAuthrep(providerKey: string, usageCount: nat)
    | NotifyReport(providerKey: string, transactionCount: nat)

  /** The background queue and the notification channel, as the logs of what was sent. */
  class Outbox {
    var jobs: seq<Job>
    var notifications: seq<Notification>

    constructor ()
      ensures jobs == [] && notifications == []
    {
      jobs, notifications := [], [];
    }
  }

  datatype Effects = Effects(jobs: seq<Job>, notifications: seq<Notification>)

  /**
   * The authrep gate after a successful validate: one report job (for the
   * status's application and user, carrying usage and log) and an authrep
   * notification when there is usage or a log and the status is
   * authorized; otherwise no job and an authorize notification.
   */
  function AuthrepEffects(status: Status, params: Params, providerKey: string): (e: Effects)
    ensures |e.notifications| == 1 && |e.jobs| <= 1
    ensures |e.jobs| == 1 <==> (params.usage.Some? || params.log.Some?) && status.Authorized()
    ensures |e.jobs| == 1 ==>
      && e.jobs[0] == ReportJob(status.serviceId,
                                [Transaction(Some(status.application.id), params.usage,
                                             if status.user.Some? then Some(status.user.value.username) else None,
                                             params.log)],
                                map[])
      && e.notifications == [NotifyAuthrep(providerKey, if params.usage.Some? then |params.usage.value| else 0)]
    ensures |e.jobs| == 0 ==> e.notifications == [NotifyAuthorize(providerKey)]
  {
    var usage := params.usage;
    if (usage.Some? || params.log.Some?) && status.Authorized() then
      var username := if status.user.Some? then Some(status.user.value.username) else None;
      var t := Transaction(Some(status.application.id), usage, username, params.log);
      Effects([ReportJob(status.serviceId, [t], map[])],
              [NotifyAuthrep(providerKey, if usage.Some? then |usage.value| else 0)])
    else
      Effects([], [NotifyAuthorize(providerKey)])
  }

  /**
   * The authrep gate from the request's side: once `validate` answers a
   * status, a report job is enqueued exactly when the request carries usage
   * or a log and every validator of the chosen list passes; the job is for
   * that application and carries the request's usage and log.
   */
  lemma AuthrepEnqueuesIffAuthorized(kv: Kv, entries: map<Key, Value>, svc: Service, app: App, oauth: bool,
                                     p: Params, userId: Option<Param>, vs: seq<Validator>, hierarchy: bool,
                                     providerKey: string)
    requires ValidateResolved(kv, entries, svc, app, oauth, true, p, userId, vs, hierarchy).result.Ok?
    ensures var st := ValidateResolved(kv, entries, svc, app, oauth, true, p, userId, vs, hierarchy).result.value;
      var e := AuthrepEffects(st, p, providerKey);
      && (|e.jobs| == 1 <==>
            (p.usage.Some? || p.log.Some?) && forall i :: 0 <= i < |vs| ==> vs[i](st.(rejection := None), p).None?)
      && (|e.jobs| == 1 ==>
            && e.jobs[0].serviceId == svc.id
            && e.jobs[0].transactions == [Transaction(Some(app.id), p.usage,
                                                      if st.user.Some? then Some(st.user.value.username) else None, p.log)])
      && !st.predictedUsage
  {
  }

  /** Errors of `validate` that authrep still reports as an authorization attempt before re-raising. */
  function AuthrepErrorNotifications(e: Error, providerKey: string): (ns: seq<Notification>)
    ensures |ns| <= 1
    ensures |ns| == 1 <==> e == ApplicationNotFound || e == UserNotDefined
    ensures |ns| == 1 ==> ns == [NotifyAuthorize(providerKey)]
  {
    if e == ApplicationNotFound || e == UserNotDefined then [NotifyAuthorize(providerKey)] else []
  }

  /** `report_enqueue`: one job for the whole transaction set. */
  method ReportEnqueue(outbox: Outbox, serviceId: string, transactions: seq<Transaction>, contextInfo: map<string, string>)
    modifies outbox
    ensures outbox.jobs == old(outbox.jobs) + [ReportJob(serviceId, transactions, contextInfo)]
    ensures outbox.notifications == old(outbox.notifications)
  {
    outbox.jobs := outbox.jobs + [ReportJob(serviceId, transactions, contextInfo)];
  }

  /** `do_authorize`: notify first, then validate predicting usage; never enqueues. */
  method DoAuthorize(outbox: Outbox, db: Db, cache: Cache, providerKey: string, oauth: bool,
                     service: Result<Service, Error>, params: Params, tokens: TokenStore,
                     validators: seq<Validator>, oauthValidators: seq<Validator>, hierarchy: bool)
    returns (p: Params, r: Result<Status, Error>)
    requires service.Err? ==> ServiceLookupError(service.error)
    modifies outbox, db, cache
    ensures outbox.notifications == old(outbox.notifications) + [NotifyAuthorize(providerKey)]
    ensures outbox.jobs == old(outbox.jobs)
    ensures Validated(p, r, db.kv, cache.entries) ==
      ValidateOutcome(old(db.kv), old(cache.entries), oauth, service, false, params, tokens,
                      validators, oauthValidators, hierarchy)
  {
    outbox.notifications := outbox.notifications + [NotifyAuthorize(providerKey)];
    p, r := Validate(db, cache, oauth, service, false, params, tokens, validators, oauthValidators, hierarchy);
  }

  /**
   * `do_authrep`: validate without predicting; on ApplicationNotFound or
   * UserNotDefined notify an authorization and re-raise; after a
   * successful validate apply the gate.
   */
  method DoAuthrep(outbox: Outbox, db: Db, cache: Cache, providerKey: string, oauth: bool,
                   service: Result<Service, Error>, params: Params, tokens: TokenStore,
                   validators: seq<Validator>, oauthValidators: seq<Validator>, hierarchy: bool)
    returns (p: Params, r: Result<Status, Error>)
    requires service.Err? ==> ServiceLookupError(service.error)
    modifies outbox, db, cache
    ensures var v := ValidateOutcome(old(db.kv), old(cache.entries), oauth, service, true, params, tokens,
                                     validators, oauthValidators, hierarchy);
      && Validated(p, r, db.kv, cache.entries) == v
      && (v.result.Err? ==>
            && outbox.jobs == old(outbox.jobs)
            && outbox.notifications == old(outbox.notifications) + AuthrepErrorNotifications(v.result.error, providerKey))
      && (v.result.Ok? ==>
            var e := AuthrepEffects(v.result.value, v.params, providerKey);
            && outbox.jobs == old(outbox.jobs) + e.jobs
            && outbox.notifications == old(outbox.notifications) + e.notifications)
  {
    p, r := Validate(db, cache, oauth, service, true, params, tokens, validators, oauthValidators, hierarchy);
    AuthrepGate(outbox, providerKey, p, r);
  }

  /**
   * The tail of `do_authrep` after `validate`: an error notifies as the
   * error's kind demands; a success enqueues and notifies as the gate says.
   */
  method AuthrepGate(outbox: Outbox, providerKey: string, p: Params, r: Result<Status, Error>)
    modifies outbox
    ensures r.Err? ==>
      && outbox.jobs == old(outbox.jobs)
      && outbox.notifications == old(outbox.notifications) + AuthrepErrorNotifications(r.error, providerKey)
    ensures r.Ok? ==>
      var e := AuthrepEffects(r.value, p, providerKey);
      && outbox.jobs == old(outbox.jobs) + e.jobs
      && outbox.notifications == old(outbox.notifications) + e.notifications
  {
    if r.Err? {
      outbox.notifications := outbox.notifications + AuthrepErrorNotifications(r.error, providerKey);
      return;
    }
    var status := r.value;
    var usage := p.usage;
    if (usage.Some? || p.log.Some?) && status.Authorized() {
      var username := if status.user.Some? then Some(status.user.value.username) else None;
      ReportEnqueue(outbox, status.serviceId, [Transaction(Some(status.application.id), usage, username, p.log)], map[]);
      outbox.notifications := outbox.notifications + [NotifyAuthrep(providerKey, if usage.Some? then |usage.value| else 0)];
    } else {
      outbox.notifications := outbox.notifications + [NotifyAuthorize(providerKey)];
    }
  }

  /**
   * `report`: after the service lookup succeeds, one job for the whole
   * transaction set and one report notification, with no authorization gate.
   */
  method Report(outbox: Outbox, providerKey: string, service: Result<Service, Error>,
                transactions: seq<Transaction>, contextInfo: map<string, string>)
    returns (r: Result<(), Error>)
    requires service.Err? ==> ServiceLookupError(service.error)
    modifies outbox
    ensures service.Err? ==>
      r == Err(service.error) && outbox.jobs == old(outbox.jobs) && outbox.notifications == old(outbox.notifications)
    ensures service.Ok? ==>
      && r == Ok(())
      && outbox.jobs == old(outbox.jobs) + [ReportJob(service.value.id, transactions, contextInfo)]
      && outbox.notifications == old(outbox.notifications) + [NotifyReport(providerKey, |transactions|)]
  {
    if service.Err? {
      return Err(service.error);
    }
    ReportEnqueue(outbox, service.value.id, transactions, contextInfo);
    outbox.notifications := outbox.notifications + [NotifyReport(providerKey, |transactions|)];
    r := Ok(());
  }
}
