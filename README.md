# Entity and authorization-decision layer of the 3scale backend, in Dafny

This project models the part of the apisonator backend that sits between
the HTTP endpoints and the key-value store:

- the **Application** entity: six attribute keys per application, the
  service's application set, the user-key to application-id index, the two
  credential collections (application keys and referrer filters), the
  lazily assigned `version`, and the memo entries that shadow all of these;
- the **Transactor** decisions: parameter normalization and OAuth id
  merging in `validate`, the short-circuiting validator chain, the
  `load_user!` decision table, the authrep gate and the ungated `report`;
- the **User** entity: one hash record per (service, username), the
  memoized `load_or_create!` that snapshots the service's default plan,
  attribute defaulting and validation, and deletion;
- **request-log enablement**: a global flag key plus a set of per-service
  bucket keys.

The store is the value `Storage.Kv` (string keys, set keys, hash keys, each
operation a function whose contract says exactly which key changes), held
by the object `Storage.Db` that every operation updates in place. The
process-local memo cache is `Memoizer.Cache`, a map from (owning class,
operation, argument tuple) to the memoized value. Operations that change
the store or the cache are methods whose postconditions give the new
state as a specification function of the old one (`LoadedFrom`,
`SavedKv`, `SavedEntries`, `DeletedKv`, `Changed`, `SavedAttributes`,
`LoadOrCreateOutcome`, ...); the lemmas beside them prove what the code
promises about those functions (round trips, frames, exactly-one bumps,
idempotence). Ruby's `String#to_i`, `blank?` (over Unicode white space) and
nil-interpolation are modelled in `Numeric` and `Applications`. The job queue and the
notification channel are the append-only logs of `Transactor.Outbox`.

Files: `wrappers.dfy` (Option, Result), `errors.dfy`, `numeric.dfy`,
`storage.dfy`, `entities.dfy`, `memoizer.dfy`, `application.dfy`,
`user.dfy`, `request_logs.dfy`, `transactor.dfy`.

## Model

| member | source | states |
|---|---|---|
| Numeric.ToIOfIntToString | lib/3scale/backend/application.rb:186-191 | `to_i` of the decimal rendering of any integer gives the integer back, so a version or flag written by `incrby`/`set` reads back as the number written |
| Numeric.ToI | lib/3scale/backend/application.rb:49 | `to_i` reads nil, the empty string and a string starting with neither a sign nor a digit as 0; a leading minus can only give a value of at most 0, anything else one of at least 0 |
| Storage.Kv.IncrBy | lib/3scale/backend/application.rb:107-109 | INCRBY leaves the key holding the old value read with `to_i` (0 when missing) plus `n`, in decimal; no other key changes |
| Storage.Kv.SRem | lib/3scale/backend/application.rb:154-156 | SREM removes exactly `x` from the set, drops a set left empty, and changes no other key |
| Storage.Kv.DelKeys | lib/3scale/backend/application.rb:158-164 | a multi-key DEL removes every listed key and leaves every other key's string, set and hash contents unchanged |
| Memoizer.KeysForClass | lib/3scale/backend/application.rb:125-132 | the memo keys built for a class are exactly the keys with that owner, one of the operations, and the given arguments |
| Memoizer.Cache.Memoize | lib/3scale/backend/application.rb:76 | memoizing sets one entry and keeps all others |
| Memoizer.Cache.Clear | lib/3scale/backend/application.rb:131 | clearing removes exactly the given keys |
| Applications.StorageKey | lib/3scale/backend/application.rb:144-146 | an attribute key lies in the `application/` key space and ends with the attribute's name |
| Applications.ApplicationsSetKey | lib/3scale/backend/application.rb:134-136 | a service's application set lies in the `service_id:` key space |
| Applications.IdByKeyStorageKey | lib/3scale/backend/application.rb:150-152 | an index entry lies in the `application/` key space and ends with `/id` |
| Applications.KeySpacesApart | lib/3scale/backend/application.rb:134-152 | neither a service's application set nor any index entry is ever the attribute key of some application |
| Applications.StorageKeysDistinct | lib/3scale/backend/application.rb:144-146 | two different attributes of one application never share a store key |
| Applications.ClearCacheKeys | lib/3scale/backend/application.rb:125-132 | `clear_cache` targets exactly the `load`, `load!` and `exists?` entries for (service_id, id), and neither the `keys` nor the `referrer_filters` entry |
| Applications.LoadedFrom | lib/3scale/backend/application.rb:35-59 | `load` gives nothing when either id is nil or the `state` key is absent (store unchanged); otherwise the stored attributes, `user_required` true iff its `to_i` is > 0 (absent means false), and the stored version, or when none is stored version "1" with the version key now holding "1" |
| Applications.LoadUncached | lib/3scale/backend/application.rb:35-60 | the step-by-step read (one multi-get, then the lazy `incr_version`) returns and leaves exactly what `LoadedFrom` describes |
| Applications.LoadView | lib/3scale/backend/application.rb:35-61 | the memoized `load` leaves the store as it was, except that an application found without a stored version gets version "1" written |
| Applications.Load | lib/3scale/backend/application.rb:35-61 | the memoized `load` answers a memo hit as cached and otherwise as `LoadedFrom`, then memoizes its answer, so a repeat call returns the same application |
| Applications.LoadBang | lib/3scale/backend/application.rb:63-66 | `load!` answers a cached success, otherwise the memoized `load` or ApplicationNotFound; only a success is memoized under `load!` |
| Applications.Exists | lib/3scale/backend/application.rb:98-101 | `exists?` answers a memoized flag, otherwise whether the `state` key exists, and memoizes that answer without touching the store |
| Applications.ExistsView | lib/3scale/backend/application.rb:98-101 | without a memo entry, an application that `load` finds also `exists?` |
| Applications.IncrVersion | lib/3scale/backend/application.rb:107-109 | `incr_version` returns the stored version plus one and stores it |
| Applications.LoadIdByKey | lib/3scale/backend/application.rb:68-71 | the memoized index lookup answers a cached id, otherwise the stored one, and memoizes it |
| Applications.SaveIdByKey | lib/3scale/backend/application.rb:73-78 | ApplicationHasInconsistentData iff any of service_id, id, key is blank (nil, empty, or only Unicode white space as `[[:space:]]` matches), with no change; otherwise the index entry is written and memoized |
| Applications.DeleteIdByKey | lib/3scale/backend/application.rb:80-84 | the index entry and exactly its memo entry are removed |
| Applications.WithAppIdFromParams | lib/3scale/backend/application.rb:166-179 | precedence: app_id with a user_key is AuthenticationError; app_id alone goes to the block; else the user key's mapping, UserKeyInvalid when unmapped; else the access token's application (its error propagated); else ApplicationNotFound; a nil block result is ApplicationNotFound |
| Applications.LoadResolution | lib/3scale/backend/application.rb:86-90 | the block of `load_by_id_or_user_key!` answers the application the memoized `load` finds, or ApplicationNotFound, and memoizes the `load` answer either way |
| Applications.Resolve | lib/3scale/backend/application.rb:86-90 | step by step, `load_by_id_or_user_key!` answers exactly what identity resolution answers; the store changes at most by the lazy version "1" of the application found; no memo entry is dropped, and only the index entry and `load` entries can change |
| Applications.LoadByIdOrUserKey | lib/3scale/backend/application.rb:86-90 | `load_by_id_or_user_key!` answers what identity resolution answers, and leaves the store and the cache exactly as `Resolve` does, in terms of the store and cache it started from |
| Applications.SetIf | lib/3scale/backend/application.rb:302-307 | `set(k, x) if x` writes a non-nil value and otherwise keeps what was stored; no other key changes |
| Applications.Persisted | lib/3scale/backend/application.rb:302-312 | `persist_attributes` and `persist_set` add the id to the service's application set and touch no other set and no hash |
| Applications.PersistedReads | lib/3scale/backend/application.rb:302-312 | after `persist_attributes` and `persist_set`: state, plan_id, plan_name and redirect_url hold the new value when non-nil and the old one otherwise, user_required holds "1" or "0", the version is untouched and the id is in the service's set |
| Applications.PersistedFrame | lib/3scale/backend/application.rb:302-308 | a key that `persist_attributes` does not write keeps its stored value |
| Applications.SavedReads | lib/3scale/backend/application.rb:186-191 | after the whole `save`, each attribute key holds what `persist_attributes` left and the version key holds the version `save` returns |
| Applications.SavedEntries | lib/3scale/backend/application.rb:193-195 | after `save` the `load`/`load!` entries are gone, `exists?` is memoized with the state's truthiness, and every other entry (keys, referrer filters, index) is untouched |
| Applications.Save | lib/3scale/backend/application.rb:186-196 | `save` leaves the store as `SavedKv` (persisted, then version bumped), the cache as `SavedEntries`, and returns the application with the incremented version as a string |
| Applications.SaveThenLoad | lib/3scale/backend/application.rb:35-59 | an uncached `load` right after `save` returns the saved state, each written attribute (an unwritten one keeps its old stored value), the user_required flag and the version `save` assigned, and writes nothing |
| Applications.LoadedFromStored | lib/3scale/backend/application.rb:35-59 | `load` of an application with a stored state and version returns exactly the stored attributes and writes nothing |
| Applications.SaveLoadRoundTrip | lib/3scale/backend/application.rb:186-191 | with every attribute given, `load` after `save` returns exactly the saved application |
| Applications.SaveBumpsVersion | lib/3scale/backend/application.rb:186-191 | `save` bumps the stored version by exactly one, stores the version it returns, and adds the id to the service's set |
| Applications.AttributeStorageKeys | lib/3scale/backend/application.rb:158-164 | `delete_attributes` targets exactly the keys of the six attributes, in order, and nothing else |
| Applications.DeleteThenLoad | lib/3scale/backend/application.rb:118-123 | after `delete_data` the application is out of its service's set, all six attribute keys are gone, `load` finds nothing and `exists?` is false |
| Applications.DeletedFrame | lib/3scale/backend/application.rb:118-123 | `delete_data` leaves every key other than the six attribute keys and the application set as it was, strings, sets and hash fields alike |
| Applications.OutsideAttributeKeys | lib/3scale/backend/application.rb:118-123 | a key that is none of the six attribute keys is not among the keys `delete_data` removes |
| Applications.DeletedFrameOutside | lib/3scale/backend/application.rb:118-123 | a key outside the removed list keeps its string, its hash fields and, unless it is the application set, its members |
| Applications.DeletedFromSet | lib/3scale/backend/application.rb:154-156 | `delete_data` removes exactly this id from the service's application set |
| Applications.DeleteKeepsCredentials | lib/3scale/backend/application.rb:118-123 | the application's keys and referrer filters survive `delete_data` unchanged |
| Applications.Delete | lib/3scale/backend/application.rb:111-123 | ApplicationNotFound iff the memoized `exists?` says no, with the store unchanged; otherwise the store is `DeletedKv` and exactly the three `clear_cache` entries are removed |
| Applications.DeleteData | lib/3scale/backend/application.rb:118-123 | `delete_data` leaves the store as `DeletedKv`: out of the service's set, then the six attribute keys deleted together |
| Applications.ClearCache | lib/3scale/backend/application.rb:125-132 | `clear_cache` removes exactly the `load`, `load!` and `exists?` entries of the application |
| Applications.ChangedFrame | lib/3scale/backend/application.rb:245-257 | a key or referrer-filter change bumps the version by exactly one, adds or removes exactly that value, and leaves the other collection and every other attribute unchanged |
| Applications.Members | lib/3scale/backend/application.rb:233-240 | a collection read answers a memoized set, otherwise the stored members, and memoizes them |
| Applications.AppKeys | lib/3scale/backend/application.rb:233-240 | `keys` answers the memoized or stored key set and memoizes it |
| Applications.AppReferrerFilters | lib/3scale/backend/application.rb:275-280 | `referrer_filters` answers the memoized or stored filter set and memoizes it |
| Applications.Change | lib/3scale/backend/application.rb:245-257 | bump the version, clear only that collection's memo entry, then add or remove the value |
| Applications.CreateKey | lib/3scale/backend/application.rb:245-251 | the given key, or the generated one when nil, is returned and added; version bumped; only the `keys` memo entry cleared |
| Applications.DeleteKey | lib/3scale/backend/application.rb:253-257 | the key is removed (answering whether it was there); version bumped; only the `keys` memo entry cleared |
| Applications.HasKeys | lib/3scale/backend/application.rb:259-261 | `has_keys?` holds iff the key set is non-empty |
| Applications.HasKey | lib/3scale/backend/application.rb:267-269 | `has_key?` holds exactly when the value is a member of the application's key set, and then `has_keys?` holds |
| Applications.CreateReferrerFilter | lib/3scale/backend/application.rb:282-288 | ReferrerFilterInvalid iff the value is blank (nil, empty, or only Unicode white space as `[[:space:]]` matches), before any change; otherwise the value is returned and added, version bumped, only the `referrer_filters` entry cleared |
| Applications.DeleteReferrerFilter | lib/3scale/backend/application.rb:290-294 | the filter is removed; version bumped; only the `referrer_filters` entry cleared |
| Applications.HasReferrerFilters | lib/3scale/backend/application.rb:296-298 | `has_referrer_filters?` holds iff the filter set is non-empty |
| Applications.KeyLifecycle | lib/3scale/backend/application.rb:245-269 | a created key is present and the application has keys; a deleted key is absent, and keys remain iff others were there |
| Users.UserKeyInjective | lib/3scale/backend/user.rb:85-87 | two usernames of one service never share a record key |
| Users.UserKey | lib/3scale/backend/user.rb:85-87 | a user's record key lies in the `service:` key space and ends with the username |
| Users.UserExists | lib/3scale/backend/user.rb:16-18 | a user that `load` finds also `exists?` |
| Users.Load | lib/3scale/backend/user.rb:20-35 | `load` is nil iff the record has no `state` field; otherwise state, plan_id and plan_name come from the record |
| Users.HSetIf | lib/3scale/backend/user.rb:161-167 | `hset k, f, x if x` writes a non-nil value and otherwise keeps the field; nothing else changes |
| Users.SavedAttributes | lib/3scale/backend/user.rb:161-167 | `save_attributes` always writes username and service_id; state, plan_id and plan_name take the given value or, when nil, keep the record's; every other field of the record, every other hash, and every string and set are unchanged |
| Users.SaveThenLoad | lib/3scale/backend/user.rb:161-167 | after a save the user loads back with each given field and, for a nil one, the record's earlier value; with neither a given nor an earlier state it does not load |
| Users.SavedUserExists | lib/3scale/backend/user.rb:16-18 | a saved user's record exists; once deleted it neither exists nor loads |
| Users.ClearCache | lib/3scale/backend/user.rb:140-143 | `clear_cache` removes exactly the user's `load_or_create!` entry |
| Users.Save | lib/3scale/backend/user.rb:103-109 | `save` writes the non-nil fields into the user's hash and clears the user's memo entry |
| Users.LoadOrCreateOutcome | lib/3scale/backend/user.rb:40-64 | an existing user is returned as loaded; a missing one is ServiceRequiresRegisteredUser when the service requires registration, else ServiceRequiresDefaultUserPlan when a default plan field is nil, and otherwise it is certainly created: a new active user on the service's default plan |
| Users.LoadOrCreate | lib/3scale/backend/user.rb:37-66 | a memo hit is answered with no write; otherwise the outcome above, a raise writing and memoizing nothing, a created user saved, an existing user not written, and the result memoized so a repeat call returns it |
| Users.LoadOrCreateKv | lib/3scale/backend/user.rb:37-66 | the memoized `load_or_create!` changes no hash but the user's own record and no string or set |
| Users.LoadOrCreateEntries | lib/3scale/backend/user.rb:37-66 | a successful `load_or_create!` memoizes its answer under the user's entry, a raise leaves the cache as it was, and no other entry changes |
| Users.LoadOrCreateUncached | lib/3scale/backend/user.rb:40-64 | the memoized block answers the outcome above; the store is left as `AfterLoadOrCreate` (a created user saved, otherwise untouched) and only a creation clears the user's memo entry |
| Users.LoadOrCreateThenLoad | lib/3scale/backend/user.rb:53-61 | after a successful `load_or_create!` the user loads back as the answer given: an existing user with the store untouched, a created one active on the plan the service had at creation |
| Users.ValidateAttributes | lib/3scale/backend/user.rb:145-154 | UserRequiresUsername, then UserRequiresServiceId, then UserRequiresValidService; plan_id and plan_name default from the service and UserRequiresDefinedPlan iff either is still nil; otherwise success, with the defaulted plan and the state defaulting to "active" |
| Users.SaveBang | lib/3scale/backend/user.rb:68-75 | `save!` saves the validated user and clears its memo entry, or returns a validation error and changes nothing |
| Users.Delete | lib/3scale/backend/user.rb:77-83 | UserRequiresValidService iff the service is unknown, with no change; otherwise the memo entry is cleared and the record deleted, so the user no longer loads |
| RequestLogs.BucketIdKeyInjective | lib/3scale/backend/request_logs/management.rb:57-59 | distinct services have distinct bucket keys |
| RequestLogs.GloballyEnabled | lib/3scale/backend/request_logs/management.rb:37-39 | `globally_enabled?` is false when the flag is absent and true when it holds "1" |
| RequestLogs.ServiceEnabled | lib/3scale/backend/request_logs/management.rb:43-45 | `service_enabled?` can hold only while the bucket set exists |
| RequestLogs.Enabled | lib/3scale/backend/request_logs/management.rb:29-35 | `enabled?` holds iff `globally_enabled?` and `service_enabled?` both hold |
| RequestLogs.GlobalEnable | lib/3scale/backend/request_logs/management.rb:8-10 | `global_enable` writes 1 to the flag, after which `globally_enabled?` holds |
| RequestLogs.GlobalDisable | lib/3scale/backend/request_logs/management.rb:12-14 | `global_disable` deletes the flag key |
| RequestLogs.CleanCubertRedisKeys | lib/3scale/backend/request_logs/management.rb:16-19 | the flag and the bucket set are both deleted |
| RequestLogs.EnableService | lib/3scale/backend/request_logs/management.rb:21-23 | the service's bucket key joins the set |
| RequestLogs.DisableService | lib/3scale/backend/request_logs/management.rb:25-27 | the service's bucket key leaves the set |
| RequestLogs.GlobalEnableEnables | lib/3scale/backend/request_logs/management.rb:37-39 | `globally_enabled?` is true right after `global_enable` and false when the flag is absent |
| RequestLogs.GlobalDisableDisablesAll | lib/3scale/backend/request_logs/management.rb:12-14 | after `global_disable` no service is enabled, and the bucket set and `service_enabled?` are unchanged |
| RequestLogs.CleanDisablesAll | lib/3scale/backend/request_logs/management.rb:16-19 | after `clean_cubert_redis_keys` neither the flag nor any service is enabled |
| RequestLogs.ServiceToggles | lib/3scale/backend/request_logs/management.rb:21-27 | enabling turns the service on and disabling turns it off, each leaves every other service and the flag unchanged, and each is idempotent |
| Transactor.ApplyValidators | lib/3scale/backend/transactor.rb:198-205 | only the rejection changes; with all validators passing the status is returned unchanged; a new rejection is the reason of the first validator that refuses, all earlier ones having passed; from an authorized status the result is authorized iff every validator passes |
| Transactor.LaterValidatorsNeverApplied | lib/3scale/backend/transactor.rb:198-205 | once a validator refuses, any validators after it cannot affect the result |
| Transactor.PassingPrefix | lib/3scale/backend/transactor.rb:198-205 | validators that all pass hand the rest of the chain the status unchanged |
| Transactor.OAuthMerge | lib/3scale/backend/transactor.rb:93-124 | the OAuth path and OAUTH_VALIDATORS apply iff oauth and an id is nil; no (or empty) token with a nil app_id is ApplicationNotFound; an invalid token is AccessTokenInvalid unless app_id was given; a valid token always succeeds, its ids filling only the nil ids, in both the locals and the params, never overriding given ones |
| Transactor.Prepare | lib/3scale/backend/transactor.rb:74-126 | the params come back in full: empty app_id and user_id nilled (while the OAuth check sees the originals), a nil id replaced by the token's, an empty user_key nilled and a non-empty one passed through, everything else unchanged; after a raise only the two ids are nilled |
| Transactor.LoadUserDecision | lib/3scale/backend/transactor.rb:182-196 | a missing, empty or non-string user_id with a user-requiring app raises UserNotDefined; with a non-requiring app no user either way; a given user_id with a requiring app goes to `load_or_create!` |
| Transactor.LoadUserOutcome | lib/3scale/backend/transactor.rb:187-190 | a nil `load_or_create!` answer is UserRequiresRegistration; its errors propagate; a user it returns is returned |
| Transactor.LoadUserState | lib/3scale/backend/transactor.rb:182-196 | `load_user!` touches nothing unless it calls `load_or_create!`; a raise leaves store and cache unchanged; a user is answered only for a given user_id and a user-requiring app |
| Transactor.LoadUser | lib/3scale/backend/transactor.rb:182-196 | `load_user!` answers the decision table applied to what the memoized `load_or_create!` answers, and leaves the store and the cache as `LoadUserState` does |
| Transactor.ValidateOutcome | lib/3scale/backend/transactor.rb:69-126 | a failed service lookup and an OAuth raise propagate and change neither store nor cache; the params `validate` hands on are the prepared ones, and after a successful preparation the rest is `ValidatePrepared` on them with the validator list the merge chose; a success reports the request's own usage and log |
| Transactor.ValidatePrepared | lib/3scale/backend/transactor.rb:126-131 | the application is the one identity resolution finds for the merged app_id and the nilled user_key, and its lookup error propagates; a user-requiring application without a user_id ends in UserNotDefined; a lookup error leaves the store and cache the resolution left, and a found application hands on to `ValidateResolved` with them |
| Transactor.ValidateResolved | lib/3scale/backend/transactor.rb:131-151 | the answer is the chosen validator list applied to a fresh status for the found application, the service, the oauth flag, the request usage, `!report_usage` and the hierarchy flag; it is authorized iff every validator of the list passes; no user is loaded when none is needed and one is when it is; the status's user is exactly what `load_user!` answered, every raise of `load_user!` propagates, and the store and cache are the ones `load_user!` left |
| Transactor.Validate | lib/3scale/backend/transactor.rb:69-152 | for a service lookup failing only as that lookup can, the rewritten params, the answer, the new store and the new cache are exactly `ValidateOutcome` of the request and the old store and cache |
| Transactor.AuthrepEffects | lib/3scale/backend/transactor.rb:168-179 | exactly one notification; one report job, transaction carrying the app id, usage, username and log, with `notify_authrep` of the usage size, iff there is usage or a log and the status is authorized; otherwise no job and `notify_authorize` |
| Transactor.AuthrepEnqueuesIffAuthorized | lib/3scale/backend/transactor.rb:159-180 | once `validate` answers a status, authrep enqueues a job iff the request has usage or a log and every validator of the chosen list passes; the one job is for the service and carries the application id, the usage, the username and the log; nothing is predicted |
| Transactor.AuthrepErrorNotifications | lib/3scale/backend/transactor.rb:160-166 | one `notify_authorize` iff the error is ApplicationNotFound or UserNotDefined, none otherwise |
| Transactor.ReportEnqueue | lib/3scale/backend/transactor.rb:207-209 | one job with the whole transaction set is appended |
| Transactor.DoAuthorize | lib/3scale/backend/transactor.rb:154-157 | `notify_authorize` is sent, nothing is enqueued, and the params, answer, store and cache are `ValidateOutcome` of the request with usage predicted |
| Transactor.DoAuthrep | lib/3scale/backend/transactor.rb:159-180 | the params, answer, store and cache are `ValidateOutcome` of the request without prediction; a validate error adds only the notifications above and no job; a status adds exactly the gate's job and notification |
| Transactor.AuthrepGate | lib/3scale/backend/transactor.rb:162-177 | after `validate`, an ApplicationNotFound or UserNotDefined adds one `notify_authorize` and no job, other errors add nothing; a status adds exactly the job and the notification the gate computes |
| Transactor.Report | lib/3scale/backend/transactor.rb:20-25 | a service error changes nothing; otherwise one job for all transactions and one `notify_report` with their count, with no authorization gate |

## Left out

- Store errors (WRONGTYPE), pipelining and its atomicity, the wire protocol, and cross-process cache races: the store is one sequential value, and a pipelined block is its writes in order.
- Storage.Kv.Set: Redis SET replaces a value of any type under the key, while the model keeps a set or hash already stored there; the modelled key spaces never hold two types under one key, so no operation can observe the difference.
- `encode_key` is not part of this model; keys are the plain interpolated strings.
- Storage.Kv.IncrBy: Redis INCRBY refuses a stored value that is not a canonical 64-bit integer ("12abc", "+5", " 7") and refuses a result past 2^63-1; the model reads the old value with `to_i` and adds on unbounded integers (the store only ever holds what `set`/`incrby` wrote).
- Users.ValidateAttributes: `validate_attributes` fills the plan defaults into the caller's hash in place, so they stay visible to the caller of `save!` even when UserRequiresDefinedPlan is then raised; the model returns the defaulted attributes only on success.
- Numeric.ToI: `String#to_i` is modelled as an optional sign followed by leading digits; leading white space and `_` digit separators are not modelled (the store only ever holds what `set`/`incrby` wrote).
- Applications.LoadedFrom: the lazily assigned version is the Integer 1 in Ruby, while a stored version is a String; the model renders it as the string "1".
- Applications.SavedEntries: `save` memoizes the state itself under `exists?`; the model memoizes its truthiness, which is all `exists?` callers test.
- Memo entries with the wrong shape of value (which the code never writes) are treated as misses.
- `SecureRandom.hex(16)` in `create_key` is the parameter `generated`.
- `Service.load_with_provider_key!`, `Service.load_by_id` and `OAuth::Token::Storage.get_credentials` are not part of this model; their outcomes are parameters (a `Result`, a map of services, a map of tokens). `OAuth::Token::Storage.remove_tokens` after `delete` is left out for the same reason.
- `ServiceUserManagementUseCase` add/delete, called by `User#save` and `User.delete!`, is not part of this model.
- Usage values, the status's usage reports and limits, `hierarchy` handling beyond the flag, `utilization` (float rounding) and the float `enqueue_time` of a report job are left out; `Validate` does not load usage values.
- `Status` is reduced to the fields the decisions read; a validator is an abstract function that passes or refuses with a reason, instead of an object that rejects the status as a side effect.
- `Application#update` (dynamic `public_send`), `to_hash`, `metric_names`, `usage_limits`, `extract_id!` (whose `OAuth` token branch needs the token store), `User.attribute_names`, `get_version` (a plain GET of the version key, which `LoadedFrom` already reads) and `has_no_keys?` (the negation of `HasKeys`) are left out.
- Transactor.Prepare: a non-string `user_id` is never treated as empty when it is nilled; Ruby would call its own `empty?` (or fail when it has none).
- The job queue and notifications are plain sequences appended in order; background processing of the jobs is not modelled.
