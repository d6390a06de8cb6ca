/**
 * The push registrar's registration-id cache and its `register` sequence.
 *
 * The cache lives in the registrar's private settings file under three keys:
 * the registration id, the app version it was obtained under and the instant
 * (epoch milliseconds) after which it counts as stale. The clock and the
 * installed app version are inputs; so are the outcomes of the two remote
 * calls `register` makes (the push service's registration and the HTTP POST
 * to the registry).
 */
module Registrar {
  import opened Wrappers
  import opened JavaTypes
  import opened Preferences
  import opened PushPayload

  const PROPERTY_REG_ID: string := "registration_id"
  const PROPERTY_APP_VERSION: string := "appVersion"
  const PROPERTY_ON_SERVER_EXPIRATION_TIME: string := "onServerExpirationTimeMs"

  /** Seven days, the lifespan of a cached registration. */
  const REGISTRATION_EXPIRY_TIME_MS: Int64 := 1000 * 3600 * 24 * 7

  /** The header that names the mobile variant on the registration request. */
  const MOBILE_VARIANT_HEADER: string := "ag-mobile-variant"

  datatype Exception = IOException(message: string) | HttpException(statusCode: int)

  /** What the push service answers to `gcm.register(senderIds)`. */
  datatype GcmResponse = RegisteredAs(id: string) | GcmIOException(message: string)

  /** What the registry answers to the POST. */
  datatype PostResponse = Accepted | Rejected(statusCode: int)

  /** The POST sent to the registry: its URL, its default headers and the serialised body. */
  datatype RegistrationRequest = RegistrationRequest(url: string, headers: map<string, string>, body: seq<Field>)

  /** The callback invoked when the background work is over; exactly one fires. */
  datatype Callback = OnSuccess | OnFailure(cause: Exception)

  // ---------------------------------------------------------------------------
  // The cache, read
  // ---------------------------------------------------------------------------

  /** Each cache key is absent or holds the kind the registrar puts under it. */
  predicate CacheWellTyped(entries: Entries) {
    && HoldsString(entries, PROPERTY_REG_ID)
    && HoldsInt(entries, PROPERTY_APP_VERSION)
    && HoldsLong(entries, PROPERTY_ON_SERVER_EXPIRATION_TIME)
  }

  /** The stored id; `""` when there is none. */
  function StoredRegistrationId(entries: Entries): string
    requires CacheWellTyped(entries)
  {
    GetString(entries, PROPERTY_REG_ID, "")
  }

  /** The stored app version; `Integer.MIN_VALUE` when there is none. */
  function StoredAppVersion(entries: Entries): Int32
    requires CacheWellTyped(entries)
  {
    GetInt(entries, PROPERTY_APP_VERSION, INTEGER_MIN_VALUE)
  }

  /** The stored expiration instant; `-1` when there is none. */
  function StoredExpirationTime(entries: Entries): Int64
    requires CacheWellTyped(entries)
  {
    GetLong(entries, PROPERTY_ON_SERVER_EXPIRATION_TIME, -1)
  }

  /**
   * `isRegistrationExpired`: the clock is strictly past the stored expiration,
   * so a registration is still good at its expiration instant, and one with no
   * expiration stored is stale at every non-negative instant.
   */
  function IsRegistrationExpired(entries: Entries, now: Int64): (expired: bool)
    requires CacheWellTyped(entries)
    ensures PROPERTY_ON_SERVER_EXPIRATION_TIME in entries ==>
      (expired <==> now > entries[PROPERTY_ON_SERVER_EXPIRATION_TIME].l)
    ensures PROPERTY_ON_SERVER_EXPIRATION_TIME !in entries ==> (expired <==> now >= 0)
  {
    now > StoredExpirationTime(entries)
  }

  /**
   * `getRegistrationId`: the cached id when it is non-empty, was obtained under
   * the current app version and has not expired; otherwise `""`.
   */
  function GetRegistrationId(entries: Entries, currentVersion: Int32, now: Int64): (id: string)
    requires CacheWellTyped(entries)
    ensures id == "" || (PROPERTY_REG_ID in entries && id == entries[PROPERTY_REG_ID].s)
    ensures PROPERTY_REG_ID !in entries ==> id == ""
    ensures StoredAppVersion(entries) != currentVersion ==> id == ""
    ensures PROPERTY_APP_VERSION !in entries && currentVersion != INTEGER_MIN_VALUE ==> id == ""
    ensures IsRegistrationExpired(entries, now) ==> id == ""
    ensures (StoredRegistrationId(entries) != "" && StoredAppVersion(entries) == currentVersion
             && !IsRegistrationExpired(entries, now)) ==> id == StoredRegistrationId(entries)
  {
    var registrationId := StoredRegistrationId(entries);
    if |registrationId| == 0 then ""
    else if StoredAppVersion(entries) != currentVersion || IsRegistrationExpired(entries, now) then ""
    else registrationId
  }

  // ---------------------------------------------------------------------------
  // The cache, written
  // ---------------------------------------------------------------------------

  /**
   * The settings after `setRegistrationId(regId)` at instant `now` under app
   * version `appVersion`: exactly the three cache keys are (re)written, the
   * expiration with Java's wrapping `long` addition; nothing else changes.
   */
  function WithRegistration(entries: Entries, regId: string, appVersion: Int32, now: Int64): (updated: Entries)
    ensures updated.Keys == entries.Keys + {PROPERTY_REG_ID, PROPERTY_APP_VERSION, PROPERTY_ON_SERVER_EXPIRATION_TIME}
    ensures updated[PROPERTY_REG_ID] == StringPref(regId)
    ensures updated[PROPERTY_APP_VERSION] == IntPref(appVersion)
    ensures updated[PROPERTY_ON_SERVER_EXPIRATION_TIME].LongPref?
    ensures now as int <= LONG_MAX - REGISTRATION_EXPIRY_TIME_MS as int ==>
      updated[PROPERTY_ON_SERVER_EXPIRATION_TIME].l as int == now as int + 604_800_000
    ensures forall k :: k in entries && k !in {PROPERTY_REG_ID, PROPERTY_APP_VERSION, PROPERTY_ON_SERVER_EXPIRATION_TIME} ==>
      updated[k] == entries[k]
    ensures CacheWellTyped(updated)
  {
    entries[PROPERTY_REG_ID := StringPref(regId)]
           [PROPERTY_APP_VERSION := IntPref(appVersion)]
           [PROPERTY_ON_SERVER_EXPIRATION_TIME := LongPref(AddLong(now, REGISTRATION_EXPIRY_TIME_MS))]
  }

  /**
   * Round trip: a non-empty id stored at `storedAt` is returned by a lookup
   * under the same version up to and including `storedAt` plus seven days, and
   * `""` is returned afterwards or under any other version.
   */
  lemma RegistrationRoundTrip(entries: Entries, regId: string, appVersion: Int32, storedAt: Int64,
                              currentVersion: Int32, now: Int64)
    requires regId != ""
    requires storedAt as int <= LONG_MAX - REGISTRATION_EXPIRY_TIME_MS as int
    ensures GetRegistrationId(WithRegistration(entries, regId, appVersion, storedAt), currentVersion, now) ==
      if currentVersion == appVersion && now as int <= storedAt as int + 604_800_000 then regId else ""
  {
  }

  /**
   * Near the top of the `long` range the expiration wraps around to a negative
   * instant, so an id stored there is stale at once for every non-negative clock.
   */
  lemma ExpirationOverflowIsStale(entries: Entries, regId: string, appVersion: Int32, storedAt: Int64, now: Int64)
    requires storedAt as int > LONG_MAX - REGISTRATION_EXPIRY_TIME_MS as int
    requires now >= 0
    ensures GetRegistrationId(WithRegistration(entries, regId, appVersion, storedAt), appVersion, now) == ""
  {
  }

  // ---------------------------------------------------------------------------
  // Obtaining the id `register` uses
  // ---------------------------------------------------------------------------

  /** The part of `register` that obtains an id: the settings after it, and the id or the exception. */
  datatype Acquisition = Acquisition(entries: Entries, askedGcm: bool, token: Result<string, Exception>)

  /**
   * The push service is asked for a new id only when the cache yields `""`.
   * A cached id is used as is and leaves the settings alone; a new id is
   * stored; a failed request leaves the settings alone and becomes an
   * `IOException`. The clock is read twice: at the lookup and at the store.
   */
  function AcquireRegistrationId(entries: Entries, appVersion: Int32, lookupAt: Int64, storedAt: Int64,
                                 gcm: GcmResponse): (a: Acquisition)
    requires CacheWellTyped(entries)
    ensures a.askedGcm <==> GetRegistrationId(entries, appVersion, lookupAt) == ""
    ensures !a.askedGcm ==> a.entries == entries && a.token == Success(GetRegistrationId(entries, appVersion, lookupAt))
    ensures a.askedGcm && gcm.GcmIOException? ==> a.entries == entries && a.token == Failure(IOException(gcm.message))
    ensures a.askedGcm && gcm.RegisteredAs? ==>
      a.entries == WithRegistration(entries, gcm.id, appVersion, storedAt) && a.token == Success(gcm.id)
    ensures a.token.Success? ==> a.token.value != "" || (a.askedGcm && gcm == RegisteredAs(""))
    ensures CacheWellTyped(a.entries)
  {
    var cached := GetRegistrationId(entries, appVersion, lookupAt);
    if |cached| != 0 then Acquisition(entries, false, Success(cached))
    else match gcm
      case GcmIOException(message) => Acquisition(entries, true, Failure(IOException(message)))
      case RegisteredAs(id) => Acquisition(WithRegistration(entries, id, appVersion, storedAt), true, Success(id))
  }

  /** One `register` call as far as the cache is concerned: its two clock readings and the push service's answer. */
  datatype RegisterCall = RegisterCall(lookupAt: Int64, storedAt: Int64, gcm: GcmResponse)

  /** How many of a sequence of `register` calls, under one app version, ask the push service. */
  function GcmRequests(entries: Entries, appVersion: Int32, calls: seq<RegisterCall>): (n: nat)
    requires CacheWellTyped(entries)
    ensures n <= |calls|
    decreases |calls|
  {
    if calls == [] then 0
    else
      var a := AcquireRegistrationId(entries, appVersion, calls[0].lookupAt, calls[0].storedAt, calls[0].gcm);
      (if a.askedGcm then 1 else 0) + GcmRequests(a.entries, appVersion, calls[1..])
  }

  /**
   * While a valid id is cached, no `register` call up to its expiration asks
   * the push service again.
   */
  lemma {:induction false} CachedIdSuppressesGcm(entries: Entries, appVersion: Int32, calls: seq<RegisterCall>)
    requires CacheWellTyped(entries)
    requires StoredRegistrationId(entries) != "" && StoredAppVersion(entries) == appVersion
    requires forall i :: 0 <= i < |calls| ==> calls[i].lookupAt <= StoredExpirationTime(entries)
    ensures GcmRequests(entries, appVersion, calls) == 0
    decreases |calls|
  {
    if calls != [] {
      var c := calls[0];
      var a := AcquireRegistrationId(entries, appVersion, c.lookupAt, c.storedAt, c.gcm);
      assert !a.askedGcm && a.entries == entries;
      CachedIdSuppressesGcm(entries, appVersion, calls[1..]);
    }
  }

  /**
   * A `register` call that finds no usable id and obtains a non-empty one is
   * the only call, among those whose lookup falls within seven days of its
   * store, that asks the push service.
   */
  lemma {:induction false} OneGcmRequestPerExpiryWindow(entries: Entries, appVersion: Int32, first: RegisterCall, calls: seq<RegisterCall>)
    requires CacheWellTyped(entries)
    requires GetRegistrationId(entries, appVersion, first.lookupAt) == ""
    requires first.gcm.RegisteredAs? && first.gcm.id != ""
    requires first.storedAt as int <= LONG_MAX - REGISTRATION_EXPIRY_TIME_MS as int
    requires forall i :: 0 <= i < |calls| ==> calls[i].lookupAt as int <= first.storedAt as int + 604_800_000
    ensures GcmRequests(entries, appVersion, [first] + calls) == 1
  {
    var a := AcquireRegistrationId(entries, appVersion, first.lookupAt, first.storedAt, first.gcm);
    assert ([first] + calls)[1..] == calls;
    CachedIdSuppressesGcm(a.entries, appVersion, calls);
  }

  /** `onPostExecute`: success iff the background work produced no exception, else failure with that exception. */
  function OnPostExecute(result: Option<Exception>): (fired: Callback)
    ensures fired.OnSuccess? <==> result.None?
    ensures fired.OnFailure? ==> result == Some(fired.cause)
  {
    match result
    case None => OnSuccess
    case Some(ex) => OnFailure(ex)
  }

  // ---------------------------------------------------------------------------
  // The registrar
  // ---------------------------------------------------------------------------

  class Registrar {
    const registryURL: string
    /** Whether the push-service client has been created (`gcm != null`). */
    var gcmInitialised: bool

    constructor (registryURL: string)
      ensures this.registryURL == registryURL && !gcmInitialised
    {
      this.registryURL := registryURL;
      gcmInitialised := false;
    }

    /** `setRegistrationId`: one editor puts the three cache keys and commits them together. */
    method SetRegistrationId(prefs: SharedPreferences, regId: string, appVersion: Int32, now: Int64)
      modifies prefs
      ensures prefs.entries == WithRegistration(old(prefs.entries), regId, appVersion, now)
    {
      var editor: Entries := map[];
      editor := editor[PROPERTY_REG_ID := StringPref(regId)];
      editor := editor[PROPERTY_APP_VERSION := IntPref(appVersion)];
      var expirationTime := AddLong(now, REGISTRATION_EXPIRY_TIME_MS);
      editor := editor[PROPERTY_ON_SERVER_EXPIRATION_TIME := LongPref(expirationTime)];
      prefs.Commit(editor);
    }

    /**
     * `doInBackground`: obtain an id (cached or new), put it on the
     * configuration as its device token, and POST the whitelisted fields of
     * the configuration to the registry. The exception it produces, if any,
     * is returned.
     */
    method DoInBackground(prefs: SharedPreferences, config: PushConfig, appVersion: Int32,
                          lookupAt: Int64, storedAt: Int64, gcm: GcmResponse, post: PostResponse)
      returns (result: Option<Exception>, gcmSenderIds: Option<set<string>>, request: Option<RegistrationRequest>)
      requires CacheWellTyped(prefs.entries)
      modifies this, prefs, config
      ensures gcmInitialised
      ensures var a := AcquireRegistrationId(old(prefs.entries), appVersion, lookupAt, storedAt, gcm);
        && prefs.entries == a.entries
        && (gcmSenderIds.Some? <==> a.askedGcm)
        && (a.askedGcm ==> gcmSenderIds == Some(old(config.senderIds)))
        && (a.token.Failure? ==>
              result == Some(a.token.error) && request == None && config.deviceToken == old(config.deviceToken))
        && (a.token.Success? ==>
              && config.deviceToken == a.token.value
              && request == Some(RegistrationRequest(registryURL, map[MOBILE_VARIANT_HEADER := config.mobileVariantId],
                                                     config.Payload()))
              && result == (if post.Accepted? then None else Some(HttpException(post.statusCode))))
      ensures config.senderIds == old(config.senderIds) && config.mobileVariantId == old(config.mobileVariantId)
      ensures config.deviceType == old(config.deviceType) && config.alias == old(config.alias)
      ensures config.mobileOperatingSystem == old(config.mobileOperatingSystem) && config.osVersion == old(config.osVersion)
    {
      if !gcmInitialised {
        gcmInitialised := true;
      }
      gcmSenderIds := None;
      var registrationId := GetRegistrationId(prefs.entries, appVersion, lookupAt);
      if |registrationId| == 0 {
        gcmSenderIds := Some(config.senderIds);
        match gcm
        case GcmIOException(message) =>
          return Some(IOException(message)), gcmSenderIds, None;
        case RegisteredAs(id) =>
          registrationId := id;
          SetRegistrationId(prefs, registrationId, appVersion, storedAt);
      }
      config.SetDeviceToken(registrationId);
      request := Some(RegistrationRequest(registryURL, map[MOBILE_VARIANT_HEADER := config.mobileVariantId],
                                          config.Payload()));
      match post
      case Accepted => result := None;
      case Rejected(statusCode) => result := Some(HttpException(statusCode));
    }

    /**
     * `register`: the background work followed by exactly one callback,
     * `onSuccess` iff an id was obtained and the registry accepted the POST.
     */
    method Register(prefs: SharedPreferences, config: PushConfig, appVersion: Int32,
                    lookupAt: Int64, storedAt: Int64, gcm: GcmResponse, post: PostResponse)
      returns (fired: Callback, request: Option<RegistrationRequest>)
      requires CacheWellTyped(prefs.entries)
      modifies this, prefs, config
      ensures var a := AcquireRegistrationId(old(prefs.entries), appVersion, lookupAt, storedAt, gcm);
        && prefs.entries == a.entries
        && (fired == OnSuccess <==> a.token.Success? && post.Accepted?)
        && (a.token.Failure? ==>
              fired == OnFailure(a.token.error) && request == None && config.deviceToken == old(config.deviceToken))
        && (a.token.Success? && post.Rejected? ==> fired == OnFailure(HttpException(post.statusCode)))
        && (a.token.Success? ==>
              && config.deviceToken == a.token.value
              && request == Some(RegistrationRequest(
                   registryURL, map[MOBILE_VARIANT_HEADER := old(config.mobileVariantId)],
                   [ Field(PushConfigClass, "deviceToken", Text(a.token.value)),
                     Field(PushConfigClass, "deviceType", Text(old(config.deviceType))),
                     Field(PushConfigClass, "alias", Text(old(config.alias))),
                     Field(PushConfigClass, "mobileOperatingSystem", Text(old(config.mobileOperatingSystem))),
                     Field(PushConfigClass, "osVersion", Text(old(config.osVersion))) ])))
      ensures config.senderIds == old(config.senderIds) && config.mobileVariantId == old(config.mobileVariantId)
      ensures config.deviceType == old(config.deviceType) && config.alias == old(config.alias)
      ensures config.mobileOperatingSystem == old(config.mobileOperatingSystem) && config.osVersion == old(config.osVersion)
      ensures gcmInitialised
    {
      var result, gcmSenderIds;
      result, gcmSenderIds, request := DoInBackground(prefs, config, appVersion, lookupAt, storedAt, gcm, post);
      fired := OnPostExecute(result);
      PayloadIsWhitelist(config.senderIds, config.mobileVariantId, config.deviceToken, config.deviceType,
                         config.alias, config.mobileOperatingSystem, config.osVersion);
    }
  }
}
