# AeroGear Android push registrar — registration cache model

This project models the push-notification `Registrar` of the AeroGear Android
client SDK. The registrar keeps a registration id in a private settings file
(`SharedPreferences`). It stores three keys:

- `registration_id`, the id itself;
- `appVersion`, the app version the id was obtained under;
- `onServerExpirationTimeMs`, the instant after which the id counts as stale.

An id is usable only when:

- it is non-empty;
- the stored version equals the installed version (a missing version reads as
  `Integer.MIN_VALUE`);
- the clock is not past the stored expiration (a missing expiration reads as
  `-1`).

Writing an id stores all three keys in one editor commit. The expiration is
set to the current time plus seven days (604 800 000 ms), using Java's
wrapping `long` addition.

`register` reuses a usable cached id. It asks the push service (GCM) for a new
id only when the cache yields `""`, and it stores any new id. It then sets the
configuration's device token and POSTs five whitelisted `PushConfig` fields to
the registry. Finally it fires exactly one callback: `onSuccess` if no
exception was produced, `onFailure(ex)` otherwise.

The files:

- `java_types.dfy` (module `JavaTypes`): Java's `int` and `long` as the
  newtypes `Int32` and `Int64`, and wrapping `long` addition.
- `preferences.dfy` (module `Preferences`): the settings store, a class with a
  `map` field. It has typed getters with defaults and an editor commit.
- `push_payload.dfy` (module `PushPayload`): the Gson exclusion strategy and
  the fields it lets through. It also holds the `PushConfig` class, limited to
  the fields the registrar touches.
- `registrar.dfy` (module `Registrar`):
  - the cache lookup, the expiry test and the write as pure functions;
  - the `Registrar` class, whose methods `SetRegistrationId`, `DoInBackground`
    and `Register` are proved against those functions;
  - lemmas about single calls and about sequences of `register` calls.
- `wrappers.dfy` (module `Wrappers`): `Option` and `Result`.

The clock (`System.currentTimeMillis()`) and the installed app version
(`getAppVersion`) are parameters. `register` reads the clock twice: once in the
lookup and once in the write. Each reading is its own parameter
(`lookupAt`, `storedAt`). The installed version is also read twice, once in
the lookup (Registrar.java:154) and once in the write (Registrar.java:208). The
model assumes both reads agree and passes one `appVersion` to both. The answers of the push service (an id or an
`IOException`) and of the registry (accepted, or an `HttpException` with a
status code) are inputs.

The expiry test is strict (`now > expirationTime`, Registrar.java:196), so a
token is still valid at its expiration instant.

## Model

| member | source | states |
|---|---|---|
| `JavaTypes.AddLong` | src/org/jboss/aerogear/android/unifiedpush/Registrar.java:213 | Java `long` addition: the result agrees with the mathematical sum modulo 2^64 (its low-order 64 bits), and equals the sum whenever that fits in a `long` |
| `Preferences.SharedPreferences.Commit` | src/org/jboss/aerogear/android/unifiedpush/Registrar.java:210-217 | each pending put overrides its key; keys not edited keep their values; no key disappears |
| `Registrar.IsRegistrationExpired` | src/org/jboss/aerogear/android/unifiedpush/Registrar.java:192-197 | expired iff the clock is strictly past the stored expiration, so the token is still good at the expiration instant; a token with no stored expiration (default `-1`) is expired at every non-negative instant |
| `Registrar.GetRegistrationId` | src/org/jboss/aerogear/android/unifiedpush/Registrar.java:144-160 | returns `""` or the stored id unchanged; `""` when the id is missing or empty, the stored version (default `Integer.MIN_VALUE`) differs from the current one, or the token is expired; a missing version mismatches every version except `Integer.MIN_VALUE`; when all checks pass, returns the stored id |
| `Registrar.WithRegistration` | src/org/jboss/aerogear/android/unifiedpush/Registrar.java:206-217 | writing an id adds or overwrites exactly the three cache keys: id, version, and expiration `now + 604800000` (exact whenever it does not overflow a `long`); every other key keeps its value; the three keys keep their value kinds |
| `Registrar.RegistrationRoundTrip` | src/org/jboss/aerogear/android/unifiedpush/Registrar.java:146-159 | after a non-empty id is stored at time `t` under version `v`, a lookup at `t'` returns the id iff the version is `v` and `t' <= t + 604800000`, and `""` otherwise (when `t + 604800000` fits in a `long`) |
| `Registrar.ExpirationOverflowIsStale` | src/org/jboss/aerogear/android/unifiedpush/Registrar.java:213-216 | if `t + 604800000` overflows a `long`, the stored expiration wraps negative, so the new id is stale at every non-negative instant |
| `Registrar.AcquireRegistrationId` | src/org/jboss/aerogear/android/unifiedpush/Registrar.java:76-81 | GCM is asked iff the cached lookup yields `""`; a cached id is used and the settings stay untouched; a new id is stored under the current version at the second clock reading; a GCM `IOException` leaves the settings untouched and becomes the failure; the settings stay well-typed |
| `Registrar.GcmRequests` | src/org/jboss/aerogear/android/unifiedpush/Registrar.java:76-81 | not a property of the source itself: the count of GCM requests made by a sequence of `register` calls, folding `AcquireRegistrationId` over them; it is the quantity `CachedIdSuppressesGcm` and `OneGcmRequestPerExpiryWindow` reason about, and its contract only bounds it by the number of calls |
| `Registrar.CachedIdSuppressesGcm` | src/org/jboss/aerogear/android/unifiedpush/Registrar.java:182-197 | while a non-empty id is cached under the current version, no `register` call whose lookup is not past the stored expiration asks GCM |
| `Registrar.OneGcmRequestPerExpiryWindow` | src/org/jboss/aerogear/android/unifiedpush/Registrar.java:76-81 | a call that finds no usable id and obtains a non-empty one is the only GCM request among the later calls whose lookups fall within seven days of its store (when `t + 604800000` fits in a `long`) |
| `Registrar.OnPostExecute` | src/org/jboss/aerogear/android/unifiedpush/Registrar.java:125-131 | exactly one callback: `onSuccess` iff the background work produced no exception, otherwise `onFailure` with that exception |
| `Registrar.Registrar.constructor` | src/org/jboss/aerogear/android/unifiedpush/Registrar.java:61-63 | keeps the registry URL; the GCM client is not yet created |
| `Registrar.Registrar.SetRegistrationId` | src/org/jboss/aerogear/android/unifiedpush/Registrar.java:206-217 | three puts on one editor and one commit leave the settings equal to `WithRegistration` of the old settings |
| `Registrar.Registrar.DoInBackground` | src/org/jboss/aerogear/android/unifiedpush/Registrar.java:68-123 | creates the GCM client if missing; asks GCM (with the config's sender ids) exactly when the acquisition does; leaves the settings as the acquisition says; on a GCM failure returns the `IOException`, posts nothing and leaves the device token alone; otherwise sets the device token to the id in use and POSTs the whitelisted payload to the registry URL with the `ag-mobile-variant` header, returning no exception iff the registry accepts; no other config field changes |
| `Registrar.Registrar.Register` | src/org/jboss/aerogear/android/unifiedpush/Registrar.java:65-135 | `onSuccess` fires iff an id was obtained and the POST was accepted; a GCM failure fires `onFailure(IOException)` with no POST; a rejected POST fires `onFailure(HttpException)`; a GCM failure leaves the device token as it was; otherwise the request goes to the registry URL with the caller's variant id in the `ag-mobile-variant` header, and its body is exactly the device token equal to the id in use followed by the caller's device type, alias, operating system and OS version; no other config field changes |
| `PushPayload.PushConfig.SetDeviceToken` | src/org/jboss/aerogear/android/unifiedpush/Registrar.java:83 | sets the device token; every other field is unchanged |
| `PushPayload.SerializedFields` | src/org/jboss/aerogear/android/unifiedpush/Registrar.java:101-113 | every serialised field is one of the object's fields, and there are never more of them than the object has (which fields are kept is proved in `SerializedFieldsAreWhitelisted`) |
| `PushPayload.SerializedFieldsAreWhitelisted` | src/org/jboss/aerogear/android/unifiedpush/Registrar.java:92-104 | with `ShouldSkipField` modelling `shouldSkipField`, a field is serialised iff the object has it, it is declared by `PushConfig` itself, and its name is one of `deviceToken`, `deviceType`, `alias`, `mobileOperatingSystem`, `osVersion` |
| `PushPayload.SerializedFieldsOfConcat` | src/org/jboss/aerogear/android/unifiedpush/Registrar.java:101-113 | serialising a concatenation serialises each part in turn, so the kept fields stay in declaration order |
| `PushPayload.SerializedNamesDistinct` | src/org/jboss/aerogear/android/unifiedpush/Registrar.java:92-104 | for an object whose fields are each declared once, the serialised fields have distinct names, all on the whitelist |
| `PushPayload.PayloadHasAtMostFiveFields` | src/org/jboss/aerogear/android/unifiedpush/Registrar.java:92-104 | whatever fields such an object declares, at most five reach the request body |
| `PushPayload.PayloadIsWhitelist` | src/org/jboss/aerogear/android/unifiedpush/Registrar.java:92-113 | the body for a `PushConfig` is exactly its device token, device type, alias, operating system and OS version, in that order, with their current values; the sender ids and the variant id are left out |

## Left out

- `SupportRemoveLoader` (the pipeline's remove loader) is not modelled. It is a thin wrapper over Android's loader framework and the REST runner. Neither of those is part of this model.
- `register` runs on an Android `AsyncTask`. It is modelled as a sequential call of `DoInBackground` followed by `OnPostExecute`, with no threading.
- The GCM client is reduced to a flag (`gcmInitialised`). The GCM network call is reduced to its answer, which is an input.
- The HTTP POST through `HttpRestProvider` is reduced to the request it would send (URL, default header, fields) and to the registry's answer, which is an input.
- Gson's JSON text is not modelled, only which fields reach it. Gson also drops fields whose value is `null` (an unset `alias`, for example). The model gives every field a value, so that omission is not modelled.
- `PushConfig.java` is not part of this model. `PushConfig` here has only the fields the registrar names: sender ids, variant id, and the five whitelisted fields. Their declaration order is assumed. They are also assumed to be plain instance fields: Gson's default excluder skips `static` and `transient` fields, which the model does not represent. A fresh configuration's device token is `""` where Java's unset field is `null`.
- `getAppVersion`'s package-manager lookup and its `RuntimeException` path are left out: the installed version is a parameter. `System.currentTimeMillis()` is also replaced by parameters.
- Android's typed getters throw `ClassCastException` when a key holds a value of another kind. That path is not modelled. The lookup requires `CacheWellTyped`, which holds because only the write touches this private file, and the write preserves it.
- Runtime exceptions other than `IOException` and `HttpException` are not caught by the source, so they are not modelled. The boolean returned by `commit()` (a failed disk write) is ignored, as the source ignores it.
- Logging (`Log.v`, the `Timestamp` formatting) is left out.
