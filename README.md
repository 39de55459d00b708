# Credential and session core of the patient/nurse app, modelled in Dafny

This project models the logic of a React Native app for patients and nurses
that decides who is signed in, which tokens are sent, and when they are
refreshed, rotated or wiped. It covers:

- **The biometric gatekeeper.** The opt-in preference record, the failure
  counter and the five-minute lockout. Three failed prompts wipe every
  credential.
- **The authenticated fetch clients, current and legacy.**
  - They choose tokens by role and inject the bearer header (RFC 6750
    section 2.1).
  - On a 401 they refresh once and retry once, and `getJSON` turns a
    refused reply into an error.
  - Their forced logouts are modelled as written, defects included (see
    "## Findings"). The current client signs the user out when a token is
    missing. A failed refresh clears its tokens and role, then throws a
    TypeError before the alert. The legacy client throws a TypeError before
    it clears anything.
- **The content cache.** A 12-hour global timestamp, prefix busting and
  `{data, timestamp}` envelopes.
- **The session flows.**
  - The silent resume of a patient on the login screen, and both login
    forms.
  - The shared logout button.
  - The logout-with-one-retry of the patient settings and of the nurse
    navigation bar.
  - The patient's account deletion and password change.
- **The validators and data shaping.**
  - The account-creation rules and the e-mail rule with its normalisation.
  - The dashboard's weekly graph, totals, focus reload and task completion.
  - The patient search's mode switch and digit-only id filter.

The environment is one value, `Platform.World`:

- **Stores and state.** The secure store, the token and patient contexts
  (`userType`, `refresh`, `date`), the navigation actions taken and the
  alerts shown.
- **The network.** A log of sent requests and a script of replies; each
  request takes the next reply, and once the script is spent the server is
  unreachable.
- **The biometric sensor.** Its capabilities and a script of prompt
  outcomes.

`Platform.Device` holds the same state in fields. Each operation the source
performs step by step is a method over it. Each method is proved to make
exactly the transition of a reference function. The properties are lemmas
on those functions. A call that throws in JavaScript returns
`Threw(error)`.

The clock (`Date.now()`, `new Date().getDate()`, the ISO date text), the
button a user taps and the sensor's type name are parameters. Storage
writes never fail.

The model follows the code as written, in particular where it departs from
what the app is meant to do:

- `promptForBiometricSetup` does not check for an existing preference
  before asking (`src/Components/Services/BiometricAuth.js:221-268`).
- The login screen's resume of a patient does not go through the biometric
  gatekeeper. It refreshes the access token with the stored refresh token
  and never rotates it (`Pages/Login/Login.js:108-140`).
- Both authenticated clients keep the two defects listed under
  "## Findings", and every screen calls them as written. The corrected
  clients, `FetchWithAuth.AuthFetchIntended` and
  `LegacyFetchWithAuth.AuthFetchIntended`, carry the intended behaviour
  and its lemmas.

## Model

| member | source | states |
|---|---|---|
| Platform.RoleKeys | src/Components/Services/FetchWithAuth.js:64-65 | "nurse" selects the nurse token pair; every other role value, the empty one included, selects the patient pair |
| Platform.Device.Fetch | src/Components/Services/FetchWithAuth.js:38-54 | a request is logged and answered by the next scripted reply, or is unreachable when the script is spent |
| Platform.ExchangeLogs | src/Components/Services/FetchWithAuth.js:38-54 | each request appends exactly itself to the log and leaves the store alone |
| BiometricAuth.IsAvailable | src/Components/Services/BiometricAuth.js:17-34 | available iff hardware is present, a biometric is enrolled and the security level is above none; a failed query means unavailable |
| BiometricAuth.GetUserPreference | src/Components/Services/BiometricAuth.js:66-74 | the stored preference record, or none when the key is empty or the text does not parse |
| BiometricAuth.SetUserPreference | src/Components/Services/BiometricAuth.js:79-95 | stores the record `{enabled, userType, setupDate, version: "1.0"}` under the preference key and resolves true |
| BiometricAuth.GetFailedAttempts | src/Components/Services/BiometricAuth.js:129-137 | the parsed counter, and 0 when the counter is missing |
| BiometricAuth.ClearFailedAttempts | src/Components/Services/BiometricAuth.js:166-173 | deletes the counter |
| BiometricAuth.ClearLockout | src/Components/Services/BiometricAuth.js:178-186 | deletes the lockout timestamp and the counter |
| BiometricAuth.IsLockedOut | src/Components/Services/BiometricAuth.js:100-124 | false without a timestamp; otherwise true iff less than 300000 ms have passed, and an expired lockout is cleared on the way |
| BiometricAuth.InitiateSecurityLockout | src/Components/Services/BiometricAuth.js:191-215 | clears the credentials, stamps the lockout with the current time, deletes the counter and alerts |
| BiometricAuth.IncrementFailedAttempts | src/Components/Services/BiometricAuth.js:142-161 | stores the old count plus one, and returns true after locking out once the count reaches 3 |
| BiometricAuth.PromptForBiometricSetup | src/Components/Services/BiometricAuth.js:221-268 | false without asking for non-patients or unusable hardware; otherwise records the user's choice |
| BiometricAuth.Authenticate | src/Components/Services/BiometricAuth.js:273-357 | the guards in the order locked out, not enabled, not available, then the prompt with its success, cancel and failure handling |
| BiometricAuth.DisableBiometricAuth | src/Components/Services/BiometricAuth.js:362-371 | deletes the preference, the counter and the lockout |
| BiometricAuth.ResetBiometricData | src/Components/Services/BiometricAuth.js:376-387 | the same store as disabling |
| BiometricAuth.ShouldAttemptBiometricAuth | src/Components/Services/BiometricAuth.js:393-416 | false for every role but patient; for a patient, an enabled patient preference, usable hardware and no live lockout |
| BiometricLaws.LockoutWindow | src/Components/Services/BiometricAuth.js:100-124 | a lockout stamped at t holds iff now - t < 300000; once over, both the timestamp and the counter are gone |
| BiometricLaws.LockoutCheckFrame | src/Components/Services/BiometricAuth.js:100-124 | the lockout check touches only the lockout timestamp and the counter |
| BiometricLaws.CountingFailure | src/Components/Services/BiometricAuth.js:142-161 | below the maximum the counter becomes old + 1; at the maximum every credential is wiped and the lockout is stamped |
| BiometricLaws.CountingFrame | src/Components/Services/BiometricAuth.js:142-161 | a counted failure keeps every credential unless it reaches the maximum, and then leaves none; the prompt count, the prompt script and the sensor stay |
| BiometricLaws.SecurityLockoutWipes | src/Components/Services/BiometricAuth.js:191-215 | the lockout removes every credential and the counter, stamps the time and alerts |
| BiometricLaws.PromptOnlyWhenPermitted | src/Components/Services/BiometricAuth.js:273-305 | the hardware prompt is shown iff there is no live lockout, the preference is enabled and the sensor is usable |
| BiometricLaws.UnlockedPrompts | src/Components/Services/BiometricAuth.js:286-305 | past the lockout check the prompt is shown iff the preference is enabled and the sensor usable; only a triggered lockout wipes the credentials |
| BiometricLaws.JudgedFrame | src/Components/Services/BiometricAuth.js:314-356 | the outcome of a shown prompt never yields LOCKED_OUT, NOT_ENABLED or NOT_AVAILABLE, counts no second prompt, and wipes the credentials only when the lockout is triggered |
| BiometricLaws.NextReady | src/Components/Services/BiometricAuth.js:328-342 | a refused prompt below the threshold reports the new count and leaves the patient ready for the next refusal to be counted |
| BiometricLaws.GatekeeperKeysDistinct | src/Components/Services/BiometricAuth.js:6-8 | the counter and lockout keys are different from the preference key and from every credential key |
| BiometricLaws.CountingKeepsOthers | src/Components/Services/BiometricAuth.js:142-161 | a counted failure that does not lock out changes only the counter |
| BiometricLaws.CredentialsKeptUnlessLockout | src/Components/Services/BiometricAuth.js:273-357 | credentials survive every authentication that does not trigger the lockout, and none survives one that does |
| BiometricLaws.SuccessResets | src/Components/Services/BiometricAuth.js:316-325 | authentication succeeds iff a prompt is shown (no live lockout, enabled preference, usable sensor) and accepted; it then reports the stored preference's role and clears the counter and the lockout |
| BiometricLaws.CancelIsNoFailure | src/Components/Services/BiometricAuth.js:327-331 | a shown prompt answered with UserCancel or UserFallback returns that code and leaves the whole store, counter included, unchanged |
| BiometricLaws.CrashCounts | src/Components/Services/BiometricAuth.js:345-356 | a prompt that throws is counted like a failure: counter + 1 below the threshold, every credential wiped at it, and SYSTEM_ERROR reporting whether the lockout was triggered |
| BiometricLaws.RejectedBelowLimit | src/Components/Services/BiometricAuth.js:332-346 | a rejected prompt below the threshold adds exactly one to the counter and changes no other key |
| BiometricLaws.RejectedAtLimit | src/Components/Services/BiometricAuth.js:332-346 | the rejection that reaches the threshold returns LOCKOUT_TRIGGERED, wipes every credential and stamps the lockout |
| BiometricLaws.PreferenceBesideCounter | src/Components/Services/BiometricAuth.js:142-147 | writing the counter leaves the stored preference record as it was |
| BiometricLaws.ThreeFailuresLockOut | src/Components/Services/BiometricAuth.js:9-10 | three consecutive rejected prompts from a clean counter wipe the credentials, and a fourth attempt within the window is refused as locked out without a prompt |
| BiometricLaws.SetupRecordsChoice | src/Components/Services/BiometricAuth.js:221-268 | setup is offered only to patients on a usable sensor; declining stores `enabled: false` and enabling stores `enabled: true` |
| BiometricLaws.PreferenceStored | src/Components/Services/BiometricAuth.js:66-95 | a saved record reads back as itself, and no other key changes |
| BiometricLaws.ShouldAttemptMeansPrompt | src/Components/Services/BiometricAuth.js:393-416 | when the gatekeeper says to try biometrics, authenticating at the same moment does show the prompt |
| BiometricLaws.DisableForgets | src/Components/Services/BiometricAuth.js:362-387 | after disabling, authentication reports not enabled without prompting; reset leaves the same store |
| PrefCodec.EncodePref | src/Components/Services/BiometricAuth.js:79-88 | the stored text of a preference record starts with `{"enabled":` and ends with `}` |
| PrefCodec.DecodeEncode | src/Components/Services/BiometricAuth.js:66-95 | parsing a stored preference record gives back the record that was stored |
| PrefCodec.EncodeInjective | src/Components/Services/BiometricAuth.js:79-88 | distinct records are stored as distinct texts |
| JsText.NumberRoundTrip | src/Components/Services/BiometricAuth.js:129-147 | a counter written with `toString` and read with `parseInt` keeps its value, NaN included |
| JsText.ParseIntRoundTrip | src/Components/Services/BiometricAuth.js:129-147 | `parseInt(String(n)) == n` for every integer n |
| JsText.StringToNumberRoundTrip | Components/Services/CacheManager.js:12-13 | the numeric coercion of a printed integer is that integer |
| JsText.TrimIdempotent | src/Pages/Nurse/AccountCreation.js:32-33 | trimming twice is trimming once |
| JsText.TrimExact | src/Pages/Nurse/AccountCreation.js:32-33 | trim removes exactly the surrounding whitespace and keeps a text with non-blank ends |
| FetchWithAuth.AuthHeaders | src/Components/Services/FetchWithAuth.js:38-54 | JSON content type unless the caller sets one, every caller header, and `Authorization: Bearer <token>` over any caller value |
| FetchWithAuth.RefreshAccessToken | src/Components/Services/FetchWithAuth.js:8-36 | the parsed body of an ok refresh reply; null on a non-ok status, a failed fetch or an unparsable body |
| FetchWithAuth.RawFetch | src/Components/Services/FetchWithAuth.js:38-54 | one request to the endpoint carrying the merged headers |
| FetchWithAuth.Fetch | src/Components/Services/FetchWithAuth.js:60-115 | the store reads, the one refresh, the stored tokens and the one retry, as the reference function `AuthFetch`; a failed refresh clears the tokens and the role and throws a TypeError |
| FetchWithAuth.GetJSON | src/Components/Services/FetchWithAuth.js:118-135 | the parsed body of an ok reply, else an error carrying status and body, as `GetJson` over the client as written |
| FetchWithAuth.MissingTokensSignOut | src/Components/Services/FetchWithAuth.js:73-84 | a missing token means no request, cleared credentials, an empty role, a reset to Login, and a throw |
| FetchWithAuth.NonUnauthorizedPassesThrough | src/Components/Services/FetchWithAuth.js:86-89 | a first reply other than 401 is returned as it is after exactly one request, with the store untouched |
| FetchWithAuth.RequestBudget | src/Components/Services/FetchWithAuth.js:60-115 | at most three requests per call: the signed request first, a refresh only after a 401, a retry only after the refresh |
| FetchWithAuth.RefreshStoresTokens | src/Components/Services/FetchWithAuth.js:105-114 | the new access token is stored; a rotated refresh token replaces the old one, otherwise the old one stays; the retry carries the new token |
| FetchWithAuth.RenewedSends | src/Components/Services/FetchWithAuth.js:91-112 | after the refresh either nothing more is sent (the expired session) or exactly the one retry; the refresh flag and the date stay |
| FetchWithAuth.FailedRefreshEndsSession | src/Components/Services/FetchWithAuth.js:91-102 | as written, a refresh without an access token clears the credentials and empties the role, then throws a TypeError with no alert and no reset to Login |
| FetchWithAuth.IntendedExpiryEndsSession | src/Components/Services/FetchWithAuth.js:91-102 | corrected, the same failure clears the credentials, empties the role, alerts, resets to Login and throws 'Session expired.' |
| FetchWithAuth.IntendedDiffersOnlyOnExpiry | src/Components/Services/FetchWithAuth.js:91-102 | the corrected client gives the written one's result and world wherever that does not throw the expiry TypeError, and 'Session expired.' where it does |
| FetchWithAuth.GetJsonOutcome | src/Components/Services/FetchWithAuth.js:118-135 | an ok reply's body is returned; any other reply throws `detail` or 'Request failed' with its status and body |
| FetchWithAuth.SessionExpiryDiscrepancy | src/Components/Services/FetchWithAuth.js:1 | with `Alert` taken from `react`, the expiry branch throws a TypeError with no alert and no reset to Login, where the corrected branch does both |
| FetchWithAuth.ContextUntouched | src/Components/Services/FetchWithAuth.js:60-115 | the client never changes the patient context's `refresh` or `date` |
| LegacyFetchWithAuth.RefreshAccessToken | Components/FetchWithAuth.js:8-22 | only the `access` field of an ok reply, else null |
| LegacyFetchWithAuth.Fetch | Components/FetchWithAuth.js:38-80 | the legacy call as the reference function `AuthFetch`: a missing token or a failed refresh throws a TypeError and changes nothing; a 401 refreshes the access token once and retries once |
| LegacyFetchWithAuth.GetJSON | Components/FetchWithAuth.js:83-93 | data on an ok reply, else an error with status and body, as `GetJson` over the client as written |
| LegacyFetchWithAuth.RefreshTokenNeverRotated | Components/FetchWithAuth.js:38-80 | the refresh token is never written, nor any key but the role's access token |
| LegacyFetchWithAuth.SessionKeptAsWritten | Components/FetchWithAuth.js:46-73 | as written the client never changes the role, the screen or the alerts |
| LegacyFetchWithAuth.FailedRefreshChangesNothing | Components/FetchWithAuth.js:61-73 | as written, a failed refresh throws a TypeError after two requests and leaves the store, the role, the screen and the alerts as they were |
| LegacyFetchWithAuth.FailedRefreshSignsOutSilently | Components/FetchWithAuth.js:61-73 | corrected, a failed refresh clears the credentials, empties the role, resets to Login and throws 'Session expired.' without an alert |
| LegacyFetchWithAuth.AgreesWithCurrentClientBefore401 | Components/FetchWithAuth.js:38-61 | before a 401 both clients send the same requests; with both tokens they agree, without one the current client signs out while the legacy one throws a TypeError and changes nothing; the corrected legacy client agrees with the current one in every case |
| LegacyFetchWithAuth.ForcedLogoutDiscrepancy | Components/FetchWithAuth.js:2 | with `clearTokens` missing from `Components/Memory.js`, the forced logout throws a TypeError and changes nothing, where the corrected one clears, resets the role and returns to Login |
| CacheManager.ContentCache.IsCacheStale | Components/Services/CacheManager.js:8-18 | the staleness the stored timestamp gives, as `Stale` |
| CacheManager.ContentCache.Get | Components/Services/CacheManager.js:36-44 | the envelope's `data`, or null for an absent or unreadable entry, as `Cached` |
| CacheManager.ContentCache.Set | Components/Services/CacheManager.js:46-53 | the key now holds `{data: value, timestamp: now}` and no other key changes |
| CacheManager.ContentCache.BustAndResetCache | Components/Services/CacheManager.js:20-34 | the prefixed entries are removed and the global timestamp is written, as `Busted` |
| CacheManager.WindowLength | Components/Services/CacheManager.js:6 | the window is 12 hours, 43200000 ms |
| CacheManager.MissingTimestampIsStale | Components/Services/CacheManager.js:10-17 | no timestamp, or one that does not parse, means stale |
| CacheManager.StaleIffExpired | Components/Services/CacheManager.js:13 | stale iff now - ts > 12 h; exactly 12 h is still fresh |
| CacheManager.NonNumericTimestampNeverExpires | Components/Services/CacheManager.js:12-13 | a timestamp that coerces to NaN, such as an object, never expires |
| CacheManager.BustRemovesPrefixed | Components/Services/CacheManager.js:21-29 | exactly the keys starting with `assorted_` are removed, the others keep their values, and the timestamp is `now` |
| CacheManager.FreshAfterBust | Components/Services/CacheManager.js:13-29 | right after a bust the cache is fresh for 12 hours and stale one millisecond later |
| CacheManager.BustTwice | Components/Services/CacheManager.js:20-34 | busting twice leaves what the later bust alone would |
| CacheManager.SetThenGet | Components/Services/CacheManager.js:36-53 | `get(k)` after `set(k, v)` returns v, and other keys read as before |
| CacheManager.GetAbsent | Components/Services/CacheManager.js:38-43 | an absent or unparsable entry reads as null |
| Login.LoginScreen.OnFocus | Pages/Login/Login.js:152-162 | every field, both form toggles and the error text are reset |
| Login.LoginScreen.CheckPatientLoginStatus | Pages/Login/Login.js:108-115 | the resume step as the reference function `Bootstrap` |
| Login.LoginScreen.RefreshPatientAccessToken | Pages/Login/Login.js:117-140 | the refresh step as `PatientRefresh` |
| Login.LoginScreen.HandleNurseLogin | Pages/Login/Login.js:164-193 | the nurse login as `NurseLogin` |
| Login.LoginScreen.HandlePatientLogin | Pages/Login/Login.js:195-230 | the patient login as `PatientLogin` |
| Login.BootstrapWithoutTokenIsSilent | Pages/Login/Login.js:108-112 | with no stored patient refresh token, nothing is sent and nothing changes |
| Login.BootstrapFrame | Pages/Login/Login.js:108-140 | the resume never touches the nurse tokens and never changes the patient refresh token except to delete it |
| Login.BootstrapAccepted | Pages/Login/Login.js:125-132 | an ok refresh stores the new access token, keeps the refresh token, sets the refresh flag and the patient role, and opens the dashboard |
| Login.BootstrapRejected | Pages/Login/Login.js:133-136 | a refused refresh deletes both patient tokens and changes nothing else |
| Login.BootstrapCrashKeepsTokens | Pages/Login/Login.js:117-140 | a refresh that throws is only logged: store, role, refresh flag and screen are as they were |
| Login.EmptyFieldSendsNothing | Pages/Login/Login.js:165-199 | an empty username or password only alerts |
| Login.LoginStoresPair | Pages/Login/Login.js:175-224 | a 200 reply stores both tokens under the role's keys, sets the role (and for a patient the refresh flag), and leaves the other role's keys alone |
| Login.RejectedLoginKeepsStore | Pages/Login/Login.js:184-229 | any other status writes no token and sets the error text |
| LogoutSection.Logout | Components/Logout.js:16-36 | the logout as the reference function `HandleLogout`, over the legacy client as written |
| LogoutSection.LogoutAlwaysSignsOut | Components/Logout.js:28-35 | whatever the backend answers, both role keys are deleted, the role is empty and Login replaces the screen |
| LogoutSection.LogoutWithoutTokenIsLocal | Components/Logout.js:17-35 | without a refresh token, or with one but no access token (the client's forced logout throws), nothing is sent and only the role's two keys, the role and the screen change |
| LogoutSection.LogoutTouchesOnlyRoleKeys | Components/Logout.js:16-36 | no key but the role's two changes in the store |
| LogoutSection.LogoutNotifiesBackend | Components/Logout.js:17-27 | with a refresh token, the first request is the logout call, signed with the role's access token |
| LogoutSection.LegacyRequestsExtend | Components/FetchWithAuth.js:38-80 | with both tokens stored, the first request a legacy call adds is the signed request |
| NurseNavbar.NurseCleared | Components/NurseNavbar.js:30-37 | only the two nurse keys are deleted |
| NurseNavbar.NavbarScreen.GetTokens | Components/NurseNavbar.js:18-27 | the two nurse tokens, each null when missing |
| NurseNavbar.NavbarScreen.ClearTokens | Components/NurseNavbar.js:30-37 | deletes accessNurse and refreshNurse, nothing else |
| NurseNavbar.NavbarScreen.RefreshAccessToken | Components/NurseNavbar.js:40-62 | the refresh as `NurseRefresh`: ok saves and returns the token, non-ok clears and returns null, an exception returns null and keeps the tokens |
| NurseNavbar.NavbarScreen.Logout | Components/NurseNavbar.js:65-106 | the logout with one refresh and one retry, as `NurseLogout` |
| NurseNavbar.NavbarScreen.MainLogout | Components/NurseNavbar.js:12-15 | the logout followed by Login replacing the screen |
| NurseNavbar.NavbarScreen.HandleNavigation | Components/NurseNavbar.js:108-112 | navigates only to a screen other than the current route |
| NurseNavbar.LogoutTouchesOnlyNurseKeys | Components/NurseNavbar.js:65-106 | the logout changes only the nurse pair, never the role, the screen or the alerts, and sends at most three requests |
| NurseNavbar.RetryFrame | Components/NurseNavbar.js:83-95 | the retry after a 401 sends the refresh and at most one more logout, and changes only the nurse pair |
| NurseNavbar.RefreshFrame | Components/NurseNavbar.js:40-62 | the refresh sends one request and changes only the nurse pair, never the role, the navigation or the alerts |
| NurseNavbar.NoRefreshTokenNoRequest | Components/NurseNavbar.js:69-72 | without a refresh token nothing is sent and nothing changes |
| NurseNavbar.AcceptedLogoutClears | Components/NurseNavbar.js:98-100 | an ok first reply clears the nurse tokens after exactly one request |
| NurseNavbar.RefusedLogoutKeepsTokens | Components/NurseNavbar.js:100-102 | a failed first reply other than 401 leaves every token in place |
| NurseNavbar.RefusedRefreshClearsWithoutRetry | Components/NurseNavbar.js:53-96 | after a 401, a refused refresh clears the nurse tokens and no retry is sent: exactly two requests |
| NurseNavbar.RetryUsesNewToken | Components/NurseNavbar.js:83-100 | after a 401 and a refresh that yields a token, the single retry carries the new token, and an ok retry clears the tokens |
| NurseNavbar.NavigationGuard | Components/NurseNavbar.js:108-112 | a navigation action is recorded iff the target differs from the current route |
| NurseNavbar.MainLogoutEndsOnLogin | Components/NurseNavbar.js:12-15 | the bar's logout always ends with Login replacing the screen |
| PatientSettingsLegacy.PatientCleared | Pages/Patient/PatientSettings.js:132-139 | only accessPatient and refreshPatient are deleted |
| PatientSettingsLegacy.SettingsScreen.GetTokens | Pages/Patient/PatientSettings.js:120-129 | the two patient tokens, each null when missing |
| PatientSettingsLegacy.SettingsScreen.ClearTokens | Pages/Patient/PatientSettings.js:132-139 | deletes the patient pair, nothing else |
| PatientSettingsLegacy.SettingsScreen.RefreshAccessToken | Pages/Patient/PatientSettings.js:91-117 | ok saves and returns accessPatient; a refusal whose `detail` says blacklisted clears the tokens; otherwise null, as `PatientRefresh` |
| PatientSettingsLegacy.SettingsScreen.Logout | Pages/Patient/PatientSettings.js:32-89 | the logout with one refresh and at most one retry, as `PatientLogout` |
| PatientSettingsLegacy.SettingsScreen.MainLogout | Pages/Patient/PatientSettings.js:25-30 | the logout, then Login replaces the screen |
| PatientSettingsLegacy.SettingsScreen.FetchSettingsData | Pages/Patient/PatientSettings.js:142-186 | the settings load as `SettingsLoad`: a failure records its error and keeps the profile, a success fills the profile and keeps any earlier error; `loading` is lowered afterwards |
| PatientSettingsLegacy.SettingsScreen.RefreshForSettings | Pages/Patient/PatientSettings.js:155-174 | the refresh inside the load, as `SettingsRefresh` |
| PatientSettingsLegacy.SettingsScreen.HandleChangePassword | Pages/Patient/PatientSettings.js:193-222 | the change as `ChangePassword`: a mismatch alerts, otherwise one request whose success empties the fields |
| PatientSettingsLegacy.NoRefreshTokenNoRequest | Pages/Patient/PatientSettings.js:36-39 | without a refresh token the logout sends nothing and leaves the tokens alone |
| PatientSettingsLegacy.LogoutFrame | Pages/Patient/PatientSettings.js:32-89 | the logout touches only the patient pair, sends at most three requests, and never changes the role, alerts or navigates |
| PatientSettingsLegacy.RetryFrame | Pages/Patient/PatientSettings.js:52-77 | the retry after a 401 sends the refresh and at most one more logout, and touches only the patient pair |
| PatientSettingsLegacy.RefreshFrame | Pages/Patient/PatientSettings.js:91-117 | the refresh sends one request and touches only the patient pair |
| PatientSettingsLegacy.SettleFrame | Pages/Patient/PatientSettings.js:70-85 | settling the last reply changes only the patient pair |
| PatientSettingsLegacy.SettleClearsExactly | Pages/Patient/PatientSettings.js:70-85 | an ok reply or a 401 whose `error` says blacklisted clears both tokens; any other reply leaves them |
| PatientSettingsLegacy.NoRetryWithoutToken | Pages/Patient/PatientSettings.js:52-67 | a 401 whose refresh yields no token sends no retry, and the first reply decides |
| PatientSettingsLegacy.SettingsNeverResent | Pages/Patient/PatientSettings.js:155-174 | after a 401 the settings request is not sent again and the load fails |
| PatientSettingsLegacy.SettingsRefreshSavesToken | Pages/Patient/PatientSettings.js:155-174 | an accepted refresh during the load saves the new access token, yet the load fails with 'HTTP error! Status: 401' |
| PatientSettingsLegacy.MismatchSendsNothing | Pages/Patient/PatientSettings.js:194-197 | a confirmation that differs from the new password sends nothing and keeps the fields |
| PatientSettingsLegacy.ResetOnlyOnSuccess | Pages/Patient/PatientSettings.js:198-221 | the fields are emptied only after an ok reply to the one change request |
| PatientSettings.DeleteMessage | src/Pages/Patient/PatientSettings.js:59-68 | the body's truthy `detail` after a refusal, else the default text |
| PatientSettings.MissingFields | src/Pages/Patient/PatientSettings.js:99-103 | exactly the names of the empty fields, in the order old, new, confirm |
| PatientSettings.SettingsScreen.DeleteAccount | src/Pages/Patient/PatientSettings.js:38-75 | the deletion as the reference function `AccountDeletion` |
| PatientSettings.SettingsScreen.HandleChangePassword | src/Pages/Patient/PatientSettings.js:98-148 | the change as `ChangePassword`; `isChangingPassword` is false afterwards on every path that sent the request |
| PatientSettings.EmptyPasswordSendsNothing | src/Pages/Patient/PatientSettings.js:39-42 | an empty password sends nothing and changes no token |
| PatientSettings.DeletionSendsTrimmedPassword | src/Pages/Patient/PatientSettings.js:44-48 | the deletion request carries the trimmed password |
| PatientSettings.DeletionKeepsLog | src/Pages/Patient/PatientSettings.js:44-48 | the deletion sends nothing beyond the one authenticated call |
| PatientSettings.DeletionOutcomes | src/Pages/Patient/PatientSettings.js:50-74 | 200 and 204 clear the tokens, empty the role, close the modal and go to Login; 403 only alerts 'Incorrect Password'; every reply empties the password field |
| PatientSettings.DeletionShowsDetail | src/Pages/Patient/PatientSettings.js:59-68 | any other refused status shows the server's `detail` when there is one |
| PatientSettings.ChangeGuards | src/Pages/Patient/PatientSettings.js:99-110 | an empty field or a mismatch sends nothing, keeps the store and the fields, and shows one alert |
| PatientSettings.MissingAlertText | src/Pages/Patient/PatientSettings.js:99-106 | missing old and confirm fields yield exactly the alert 'Please enter: old password, confirm new password' |
| PatientSettings.AttemptAlwaysResets | src/Pages/Patient/PatientSettings.js:111-147 | once the request is tried, all three fields are emptied whatever came back |
| PatientSettings.ChangeMessagePrefersError | src/Pages/Patient/PatientSettings.js:120-128 | a truthy `error` wins over `errors` |
| PatientSettings.ChangeMessageJoinsErrors | src/Pages/Patient/PatientSettings.js:120-128 | without `error`, an array of texts under `errors` is shown joined by ", " |
| PatientSettings.ChangeMessageDefault | src/Pages/Patient/PatientSettings.js:120-128 | an empty object, `null`, or a body that is not JSON gives the default message |
| PatientSettings.JoinTexts | src/Pages/Patient/PatientSettings.js:125 | joining an array of texts is joining the texts with the separator |
| EmailRule.IndexOf | src/Pages/Login/PasswordRecovery.js:16-19 | the first position of the character, or -1 when it is absent |
| EmailRule.ValidIffMatches | src/Pages/Login/PasswordRecovery.js:16-19 | the scanner accepts exactly the texts `^[^\s@]+@[^\s@]+\.[^\s@]+$` matches |
| EmailRule.EmptyIsInvalid | src/Pages/Login/PasswordRecovery.js:23 | the empty text is never valid |
| EmailRule.NormalizeIdempotent | src/Pages/Login/PasswordRecovery.js:22 | normalising a normalised address changes nothing |
| EmailRule.NormalizedShape | src/Pages/Login/PasswordRecovery.js:22 | a normalised address has no blank ends and no upper-case letters |
| AccountCreation.CreationScreen.HandleSubmit | src/Pages/Nurse/AccountCreation.js:31-100 | the submission as the reference function `Submission`; `submitting` is false afterwards whenever the request was sent, and unchanged when a rule failed |
| AccountCreation.CreationScreen.ShowAnswer | src/Pages/Nurse/AccountCreation.js:82-97 | the alert for the outcome, and empty fields after status 201, as `Answer` |
| AccountCreation.RejectionIffBroken | src/Pages/Nurse/AccountCreation.js:36-67 | the chain lets the fields through iff the e-mail pattern, the username rule and all password rules hold |
| AccountCreation.FirstBrokenIffUnsound | src/Pages/Nurse/AccountCreation.js:36-67 | on the normalised fields, the check chain finds nothing iff every account rule holds |
| AccountCreation.EmailCheckedFirst | src/Pages/Nurse/AccountCreation.js:12-39 | an address the pattern refuses is reported first, whatever the other fields hold |
| AccountCreation.MismatchCheckedLast | src/Pages/Nurse/AccountCreation.js:64-67 | a strong password that differs from its confirmation is reported as a mismatch once every other rule passes |
| AccountCreation.RejectionSendsNothing | src/Pages/Nurse/AccountCreation.js:36-67 | a failed rule alerts, sends nothing and keeps every field |
| AccountCreation.AcceptedFormIsSent | src/Pages/Nurse/AccountCreation.js:32-80 | an accepted form is sent with the trimmed lower-case e-mail, the trimmed username and the passwords verbatim |
| AccountCreation.OnlyCreationClears | src/Pages/Nurse/AccountCreation.js:84-86 | status 201 empties the four fields; every other outcome keeps them |
| AccountCreation.StatusMapping | src/Pages/Nurse/AccountCreation.js:82-93 | 400 shows the server's non-empty message, else the default (also for a body that is not JSON); 429 the rate limit; any status but 201, 400 and 429 the server error |
| PasswordRecovery.RecoveryScreen.HandlePasswordRecovery | src/Pages/Login/PasswordRecovery.js:21-51 | the recovery as the reference function `Recovery`; `isLoading` is unchanged when the address is refused and false after a request |
| PasswordRecovery.InvalidSendsNothing | src/Pages/Login/PasswordRecovery.js:22-26 | an address the pattern refuses only alerts |
| PasswordRecovery.ValidSendsNormalized | src/Pages/Login/PasswordRecovery.js:22-40 | a valid address is sent once, normalised, and a 200 reply names that address in the success alert |
| PasswordRecovery.AcceptedSends | src/Pages/Login/PasswordRecovery.js:28-44 | an accepted address is sent once in the reset request, the store is untouched, and a 200 reply announces the link for that address |
| PasswordRecovery.SpellingInsensitive | src/Pages/Login/PasswordRecovery.js:22 | case and surrounding blanks in the typed address do not change what happens |
| PasswordRecovery.StatusMapping | src/Pages/Login/PasswordRecovery.js:38-47 | 200 means success, 429 "slow down", an unreachable server a network error, any other status failure |
| Dashboard.WeeklyPoints | src/Pages/Patient/Dashboard.js:34-39 | seven points labelled M, T, W, Th, F, S, Su in order, each the day's truthy field or 0 |
| Dashboard.DailyTotals | src/Pages/Patient/Dashboard.js:40 | `[week \|\| 0, all_time \|\| 0]` |
| Dashboard.DashboardScreen.constructor | src/Pages/Patient/Dashboard.js:16-23 | the initial screen: empty lists, loading, no error, graph key 0 |
| Dashboard.DashboardScreen.FetchDashboardData | src/Pages/Patient/Dashboard.js:28-48 | the load as the reference function `Loaded` |
| Dashboard.DashboardScreen.Receive | src/Pages/Patient/Dashboard.js:31-47 | the screen state after the payload request, as `Shaped` |
| Dashboard.DashboardScreen.OnFocus | src/Pages/Patient/Dashboard.js:50-62 | the focus effect as `Focused` |
| Dashboard.DashboardScreen.HandleTask | src/Pages/Patient/Dashboard.js:75-85 | the task update as `TaskDone` |
| Dashboard.LoadAlwaysSettles | src/Pages/Patient/Dashboard.js:44-47 | every load, whatever its outcome, ends with loading false and the graph key one higher |
| Dashboard.PayloadShaping | src/Pages/Patient/Dashboard.js:30-40 | a payload with `weekData` fills the lists (empty when falsy), the seven labelled graph points and the totals, and leaves the error as it was |
| Dashboard.MissingWeekKeepsGraph | src/Pages/Patient/Dashboard.js:31-42 | a payload without `weekData` still sets the lists, keeps the old graph and records the error |
| Dashboard.FailedLoadKeepsContent | src/Pages/Patient/Dashboard.js:41-47 | a failed load changes only the error, the spinner and the graph key |
| Dashboard.FocusReloadsIff | src/Pages/Patient/Dashboard.js:52-59 | focus reloads iff `refresh \|\| date !== today`; afterwards the flag is clear and the date is today; otherwise nothing changes |
| Dashboard.CompletionMarksOnlyMatches | src/Pages/Patient/Dashboard.js:79-81 | the update keeps the length, marks every task with the matching id as completed and leaves every other entry as it was |
| Dashboard.CompletionIdempotent | src/Pages/Patient/Dashboard.js:79-81 | marking a task twice is marking it once |
| Dashboard.TaskNeedsOk | src/Pages/Patient/Dashboard.js:77-84 | only an ok reply applies the update; a refused or failed call leaves the list |
| PatientLookup.DigitsOnly | src/Pages/Nurse/PatientLookup.js:95-101 | the filtered text holds only digits and is no longer than the input |
| PatientLookup.DetailParams | src/Pages/Nurse/PatientLookup.js:46-52 | the details screen receives exactly the record's `id`, `username` and `email` |
| PatientLookup.LookupScreen.constructor | src/Pages/Nurse/PatientLookup.js:18-22 | no query, no results, no attempt, text mode, not loading |
| PatientLookup.LookupScreen.SearchPatients | src/Pages/Nurse/PatientLookup.js:27-44 | the search as the reference function `Searched` |
| PatientLookup.LookupScreen.Begin | src/Pages/Nurse/PatientLookup.js:30-32 | before the request: loading, no results, no attempt |
| PatientLookup.LookupScreen.Finish | src/Pages/Nurse/PatientLookup.js:35-43 | after the request: the data or no results, not loading, attempted |
| PatientLookup.LookupScreen.HandleSearchByChange | src/Pages/Nurse/PatientLookup.js:55-60 | sets the mode and clears the query, the results and the attempt flag |
| PatientLookup.LookupScreen.OnChangeText | src/Pages/Nurse/PatientLookup.js:95-101 | in id mode the query keeps only the digits; in any other mode it is what was typed |
| PatientLookup.LookupScreen.HandleUserClick | src/Pages/Nurse/PatientLookup.js:46-52 | navigates to PatientDetails with `DetailParams` |
| PatientLookup.EmptyQueryIsInert | src/Pages/Nurse/PatientLookup.js:28 | an empty query sends nothing and changes nothing |
| PatientLookup.SearchSettles | src/Pages/Nurse/PatientLookup.js:34-43 | a search ends not loading and attempted; a failed one shows no results; the query and mode stay |
| PatientLookup.PendingState | src/Pages/Nurse/PatientLookup.js:30-32 | while the request runs, the screen shows loading, no results and no attempt |
| PatientLookup.SwitchStartsOver | src/Pages/Nurse/PatientLookup.js:55-60 | after a mode switch the query is empty, so a search sends nothing |
| PatientLookup.DigitsDistribute | src/Pages/Nurse/PatientLookup.js:97 | the filter of a concatenation is the concatenation of the filters, so digits keep their order |
| PatientLookup.DigitsCounted | src/Pages/Nurse/PatientLookup.js:97 | every digit occurs as often after the filter as before; no other character survives |
| PatientLookup.DigitsKeptWhole | src/Pages/Nurse/PatientLookup.js:97 | a text of digits only passes unchanged |
| PatientLookup.DigitsIdempotent | src/Pages/Nurse/PatientLookup.js:97 | filtering twice is filtering once |
| PatientLookup.TypedQuery | src/Pages/Nurse/PatientLookup.js:95-101 | an id-mode query holds only digits; a text-mode query is verbatim |

## Left out

- **Hardware, dialogs and the clock.** The device APIs are not modelled:
  - `LocalAuthentication`, `SecureStore`, `AsyncStorage`, `fetch` and
    `Alert.alert` are represented by the `World` state.
  - A store write never fails, and a failed read is not modelled.
  - The alert buttons and their callbacks are not modelled; the setup
    choice comes in as a parameter.
- **`getSupportedTypes`.** Its result, the sensor's type name, is a
  parameter. The name only appears in dialog text.
- **Floating point.** Numbers are integers plus NaN; timestamps and
  counters never hold fractions.
- **Text processing.**
  - Lengths count Unicode code points, where JavaScript's `.length`
    counts UTF-16 code units. Text with characters outside the Basic
    Multilingual Plane, such as emoji, is shorter in the model.
  - Upper and lower case are ASCII only.
  - The search query is sent unescaped, as in the source.
  - `toLowerCase` on non-ASCII letters is not modelled.
- **JSON texts.** The preference codec escapes `"` and `\` only;
  `JSON.stringify` also escapes control characters.
  - The cache stores what `JSON.parse` makes of a text rather than the
    text itself.
  - `JSON.stringify` and `JSON.parse` are taken to be inverse on the
    values the cache writes.
- **HTTP details.**
  - Header names are case-sensitive keys.
  - Time-outs and concurrent calls are not modelled; one call runs at a
    time, so concurrent 401s that race to refresh are out of scope.
- **Unshown token clearing.** `clearTokens` of
  `src/Components/Services/Memory.js` is not part of this model. It is
  taken to delete the four credential keys `accessPatient`,
  `refreshPatient`, `accessNurse` and `refreshNurse`.
- **Two server bases.** `BASE_URL` from `apiConfig` and from `@env` are
  both the one `ApiBase` origin. The nurse bar's hard-coded loopback host
  is a second origin.
- **`undefined` versus `null`.** The refresh helpers collapse both into
  one `null` result.
- **Repeated `response.json()` in `Pages/Patient/PatientSettings.js`.**
  After a 401 logout reply that is not blacklisted, the body is read
  again at :83 after the read at :71. That second read rejects with a
  TypeError, which the `try` catches and logs. Only logging follows
  either way, so the model leaves the logout's state where the first read
  left it and does not model the second read.
- **Console logging.**
- **`fetchSettingsData` of `src/Pages/Patient/PatientSettings.js`.** It is
  a plain `getJSON` call that fills display fields.
- **`handleNavigate` of the dashboard.** It is navigation wiring.
- **Presentation.** Rendering, skeletons, fonts and navigation containers.
- AccountCreation.FirstBroken: the username and password length rules count code points, not UTF-16 units, so a password such as 😀😀😀😀A1! (11 units in JavaScript) is sent by the source but refused as too short here.
- Dashboard.TaskDone: a `taskId` of `undefined` cannot be expressed, because a task record without an `id` never matches; in the source such a call marks every task that lacks an `id`, since `undefined === undefined`.
- Dashboard.SameId: ids that are objects or arrays compare by identity in the source; the model never treats them as equal.
- Dashboard.Completed: when the stored task list is not an array, the source's `map` throws inside the state updater, outside the handler's `try`; the model leaves the value as it is.
- Dashboard.Shaped: a payload that is `null` or lacks `weekData` records the TypeError as the model's fixed message text, not the engine's wording.
- PatientLookup.DetailParams: a field the record lacks is `undefined` in the source; the model leaves its key out of the parameters.
- CacheManager.Stale: a failed storage read, which the source treats as stale, is not modelled, because the store never fails here.

## Findings

| source | as written | input that shows it | evidently intended | confidence | as-written member | corrected member |
|---|---|---|---|---|---|---|
| src/Components/Services/FetchWithAuth.js:1, 96 | `Alert` is imported from `react`, which has no such export. `Alert.alert` therefore throws a TypeError after the tokens and role are cleared, and the reset to Login never happens. | a 401 followed by a refresh reply without `access` | alert the user, reset to Login, throw 'Session expired.' | high, not executed | FetchWithAuth.SessionExpiryAsWritten | FetchWithAuth.SessionExpiry |
| Components/FetchWithAuth.js:2, 48, 63 | `clearTokens` is imported from `Components/Memory.js`, which exports only `getSecureItem`, `saveSecureItem` and `deleteSecureItem`. The forced logout throws a TypeError before it clears anything, resets the role or shows Login. | a call with no stored access token | clear the credentials, reset the role, show Login, throw | high, not executed | LegacyFetchWithAuth.ForcedLogoutAsWritten | LegacyFetchWithAuth.ForcedLogout |
