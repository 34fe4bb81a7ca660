# NLPearl client: version routing and request shaping

This Dafny project models the core of the NLPearl Python client. That core
is the layer that turns a call such as `Outbound.add_lead(...)` into either
one HTTP request or a `ValueError`. Every operation reads the module global
`nlpearl.api_key`, and every operation except the two Call methods also reads
`nlpearl.api_version` (`Call` uses its own constant v1 base). It then:

1. runs its version guard, if it has one;
2. checks that a key is set;
3. runs its own argument checks;
4. builds a request (verb, base URL, path, JSON body), whose shape can
   depend on the version.

The model keeps the source's quirks:

- The guards compare one exact string. `_check_v1_only` rejects only `"v2"`
  and `_check_v2_only` rejects only `"v1"`, so `None` and `"v3"` pass both
  kinds.
- The version guard runs before the key check.

Modules, one per source file:

- `Wire` holds the shared vocabulary: Python values and their truthiness,
  requests, errors and responses. It also defines `ChecksInOrder`, the check
  order every operation follows, and the two ways a body grows: keeping truthy
  values (`if value:`) or keeping non-None values (`if value is not None:`).
- `Nlpearl` models the globals as a class, `Globals`, that callers reassign.
  Every operation reads a `Config` snapshot of it.
- `Account`, `Call`, `Inbound`, `Outbound` and `Pearl` each model one client
  class.
  - A method that builds its body by conditional insertion becomes a Dafny
    `method` that grows a `map` one insertion at a time. Its result is proved
    equal to a declarative `…Request` function.
  - A straight-line method becomes a function.
- `Client` puts every operation behind one dispatcher, `Build`. `Run` adds the
  transport and the decoding. The facts shared by all operations are proved
  there: which guard rejects what, that the guard comes before the key, the
  verb table and the decoding rules.

The helpers of `nlpearl/_helpers.py` are fields of a `Helpers` record of
function values and are never defined: `_get_api_url`, `_process_date` and
`_date_diff_in_days`. The only facts about URL resolution come from the
package's test scripts, and those are stated as the predicate
`Client.ResolverAsTested`.

## Model

| member | source | states |
|---|---|---|
| Nlpearl.Globals.constructor | nlpearl/__init__.py:8-12 | after import the key is None and the version is "v2", so a fresh state reads as `Nlpearl.Initial()` |
| Nlpearl.Globals.SetApiKey | test_unified_api.py:36 | assigning the key changes only the key |
| Nlpearl.Globals.SetApiVersion | test_version.py:19 | assigning the version changes only the version |
| Nlpearl.Globals.Current | nlpearl/outbound.py:15-17 | an operation reads the globals as they are at call time |
| Nlpearl.Initial | nlpearl/__init__.py:9-12 | the initial configuration has no key and version "v2" |
| Wire.RangeCheck | nlpearl/outbound.py:510-512 | the analytics guard fails exactly when the day difference exceeds 90 |
| Wire.Checked | nlpearl/outbound.py:505-515 | the version guard first, then the key check with the operation's own message, then the argument checks; only when all pass is a request built, with the key as Bearer token |
| Wire.KeepStep | nlpearl/outbound.py:167-172 | one `if value: data[k] = value` step, or one `if value is not None:` step, keeps the body equal to the fixed keys plus the optionals seen so far that pass the test |
| Wire.CallsFilterSteps | nlpearl/inbound.py:121-128 | the four `if value:` insertions after the five fixed keys leave exactly those keys plus the truthy filters; the pearl `get_calls` makes the same four |
| Wire.NothingKept | nlpearl/outbound.py:217 | optionals that fail the test (all None, say) add nothing to the fixed keys |
| Account.GetAccount | nlpearl/account.py:10-15 | key check first, raising "API key is not set. Set the api_key first using …"; then GET `<resolved base>/Account`, with no body and the key as Bearer token |
| Call.GetCall | nlpearl/call.py:9-14 | key check, with the account's longer message; then GET `/Call/{id}` on the fixed v1 base |
| Call.CreateCall | nlpearl/call.py:19-31 | key check, with the account's longer message; then POST to `https://api.nlpearl.ai/v1/Call` with a body of exactly `to`, `from` and `duration` |
| Inbound.CheckV1Only | nlpearl/inbound.py:13-20 | rejects exactly when the version is "v2", with a version error |
| Inbound.V1OnlyMessage | nlpearl/inbound.py:13-20 | the message names `Inbound.<m>()`, says "only available in API v1" and points to `Pearl.<m>()` |
| Inbound.GetAll | nlpearl/inbound.py:30-36 | guard, then key, raising "API key is not set. Set it using …"; then GET `/Inbound` |
| Inbound.Get | nlpearl/inbound.py:47-53 | guard, then key; then GET `/Inbound/{id}` |
| Inbound.SetActive | nlpearl/inbound.py:64-74 | guard, then key; then POST `/Inbound/{id}/Active` with exactly `{isActive}` |
| Inbound.GetCallsRequest | nlpearl/inbound.py:101-130 | guard, then key; then POST `/Inbound/{id}/Calls` with the five fixed keys plus the truthy ones of `sortProp`, `tags`, `statuses`, `searchInput` |
| Inbound.GetCalls | nlpearl/inbound.py:113-128 | growing the body one insertion at a time gives exactly `GetCallsRequest` |
| Inbound.GetCallsDefaults | nlpearl/inbound.py:78-79 | with only the required arguments the body is exactly `skip` 0, `limit` 100, `isAscending` true and the two dates |
| Inbound.GetOngoingCalls | nlpearl/inbound.py:147-153 | guard, then key; then GET `/Inbound/{id}/OngoingCalls` |
| Inbound.GetAnalytics | nlpearl/inbound.py:176-196 | guard, then key, then the 90-day check; then POST `/Inbound/{id}/Analytics` with exactly `{from, to}` |
| Outbound.CheckV1Only | nlpearl/outbound.py:20-26 | rejects exactly when the version is "v2", with a version error |
| Outbound.V1OnlyMessage | nlpearl/outbound.py:20-26 | the message names `<m>()` and says "only available in API v1" |
| Outbound.GetAll | nlpearl/outbound.py:36-42 | guard, then key; then GET `/Outbound` |
| Outbound.Get | nlpearl/outbound.py:53-59 | guard, then key; then GET `/Outbound/{id}` |
| Outbound.SetActive | nlpearl/outbound.py:70-80 | guard, then key; then POST `/Outbound/{id}/Active` with exactly `{isActive}` |
| Outbound.GetCallsRequest | nlpearl/outbound.py:105-130 | guard, then key; then POST `/Outbound/{id}/Calls` with the five fixed keys plus the truthy ones of `sortProp` and `tags` |
| Outbound.GetCalls | nlpearl/outbound.py:117-129 | growing the body step by step gives exactly `GetCallsRequest` |
| Outbound.GetCallsDefaults | nlpearl/outbound.py:84-85 | with only the required arguments the body is exactly `skip` 0, `limit` 100, `isAscending` true and the two dates |
| Outbound.AddLeadRequest | nlpearl/outbound.py:152-183 | key, then a truthy `phone_number`; PUT under "v1", POST otherwise; `/Outbound/{id}/Lead` with `phoneNumber` plus the truthy optionals |
| Outbound.LeadBodySteps | nlpearl/outbound.py:166-172 | the three conditional insertions of `add_lead` leave `phoneNumber` plus the truthy optionals |
| Outbound.AddLead | nlpearl/outbound.py:152-183 | both per-version branches of the method give exactly `AddLeadRequest` |
| Outbound.AddLeadDefaults | nlpearl/outbound.py:134 | with only a phone number the body is `{phoneNumber}` alone |
| Outbound.AddLeadAcrossVersions | nlpearl/outbound.py:164-183 | under "v1" and under any other version: the same checks, path and body; only the verb differs (PUT or POST) |
| Outbound.AddLeadBodyKeys | nlpearl/outbound.py:166-172 | `phoneNumber` is always sent; each optional is sent if and only if it is truthy; no other key is sent |
| Outbound.UpdateLeadRequest | nlpearl/outbound.py:209-230 | key check; then PUT `/Outbound/{id}/Lead/{leadId}` with the non-None arguments |
| Outbound.UpdateBodyHead | nlpearl/outbound.py:218-223 | the first three `is not None` insertions from `{}` leave exactly those of the three arguments that are not None |
| Outbound.UpdateBodySteps | nlpearl/outbound.py:216-228 | the five `is not None` insertions from `{}` leave exactly the non-None arguments |
| Outbound.UpdateLead | nlpearl/outbound.py:216-230 | starting from `{}` and inserting each present value gives exactly `UpdateLeadRequest` |
| Outbound.UpdateLeadDefaults | nlpearl/outbound.py:188-189 | with no field given the PUT is still sent, with the body `{}` |
| Outbound.UpdateLeadSendsPresentValues | nlpearl/outbound.py:217-228 | each key is sent if and only if its value is not None, falsy values included; all None sends `{}` |
| Outbound.LeadsQuery | nlpearl/outbound.py:263-279 | the leads query always holds the given `skip`, `limit` and `isAscending`, and no key beyond the seven the method knows |
| Outbound.GetLeadsRequest | nlpearl/outbound.py:256-281 | key check; then POST `/Outbound/{id}/Leads` with the per-version query |
| Outbound.GetLeads | nlpearl/outbound.py:262-281 | inserting the filters step by step gives exactly `GetLeadsRequest` |
| Outbound.GetLeadsDefaults | nlpearl/outbound.py:234-235 | with only the identifier the body is exactly `skip` 0, `limit` 100 and `isAscending` true, under every version |
| Outbound.LeadsQueryV1 | nlpearl/outbound.py:272-274 | under "v1" the leads query adds `sortProp` and `status` when truthy, and never `statuses` or `searchInput` |
| Outbound.LeadsQueryOther | nlpearl/outbound.py:275-279 | under any other version it adds `sortProp`, `statuses` and `searchInput` when truthy, and never `status` |
| Outbound.LeadsFiltersByVersion | nlpearl/outbound.py:263-279 | `skip`, `limit` and `isAscending` are always sent; `status` only under "v1"; `statuses` and `searchInput` only otherwise; never both vocabularies |
| Outbound.GetLeadById | nlpearl/outbound.py:293-297 | key check; then GET `/Outbound/{id}/Lead/{leadId}` |
| Outbound.GetLeadByExternalId | nlpearl/outbound.py:309-313 | key check; then GET `/Outbound/{id}/Lead/External/{externalId}` |
| Outbound.GetLeadByPhoneNumber | nlpearl/outbound.py:332-336 | key check; then GET `/Outbound/{id}/Lead/PhoneNumber/{phone}`, with the number unnormalised |
| Outbound.MakeCallRequest | nlpearl/outbound.py:347-359 | guard, then key; then POST `/Outbound/{id}/Call` with `to` plus a truthy `callData` |
| Outbound.MakeCall | nlpearl/outbound.py:355-359 | the method gives exactly `MakeCallRequest` |
| Outbound.MakeCallDefaults | nlpearl/outbound.py:340 | without call data the body is `{to}` alone |
| Outbound.GetCallRequest | nlpearl/outbound.py:369-375 | guard, then key; then GET `/Outbound/CallRequest/{id}` |
| Outbound.GetCallRequestsRequest | nlpearl/outbound.py:398-418 | guard, then key; then POST `/Outbound/{id}/CallRequest` with the five fixed keys plus a truthy `sortProp` |
| Outbound.GetCallRequests | nlpearl/outbound.py:408-418 | the method gives exactly `GetCallRequestsRequest` |
| Outbound.GetCallRequestsDefaults | nlpearl/outbound.py:379-380 | with only the required arguments the body is exactly `skip` 0, `limit` 100, `isAscending` true and the two dates |
| Outbound.NonEmptyList | nlpearl/outbound.py:440-441 | the id check holds exactly for a Python list that is truthy (non-empty) |
| Outbound.DeleteLeads | nlpearl/outbound.py:437-450 | key, then a non-empty list; then DELETE `/Outbound/{id}/Leads` with exactly `{leadIds}` |
| Outbound.DeleteLeadsByExternalId | nlpearl/outbound.py:469-482 | key, then a non-empty list; then DELETE `/Outbound/{id}/Leads/External` with exactly `{leadExternalIds}` |
| Outbound.DeletesNeedNonEmptyList | nlpearl/outbound.py:440-441 | with a key set, both deletes succeed if and only if the ids are a non-empty list |
| Outbound.GetAnalytics | nlpearl/outbound.py:505-525 | guard, then key, then the 90-day check; then POST `/Outbound/{id}/Analytics` with exactly `{from, to}` |
| Outbound.AnalyticsRangeBoundary | nlpearl/outbound.py:510-512 | a difference of exactly 90 days is accepted; 91 is rejected before any request is built |
| Pearl.CheckV2Only | nlpearl/pearl.py:13-19 | rejects exactly when the version is "v1", with a version error |
| Pearl.V2OnlyMessage | nlpearl/pearl.py:13-19 | the message names `<m>()` and says "only available in API v2" |
| Pearl.NormalizePhone | nlpearl/pearl.py:38-39 | the result starts with '+'; a number that already does is unchanged, any other gains exactly one leading '+' |
| Pearl.NormalizeIdempotent | nlpearl/pearl.py:38-39 | normalising twice equals normalising once, and it only ever prepends |
| Pearl.ResetCustomerMemoryRequest | nlpearl/pearl.py:35-54 | no guard; key check, raising "API key is not set. Set it using …"; under "v1" PUT `/Pearl/{id}/Memory/{phone}/Reset` with no body, otherwise PUT `/Pearl/{id}/ResetMemory` with `{phoneNumber}`; the number is normalised |
| Pearl.ResetCustomerMemory | nlpearl/pearl.py:35-54 | reassigning the number and branching on the version gives exactly `ResetCustomerMemoryRequest` |
| Pearl.ResetIgnoresLeadingPlus | nlpearl/pearl.py:38-39 | a number with or without its leading '+' resets the same memory |
| Pearl.ResetMemory | nlpearl/pearl.py:75 | behaves exactly as `reset_customer_memory` |
| Pearl.GetAll | nlpearl/pearl.py:87-95 | guard, then key; then GET `/Pearl` |
| Pearl.Get | nlpearl/pearl.py:110-118 | guard, then key; then GET `/Pearl/{id}` |
| Pearl.SetActive | nlpearl/pearl.py:134-146 | guard, then key; then PUT (not POST) `/Pearl/{id}/Active` with exactly `{isActive}` |
| Pearl.GetCallsRequest | nlpearl/pearl.py:171-201 | guard, then key; then POST `/Pearl/{id}/Calls` with the five fixed keys plus the truthy ones of `sortProp`, `tags`, `statuses`, `searchInput` |
| Pearl.GetCalls | nlpearl/pearl.py:184-198 | growing the body step by step gives exactly `GetCallsRequest` |
| Pearl.GetCallsDefaults | nlpearl/pearl.py:149-150 | with only the required arguments the body is exactly `skip` 0, `limit` 100, `isAscending` true and the two dates |
| Pearl.GetOngoingCalls | nlpearl/pearl.py:217-225 | guard, then key; then GET `/Pearl/{id}/OngoingCalls` |
| Pearl.GetAnalytics | nlpearl/pearl.py:246-267 | guard, then key, then the 90-day check; then POST `/Pearl/{id}/Analytics` with exactly `{from, to}` |
| Client.GuardError | nlpearl/outbound.py:20-26 | the guard table: an operation's guard fails if and only if its guard kind blocks the current version |
| Client.ArgumentError | nlpearl/outbound.py:155-156 | the argument checks only ever raise invalid-argument errors |
| Client.BuildInbound | nlpearl/inbound.py:30-33 | every Inbound method runs guard, key, arguments in that order and follows the verb table |
| Client.BuildOutbound | nlpearl/outbound.py:36-39 | every v1-only Outbound method runs guard, key, arguments in that order and follows the verb table |
| Client.BuildLead | nlpearl/outbound.py:152-156 | every lead method runs key, then arguments, with no version guard, and follows the verb table |
| Client.BuildPearl | nlpearl/pearl.py:87-90 | every Pearl method runs guard, key, arguments in that order and follows the verb table |
| Client.Build | nlpearl/outbound.py:347-350 | every operation: guard, then key, then arguments; a built request carries the key and follows the verb table and the base-URL rule |
| Client.GuardDecides | nlpearl/outbound.py:20-26 | an operation fails with a version error if and only if its guard blocks the current version |
| Client.GuardErrorIgnoresKey | nlpearl/outbound.py:15-17 | the guards read only the version |
| Client.GuardBeforeKey | nlpearl/outbound.py:347-350 | a blocked operation reports the version error, with or without a key |
| Client.NoKeyFails | nlpearl/account.py:10-11 | without a key every operation fails, with its own key message unless its guard fired first |
| Client.KeyMessagesShareTheirHead | nlpearl/inbound.py:32-33 | every missing-key message begins "API key is not set."; exactly the account and Call operations, `Inbound.get_all` and the memory resets say more |
| Client.InitialRejectsEverything | nlpearl/__init__.py:9-12 | right after import every operation fails: the v1-only ones on the version, the rest on the key |
| Client.OtherVersionsPassEveryGuard | nlpearl/pearl.py:13-15 | a version other than "v1" and "v2" passes every guard |
| Client.SharedUnderBothVersions | test_unified_api.py:109-119 | the unguarded operations raise no version error under either "v1" or "v2" |
| Client.BuiltRequestShape | nlpearl/outbound.py:164-183 | a built request carries the key, the verb from the table and the base from the base-URL rule |
| Client.DecodingOf | nlpearl/call.py:15-17 | exactly the Call operations check the status before decoding, and exactly the memory resets fall back to the text |
| Client.Run | nlpearl/account.py:14-16 | a failed check is the call's outcome; once a response arrives, the only failures are an HTTP status error or a body that is not JSON |
| Client.NoKeyNothingSent | nlpearl/call.py:10-11 | without a key the outcome is a failure that does not depend on the transport |
| Client.CallRaisesBeforeDecoding | nlpearl/call.py:15-17 | a Call operation fails with the HTTP error on a 4xx or 5xx status, even when the body is JSON |
| Client.ResetFallsBackToText | nlpearl/pearl.py:56-59 | once a response arrives, the memory reset always succeeds; a non-JSON body comes back as the raw text |
| Client.PlainDecodesUnconditionally | nlpearl/account.py:15-16 | the other operations check no status: they succeed if and only if the body is JSON, and return it |
| Client.ResetMemoryIsResetCustomerMemory | nlpearl/pearl.py:75 | the two reset operations have identical outcomes under every configuration and transport |
| Client.AccountUrlAsTested | test_version.py:9-48 | with the tested resolver the account URL is `.../v2/Account` by default and for None, and `.../v1/Account` under "v1" |
| Client.UnsetVersionSendsV1OnlyToV2 | nlpearl/inbound.py:13-16 | with the version set to None a v1-only operation passes its guard and, with the tested resolver, goes to the v2 base |
| Client.UnsetVersionInboundGetAll | test_version.py:43-48 | `Inbound.get_all` under None is built, as `/Inbound` on the base `https://api.nlpearl.ai/v2` |
| Client.CallIgnoresVersion | nlpearl/call.py:5-14 | the Call requests are the same under every version and use the v1 base |
| Client.Perform | nlpearl/outbound.py:15-17 | an operation runs against the globals as they are at call time |
| Client.SwitchThenPerform | test_unified_api.py:98-107 | a version assignment is seen by the very next call, and the key is unchanged |

## Left out

- HTTP transport (`requests.get/post/put/delete`): it is a parameter `send`, and the response is a status, a text and an optional decoded JSON value.
- `send` always returns a response; an exception raised by `requests` itself (a connection error, a time-out) is not modelled, and in the source it propagates to the caller.
- Python arguments are modelled as None, bool, int, str, list and dict only; floats, tuples and other objects are not, so the model cannot show, for instance, that a tuple of ids given to `delete_leads` is rejected for not being a `list`.
- Headers other than the Bearer token (`Content-Type`) are not modelled.
- `nlpearl/_helpers.py` is not part of this model. `_get_api_url`, `_process_date` and `_date_diff_in_days` are uninterpreted, and they are total in the model: an exception raised by `_process_date` or `_date_diff_in_days` after the key check is not modelled. Nothing is assumed about negative day differences or time zones.
- Client.AccountUrlAsTested: holds only under `ResolverAsTested`, the URL facts the test scripts assert, because `_get_api_url` is not part of the model.
- Identifiers that Python formats with an f-string are modelled as strings already formatted.
- `phone_number` in the memory reset is a string; a non-string argument, for which `startswith` would raise, is not modelled.
- Concurrent reassignment of the globals while a call is running is not modelled. A call reads one snapshot.
- `example_v1_usage.py` and `example_v2_usage.py` are demonstrations and are not modelled.
- A credential-first order would be the usual design. The code runs the version guard before the key check, and the model follows the code.
- A negative day range (the end before the start) is not rejected: the code rejects only a difference above 90, and the model follows the code.
- The docstring of `Outbound.get_analytics` promises the raw text when the body is not JSON. The code decodes with `response.json()` alone, and the model follows the code.
