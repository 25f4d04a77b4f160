# dandi API keys — a Dafny model

This project models the API-key domain of the dandi dashboard. It covers:

- **Key lifecycle.** The form validator, the key generator and masker, and the row transformer between application keys and `api_keys` rows. It also covers the `ApiKeyService` that validates, generates and writes keys. That service turns every failure into a `ValidationError` or an `ApiKeyServiceError`.
- **Key checking.** The `POST /api/validate-key` route, and the client service that calls the route and trusts only a strict `valid === true`.
- **UI state.** The three state hooks: revealed keys, toasts, and the create/edit form. Also the rule that decides whether a sidebar link is highlighted, and how the key table displays a key.

One Dafny module corresponds to each source file. `JsStrings`, `Json`, `Wrappers` and `Storage` hold what they share:

- JavaScript's `trim`, `indexOf` and `startsWith`, on strings of characters from the Basic Multilingual Plane, where one Dafny `char` is one UTF-16 code unit.
- JavaScript truthiness of a parsed request body.
- `Option`, `Result` and `Outcome`.
- The replies the Supabase client gives.

The model is shaped like the source:

- **Stateful parts are classes.** `ApiKeyService` holds the `api_keys` table as a `map` from id to row, plus a ghost log of the writes sent. Each state hook is a class whose fields are the hook's `useState` variables.
- **Pure helpers are functions.** Each class method is tied by its `ensures` to a specification function. The lemmas state the properties of those functions.
- **The generator's loop is a method.** It is proved against the function `GeneratedKey`.

Some things are inputs to the model rather than part of it:

| in the source | in the model |
|---|---|
| `Math.random` | the 24 indices it draws (`picks`) |
| storage's reply to a write or a select | a `WriteReply` / `SelectReply` value |
| the id and timestamp storage assigns | parameters |
| `toISOString` of a row's timestamp | a parameter, or a function argument |
| the router's current path | an `Option<string>` |
| the HTTP exchange | a function from the key sent to what came back |

Where the code and its documentation disagree, the model follows the code:

- **`create` always stores `monthly_usage_limit`.** It stores the form's value even when the limit is switched off. The stored row therefore holds a limit whatever the flag says (`Service.InsertPayload`).
- **The length message says "less than 100".** Yet a name of exactly 100 code units passes (`Validation.HundredCharNamePassesLengthCheck`).

Behaviour worth knowing:

- **The sidebar link for `/` is highlighted on more than `/`.** It is also highlighted on every path that begins with `//`, because `"/" + "/"` is `"//"` (`NavItem.RootActiveIff`).
- **Rows sit under their own id.** `ApiKeyService`'s invariant `Valid()` says the table maps each id to the row carrying that id. Every write requires and keeps it, and `Delete` relies on it to promise that no row with the deleted id remains.

## Model

| member | source | states |
|---|---|---|
| JsStrings.Trim | dandi/utils/validation.ts:15 | the result is empty iff the string is all ECMAScript white space and line terminators, and otherwise starts and ends with a character that is neither |
| JsStrings.TrimRemovesRuns | dandi/utils/validation.ts:15 | `trim()` returns the middle of the string: what lies between a leading and a trailing run of white space and line terminators |
| JsStrings.IndexOf | dandi/utils/api-key-masker.ts:8 | `indexOf(c, start)` is -1 when `c` does not occur at or after `start`, otherwise the first such position |
| JsStrings.IndexOfFinds | dandi/utils/api-key-masker.ts:8 | the first occurrence at or after `start` is what `indexOf` returns |
| JsStrings.TrimIdempotent | services/api-key-validation-service.ts:15-25 | trimming an already trimmed key changes nothing, so the route's second trim agrees with the client's |
| JsStrings.TrimIgnoresPadding | app/api/validate-key/route.ts:17-28 | white space added on both sides of a string does not change its trimmed form |
| JsStrings.SameTrimSameBlankness | app/api/validate-key/route.ts:17 | strings with the same trimmed form are both blank or both not |
| Validation.ValidateApiKeyForm | dandi/utils/validation.ts:14-34 | the form passes iff the name is not all white space, is at most 100 code units, and (when the limit is on) the limit is in [1, 1000000]; a failure carries one of the three messages |
| Validation.RequiredIffBlank | dandi/utils/validation.ts:15-17 | "Key name is required" is reported exactly for empty or all-white-space names |
| Validation.LongNameFails | dandi/utils/validation.ts:19-21 | a non-blank name over 100 code units fails with the length message, before the limit is checked |
| Validation.HundredCharNamePassesLengthCheck | dandi/utils/validation.ts:19-21 | a 100-code-unit name passes the length check despite the message "less than 100" |
| Validation.PaddingCountsTowardsLength | dandi/utils/validation.ts:15-21 | the length check counts untrimmed white space |
| Validation.LimitRange | dandi/utils/validation.ts:23-33 | with the limit on and a good name, the limit error happens exactly outside [1, 1000000] (0 included) |
| Validation.LimitIgnoredWhenOff | dandi/utils/validation.ts:23 | with the limit off, the limit's value never matters |
| Generator.GenerateApiKey | utils/api-key-generator.ts:7-16 | the loop builds the type's prefix followed by the 24 characters the draws select |
| Generator.AlphabetIsAlphanumeric | utils/api-key-generator.ts:9-10 | the alphabet has 62 characters, all ASCII letters or digits, no '-' |
| Generator.GeneratedKeyShape | utils/api-key-generator.ts:7-16 | a generated key is "dandi-prod-" or "dandi-dev-" followed by exactly 24 alphanumeric characters |
| Generator.KeyTypeIsVisible | utils/api-key-generator.ts:8 | a development key and a production key are never equal |
| Masker.PrefixEnd | dandi/utils/api-key-masker.ts:8 | the end of the kept prefix is 0 or just after a '-' |
| Masker.MaskApiKey | dandi/utils/api-key-masker.ts:5-11 | keys of at most 12 code units are returned unchanged; longer keys become the prefix through the second '-' followed by 24 '*' |
| Masker.MaskIsStars | dandi/utils/api-key-masker.ts:10 | the mask is 24 asterisks |
| Masker.MaskKeepsUpToSecondHyphen | dandi/utils/api-key-masker.ts:8-10 | for a long key with two hyphens at i < j, the mask keeps `key[..j+1]` |
| Masker.MaskWithoutTwoHyphens | dandi/utils/api-key-masker.ts:8-10 | a long key with fewer than two hyphens is masked to the 24 stars alone |
| Masker.NoPrefixFewerThanTwoHyphens | dandi/utils/api-key-masker.ts:8 | an empty prefix means the key has fewer than two hyphens |
| Masker.MaskHidesAllIffFewerThanTwoHyphens | dandi/utils/api-key-masker.ts:6-10 | a long key is masked to the stars alone exactly when it has fewer than two hyphens |
| Masker.MaskOfMask | dandi/utils/api-key-masker.ts:5-11 | masking the bare mask returns it |
| Masker.MaskOfKeptPrefix | dandi/utils/api-key-masker.ts:5-11 | masking a masked key with a prefix returns it |
| Masker.MaskIdempotent | dandi/utils/api-key-masker.ts:5-11 | masking twice is masking once |
| Masker.MaskGeneratedKey | dandi/utils/api-key-masker.ts:5-11 | a generated key is shown as its type's prefix followed by 24 stars |
| Transformer.NumberOrZero | utils/api-key-transformer.ts:13 | `usage \|\| 0`: null gives 0, any number is kept |
| Transformer.BoolOrFalse | utils/api-key-transformer.ts:15-16 | `flag \|\| false` is true exactly when the column holds true |
| Transformer.FromDatabase | utils/api-key-transformer.ts:7-19 | each application field comes from its snake_case column, with null usage read as 0, null flags as false, and the creation date as given |
| Transformer.ToDatabase | utils/api-key-transformer.ts:24-41 | a column is sent exactly when its field is defined; id and created_at are never sent |
| Transformer.KeyRoundTrip | utils/api-key-transformer.ts:7-41 | writing a whole key, storing it under its id and reading it back returns the key with only its date taken from storage |
| Transformer.RowRoundTrip | utils/api-key-transformer.ts:7-41 | reading a row without nulls and writing it back reproduces the row |
| Transformer.UpdateKeepsIdentity | utils/api-key-transformer.ts:24-41 | an update built by the transformer never changes a row's id or creation time |
| Service.WriteOutcome | dandi/services/api-key-service.ts:71-86 | a write succeeds exactly when storage reports no error; a reported error becomes "Failed to ...: message" carrying it, a throw becomes the "unexpected error" message carrying the exception |
| Service.InsertPayload | dandi/services/api-key-service.ts:60-69 | `create` sends name, key, type, usage 0, both limit fields and the PII flag, never id or created_at |
| Service.UpdatePayload | dandi/services/api-key-service.ts:102-108 | `update` sends the five form fields and never key, usage, id or created_at |
| Service.FetchAllKeys | dandi/services/api-key-service.ts:26-50 | a storage error or throw fails with the fetch messages; null data gives no keys; an error-free reply succeeds exactly when every row's timestamp converts, and then each row is transformed in storage order; an unconvertible timestamp fails with the unexpected-error message carrying the RangeError |
| Service.CreateOutcome | dandi/services/api-key-service.ts:55-88 | `create` succeeds iff the form is valid and storage reports no error; it fails with a validation error iff the form is invalid |
| Service.UpdateOutcome | dandi/services/api-key-service.ts:93-130 | `update` succeeds iff the form is valid, the id is non-empty and storage reports no error; a validation error iff the form is invalid or the id empty |
| Service.DeleteOutcome | dandi/services/api-key-service.ts:135-158 | `delete` succeeds iff the id is non-empty and storage reports no error; a validation error iff the id is empty |
| Service.CreateValidatesFirst | dandi/services/api-key-service.ts:55-60 | an invalid form fails with the validator's error whatever storage would answer |
| Service.UpdateChecksFormBeforeId | dandi/services/api-key-service.ts:93-100 | an invalid form is reported before a missing id; a valid form with an empty id fails with "API key ID is required" |
| Service.FailuresAreOfTwoKinds | dandi/services/api-key-service.ts:73-87 | every failure of create, update and delete is a validation error with a known message, or a service error whose original error is storage's own |
| Service.UpdateKeepsKeyAndUsage | dandi/services/api-key-service.ts:102-113 | an update keeps the table's rows, and every row's id, key, usage and creation time; only the target row's five form columns change |
| Service.CreatedKeyReadsBack | dandi/services/api-key-service.ts:55-71 | the stored key reads back with the form's fields, zero usage and a key with its type's prefix |
| Service.ApiKeyService.Create | dandi/services/api-key-service.ts:55-88 | the outcome is `CreateOutcome`; an insert is logged exactly when the form is valid; the table gains the stored row exactly on success |
| Service.ApiKeyService.Update | dandi/services/api-key-service.ts:93-130 | the outcome is `UpdateOutcome`; the write is logged only past both checks; the table changes only on success, as `UpdatedTable` |
| Service.ApiKeyService.Delete | dandi/services/api-key-service.ts:135-158 | an empty id fails without a request; otherwise the row is removed exactly on success, and then no row with that id is left in the table |
| ValidateKeyRoute.Post | app/api/validate-key/route.ts:11-67 | `valid: true` iff the body's `apiKey` is a non-blank string whose trimmed form the lookup found; 400 iff the body was read but holds no such key; an unreadable body gives 500 |
| ValidateKeyRoute.ResponseStatuses | app/api/validate-key/route.ts:17-66 | every response has status 200, 400, 401 or 500, and `valid` is true exactly with 200 |
| ValidateKeyRoute.LookupResponse | app/api/validate-key/route.ts:32-59 | a lookup gives 200 iff it found a row without error, 401 iff it reported PGRST116 or found nothing, 500 iff another error or a throw, never 400 |
| ValidateKeyRoute.RequiredCheck | app/api/validate-key/route.ts:17 | the falsy / non-string / blank test rejects exactly the keys that are not non-blank strings |
| ValidateKeyRoute.ValidOnlyWhenFound | app/api/validate-key/route.ts:17-59 | `valid: true` iff a non-blank string key was sent and the lookup of its trimmed form found a row without error |
| ValidateKeyRoute.MissingKeyIsBadRequest | app/api/validate-key/route.ts:17-22 | a missing, non-string or blank key gets 400 without a lookup |
| ValidateKeyRoute.LookupDecides | app/api/validate-key/route.ts:32-59 | PGRST116 gives 401, another error 500, no data 401, data 200, a throw 500 |
| ValidateKeyRoute.UnreadableBodyIsInternalError | app/api/validate-key/route.ts:12-14 | a body that is not JSON, or is `null`, gives 500 |
| ValidateKeyRoute.PaddingIsIgnored | app/api/validate-key/route.ts:17-28 | white space around the key does not change the response |
| ValidateKeyRoute.SameTrimSameResponse | app/api/validate-key/route.ts:17-28 | keys with the same trimmed form get the same response |
| ValidateKeyRoute.SentKeyIsLookedUp | app/api/validate-key/route.ts:17-28 | a non-blank key is answered from the lookup of its trimmed form |
| ValidationClient.ValidateApiKey | services/api-key-validation-service.ts:13-34 | true iff a non-blank key was posted in trimmed form and the answer's `valid` is exactly `true` |
| ValidationClient.OnlyTrimmedKeyIsSent | services/api-key-validation-service.ts:25 | only the trimmed key reaches the endpoint: endpoints that answer it alike give the same result |
| ValidationClient.BlankKeyNeedsNoRequest | services/api-key-validation-service.ts:15-17 | an absent or blank key is rejected whatever the endpoint would say |
| ValidationClient.TruthyIsNotEnough | services/api-key-validation-service.ts:29 | a truthy `valid` other than `true` rejects the key |
| ValidationClient.StatusIsIgnored | services/api-key-validation-service.ts:28-29 | the HTTP status never affects the result |
| ValidationClient.AcceptedIffFound | services/api-key-validation-service.ts:13-34 | against the route, a key is accepted iff it is not blank and the lookup of its trimmed form found a row without error |
| RevealedKeys.Toggled | dandi/hooks/use-revealed-keys.ts:10-20 | toggling flips exactly the given id's membership |
| RevealedKeys.ToggleTwice | dandi/hooks/use-revealed-keys.ts:10-20 | toggling an id twice restores the set |
| RevealedKeys.TogglesCommute | dandi/hooks/use-revealed-keys.ts:10-20 | toggles of two ids commute |
| RevealedKeys.RevealedIffOddToggles | dandi/hooks/use-revealed-keys.ts:8-20 | after a series of toggles an id's membership is flipped iff it was toggled an odd number of times |
| RevealedKeys.FromNothingOddToggles | dandi/hooks/use-revealed-keys.ts:8-20 | from the initial empty set, an id is revealed iff toggled an odd number of times |
| RevealedKeys.RevealedKeySet.constructor | dandi/hooks/use-revealed-keys.ts:8 | nothing is revealed at first |
| RevealedKeys.RevealedKeySet.ToggleReveal | dandi/hooks/use-revealed-keys.ts:10-20 | the set becomes `Toggled` of the old set |
| RevealedKeys.RevealedKeySet.IsRevealed | dandi/hooks/use-revealed-keys.ts:22-25 | an id is revealed iff it is in the current set |
| ApiKeyTable.DisplayApiKey | dandi/components/api-keys/ApiKeyTable.tsx:28-30 | a revealed or short key is shown as it is; a hidden key longer than 12 is shown as its text up to and including the second hyphen (none if it has fewer than two) followed by the 24-star mask |
| ApiKeyTable.DisplayOfGeneratedKey | dandi/components/api-keys/ApiKeyTable.tsx:28-30 | a generated key shows in full when revealed and as its prefix followed by 24 stars otherwise |
| ApiKeyTable.ToggleSwitchesDisplay | dandi/components/api-keys/ApiKeyTable.tsx:28-30 | toggling a key switches its display between full and masked and leaves other keys alone |
| ApiKeyTable.HiddenDisplayIsMasked | dandi/components/api-keys/ApiKeyTable.tsx:28-30 | a hidden key's display is already a fixed point of masking |
| Toast.Shown | dandi/hooks/use-toast.ts:18-23 | showing makes the toast visible with the message and the variant, "success" by default |
| Toast.Hidden | dandi/hooks/use-toast.ts:25-27 | hiding only clears visibility |
| Toast.HideIdempotent | dandi/hooks/use-toast.ts:25-27 | hiding twice is hiding once |
| Toast.HideAfterShow | dandi/hooks/use-toast.ts:18-27 | hiding a shown toast keeps its message and variant |
| Toast.ToastStore.constructor | dandi/hooks/use-toast.ts:8-16 | the initial toast is empty, "success" and hidden |
| Toast.ToastStore.ShowToast | dandi/hooks/use-toast.ts:18-23 | the state becomes `Shown(message, variant)` |
| Toast.ToastStore.HideToast | dandi/hooks/use-toast.ts:25-27 | the state becomes `Hidden` of the old state |
| NavItem.IsActive | dandi/components/navigation/NavItem.tsx:15-17 | an active link has a non-"http" address that begins the known path; a link is active on its own address |
| NavItem.ActiveIffEqualOrBelow | dandi/components/navigation/NavItem.tsx:15-17 | a non-"http" link is active iff the path equals its address or continues it with '/' |
| NavItem.AbsoluteAddressNeverActive | dandi/components/navigation/NavItem.tsx:15-16 | an address starting "http" is never active |
| NavItem.UnknownPathInactive | dandi/components/navigation/NavItem.tsx:17 | with a null path nothing is active |
| NavItem.NestedPathActive | dandi/components/navigation/NavItem.tsx:17 | a path below the address activates the link |
| NavItem.SiblingPathInactive | dandi/components/navigation/NavItem.tsx:17 | a path sharing the address as a prefix without a '/' after it does not |
| NavItem.RootActiveIff | dandi/components/navigation/NavItem.tsx:15-17 | "/" is active exactly on "/" and on paths starting "//" |
| NavItem.LinkPropsOf | dandi/components/navigation/NavItem.tsx:19-22 | an external link gets `_blank` and `noopener noreferrer`; others only their address |
| ApiKeyForm.ResetState | hooks/use-api-key-form.ts:27-37 | reset restores the default form, clears the edited key and the error |
| ApiKeyForm.WithField | hooks/use-api-key-form.ts:83-88 | exactly the named field takes the new value |
| ApiKeyForm.WithFieldLastWins | hooks/use-api-key-form.ts:83-88 | two edits of one field: the last wins |
| ApiKeyForm.ErrorAfterEdit | hooks/use-api-key-form.ts:89-92 | a non-empty error becomes none; none and the empty string stay as they are |
| ApiKeyForm.FormFromKey | hooks/use-api-key-form.ts:39-49 | editing copies the key's fields; a non-zero limit is kept and a missing or zero limit becomes 1000 |
| ApiKeyForm.EditingStoredKeyKeepsItValid | hooks/use-api-key-form.ts:39-49 | a key whose own fields are valid loads as a valid form |
| ApiKeyForm.SaveErrorMessage | hooks/use-api-key-form.ts:64-73 | an `Error`'s own message is reported, else "Failed to save API key" |
| ApiKeyForm.SaveOutcome | hooks/use-api-key-form.ts:56-60 | the save succeeds iff the form is valid, storage reports no error and, when editing, the key's id is non-empty |
| ApiKeyForm.SubmitEffect | hooks/use-api-key-form.ts:51-81 | afterwards the form is idle; success resets the form and notifies success first, with an error only if `onSuccess` threw; failure keeps the input and reports the error's message once |
| ApiKeyForm.SubmitEndsIdle | hooks/use-api-key-form.ts:78-80 | after a submission the form is never left submitting |
| ApiKeyForm.SuccessResetsForm | hooks/use-api-key-form.ts:56-63 | a successful save resets the form and notifies success once |
| ApiKeyForm.FailureKeepsInput | hooks/use-api-key-form.ts:64-76 | a failed save keeps the input and reports the error's message once |
| ApiKeyForm.ThrowingSuccessCallbackIsReported | hooks/use-api-key-form.ts:62-76 | a throwing `onSuccess` leaves the form reset but reports its message |
| ApiKeyForm.InvalidFormReportsValidatorMessage | hooks/use-api-key-form.ts:51-76 | an invalid form is reported with the validator's message, creating or editing |
| ApiKeyForm.FormHook.constructor | hooks/use-api-key-form.ts:16-25 | the hook starts with the default form, nothing edited, idle, no error |
| ApiKeyForm.FormHook.ResetForm | hooks/use-api-key-form.ts:27-37 | the state becomes `ResetState` of the old state |
| ApiKeyForm.FormHook.InitializeForm | hooks/use-api-key-form.ts:39-49 | the form becomes `FormFromKey(key)`, the key is being edited, the error is cleared |
| ApiKeyForm.FormHook.UpdateFormField | hooks/use-api-key-form.ts:83-95 | one field changes and the error becomes `ErrorAfterEdit` of the old error |
| ApiKeyForm.FormHook.SubmitForm | hooks/use-api-key-form.ts:51-81 | the new state and notifications are `SubmitEffect` of the old state and the outcome of `update` (when editing) or `create`; the service's write log gains that call's request and its table changes as that call's contract says |

## Left out

- **Storage.** The Supabase client is not part of this model. Its replies are inputs. Its query ordering by `created_at` is taken as given in the rows `fetchAll` receives.
- **Storage's effect on a throwing write.** A write whose call throws is taken to leave the table unchanged.
- **Service.ApiKeyService.Create:** requires that the new row's id is not already in the table. This is storage's job, not the service's.
- **Math.random.** Not modelled: its draws are the `picks` parameter.
- **Dates.** The JavaScript Date library and `toISOString` are not modelled: a row's creation date is a parameter (`None` where `toISOString` throws).
- **HTTP.** `fetch`, `request.json()`, `response.json()` and `NextResponse` are reduced:
  - to the key sent and what came back (a parsed body's `valid` property, a network failure, or an unreadable body);
  - on the route side, to the body's `apiKey` property.
- **Logging.** `console.error` output is not modelled.
- **Strings.** A Dafny `char` is a Unicode scalar value, while JavaScript counts UTF-16 code units. The two agree on characters of the Basic Multilingual Plane. A character outside it (an emoji, say) is one `char` in the model and two code units in JavaScript, so every length the model measures is exact only for text inside that plane.
- Validation.ValidateApiKeyForm: counts a character outside the Basic Multilingual Plane as one where `name.length` counts two, so a name of 60 such characters passes here while the source rejects it as longer than 100.
- Masker.MaskApiKey: its 12-unit threshold is likewise measured in characters, not UTF-16 code units; generated keys are ASCII, so they are unaffected.
- **Numbers.** Numbers are integers: NaN, infinities and fractional limits are not modelled. `null` and `undefined` are both `None`.
- **React scheduling.** Asynchronous rendering and the batching of state updates are not modelled. The form's `isSubmitting` is true only while `submitForm` runs, and is modelled by its value afterwards.
- **A throwing `onError`.** An `onError` callback that itself throws is not modelled.
- **Callbacks.** Callbacks other than a throwing `onSuccess` are calls into code outside this model. The form records them as the list of notifications sent.
- **`fetchAll` is a function of storage's reply,** not a method of `ApiKeyService`. It only reads.
- **Not modelled at all:**
  - the clipboard helper;
  - session storage;
  - the playground pages;
  - everything that only renders markup.
