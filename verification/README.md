# CPOA Product Group Utility — a Dafny model of the widget core

The widget is embedded in a Zoho CRM deal page. It waits for the host's
`PageLoad` event and normalises the deal record the event carries. It reads
the deal's product line items from the `Subform_1` subform and lets the user
edit each item's one-letter product grouping. It validates the edited list
and writes the whole subform back with a single `updateRecord` call. An error
boundary around the UI offers a bounded number of retries.

This project models that core as pure functions over an explicit model of
JavaScript values:

- `wrappers.dfy` (`Wrappers`): `Option` and `Result`.
- `js_value.dfy` (`JsValues`): the value model.
  - `JsValue` covers undefined, null, booleans, numbers with NaN and the
    infinities, strings, arrays and plain objects.
  - It also defines truthiness, `||`, property read (`Get`), `typeof … ===
    'object'` and the `isRecord` guard.
  - `String(v)` is defined over an abstract `Runtime`, which supplies
    `parseFloat`, number formatting and the wording of the `TypeError` thrown
    by a property read on `null` or `undefined`.
  - It also holds decimal numerals for the 1-based labels, and what a thrown
    value looks like (`Error` or anything else).
- `coercion.dfy` (`Coercion`): the provider's `safeString`,
  `safeStringOrNull`, `safeUser`, `safeNumber` and `safeSubform`.
- `deal.dfy` (`Deals`): the normalised deal record and its parser
  (`parseZohoDataManually`).
  - The record's fields are grouped by the coercion that fills them. Each
    group is a total function from a field enumeration, so every field of
    the record is always present.
- `provider.dfy` (`Provider`): the provider's load state and its transitions.
  - The transitions are: SDK missing, init failure, `PageLoad`, the 5-second
    timeout with its localhost mock, and `clearError`.
  - It also holds the invariant that every run of load events keeps.
- `product_types.dfy` (`ProductTypes`): `ProductItem` and `ProductFormData`.
- `seqs.dfy` (`Seqs`): flattening a sequence of sequences, used by the
  validator.
- `zoho_api.dfy` (`ZohoApi`): the service layer.
  - `validateProductData`.
  - The mapping of items to Zoho subform records, and the update payload.
  - The guards, the host call and the response checks of
    `updateProductSubformArray`.
  - `updateProductGrouping`.
- `product_management.dfy` (`ProductManagement`): the `useProductManagement`
  hook.
  - Deal id, line-item extraction from both row shapes, and seeding of the
    editable list.
  - The grouping sanitiser and editor.
  - The single-item update with optimistic edit and rollback.
  - The submit orchestration with its toasts.
- `error_boundary.dfy` (`ErrorBoundary`): the error state, the retry counter
  (at most three retries, then a reload) and the button label.
- `scenarios.dfy` (`Scenarios`): facts relating the provider's normalised
  deal to what the hook reads from the same raw payload.

The host is a parameter everywhere:

- The update call is a function from the payload to a resolved response or a
  thrown value.
- The presence of `ZOHO.CRM.API.updateRecord` is a boolean.
- Whether the page runs on `localhost` is a boolean.
- A page reload is reported as a flag, not performed.

Behaviours of the code a reader might not expect, which the model keeps:

- `safeUser` on a bare string returns the default user. Only objects are
  looked into, so a string does not become the name.
- `safeNumber` returns any JavaScript number unchanged, `NaN` and the
  infinities included. Only a string that parses to `NaN` falls back to the
  default.
- A host `id` or `Deal_Name` that is the empty string is kept, so the record
  does not guarantee non-empty values (`Deals.EmptyStringsAreKept`).
- The submit checks API availability before it validates the list.
- An update response without a first result is an error thrown by
  `updateProductSubformArray` ("No response data received from Zoho API"). It
  therefore ends as a failure toast, not a warning.
- A first result with code `SUCCESS` but no `details.Modified_By` is a
  failure. The success log reads `details.id` and `details.Modified_By.name`,
  the read throws a `TypeError`, and the catch block rethrows it. The submit
  then shows the failure toast, and a single-item update rolls back.

## Model

| member | source | states |
|---|---|---|
| Coercion.SafeString | src/providers/ZohoProviderModern.tsx:15-21 | a string is returned as is; an object with a `name` key gives `String(name)`; every other value gives the default |
| Coercion.SafeStringOrNull | src/providers/ZohoProviderModern.tsx:24-30 | null exactly when no string can be derived; otherwise the string that `safeString` derives, whatever its default |
| Coercion.SafeUser | src/providers/ZohoProviderModern.tsx:33-41 | non-objects (bare strings included) and arrays give `{defaultName, "unknown"}`; for an object the id is `safeString(id, "unknown")` and the name is `safeString` of a truthy `name`, the printed falsy `name` when the key exists, and the default otherwise |
| Coercion.SafeNumber | src/providers/ZohoProviderModern.tsx:44-51 | numbers pass through unchanged; a string gives its `parseFloat` unless that is NaN; anything else gives the default; NaN comes out only from a NaN input or a NaN default |
| Coercion.SafeSubform | src/providers/ZohoProviderModern.tsx:54-59 | a plain object is kept as is; arrays and everything else give the empty map |
| Coercion.HostUserReadBack | src/providers/ZohoProviderModern.tsx:33-41 | a host user object `{name, id}` with string fields is read back as exactly that user |
| Deals.Normalise | src/providers/ZohoProviderModern.tsx:90-201 | each field of the record is the coercion of its own host key, with that field's default |
| Deals.ParseDeal | src/providers/ZohoProviderModern.tsx:62-80 | no record exactly when the payload is falsy or its `data` is falsy or neither an object nor an array (so `data: null` gives none); otherwise the normalised `data` |
| Deals.EmptyDataDefaults | src/providers/ZohoProviderModern.tsx:90-201 | an empty `data` object (or an array) parses to the record of defaults: sentinel strings, 0, default users, null texts, false flags, empty subform |
| Deals.FieldsAreIndependent | src/providers/ZohoProviderModern.tsx:90-201 | each field of the record depends only on its own host key |
| Deals.EmptyStringsAreKept | src/providers/ZohoProviderModern.tsx:92-93 | an empty host id and deal name stay empty; they are not replaced by the sentinels |
| Provider.OnSdkMissing | src/providers/ZohoProviderModern.tsx:221-229 | sets the SDK error and stops loading; nothing else changes |
| Provider.OnInitFailure | src/providers/ZohoProviderModern.tsx:340-347 | the error is the init prefix plus the Error's message, or "Unknown error" for a non-Error value; loading stops |
| Provider.OnPageLoad | src/providers/ZohoProviderModern.tsx:235-251 | ready, not loading, raw payload kept, deal is the parse result, and the error is cleared exactly when the parse succeeds |
| Provider.OnTimeout | src/providers/ZohoProviderModern.tsx:285-338 | a ready or failed state is untouched; otherwise localhost gets the parsed mock deal and other hosts get the timeout error |
| Provider.ClearError | src/providers/ZohoProviderModern.tsx:384-386 | only the error is removed |
| Provider.MockPayloadParses | src/providers/ZohoProviderModern.tsx:295-319 | the development mock parses to a deal with the mock id, name and owner |
| Provider.TimeoutAfterPageLoad | src/providers/ZohoProviderModern.tsx:285-337 | after the load event the timeout changes nothing |
| Provider.TimeoutIdempotent | src/providers/ZohoProviderModern.tsx:286-337 | a second timeout changes nothing |
| Provider.ClearErrorAfterFailedParse | src/providers/ZohoProviderModern.tsx:384-386 | clearing the error after a failed parse leaves a ready state with neither deal nor error |
| Provider.RunConsistent | src/providers/ZohoProviderModern.tsx:207-347 | every run of load events keeps the invariant: loading means neither ready nor failed, ready means not loading, and ready without an error means a deal is present |
| ZohoApi.ItemErrors | src/services/zohoApi.ts:282-304 | at most five messages, all carrying the item's 1-based prefix; none exactly when the item satisfies the reference validity predicate; a falsy id is reported first |
| ZohoApi.ItemErrorsPerCheck | src/services/zohoApi.ts:282-304 | each of the five messages is reported exactly when the item fails its check (falsy id; falsy or non-string name; truthy grouping that is not one capital letter; quantity or unit price present and not a finite non-negative number), and no message twice |
| ZohoApi.MissingIdReported | src/services/zohoApi.ts:285-287 | the missing-id message is reported exactly when the id is falsy |
| ZohoApi.InvalidNameReported | src/services/zohoApi.ts:289-291 | the name message is reported exactly when the name is falsy or not a string |
| ZohoApi.GroupingReported | src/services/zohoApi.ts:293-295 | the grouping message is reported exactly when the grouping is truthy and does not print as one capital letter |
| ZohoApi.QuantityReported | src/services/zohoApi.ts:297-299 | the quantity message is reported exactly when the quantity is present and not a finite non-negative number |
| ZohoApi.UnitPriceReported | src/services/zohoApi.ts:301-303 | the unit-price message is reported exactly when the price is present and not a finite non-negative number |
| ZohoApi.OnlyCheckMessagesReported | src/services/zohoApi.ts:282-304 | every error about an item is one of its five check messages |
| ZohoApi.NoItemMessageTwice | src/services/zohoApi.ts:282-304 | no message appears twice among one item's errors |
| ZohoApi.ItemErrorsInCheckOrder | src/services/zohoApi.ts:282-304 | the messages about one item come in the order the checks run (id, name, grouping, quantity, unit price): of two reported messages, the earlier belongs to the earlier check |
| ZohoApi.ValidateProductData | src/services/zohoApi.ts:265-307 | an empty list gives the single empty-list error; more than 100 items puts the limit error first; no errors exactly when 1 to 100 items are all valid; at most 1 + 5n messages |
| ZohoApi.TwoMalformedItems | src/services/zohoApi.ts:265-307 | a nameless first item and a second item with grouping "AB" give exactly `Product 1:` with the name message and `Product 2:` with the grouping message, in that order |
| ZohoApi.OnlyNameFails | src/services/zohoApi.ts:282-304 | an item failing only the name check gets exactly the name message |
| ZohoApi.OnlyGroupingFails | src/services/zohoApi.ts:282-304 | an item failing only the grouping check gets exactly the grouping message |
| ZohoApi.EveryItemErrorReported | src/services/zohoApi.ts:282-304 | every error of every item appears in the result |
| ZohoApi.ReportedErrorHasItem | src/services/zohoApi.ts:282-304 | every reported error other than the limit error belongs to some item |
| ZohoApi.ErrorsNameTheirItem | src/services/zohoApi.ts:283 | a message determines the item index it was reported for |
| ZohoApi.ToRecord | src/services/zohoApi.ts:134-147 | exactly the nine record keys and no `id`; `Products` is the item id; quantity, terms and pricing are the item value when truthy and 1, "Co-Terminus" and 0 otherwise; grouping and vendor are the item value when truthy and null otherwise; `Total_Pricing` is a string item value unchanged, `String` of any other truthy value, and "0" for a falsy one; `Is_Contract` is the item value unless nullish, then false |
| ZohoApi.BuildPayload | src/services/zohoApi.ts:151-154 | exactly the keys `id` (the deal id) and `Subform_1` (one record per item, in order) |
| ZohoApi.CheckResponse | src/services/zohoApi.ts:185-204 | accepted exactly when `data` is an array with a truthy first element that does not report `SUCCESS` without `details.Modified_By`; otherwise the invalid-format error, the no-data error, or the `TypeError` of the success log's property read |
| ZohoApi.BareSuccessIsRejected | src/services/zohoApi.ts:195-199 | a `SUCCESS` result without `details` is rejected with the `TypeError` of reading `details.id` |
| ZohoApi.UpdateProductSubformArray | src/services/zohoApi.ts:100-226 | guards in order (deal id, non-empty list, API present); sends exactly when all pass, and sends the built payload; a host rejection is rethrown; a response is checked, and a failed check (the success log's `TypeError` included) is rethrown |
| ZohoApi.UpdateSucceedsOnlyWithCheckedResponse | src/services/zohoApi.ts:176-204 | success implies the payload was sent and the host's response passed the checks: an array `data`, a truthy first result, and `details.Modified_By` present when it reports `SUCCESS` |
| ZohoApi.ToUpperAscii | src/services/zohoApi.ts:251 | same length; ASCII lower-case letters are upper-cased and every other character is kept |
| ZohoApi.RegroupById | src/services/zohoApi.ts:249-253 | every item with the id gets the upper-cased grouping; every other item is unchanged |
| ZohoApi.RegroupIdempotent | src/services/zohoApi.ts:249-253 | regrouping twice equals regrouping once |
| ZohoApi.UpdateProductGrouping | src/services/zohoApi.ts:237-257 | the update of the regrouped list: the missing-deal-id, empty-list and API-unavailable errors with nothing sent; otherwise the regrouped payload is sent, a rejection is rethrown and a response goes through the checks; a matching item's record carries null for an empty grouping and the upper-cased grouping otherwise |
| ProductManagement.DealIdOf | src/hooks/useProductManagement.ts:13-21 | the `data.id` of a record-shaped payload; the empty string otherwise |
| ProductManagement.SubformItems | src/hooks/useProductManagement.ts:23-40 | the `Subform_1` array of the deal record; empty when there is no record or the subform is not an array |
| ProductManagement.RecordRows | src/hooks/useProductManagement.ts:45-46 | keeps exactly the plain-object rows, in order; a list of only such rows is kept whole |
| ProductManagement.RecordRowsAppend | src/hooks/useProductManagement.ts:45-46 | filtering distributes over concatenation |
| ProductManagement.ExtractRow | src/hooks/useProductManagement.ts:47-85 | a row whose `Products` is a truthy plain object (not an array) takes id and name from it (else `product-{i}` and "Unknown Product"); any other row takes its own `id`, then `Product_Name`, `name` or `Product {i+1}`; every other field is the host value when truthy and its default otherwise; `isContract` is the boolean of the host flag |
| ProductManagement.ExtractProducts | src/hooks/useProductManagement.ts:23-101 | one item per plain-object row, in order, numbered by position among those rows |
| ProductManagement.SeedEditable | src/hooks/useProductManagement.ts:89-99 | with items and a truthy deal id, each item stamped with the deal id; otherwise the empty list |
| ProductManagement.Sanitize | src/hooks/useProductManagement.ts:103 | the result is no longer than the input and holds only capital letters |
| ProductManagement.SanitizeSingleton | src/hooks/useProductManagement.ts:103 | a single letter becomes its capital; any other single character is removed |
| ProductManagement.SanitizeAppend | src/hooks/useProductManagement.ts:103 | sanitising distributes over concatenation |
| ProductManagement.SanitizeFixpoint | src/hooks/useProductManagement.ts:103 | a string is left unchanged exactly when it holds only capital letters |
| ProductManagement.SanitizeIdempotent | src/hooks/useProductManagement.ts:103 | sanitising twice equals sanitising once |
| ProductManagement.SanitizeExample | src/hooks/useProductManagement.ts:103 | `"a1!B"` becomes `"AB"` |
| ProductManagement.ChangeGrouping | src/hooks/useProductManagement.ts:102-109 | the item at the index gets the grouping `JStr(Sanitize(value))`; only that item changes, and only in its grouping |
| ProductManagement.ChangeGroupingIdempotent | src/hooks/useProductManagement.ts:102-109 | the same edit twice equals one edit |
| ProductManagement.ChangeGroupingLastWins | src/hooks/useProductManagement.ts:102-109 | of two edits to one item the last wins |
| ProductManagement.ChangeGroupingCommutes | src/hooks/useProductManagement.ts:102-109 | edits to different items commute |
| ProductManagement.ChangeGroupingPresanitised | src/hooks/useProductManagement.ts:113-128 | sanitising before the editor is the same as not doing so |
| ProductManagement.UpdateSingleGrouping | src/hooks/useProductManagement.ts:112-160 | no effect without a deal id or an item at the index; otherwise the list with the edited item is sent when the API is present |
| ProductManagement.SingleUpdateSuccessKeepsEdit | src/hooks/useProductManagement.ts:127-141 | on success the edited list stays and the toast reads "Successfully updated {name} grouping to {sanitised value}" |
| ProductManagement.RollbackRestoresSanitised | src/hooks/useProductManagement.ts:143-158 | on failure the item gets its previous grouping back (sanitised, `""` if falsy) and the destructive toast reads "Failed to update product grouping: " followed by the thrown message |
| ProductManagement.RollbackIsExactForSanitisedGrouping | src/hooks/useProductManagement.ts:147 | when the previous grouping was capital letters only, the rollback restores the list exactly |
| ProductManagement.RollbackThrowsOnNonStringGrouping | src/hooks/useProductManagement.ts:147 | a truthy non-string previous grouping makes the rollback throw; the edited list stays and no toast shows |
| ProductManagement.SingleUpdateRollsBackOnUnreadableSuccess | src/hooks/useProductManagement.ts:133-158 | a `SUCCESS` result without `details.Modified_By` rolls the edit back and shows the failure toast with the `TypeError` message |
| ProductManagement.SuccessMessage | src/hooks/useProductManagement.ts:231 | the word "product" is singular exactly for one product |
| ProductManagement.ResponseToast | src/hooks/useProductManagement.ts:229-250 | success with the count message exactly when the first result is truthy and reports `SUCCESS`; otherwise the warning "Update completed with status: " followed by the result's message, or "Unknown status" when that is falsy |
| ProductManagement.HandleSubmitForm | src/hooks/useProductManagement.ts:160-264 | guards in order (deal id, non-empty list, API, validation), each with its toast and nothing sent; sends exactly when all pass, and sends the built payload |
| ProductManagement.SubmitOutcomes | src/hooks/useProductManagement.ts:224-263 | after the guards: a rejection or a failed response check gives the failure toast with the message; a checked response gives success exactly when its first result reports `SUCCESS`, and otherwise the warning quoting its message or "Unknown status" |
| ProductManagement.SubmitFailsOnUnreadableSuccess | src/hooks/useProductManagement.ts:228-262 | a `SUCCESS` result without `details.Modified_By` gives the failure toast with the `TypeError` message, not the success toast |
| ProductManagement.SerialiseThenExtract | src/hooks/useProductManagement.ts:73-84 | an item whose fields are all truthy and well-typed, sent as a record and stored with its product lookup, is extracted back unchanged |
| ProductManagement.MissingQuantityIsSentAsOne | src/hooks/useProductManagement.ts:77 | a row without a quantity is read as 0 and written back as 1 |
| ErrorBoundary.DeriveStateFromError | src/components/ErrorBoundary.tsx:36-41 | shows the error; the recorded details and the counter stay |
| ErrorBoundary.DidCatch | src/components/ErrorBoundary.tsx:43-52 | records the error and the component stack; nothing else changes |
| ErrorBoundary.Catch | src/components/ErrorBoundary.tsx:36-52 | a caught error gives the full error state with the counter untouched |
| ErrorBoundary.Retry | src/components/ErrorBoundary.tsx:64-76 | below three retries: counter plus one and the error cleared; at the limit: unchanged, and the page reloads |
| ErrorBoundary.RetryLabel | src/components/ErrorBoundary.tsx:108 | "Max Retries Reached" at the limit, "Retry (n/3)" below it |
| ErrorBoundary.DisplayedMessage | src/components/ErrorBoundary.tsx:97 | the error's own message when non-empty; never empty |
| ErrorBoundary.RetryCountBounded | src/components/ErrorBoundary.tsx:64-76 | over any run the counter never exceeds 3, never decreases, and equals min(3, start + retry clicks) |
| ErrorBoundary.DisabledAfterThreeRetries | src/components/ErrorBoundary.tsx:104 | from the initial state the button is disabled exactly after three retry clicks |
| ErrorBoundary.LabelsDistinct | src/components/ErrorBoundary.tsx:108 | different counts below the limit get different labels, neither of them the disabled label |
| Scenarios.DealIdAgreesWithDeal | src/hooks/useProductManagement.ts:13-21 | for a string host id the hook's deal id is the normalised deal's id |
| Scenarios.MissingIdDisagrees | src/hooks/useProductManagement.ts:13-21 | without a host id the deal says "unknown" while the hook's id is falsy and nothing is seeded |
| Scenarios.SubformArrayReadOnlyByHook | src/hooks/useProductManagement.ts:37-40 | an array subform is dropped by the normaliser but read by the extractor |
| Scenarios.MockExtraction | src/providers/ZohoProviderModern.tsx:303-315 | the mock's one row extracts with its lookup id and name; type and unit price are the defaults because the mock uses other keys |
| Scenarios.MixedShapesExtraction | src/hooks/useProductManagement.ts:45-85 | a subform holding a nested row, a number and a flat row extracts to two items: the nested row named from its lookup, the flat row from its own id and `name`, with quantity 0 |
| Scenarios.SubmitSendsSeededRows | src/hooks/useProductManagement.ts:89-99 | a submitted seeded list sends the hook's deal id and one record per plain-object row, each naming its row's product |

## Left out

- Logging (`console.*`, `ZOHO.CRM.API.logError`), widget resizing and the
  debug event listeners: they produce no state. The one exception is the
  property reads inside the success log, which can throw. They are modelled
  in `ZohoApi.CheckResponse`.
- The 100 ms polling for the SDK. The model begins when the SDK is present
  or its absence is reported.
- Provider.OnSdkMissing: kept as a transition, although in the code
  `initializeZoho` runs only once the embedded app exists, so that branch is
  not reached.
- `refreshData` and the boundary's "Reload Page" button: both reload the
  page, which ends the model's run.
- ErrorBoundary.Retry: at the limit the reload is a flag. Browser
  navigation is not modelled.
- The boundary's `fallback` and `onError` props and the development-only
  stack display: these are presentation.
- React scheduling:
  - state updates are applied at once, in order;
  - each action sees the editable list as it was when the action began;
  - re-entrant submissions are not modelled.
- The timers: the 5-second timeout is an event with no clock.
- `parseFloat` and the formatting of non-integral numbers: these are engine
  primitives, given as parameters of `Runtime`.
- JSON serialisation: the payload is a value; keys whose value is
  `undefined` are not dropped.
- The `Entity` and `Trigger` arguments of `updateRecord`: these are
  constants the model does not use.
- The validator branch for a non-array argument: a list is always an array
  here, so that message cannot arise.
- ProductManagement.ChangeGrouping: requires an index inside the list. The
  code would write a partial item at an out-of-range index; every caller
  passes the index of a rendered row.
- ZohoApi.ToUpperAscii: upper-cases ASCII letters only. It keeps every other
  character, including non-ASCII letters that JavaScript's `toUpperCase`
  would upper-case. For such input the JavaScript result can also differ in
  length: 'ß' becomes "SS".
- The Zod schemas, the Zoho type declarations, the UI components and the
  toast rendering: toasts are data here.
- `isRecord` follows the definition in
  `src/components/DealViewerSimple.tsx`. The hook imports it from
  `src/utils/dataHelpers`, which is not part of this model.
