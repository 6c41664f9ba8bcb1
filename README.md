# Admin dashboard rules, modelled in Dafny

This project models the deterministic core of a Next.js admin-dashboard
starter. Under its React components there is a set of small rules and two
small state machines, and these are what the model covers:

- **Query cache** (`QueryClientConfig`, `PrefetchDehydrate`):
  - the TanStack Query client defaults;
  - the retry predicate;
  - the mutation-cache hooks (success toast, the three-level error-message fallback, invalidation);
  - the lazily created browser-side client singleton;
  - the per-key fetch options;
  - the "fetch key is a prefix of the query key" dehydration filter;
  - the sequential prefetch loop.
- **Requests** (`ApiService`, `Misc`):
  - the API client's URL, header merge and body/content-type choice;
  - classification of a response into the standard envelope or an error message;
  - the `convertToFormData` loop;
  - the cookie options.
- **Time entry** (`TimePickerForm`, `TimePickerPopover`):
  - the clock-face picker as a class whose handlers update `hour`, `minute`, `period` and `mode` and record the `onChange`/`onClose` calls they make;
  - the `HH:MM AM|PM` formatter;
  - the initial-state parse;
  - the 12-hour face conversion;
  - the popover's trigger label.
- **Table pagination** (`DataTable`):
  - the page count as a ceiling division;
  - translation between 1-based and 0-based page indexes in external mode;
  - updater application in internal mode;
  - the body-row and cell-kind dispatch.
- **Small classifiers** (`CustomSelect`, `StatusBadge`, `FileSchema`, `Constants`):
  - option selection and the value written back by the select field;
  - status colours, label normalisation and the badge width;
  - the image/document upload schemas against the MIME allow-lists and size caps.

JavaScript behaviour the source relies on is written out in `JsStrings`:
- `parseInt` reads the leading decimal digits, and gives `None` (NaN) when there are none;
- `split(":")`;
- `padStart(2, "0")`;
- `String(n)`;
- `includes`;
- `replaceAll`;
- ASCII `toLowerCase`.

JavaScript truthiness is spelled out per type wherever the source tests a value with `||`, `&&` or `!`.

Effects that leave the component are recorded rather than performed:
- toasts and invalidations are returned as `Effect` values;
- the picker's callbacks are appended to `events`;
- the table's external callbacks are appended to `calls`;
- the select's field update and callback are returned as `ChangeEffect` values;
- requests are returned as `Request` values, together with the classified outcome of a given response.

## Model

| member | source | states |
|---|---|---|
| JsStrings.NatToString | src/utils/misc.ts:23 | `String(n)` for a natural: at least one character, all decimal digits, and a leading '0' only for zero |
| JsStrings.NatToStringRoundTrip | src/utils/misc.ts:23 | the decimal text `String(n)` writes for a natural number reads back as that number |
| JsStrings.LeadingDigits | src/components/shared/form/TimePicker.tsx:15 | the longest run of decimal digits at the front of the text: a prefix, all digits, followed by a non-digit or the end |
| JsStrings.ParseInt | src/components/shared/form/TimePicker.tsx:15 | `parseInt` is NaN exactly when the text is empty or does not start with a digit |
| JsStrings.ParseIntOfDigits | src/components/shared/form/TimePicker.tsx:15 | digits followed by a non-digit (or nothing) parse to the digits' value |
| JsStrings.PadStart2 | src/components/shared/form/TimePicker.tsx:25-26 | texts of two or more characters are kept; shorter ones are filled with '0' in front up to two characters, the text itself at the end |
| JsStrings.PaddedNumber | src/components/shared/form/TimePicker.tsx:25-26 | padding the text of a number below 100 gives two digits that still read as the number |
| JsStrings.Split | src/components/shared/form/TimePicker.tsx:15 | `split` always yields at least one piece and no piece holds the separator; the first piece is the text up to the first separator; a text without the separator is one piece |
| JsStrings.SplitAtFirst | src/components/shared/form/TImePickerPopover.tsx:33 | text before the first separator is the first piece, followed by the pieces of the rest |
| JsStrings.Contains | src/utils/lib/tanstack-query/query-client.ts:57 | `includes` holds iff the substring occurs at some position |
| JsStrings.ReplaceAllChar | src/components/shared/status-badge.tsx:51 | every occurrence of the character is replaced and nothing else changes |
| JsStrings.ToLowerAscii | src/components/shared/status-badge.tsx:51 | every character is lowercased in place; length is kept |
| Constants.AllowListsShape | src/utils/constants.ts:1-14 | six distinct image MIME types including both jpeg spellings, three distinct document types, and no type on both lists |
| Constants.SizeCaps | src/utils/constants.ts:16-17 | both size caps are 20 MiB = 20971520 bytes |
| FileSchema.Issues | src/utils/schema/image-doc-schema.ts:10-63 | a non-file gives only "Expected a file"; null/undefined gives no issue; a file gets the unsupported-format message iff its type is off the list and the size message iff it is over the cap |
| FileSchema.FileAcceptedIff | src/utils/schema/image-doc-schema.ts:17-35 | a file is accepted iff its type is allowed and its size is within the cap |
| FileSchema.EmptyAndNonFileInputs | src/utils/schema/image-doc-schema.ts:11-19 | an empty field passes both schemas; a non-file fails with "Expected a file" |
| FileSchema.SizeBoundInclusive | src/utils/schema/image-doc-schema.ts:27-35 | exactly 20971520 bytes passes; one byte more fails with only the size message |
| FileSchema.CrossKindRefused | src/utils/schema/image-doc-schema.ts:45-54 | a PDF is refused as an image and a PNG as a document, each with its own format message |
| Misc.CookieOptionsFor | src/utils/misc.ts:1-6 | path "/", sameSite "strict", maxAge three days in seconds, secure exactly in production |
| Misc.JsString | src/utils/misc.ts:23 | `String(value)` for each kind of value: numbers in decimal, booleans as "true"/"false", strings as themselves |
| Misc.EntryFor | src/utils/misc.ts:20-24 | a File is appended as itself, any other value as `String(value)`, under its own key |
| Misc.ConvertToFormData | src/utils/misc.ts:9-28 | the loop appends exactly the entries of the retained properties, in iteration order |
| Misc.FormEntriesAppend | src/utils/misc.ts:12-25 | the entries of two property runs are the entries of each, concatenated |
| Misc.FormEntriesMembership | src/utils/misc.ts:12-24 | an entry is in the form data iff it comes from an own property whose value is not null, undefined or "" |
| Misc.FormEntriesBound | src/utils/misc.ts:12-25 | there are at most as many entries as own keys, and no more than properties |
| Misc.FalsyButKept | src/utils/misc.ts:18 | own properties holding `0` or `false` are appended as "0" and "false" |
| Misc.SkippedNeverAppended | src/utils/misc.ts:13-18 | a key whose every occurrence is inherited or empty never appears in the form data |
| QueryClientConfig.DefaultQueryOptions | src/utils/lib/tanstack-query/query-client.ts:49-52 | staleTime equals gcTime, both five minutes, and no refetch on window focus |
| QueryClientConfig.IsAuthorizationError | src/utils/lib/tanstack-query/query-client.ts:56-57 | an error is an Authorization error when it is an Error whose message contains "Authorization" |
| QueryClientConfig.Retry | src/utils/lib/tanstack-query/query-client.ts:53-62 | a retry is granted only below three failures and never for an Authorization error |
| QueryClientConfig.RetryBudget | src/utils/lib/tanstack-query/query-client.ts:55-61 | over failure counts 0..n-1, an Authorization error is retried 0 times and any other error min(n, 3) times |
| QueryClientConfig.OnSuccess | src/utils/lib/tanstack-query/query-client.ts:18-22 | one success toast with the meta message iff that message is a non-empty string, else nothing |
| QueryClientConfig.OnError | src/utils/lib/tanstack-query/query-client.ts:23-37 | exactly one error toast with a non-empty message: the Error's own message, else meta.errorMessage, else "An unexpected error occurred." |
| QueryClientConfig.OnSettled | src/utils/lib/tanstack-query/query-client.ts:38-46 | invalidates exactly the meta key when one is given, otherwise does nothing |
| QueryClientConfig.QueryClient.constructor | src/utils/lib/tanstack-query/query-client.ts:15-66 | a new client has an empty cache and the default query options |
| QueryClientConfig.QueryClient.PrefetchQuery | src/utils/lib/tanstack-query/prefetch-dehydrate-keys.tsx:28-29 | the key is logged and a query under that key is in the cache afterwards, added once |
| QueryClientConfig.ClientRegistry.constructor | src/utils/lib/tanstack-query/query-client.ts:68 | no browser client exists at start |
| QueryClientConfig.ClientRegistry.GetQueryClient | src/utils/lib/tanstack-query/query-client.ts:70-81 | on the server a fresh client each call, the singleton untouched; in the browser the stored client, created and stored on the first call |
| QueryClientConfig.SingletonInBrowser | src/utils/lib/tanstack-query/query-client.ts:70-81 | two browser calls return the same client; two server calls return different ones |
| PrefetchDehydrate.GetCustomQueryOptions | src/utils/lib/tanstack-query/prefetch-dehydrate-keys.tsx:14-19 | one option per key, same order, each with that key and a 300000 ms stale time |
| PrefetchDehydrate.FetchKeyMatches | src/utils/lib/tanstack-query/prefetch-dehydrate-keys.tsx:39-41 | the length test plus element-wise equality is exactly the sequence-prefix relation |
| PrefetchDehydrate.SomeFetchKeyMatches | src/utils/lib/tanstack-query/prefetch-dehydrate-keys.tsx:38-42 | `some` holds iff some fetch key is a prefix of the query key |
| PrefetchDehydrate.ShouldDehydrateQuery | src/utils/lib/tanstack-query/prefetch-dehydrate-keys.tsx:34-43 | a query is dehydrated iff its key is an array and some fetch key is a prefix of it |
| PrefetchDehydrate.Dehydrate | src/utils/lib/tanstack-query/prefetch-dehydrate-keys.tsx:33-44 | the dehydrated queries are exactly the cached queries the predicate accepts |
| PrefetchDehydrate.LongerFetchKeyNeverMatches | src/utils/lib/tanstack-query/prefetch-dehydrate-keys.tsx:40 | a fetch key longer than the query key never matches |
| PrefetchDehydrate.ExactKeyDehydrated | src/utils/lib/tanstack-query/prefetch-dehydrate-keys.tsx:40-41 | a query whose key is one of the fetch keys is dehydrated |
| PrefetchDehydrate.DehydrateEdgeCases | src/utils/lib/tanstack-query/prefetch-dehydrate-keys.tsx:35-41 | no fetch keys dehydrate nothing; an empty fetch key matches every array key; a non-array key never matches |
| PrefetchDehydrate.DehydrationClosedUnderExtension | src/utils/lib/tanstack-query/prefetch-dehydrate-keys.tsx:37-42 | if a key is dehydrated, so is every longer key extending it |
| PrefetchDehydrate.PrefetchAndDehydrateQueries | src/utils/lib/tanstack-query/prefetch-dehydrate-keys.tsx:22-47 | keys are prefetched in list order; the cache only grows, and only by those keys; the result is the filtered cache and holds every fetched key |
| ApiService.IsStandardResponse | src/services/api-service.ts:70-78 | a body is a standard response iff it is an object holding success, message and status |
| ApiService.EnvelopeShape | src/services/api-service.ts:70-78 | every encoded envelope passes the check, still does without payload, and fails without any one of the three required keys |
| ApiService.JsonText | src/services/api-service.ts:95 | the text a JSON value gives inside a template string: arrays comma-joined with null items empty, objects as "[object Object]" |
| ApiService.BodyMessage | src/services/api-service.ts:93-95 | `errData?.message`: the body's message field when the body is an object holding one, else nothing |
| ApiService.HttpErrorMessage | src/services/api-service.ts:92-97 | the body's truthy message when there is one, else "HTTP " + status + ": " + statusText, whose number reads back as the status |
| ApiService.Classify | src/services/api-service.ts:92-103 | success iff ok and the body is a standard response (returned unchanged); non-ok throws the HTTP message; a body that is not JSON or not an envelope fails |
| ApiService.SessionToken | src/services/api-service.ts:66 | the stored session, or "" when there is none or it is empty |
| ApiService.AuthHeaders | src/services/api-service.ts:63-68 | exactly one header, Authorization, holding "Bearer " then the session or "" |
| ApiService.MergeHeaders | src/services/api-service.ts:84-90 | the merged headers have both key sets; caller values win and defaults fill the rest |
| ApiService.Client.constructor | src/services/api-service.ts:59-61 | the base URL is "/api/proxy" |
| ApiService.Client.MakeRequest | src/services/api-service.ts:80-112 | the request goes to base + endpoint with the caller's method and body, the merged headers, and the response is classified |
| ApiService.Client.SendWithBody | src/services/api-service.ts:119-127 | FormData entries with multipart content type when asked, else the JSON text with application/json; the Bearer header kept |
| ApiService.Client.Post | src/services/api-service.ts:114-128 | a POST with the body and content type chosen by useFormData |
| ApiService.Client.Put | src/services/api-service.ts:159-173 | a PUT with the body and content type chosen by useFormData |
| ApiService.Client.Get | src/services/api-service.ts:130-157 | a GET with no body; "?" and the encoded parameters are appended only when parameters are given |
| ApiService.Client.Delete | src/services/api-service.ts:175-179 | a DELETE to base + endpoint with no body and only the default headers |
| TimePickerForm.FormatTime | src/components/shared/form/TimePicker.tsx:24-28 | `formatTime` itself: padded hour text, ':', padded minute text, ' ', the period; its layout is proved by FormatTimeLayout |
| TimePickerForm.FormatTimeLayout | src/components/shared/form/TimePicker.tsx:24-28 | for hour and minute below 100, eight characters: two digits reading as the hour, ':', two reading as the minute, ' ', then AM or PM |
| TimePickerForm.InitialHour | src/components/shared/form/TimePicker.tsx:15 | 7 for an empty value; otherwise the leading hour, which is NaN exactly when the value does not start with a digit |
| TimePickerForm.InitialMinute | src/components/shared/form/TimePicker.tsx:16-18 | 0 for an empty value; NaN when a non-empty value has no colon |
| TimePickerForm.InitialPeriod | src/components/shared/form/TimePicker.tsx:19-21 | PM iff a value is given and its leading hour parses to 12 or more |
| TimePickerForm.ReopenFormatted | src/components/shared/form/TimePicker.tsx:15-28 | reopening on a reported value restores hour and minute, but the period comes from the hour alone |
| TimePickerForm.ClockHour | src/components/shared/form/TimePicker.tsx:64-67 | 0..23 lands on 1..12 with the same hour modulo 12; 1..12 stay put |
| TimePickerForm.HourMarkers | src/components/shared/form/TimePicker.tsx:141-146 | twelve markers, starting at 12 |
| TimePickerForm.HourMarkersCoverFace | src/components/shared/form/TimePicker.tsx:141-146 | the hour markers are exactly 1..12, each its own face hour |
| TimePickerForm.MinuteMarkers | src/components/shared/form/TimePicker.tsx:160-161 | twelve markers, starting at 0 |
| TimePickerForm.MinuteMarkersAreFives | src/components/shared/form/TimePicker.tsx:160-161 | the minute markers are exactly the multiples of 5 below 60 |
| TimePickerForm.TimePicker.constructor | src/components/shared/form/TimePicker.tsx:15-22 | state parsed from the value (07:00 AM when empty), hour mode, nothing reported |
| TimePickerForm.TimePicker.FaceHour | src/components/shared/form/TimePicker.tsx:64-67 | the hand's hour exists iff the hour parsed, and for hours 0..23 lies in 1..12 and agrees with the hour modulo 12 |
| TimePickerForm.TimePicker.HandleHourChange | src/components/shared/form/TimePicker.tsx:30-34 | sets the hour, reports the new formatted time once, switches to minute mode |
| TimePickerForm.TimePicker.HandleMinuteChange | src/components/shared/form/TimePicker.tsx:36-39 | sets only the minute and reports once; the mode stays |
| TimePickerForm.TimePicker.HandlePeriodChange | src/components/shared/form/TimePicker.tsx:41-44 | sets only the period and reports once; the mode stays |
| TimePickerForm.TimePicker.SelectMode | src/components/shared/form/TimePicker.tsx:86-97 | clicking a display half switches the face without reporting |
| TimePickerForm.TimePicker.HandleOk | src/components/shared/form/TimePicker.tsx:46-49 | reports the current time, then closes; the state is kept |
| TimePickerForm.TimePicker.HandleCancel | src/components/shared/form/TimePicker.tsx:51-53 | closes without reporting; the state is kept |
| TimePickerForm.PickThreeFortyFivePm | src/components/shared/form/TimePicker.tsx:30-49 | picking 3, 45, PM and OK from an empty field reports "03:00 AM", "03:45 AM", "03:45 PM", "03:45 PM" and closes |
| TimePickerForm.ExampleTexts | src/components/shared/form/TimePicker.tsx:24-28 | the concrete texts formatTime gives for 3:00 AM, 3:45 AM and 3:45 PM |
| TimePickerPopover.DisplayHour | src/components/shared/form/TImePickerPopover.tsx:34-35 | the display hour is NaN exactly when the hour text does not parse; a parsed hour 0..23 shows as 1..12, equal modulo 12 |
| TimePickerPopover.FormatDisplayTime | src/components/shared/form/TImePickerPopover.tsx:31-37 | "Select time" iff the text is empty; otherwise a text with a colon |
| TimePickerPopover.DisplayOfTwentyFourHourTime | src/components/shared/form/TImePickerPopover.tsx:33-36 | "HH:MM" shows the unpadded face hour (1..12), a colon and the minutes unchanged |
| TimePickerPopover.TriggerLabel | src/components/shared/form/TImePickerPopover.tsx:51 | the placeholder iff no time is selected, else the formatted display time |
| TimePickerPopover.OnOpenChange | src/components/shared/form/TImePickerPopover.tsx:45 | exactly one call: onOpen iff opening, else onClose |
| DataTable.CeilPages | src/components/shared/data-table.tsx:80-82 | the least page count that covers the rows; zero pages iff zero rows; NaN or Infinity for a zero page size |
| DataTable.ExternalCalls | src/components/shared/data-table.tsx:104-116 | one page-change call with the new state's page + 1, then, only if that callback exists, a page-size call with the new state's size; the new state is the given value, or the function applied to the prop's page made 0-based |
| DataTable.TableStateAheadOfUpdaterInput | src/components/shared/data-table.tsx:98-115 | the table is handed the prop's 1-based page while function updaters see it 0-based, so a value updater built from the table's state plus one reports the prop's page + 2 |
| DataTable.IdentityUpdaterKeepsPage | src/components/shared/data-table.tsx:106-112 | an identity updater reports the current page and size back |
| DataTable.NextPageUpdater | src/components/shared/data-table.tsx:106-111 | a next-page updater reports the current page plus one |
| DataTable.Body | src/components/shared/data-table.tsx:148-230 | five skeleton rows iff loading; data rows iff rows exist; else one "No results." row spanning all columns |
| DataTable.CellKindFor | src/components/shared/data-table.tsx:170-220 | a badge iff the header is "Status", the action menu iff "Action", else the default renderer |
| DataTable.DataGrid.constructor | src/components/shared/data-table.tsx:74-77 | internal pagination starts at page 0 with page size 10 and no callbacks made |
| DataTable.DataGrid.IsManual | src/components/shared/data-table.tsx:79-92 | pagination is manual exactly when the pagination prop is given |
| DataTable.DataGrid.TableState | src/components/shared/data-table.tsx:98 | the prop's own page and size (1-based page, one ahead of what updaters see) in external mode, the internal state otherwise |
| DataTable.DataGrid.PageCount | src/components/shared/data-table.tsx:79-82 | rowCount over the external page size when paginated externally, else data length over the internal page size |
| DataTable.DataGrid.OnPaginationChange | src/components/shared/data-table.tsx:104-122 | external mode records the translated calls and keeps the internal state; internal mode applies the updater and makes no call |
| DataTable.InternalStart | src/components/shared/data-table.tsx:74-98 | an unpaginated table of 25 rows is not manual, shows page 0 of size 10 and counts 3 pages |
| CustomSelect.IsMulti | src/components/shared/form/Select.tsx:43-51 | multi mode is on exactly when `multi` is "yes"; an absent `multi` counts as "no" |
| CustomSelect.ChoicesWithin | src/components/shared/form/Select.tsx:53-56 | exactly the options whose value is in the array, never more than the options; their order is stated by ChoicesWithinAppend |
| CustomSelect.ChoicesWithinAppend | src/components/shared/form/Select.tsx:53-56 | filtering distributes over concatenation of option lists, so chosen options keep their option order |
| CustomSelect.ChoicesWithinSingle | src/components/shared/form/Select.tsx:54-55 | a single option is kept exactly when its value is in the array |
| CustomSelect.FirstWithValue | src/components/shared/form/Select.tsx:57 | the first option whose value equals the given one, or none when no option does |
| CustomSelect.SelectedValue | src/components/shared/form/Select.tsx:51-57 | multi mode iff multi is "yes": the filtered options (none for a non-array value); single mode: the first option with an equal value, or null when none has it |
| CustomSelect.SingleValueWritten | src/components/shared/form/Select.tsx:63 | the picked option's value when it is truthy, else "" |
| CustomSelect.OnHandleChange | src/components/shared/form/Select.tsx:59-67 | first the field update (the selection as is in multi mode, the written value otherwise), then the callback with the same selection if given |
| CustomSelect.SingleSelectRoundTrip | src/components/shared/form/Select.tsx:57-64 | picking a truthy-valued option, first with its value, and feeding the written value back selects it again |
| CustomSelect.ZeroValuedOptionIsLost | src/components/shared/form/Select.tsx:63 | an option whose value is 0 is written back as "", which selects nothing |
| StatusBadge.StatusStyles | src/components/shared/status-badge.tsx:22-40 | gray iff the status is not one of the eight known ones; green iff success, successful or active; red iff failed or declined |
| StatusBadge.GroupsAreDistinct | src/components/shared/status-badge.tsx:24-36 | the six styles differ; pending is yellow, unverified orange, verified purple |
| StatusBadge.Label | src/components/shared/status-badge.tsx:50-52 | no underscore in the label; a status without one is shown as is, one with one is spaced and lowercased; length kept |
| StatusBadge.LabelIdempotent | src/components/shared/status-badge.tsx:50-52 | normalising a label twice changes nothing |
| StatusBadge.WidthClass | src/components/shared/status-badge.tsx:60 | "w-[85px]" without a non-empty width, else "w-[" + width + "]" |

## Left out

- JSX rendering, Tailwind class lists, icons and style objects: no behaviour beyond the dispatches modelled above.
- Clock-hand and marker geometry (`Math.cos`/`Math.sin` on radians): floating point.
- `fetch`, `response.json()` and `localStorage`: I/O. The response is an input value whose `body` is `None` when it is not JSON, and the session is an `Option<string>` parameter. The `.catch(() => null)` on the error body is the same `None`.
- `JSON.stringify` and `URLSearchParams(...).toString()`: library encoders. They are uninterpreted function parameters of `Post`/`Put` and `Get`.
- ApiService.Client.Get: the `signal` (AbortSignal) passed to `fetch` is not modelled, since cancellation is I/O.
- The server route behind "/api/proxy" is not part of this model.
- TanStack Query internals: `prefetchQuery` is modelled as logging the key and ensuring a query under it is in the cache. Fetching, staleness and garbage collection are not modelled. `dehydrate` is the filter over cached keys, and `invalidateQueries` and `toast` are recorded effects.
- TanStack Table's sorting, filtering and row models: library code. The body takes the row-model size as input.
- react-hook-form and zod internals: the schemas are modelled as the issue lists zod collects. A failing `custom` check is fatal and stops the refinements. Otherwise both refinements run and each adds its message.
- react-select internals: only the values the adapter computes and forwards are modelled.
- Environment variables: `NEXT_PUBLIC_NODE_ENV` is the `production` parameter of `CookieOptionsFor`, and `TOKEN_KEY` (src/utils/constants.ts:18) is external configuration.
- JavaScript numbers are modelled as integers: no fractions, no negative zero, and NaN only where `parseInt` produces it. The picker's hour and minute are naturals, as its markers supply them.
- JsStrings.ParseInt: assumes digit-led input. `parseInt`'s whitespace skipping, sign and `0x` handling are not modelled, so a value prop such as " 7:00" or "-1:00" would be read differently.
- JsStrings.ToLowerAscii: lowercases ASCII letters only, because full Unicode case mapping is out of scope.
- ApiService.MergeHeaders: header names are compared exactly, not case-insensitively as `fetch` would compare them.
- QueryClientConfig.Retry: its own contract states only when a retry is refused. The full rule (every non-Authorization error below three failures is retried) is stated by RetryBudget.
- TimePickerPopover.FormatDisplayTime: its own contract states the placeholder case and the colon. The exact text for 24-hour input is stated by DisplayOfTwentyFourHourTime.
- The enhanced form, OTP field, date pickers, providers, hooks and the global error page: UI adapters and library wrappers, with no rules of their own.
