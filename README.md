# Business dashboard: entity store and view aggregates

A Dafny model of the logic in a browser-based business-management dashboard.
The application keeps clients, projects, tasks, documents (quotes, invoices,
contracts), payments, notifications and user settings in a client-side store.
After every change the store writes the whole aggregate to one local-storage
slot. At start-up it restores from that slot.

The model covers:

- `wrappers.dfy` (`Wrappers`): `Option`, standing for JavaScript's `undefined`.
- `sequences.dfy` (`Sequences`): the array operations everything is built from:
  - `filter`, `reduce` with `+`, a `map` that swaps the elements with a matching id, `find`, `slice(0, n)`;
  - the laws the rest of the model uses: order preservation, idempotence, counting over exclusive filters, monotone sums.
- `domain.dfy` (`Domain`): the records of `src/types/index.ts`. The string unions become enumerations. A `Date` keeps only year, month (0–11, as `getMonth` returns) and day.
- `store.ts` becomes `store.dfy` (`Store`):
  - the class `EntityStore` holds the seven fields;
  - its methods replace those fields and then write the aggregate to the ghost field `persisted`, which stands for the storage slot;
  - the invariant `Valid()` says that loading from the slot reproduces the in-memory state;
  - the pure parts are functions: the default settings, the one-level settings merge, loading, saving, and the notification helpers.
- `document_form.dfy` (`DocumentForm`): the items total and the document that the form submits.
- `payments.dfy` (`Payments`): the received and pending totals, the success rate, and the document/client lookup.
  - The dashboard's `totalRevenue` (src/components/Dashboard.tsx:10-12) is the same expression as `totalReceived`, so the model uses `Payments.TotalReceived` for both.
- `dashboard.dfy` (`Dashboard`): month revenues, the month-over-month change and trend, the report counts, and the "recent" lists.
- `settings_panel.dfy` (`SettingsPanel`): the settings records built by the settings page's handlers.

Three facts about the code that the model keeps:

- An update replaces **every** element whose id matches, not only the first, and a delete removes every such element.
- `DocumentItem.total` is never recomputed when an item's quantity or price changes. The model keeps it as a plain stored field, and the document total ignores it.
- Loading performs no date revival: dates written as ISO-8601 strings come back as strings. Dates here are abstract values that survive a save and a load unchanged.

Amounts, quantities, prices and budgets are exact reals.

## Model

| member | source | states |
|---|---|---|
| `Sequences.Filter` | src/components/Dashboard.tsx:14-16 | `filter` keeps exactly the elements that satisfy the predicate, never more than it was given |
| `Sequences.Sum` | src/components/payments/Payments.tsx:23-25 | `reduce((sum, x) => sum + f(x), 0)`; non-negative when every value is |
| `Sequences.Replace` | src/lib/store.ts:103 | update keeps the length; each element whose id equals the argument's id becomes the argument, every other element stays in place |
| `Sequences.ReplaceNoMatch` | src/lib/store.ts:103 | an update whose id matches nothing leaves the collection unchanged |
| `Sequences.ReplaceIdempotent` | src/lib/store.ts:103 | repeating the same update changes nothing more |
| `Sequences.Remove` | src/lib/store.ts:112 | delete keeps exactly the elements whose id differs from the given one |
| `Sequences.RemoveIdempotent` | src/lib/store.ts:112 | deleting twice equals deleting once |
| `Sequences.RemoveNoMatch` | src/lib/store.ts:112 | deleting an absent id is a no-op |
| `Sequences.RemoveCount` | src/lib/store.ts:112 | survivors plus matched elements make up the whole collection: exactly the matching ones are removed |
| `Sequences.RemoveConcat` | src/lib/store.ts:112 | delete acts part by part on a concatenation, so survivors keep their order |
| `Sequences.AppendFreshKey` | src/lib/store.ts:95 | after appending an entity whose id was absent, exactly one element carries that id and it is the entity |
| `Sequences.FindFirst` | src/components/payments/Payments.tsx:113 | `find` returns nothing iff no element matches, else the matching element at the smallest index |
| `Sequences.Take` | src/components/Dashboard.tsx:179 | `slice(0, n)` has length min(n, length) and is a prefix |
| `Store.MergeSettings` | src/lib/store.ts:218-223 | shallow merge: supplied keys overwrite, omitted keys keep their value, a supplied `notifications` replaces the nested record whole |
| `Store.MergeWhole` | src/lib/store.ts:220 | merging a complete record yields exactly that record |
| `Store.MergeNothing` | src/lib/store.ts:220 | merging an empty partial record changes nothing |
| `Store.MergeIdempotent` | src/lib/store.ts:220 | merging the same partial record twice equals merging it once |
| `Store.FirstStartSettings` | src/lib/store.ts:33-45 | with nothing stored, the settings are the defaults: light theme, all five notification channels on, USD, `en`, UTC |
| `Store.Save` | src/lib/store.ts:74-88 | the snapshot holds all six collections and settings that restore to the current settings |
| `Store.LoadInitialState` | src/lib/store.ts:48-70 | absent slot: six empty collections and the default settings; present slot: its collections and its settings merged over the defaults |
| `Store.SaveLoadRoundTrip` | src/lib/store.ts:48-88 | loading a saved aggregate reproduces it exactly |
| `Store.LoadFillsMissingSettings` | src/lib/store.ts:55 | stored settings lacking every key are completed to the defaults |
| `Store.NewNotification` | src/lib/store.ts:227-232 | the new notification is unread, carries the fresh id and time stamp, and keeps the caller's kind, title, message and link |
| `Store.MarkRead` | src/lib/store.ts:243-245 | length kept; matching notifications get `read = true`, others untouched |
| `Store.MarkReadKeepsFields` | src/lib/store.ts:240-249 | apart from `read`, each notification is unchanged; `read` becomes true exactly on a match |
| `Store.MarkReadIdempotent` | src/lib/store.ts:240-249 | marking as read twice equals marking once |
| `Store.UnreadCount` | src/components/Header.tsx:10 | the header's count of unread notifications, never more than the number of notifications |
| `Store.NoUnreadIffAllRead` | src/components/Header.tsx:10 | the unread count is 0 exactly when every notification has been read |
| `Store.UnreadAfterPrepend` | src/components/Header.tsx:10 | prepending an unread notification raises the header's unread count by exactly one |
| `Store.UnreadAfterMarkRead` | src/lib/store.ts:240-249 | marking as read never raises the unread count, and lowers it iff an unread notification has the id |
| `Store.EntityStore.constructor` | src/lib/store.ts:90-91 | the store starts from `loadInitialState` of the slot, and reloading reproduces it |
| `Store.EntityStore.SaveState` | src/lib/store.ts:74-88 | the slot receives the full current aggregate |
| `Store.EntityStore.AddClient` | src/lib/store.ts:93-98 | clients gains the client at the end; nothing else changes; the new aggregate is persisted |
| `Store.EntityStore.UpdateClient` | src/lib/store.ts:100-107 | clients is replaced by id; nothing else changes; persisted |
| `Store.EntityStore.DeleteClient` | src/lib/store.ts:109-116 | clients with the id are removed; nothing else changes; persisted |
| `Store.EntityStore.AddProject` | src/lib/store.ts:118-123 | append to projects only; persisted |
| `Store.EntityStore.UpdateProject` | src/lib/store.ts:125-132 | replace by id in projects only; persisted |
| `Store.EntityStore.DeleteProject` | src/lib/store.ts:134-141 | remove by id from projects only; persisted |
| `Store.EntityStore.AddTask` | src/lib/store.ts:143-148 | append to tasks only; persisted |
| `Store.EntityStore.UpdateTask` | src/lib/store.ts:150-157 | replace by id in tasks only; persisted |
| `Store.EntityStore.DeleteTask` | src/lib/store.ts:159-166 | remove by id from tasks only; persisted |
| `Store.EntityStore.AddDocument` | src/lib/store.ts:168-173 | append to documents only; persisted |
| `Store.EntityStore.UpdateDocument` | src/lib/store.ts:175-182 | replace by id in documents only; persisted |
| `Store.EntityStore.DeleteDocument` | src/lib/store.ts:184-191 | remove by id from documents only; persisted |
| `Store.EntityStore.AddPayment` | src/lib/store.ts:193-198 | append to payments only; persisted |
| `Store.EntityStore.UpdatePayment` | src/lib/store.ts:200-207 | replace by id in payments only; persisted |
| `Store.EntityStore.DeletePayment` | src/lib/store.ts:209-216 | remove by id from payments only; persisted |
| `Store.EntityStore.UpdateSettings` | src/lib/store.ts:218-223 | settings become the shallow merge; collections unchanged; persisted |
| `Store.EntityStore.AddNotification` | src/lib/store.ts:225-238 | the new unread notification is first, the old list follows intact, the unread count grows by one; persisted |
| `Store.EntityStore.MarkNotificationAsRead` | src/lib/store.ts:240-249 | notifications become `MarkRead` of the old list, the unread count does not grow; persisted |
| `Store.EntityStore.ClearNotifications` | src/lib/store.ts:251-256 | the notification list is empty; nothing else changes; persisted |
| `DocumentForm.CalculateTotal` | src/components/documents/DocumentForm.tsx:19-21 | the `reduce` of quantity × unit price from 0; its meaning is fixed by `DocumentForm.TotalOfNoItems` and `DocumentForm.TotalAppend` |
| `DocumentForm.TotalNonNegative` | src/components/documents/DocumentForm.tsx:19-21 | within the form bounds (quantity ≥ 1, unit price ≥ 0) `calculateTotal` is ≥ 0 |
| `DocumentForm.NonNegativeLines` | src/components/documents/DocumentForm.tsx:178-186 | within the form bounds each line's quantity × unit price is ≥ 0 |
| `DocumentForm.TotalOfNoItems` | src/components/documents/DocumentForm.tsx:20 | the total of no items is 0 |
| `DocumentForm.TotalAppend` | src/components/documents/DocumentForm.tsx:20 | appending an item adds its quantity × unit price |
| `DocumentForm.TotalIgnoresStoredTotals` | src/components/documents/DocumentForm.tsx:20 | item lists agreeing on quantities and prices have equal totals, whatever their stored `total` |
| `DocumentForm.NewItem` | src/components/documents/DocumentForm.tsx:158 | the appended row is within the form bounds and worth 0 |
| `DocumentForm.NewItemAddsNothing` | src/components/documents/DocumentForm.tsx:158 | adding a fresh row leaves the total unchanged |
| `DocumentForm.SubmitDocument` | src/components/documents/DocumentForm.tsx:23-30 | the submitted amount is the items total; id and creation date are the fresh ones; other fields come from the form |
| `DocumentForm.SubmitDraft` | src/components/documents/DocumentForm.tsx:23-31 | the store's documents gain the built document at the end, amount equal to the items total; persisted |
| `Payments.TotalReceived` | src/components/payments/Payments.tsx:23-25 | with non-negative amounts, between 0 and the sum of all amounts |
| `Payments.TotalPending` | src/components/payments/Payments.tsx:27-29 | with non-negative amounts, between 0 and the sum of all amounts |
| `Payments.ReceivedPlusPending` | src/components/payments/Payments.tsx:23-29 | received + pending is the sum over non-failed payments; with non-negative amounts at most the sum of all amounts |
| `Payments.TotalsAfterAppend` | src/components/payments/Payments.tsx:23-29 | a new payment raises the received total by its amount iff completed and the pending total iff pending |
| `Payments.SumAsEntered` | src/components/payments/Payments.tsx:23-25 | the received-total `reduce` over amounts kept as text: 0 when there are none, otherwise the string "0" followed by the texts in order |
| `Payments.EnteredAmountsConcatenate` | src/components/payments/PaymentForm.tsx:61 | amounts entered as "50" and "20" give the text "05020", whereas the numeric total of the same payments is 70 |
| `Payments.RoundedPercent` | src/components/payments/Payments.tsx:78 | `Math.round(k/n*100)`: the integer r with r ≤ k/n·100 + ½ < r + 1, within 0..100 |
| `Payments.SuccessRate` | src/components/payments/Payments.tsx:77-79 | 0 with no payments; otherwise the rounded completed share; always in 0..100 |
| `Payments.SuccessRateExtremes` | src/components/payments/Payments.tsx:77-79 | all completed gives 100, none completed gives 0 |
| `Payments.LookupDocumentAndClient` | src/components/payments/Payments.tsx:113-114 | the first document with the payment's document id, or none iff there is none; a client only when a document was found: the first client with that document's client id, or none iff there is none |
| `Dashboard.MonthRevenue` | src/components/Dashboard.tsx:22-29 | with non-negative amounts, this month's revenue lies between 0 and the total revenue |
| `Dashboard.LastMonthRevenueAsWritten` | src/components/Dashboard.tsx:31-38 | month − 1 in the same year; bounded by the total revenue |
| `Dashboard.AsWrittenJanuaryIsZero` | src/components/Dashboard.tsx:31-38 | in month 0, with valid payment dates, the as-written last-month revenue is always 0 |
| `Dashboard.PreviousMonth` | src/components/Dashboard.tsx:34 | the previous calendar month is a valid month whose successor is the current one |
| `Dashboard.LastMonthRevenue` | src/components/Dashboard.tsx:31-38 | corrected last month: agrees with the as-written figure except in January, where it is December of the previous year |
| `Dashboard.JanuaryCounterexample` | src/components/Dashboard.tsx:34 | a completed December payment seen in January: last month's revenue is 0 as written, 50 corrected |
| `Dashboard.RevenueChange` | src/components/Dashboard.tsx:40-41 | 100 when last month is 0, otherwise change × last = (this − last) × 100 |
| `Dashboard.TrendOf` | src/components/Dashboard.tsx:48 | the revenue card's arrow: up for a non-negative change, down otherwise; its meaning in revenues is `Dashboard.TrendFollowsRevenue` |
| `Dashboard.TrendFollowsRevenue` | src/components/Dashboard.tsx:40-48 | the arrow points up when last month is 0, and otherwise iff this month ≥ last month |
| `Dashboard.ProjectCountsBounded` | src/components/Dashboard.tsx:83-87 | active + completed + on-hold ≤ number of projects |
| `Dashboard.TaskCountsBounded` | src/components/Dashboard.tsx:88-93 | pending + completed ≤ number of tasks; in-progress ≤ pending |
| `Dashboard.GenerateReport` | src/components/Dashboard.tsx:74-98 | the report as the dashboard computes it, last month being month − 1 of the same year: totals are the collection sizes; the count bounds hold; change is 100 when last month is 0; month revenues bounded by the total; in January last month is 0 and the change 100 |
| `Dashboard.GenerateReportCorrected` | src/components/Dashboard.tsx:31-41 | the report with last month taken as the previous calendar month: equal to the dashboard's report from February to December; in January last month is December of the year before |
| `Dashboard.JanuaryReportCounterexample` | src/components/Dashboard.tsx:79-80 | the December payment seen in January: the dashboard's report shows +100%, the corrected one −100% |
| `Dashboard.Recent` | src/components/Dashboard.tsx:179 | at most the first three entries, in insertion order (also line 207) |
| `SettingsPanel.ChooseTheme` | src/components/settings/Settings.tsx:26 | theme set to the chosen one, every other key equal to the current settings (also line 36) |
| `SettingsPanel.ToggleEmail` | src/components/settings/Settings.tsx:62-68 | email flag negated, the other four flags and all top-level keys preserved |
| `SettingsPanel.ToggleDesktop` | src/components/settings/Settings.tsx:85-91 | desktop flag negated, everything else preserved |
| `SettingsPanel.SelectLanguage` | src/components/settings/Settings.tsx:118 | only the language changes |
| `SettingsPanel.SelectTimeZone` | src/components/settings/Settings.tsx:134 | only the time zone changes |
| `SettingsPanel.SelectCurrency` | src/components/settings/Settings.tsx:150 | only the currency changes |
| `SettingsPanel.TogglesAreInvolutions` | src/components/settings/Settings.tsx:62-91 | flipping a switch twice restores the original settings |
| `SettingsPanel.ChooseThemeLaws` | src/components/settings/Settings.tsx:26-36 | choosing the current theme changes nothing; the last choice wins |
| `SettingsPanel.ApplyHandlerRecord` | src/components/settings/Settings.tsx:26 | a handler's complete record passed to `updateSettings` becomes exactly the store's settings; nothing else changes; persisted |

## Findings

| source | as written | input that shows it | evidently intended | confidence | as-written member | corrected member |
|---|---|---|---|---|---|---|
| src/components/Dashboard.tsx:34 | last month is `currentMonth - 1` in `currentYear` | current month 0 (January) of 2026, one completed payment of 50 dated December 2025: last-month revenue is 0 and the change shows 100% | December of the previous year is last month | high (not executed) | `Dashboard.LastMonthRevenueAsWritten` (with `Dashboard.AsWrittenJanuaryIsZero`, `Dashboard.JanuaryCounterexample`) | `Dashboard.LastMonthRevenue` (via `Dashboard.PreviousMonth`) and `Dashboard.GenerateReportCorrected` (with `Dashboard.JanuaryReportCounterexample`) |
| src/components/payments/PaymentForm.tsx:61 | `amount` is registered without `valueAsNumber`, so a payment's amount is the entered text and `sum + p.amount` (src/components/payments/Payments.tsx:25, src/components/Dashboard.tsx:12) concatenates | two completed payments entered as 50 and 20: the received total is the text "05020" instead of 70 | amounts converted to numbers, so the totals add | medium (not executed; rests on the form library storing a number input's text) | `Payments.SumAsEntered` (with `Payments.EnteredAmountsConcatenate`) | `Payments.TotalReceived` (with `Payments.TotalsAfterAppend`, `Payments.ReceivedPlusPending`) |

## Left out

- Browser storage and JSON (store.ts:50-52, 76-84) are abstracted.
  - The slot is an `Option<SavedState>`. An absent, empty or unparsable slot is `None`.
  - The logged errors are dropped.
  - A stored `notifications` settings object is taken as complete. A partial nested object, which the one-level merge would also keep as it is, is not modelled.
- Store.LoadInitialState: a stored aggregate that lacks one of the six collections, or carries extra keys, is not modelled; the slot is taken to hold what `saveState` writes.
- Store.EntityStore.SaveState: a write that fails (for example, quota exceeded) is not modelled; the model assumes every save lands in the slot.
- zustand's `create`/`set` and its subscriptions are not modelled. Each method assigns its field directly, which is what `set` does with the object its updater returns.
- Fresh ids (`crypto.randomUUID`) and the current date (`new Date()`) are method and function parameters. No freshness is assumed, because the store checks none.
- Floating-point arithmetic is not modelled; amounts are exact reals.
  - The sums in Payments.TotalReceived, Payments.TotalPending, Dashboard.MonthRevenue and DocumentForm.CalculateTotal are exact, with no rounding of intermediate results.
  - Payments.SuccessRate states `Math.round` exactly over rationals. The floating-point quotient of the source may round differently at exact halves.
  - `toFixed`, `formatCurrency` and `formatDate` are left out; `src/lib/utils` is not part of this model.
- Payment amounts are numbers everywhere in the model except `Payments.SumAsEntered`, following the `Payment.amount: number` typing (src/types/index.ts:58); the text-valued amounts the payment form actually stores are the second finding. Only the part of JavaScript's `+` that this sum reaches is modelled: a string operand, and the number 0 written as "0".
- Document item quantities and prices are likewise kept as entered text, but `*` converts both operands to numbers, so `calculateTotal` is not affected; the model keeps them as numbers.
- The month-over-month figures take the current month and year as parameters, and payment dates as year/month/day. Time of day and time zones are not modelled.
- The CSV text and the file download of `generateReport` (Dashboard.tsx:100-135) are string formatting and I/O. Only the report's figures are modelled.
- The stat cards' fixed change strings for projects, clients and tasks (Dashboard.tsx:54-70) are constants, not logic.
- Form validation (react-hook-form) appears only as hypotheses of lemmas and contracts: quantity ≥ 1 and unit price ≥ 0 for items, amount ≥ 0 for payments.
- JSX rendering, routing, menus, and the client, project, task and payment forms and lists are presentation only. Those forms stamp an id and dates and call an add operation.
- No referential-integrity or duplicate-id checks are modelled, because the store has none.
