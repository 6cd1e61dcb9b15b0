# CRM store and page logic, modelled in Dafny

This project models the business core of a small single-user CRM for an
air-conditioning service business: the client-side store holding clients,
jobs, quotes and settings, and the logic of the pages that read and change it.

- **Store** (`store.dfy`): the state is loaded once from a saved snapshot merged
  over the defaults (company name "AeroDesk", onboarding not completed). After
  that it changes only through append, replace-by-id and remove-by-id on one of
  the three collections, or by replacing the settings. `AppStore` is a class
  whose methods state the whole new state. They also state when pairwise
  distinct ids stay distinct.
- **Collections** (`collections.dfy`): the array operations those mutators and
  every view are built from: `filter`, id-based `map`, `find` and the summing
  `reduce`. The lemmas state what they preserve: order, multiplicity, unique ids
  and sums.
- **Quotes** (`quotes.dfy`): the draft form, which adds, removes and edits line
  items. It computes the total, refuses to save without a client or without
  lines, and resets after saving. Exporting a quote turns a draft into a sent
  quote.
- **Schedule** (`schedule.dfy`): the new-job form, the job-status cycle, the
  payment toggle, and the all/today/upcoming view sorted by date. It also
  builds the receipt of a job.
- **Dashboard** (`dashboard.dfy`): today's jobs, the payments still awaited,
  the money earned today, the new-user panel, the five-item pending panel, the
  active-quote count and the refund action.
- **Earnings** (`earnings.dfy`): the paid jobs newest first, the all-time and
  the monthly totals, and the refund.
- **Clients** (`clients.dfy`): the search filter, the add/edit form and the
  two-step delete.
- **Onboarding** (`onboarding.dfy`): the first-run settings update.
- **Shared pieces**: `types.dfy` holds the entities, `sorting.dfy` a stable
  sort by an integer key, and `text.dfy` the ASCII case mapping, substring
  search, file-name sanitiser and document number.

Money is an integer number of centavos. Dates are integer millisecond
timestamps. The current day and month are passed in as their first and last
millisecond. Fresh ids appear as parameters, with a precondition that the
collection does not hold them yet. The user's answer to a confirmation dialog
is a boolean parameter.

The source's declared types and the code that uses them disagree in three
places. The model keeps what the code does:

- The quote record declares four statuses, but the dashboard counts quotes
  whose status is "active". `QuoteStatus` has the four declared values plus
  `Undeclared(name)` for any other stored string.
- The declared store state has no `settings` field, but the store holds and
  persists one. `AppState` includes it.
- The client record declares a single `address` string, but the client form
  writes seven separate address fields (street, number, complement,
  neighborhood, city, state, zip code). `Client` keeps both kinds, each
  optional.

Three behaviours of the code are worth stating outright:

- Removing a quote line has no minimum in the handler. Only the remove button
  is disabled when one line is left (`QuoteForm.CanRemove`).
- Exporting a draft quote advances it to "sent".
- The status cycle of `toggleJobStatus` (`Schedule.NextStatus`,
  `Schedule.ToggleJobStatus`) is defined in the schedule page but no control
  calls it. The status is changed through the selects of the schedule and the
  dashboard (`Schedule.SetJobStatus`), so the cycle lemmas describe code the
  screens never reach.

## Model

| member | source | states |
|---|---|---|
| Collections.AppendUniqueIds | src/context/AppContext.tsx:54 | appending keeps ids pairwise distinct exactly when they were distinct before and the new id was absent (no uniqueness check on add) |
| Collections.UniqueConcat | src/context/AppContext.tsx:54 | ids of a concatenation are distinct iff each part's are and the parts share none |
| Collections.Filter | src/pages/Earnings.tsx:11-12 | the result is no longer than the input, holds only input elements meeting the condition, and holds every input element meeting it |
| Collections.FilterConcat | src/context/AppContext.tsx:56 | filtering distributes over concatenation, so relative order is kept |
| Collections.FilterKeepsAll | src/pages/Schedule.tsx:181 | a filter whose condition every element meets returns the input unchanged |
| Collections.FilterKeepsNone | src/pages/Dashboard.tsx:25-27 | a filter whose condition no element meets returns the empty list |
| Collections.FilterIdempotent | src/context/AppContext.tsx:56 | filtering twice by the same condition equals filtering once |
| Collections.FilterMultiset | src/pages/Earnings.tsx:11-12 | each value occurs in the result as often as in the input if it meets the condition, else not at all |
| Collections.FilterPermutation | src/pages/Earnings.tsx:21-22 | filtering two permutations of each other gives permutations of each other |
| Collections.FilterSwapOut | src/pages/Earnings.tsx:11-12 | replacing a kept element by a rejected one removes exactly one copy of it from the filtered elements |
| Collections.FilterFilter | src/pages/Dashboard.tsx:25-26 | filtering by p then by q equals filtering once by "p and q" |
| Collections.FilterSplit | src/pages/Earnings.tsx:11-12 | filtering `a + [y] + b` splits into the filtered parts around `y`, kept iff it meets the condition |
| Collections.FilterKeepsUnique | src/context/AppContext.tsx:56 | filtering keeps ids pairwise distinct |
| Collections.ReplaceById | src/context/AppContext.tsx:55 | same length, and each element is the new one exactly where its id equals the new one's id, else unchanged |
| Collections.ReplaceAbsent | src/context/AppContext.tsx:55 | replacing by an id the list does not hold changes nothing |
| Collections.ReplaceKeepsIds | src/context/AppContext.tsx:55 | replace-by-id keeps every position's id, so ids stay distinct iff they were |
| Collections.ReplaceUniqueAt | src/context/AppContext.tsx:55 | with distinct ids, replace-by-id rewrites exactly the one position holding that id |
| Collections.RemoveById | src/context/AppContext.tsx:56 | the result holds no element with the id and keeps every element with another id |
| Collections.RemoveConcat | src/context/AppContext.tsx:56 | removal distributes over concatenation, so the rest keeps its relative order |
| Collections.RemoveAbsent | src/context/AppContext.tsx:56 | removing an id the list does not hold changes nothing |
| Collections.RemoveIdempotent | src/context/AppContext.tsx:56 | removing the same id twice equals removing it once |
| Collections.RemoveKeepsUnique | src/context/AppContext.tsx:56 | removal keeps ids pairwise distinct |
| Collections.RemoveUniqueAt | src/context/AppContext.tsx:56 | with distinct ids, removing the id at position i drops exactly that element |
| Collections.FindById | src/pages/Earnings.tsx:26 | finds nothing iff no element has the id; otherwise the first element with it |
| Collections.FindUnique | src/pages/Earnings.tsx:26 | with distinct ids, finding an element's id returns that element |
| Collections.Sum | src/pages/Quotes.tsx:49-51 | the `reduce` that adds a value over a list, starting from 0; what it preserves is stated by the `Sum` lemmas below |
| Collections.SumNonNegative | src/pages/Earnings.tsx:15 | a sum of nonnegative values is nonnegative |
| Collections.SumConcat | src/pages/Quotes.tsx:49-51 | the sum of a concatenation is the sum of the parts |
| Collections.SumPermutation | src/pages/Earnings.tsx:15 | the sum does not depend on the order of the elements |
| Collections.SumRemoveAt | src/pages/Earnings.tsx:15 | taking out one element lowers the sum by exactly its value |
| Collections.SumFilterAtMost | src/pages/Earnings.tsx:21-23 | over nonnegative values, a filtered sum never exceeds the whole sum |
| Collections.SumSwapAt | src/pages/Quotes.tsx:40-51 | swapping one element changes the sum by the difference of the two values |
| Collections.SumFilterSwapAt | src/pages/Dashboard.tsx:22-27 | swapping one element changes a filtered sum by what leaves and what arrives |
| Sorting.Insert | src/pages/Schedule.tsx:182 | inserting into a sorted list keeps it sorted and adds exactly that element |
| Sorting.SortByKey | src/pages/Schedule.tsx:182 | the result is sorted by ascending key and is a permutation of the input |
| Text.ContainsEmpty | src/pages/Clients.tsx:30-33 | every string contains the empty string |
| Text.Sanitise | src/pages/Quotes.tsx:159 | same length; every character is alphanumeric or `_`; alphanumerics stay in place, all others become `_` |
| Text.SanitiseIdempotent | src/pages/Schedule.tsx:152 | sanitising a sanitised name changes nothing |
| Text.DocumentNumber | src/pages/Schedule.tsx:97 | at most 8 characters, the first 8 of the id upper-cased, with no lower-case ASCII letter left |
| Store.MergeSettings | src/context/AppContext.tsx:38-41 | no saved settings gives the defaults; saved keys override defaults key by key, missing keys keep the default |
| Store.InitialState | src/context/AppContext.tsx:30-48 | nothing saved or an unparsable save gives the default state; otherwise saved collections override the empty defaults and settings are merged |
| Store.Snapshot | src/context/AppContext.tsx:50-52 | saving writes all four keys; the round trip is `Store.LoadSnapshot` |
| Store.LoadSnapshot | src/context/AppContext.tsx:50-52 | reloading the snapshot written after a change gives back the same state |
| Store.LoadFillsMissingSettings | src/context/AppContext.tsx:38-41 | a save without settings or without a company name loads with company name "AeroDesk" |
| Store.AppStore.constructor | src/context/AppContext.tsx:30-48 | the store starts from the initial state of what storage held |
| Store.AppStore.AddClient | src/context/AppContext.tsx:54 | clients gain the new client at the end; other fields unchanged; ids stay distinct iff the new id was absent |
| Store.AppStore.UpdateClient | src/context/AppContext.tsx:55 | clients are replaced by id; other fields unchanged; ids stay distinct iff they were |
| Store.AppStore.DeleteClient | src/context/AppContext.tsx:56 | clients lose the id; jobs and quotes referencing it are unchanged (no cascade); distinct ids stay distinct |
| Store.AppStore.AddJob | src/context/AppContext.tsx:58 | jobs gain the new job at the end; other fields unchanged; ids stay distinct iff the new id was absent |
| Store.AppStore.UpdateJob | src/context/AppContext.tsx:59 | jobs are replaced by id; other fields unchanged; ids stay distinct iff they were |
| Store.AppStore.DeleteJob | src/context/AppContext.tsx:60 | jobs lose the id; other fields unchanged; distinct ids stay distinct |
| Store.AppStore.AddQuote | src/context/AppContext.tsx:62 | quotes gain the new quote at the end; other fields unchanged; ids stay distinct iff the new id was absent |
| Store.AppStore.UpdateQuote | src/context/AppContext.tsx:63 | quotes are replaced by id; other fields unchanged; ids stay distinct iff they were |
| Store.AppStore.DeleteQuote | src/context/AppContext.tsx:64 | quotes lose the id; other fields unchanged; distinct ids stay distinct |
| Store.AppStore.UpdateSettings | src/context/AppContext.tsx:65 | settings are replaced; the three collections are unchanged |
| Quotes.ApplyEdit | src/pages/Quotes.tsx:44 | editing a field of a line keeps its id |
| Quotes.EditItems | src/pages/Quotes.tsx:40-47 | same length and ids; lines with the id get the edit, all others are unchanged |
| Quotes.Total | src/pages/Quotes.tsx:49-51 | with no negative quantity or unit price, the total is not negative; its changes under the form's edits are `Quotes.RemoveItemTotal` and `Quotes.EditItemTotal` |
| Quotes.TotalAppend | src/pages/Quotes.tsx:49-51 | the total of no lines is 0, and each appended line adds quantity times unit price (the defining equations; the order-independent facts are `Collections.SumPermutation`, `Quotes.RemoveItemTotal` and `Quotes.EditItemTotal`) |
| Quotes.AddItemKeepsTotal | src/pages/Quotes.tsx:26-31 | appending a blank line (quantity 1, unit price 0) leaves the total unchanged |
| Quotes.RemoveItemTotal | src/pages/Quotes.tsx:33-38 | with distinct line ids, removing a line lowers the total by exactly its amount |
| Quotes.EditItemTotal | src/pages/Quotes.tsx:40-47 | with distinct line ids, editing a line moves the total by the change in its amount |
| Quotes.QuoteForm.constructor | src/pages/Quotes.tsx:20-24 | the form starts with no client, today's date and one blank line |
| Quotes.QuoteForm.AddItem | src/pages/Quotes.tsx:26-31 | one blank line is appended; the total is unchanged; the form stays valid |
| Quotes.QuoteForm.RemoveItem | src/pages/Quotes.tsx:33-38 | lines with the id are removed, others kept in order; the form stays valid when the button was enabled |
| Quotes.QuoteForm.ChangeItem | src/pages/Quotes.tsx:40-47 | the lines become the edited lines; client and date unchanged; the form stays valid |
| Quotes.QuoteForm.Submit | src/pages/Quotes.tsx:53-75 | saves iff a client is chosen and there are lines; then exactly one draft quote with the computed total is appended and the form resets to one blank line; otherwise nothing changes |
| Quotes.QuoteFileName | src/pages/Quotes.tsx:159 | the name is "Orcamento_", the client name, "_", the stamp and ".pdf", and the client-name part holds only ASCII letters, digits and `_` |
| Quotes.Export | src/pages/Quotes.tsx:77-179 | a file name is produced iff the client exists and rendering succeeds; only then is a draft stored again as sent; the file name is built from the sanitised client name |
| Quotes.ExportAdvancesOnlyDrafts | src/pages/Quotes.tsx:172-174 | after export a unique draft reads as sent, other statuses are untouched, and no other quote changes |
| Schedule.NextStatus | src/pages/Schedule.tsx:56-64 | never yields canceled; yields scheduled iff the status was completed or canceled (no control calls this cycle) |
| Schedule.NextStatusCycle | src/pages/Schedule.tsx:56-64 | three steps from any non-canceled status return to it, and never reach canceled |
| Schedule.TogglePayment | src/pages/Schedule.tsx:66-68 | the payment status changes and no other field does |
| Schedule.TogglePaymentInvolution | src/pages/Schedule.tsx:66-68 | toggling the payment twice restores the job |
| Schedule.TogglePaymentTwiceRestores | src/pages/Schedule.tsx:66-68 | with distinct ids, one toggle changes only that job and a second toggle restores the stored list |
| Schedule.ToggleJobStatus | src/pages/Schedule.tsx:56-64 | stores the job with the next status; other collections unchanged (defined in the page but called by no control) |
| Schedule.SetJobStatus | src/pages/Schedule.tsx:274 | stores the job with the chosen status; other collections unchanged |
| Schedule.TogglePaymentStatus | src/pages/Schedule.tsx:66-68 | stores the job with its payment toggled; other collections unchanged |
| Schedule.Shown | src/pages/Schedule.tsx:175-181 | the view condition: every job in "all", strictly between the day's bounds in "today", strictly after the day in "upcoming"; its consequences are `Schedule.FilteredJobs` and `Schedule.TodayUpcomingDisjoint` |
| Schedule.FilteredJobs | src/pages/Schedule.tsx:170-182 | sorted by ascending date, a permutation of the jobs shown in the view, and holds a job iff it is stored and shown |
| Schedule.AllViewKeepsEveryJob | src/pages/Schedule.tsx:181 | the "all" view holds every stored job as often as it is stored |
| Schedule.TodayUpcomingDisjoint | src/pages/Schedule.tsx:175-180 | no job is both today's and upcoming; a job exactly at the day's first or last millisecond is in neither |
| Schedule.JobForm.constructor | src/pages/Schedule.tsx:22-28 | the form starts empty, as an installation, dated now, priced 0 |
| Schedule.JobForm.Submit | src/pages/Schedule.tsx:30-54 | saves iff client, description and date are filled; then one scheduled, pending job is appended and the form resets; otherwise nothing changes |
| Schedule.ReceiptFileName | src/pages/Schedule.tsx:152 | the name is "Recibo_", the client name, "_", the stamp and ".pdf", and the client-name part holds only ASCII letters, digits and `_` |
| Schedule.GenerateReceipt | src/pages/Schedule.tsx:70-97 | nothing iff the job's client is missing; otherwise the number is the first 8 id characters upper-cased, the amount is the price, and name, phone, address and file name come from the first client with the job's client id |
| Schedule.ToggleSwitchesReceipt | src/pages/Schedule.tsx:319 | toggling the payment switches whether the receipt action is offered |
| Dashboard.TodayJobs | src/pages/Dashboard.tsx:21 | holds a job iff it is stored and dated within the day, both bounds included |
| Dashboard.PendingPayments | src/pages/Dashboard.tsx:22 | holds a job iff it is stored, pending and completed |
| Dashboard.TotalPending | src/pages/Dashboard.tsx:24 | with no negative price the awaited total is not negative; its value under a refund is `Dashboard.RefundMovesMoney` |
| Dashboard.TotalEarnedToday | src/pages/Dashboard.tsx:25-27 | with no negative price today's earnings are not negative; its value is `Dashboard.EarnedTodayIsPaidTodaySum` |
| Dashboard.NoPendingNoTotal | src/pages/Dashboard.tsx:24 | the awaited total is 0 when no completed job is pending |
| Dashboard.EarnedTodayIsPaidTodaySum | src/pages/Dashboard.tsx:25-27 | the money earned today is the sum over jobs both dated today and paid, and 0 when there are none |
| Dashboard.IsNewUser | src/pages/Dashboard.tsx:29 | true iff there are no clients and no jobs (the definition; the lasting fact is `Dashboard.AddingClientEndsNewUser`) |
| Dashboard.AddingClientEndsNewUser | src/pages/Dashboard.tsx:29 | after adding a client the user is not new |
| Dashboard.PendingPanel | src/pages/Dashboard.tsx:232 | at most 5 jobs: the first five awaited payments in store order, or all of them when fewer |
| Dashboard.CompletedTodayCount | src/pages/Dashboard.tsx:104 | the count of completed jobs today never exceeds the count of today's jobs |
| Dashboard.CompletedTodayCountConcat | src/pages/Dashboard.tsx:104 | the completed-today count of a concatenation is the sum of the parts' counts |
| Dashboard.CompletedTodayCountSingle | src/pages/Dashboard.tsx:104 | one job counts 1 iff it is dated today and completed, else 0; with the concatenation lemma this fixes the count of every list |
| Dashboard.ActiveQuoteCount | src/pages/Dashboard.tsx:153 | the count of quotes with status "active" never exceeds the number of quotes |
| Dashboard.ActiveQuoteCountConcat | src/pages/Dashboard.tsx:153 | the active count of a concatenation is the sum of the parts' counts |
| Dashboard.ActiveQuoteCountSingle | src/pages/Dashboard.tsx:153 | one quote counts 1 iff its status is "active", else 0; with the concatenation lemma this fixes the count of every list |
| Dashboard.ActiveCountZeroWhenDeclared | src/pages/Dashboard.tsx:153 | while every quote holds a declared status, the active count is 0 |
| Dashboard.ConfirmRefund | src/pages/Dashboard.tsx:280-284 | a confirmed refund stores the job again as pending; an unconfirmed one changes nothing |
| Dashboard.EarnedTodaySwap | src/pages/Dashboard.tsx:25-27 | replacing one job changes today's earnings by the paid-today price that leaves and the one that arrives |
| Dashboard.RefundMovesMoney | src/pages/Dashboard.tsx:22-27 | with distinct ids, a refund rewrites only that job; its price leaves today's earnings if it was paid today, and joins the awaited total if it was paid and completed |
| Dashboard.DayBoundsDiffer | src/pages/Dashboard.tsx:21 | the schedule's "today" is inside the dashboard's day, and a job at the day's first millisecond is in the dashboard's day but not in the schedule's |
| Earnings.PaidJobs | src/pages/Earnings.tsx:11-13 | sorted by date, newest first; a permutation of the paid jobs; holds a job iff it is stored and paid |
| Earnings.TotalHistorical | src/pages/Earnings.tsx:15 | with no negative price the all-time total is not negative; its value is `Earnings.TotalHistoricalIsPaidSum` |
| Earnings.TotalMonth | src/pages/Earnings.tsx:17-23 | with no negative price the month total is not negative; its value is `Earnings.TotalMonthIsPaidInMonthSum` |
| Earnings.TotalHistoricalIsPaidSum | src/pages/Earnings.tsx:15 | the all-time total is the sum of the paid jobs' prices, and 0 when nothing is paid |
| Earnings.TotalMonthIsPaidInMonthSum | src/pages/Earnings.tsx:17-23 | the month total is the sum over jobs both paid and dated within the month, bounds included |
| Earnings.MonthAtMostHistorical | src/pages/Earnings.tsx:21-23 | with no negative price, the month total never exceeds the all-time total |
| Earnings.Refunded | src/pages/Earnings.tsx:25-30 | an unknown id changes nothing; the length is kept; with distinct ids only the job with that id turns pending |
| Earnings.HandleRefund | src/pages/Earnings.tsx:25-30 | the stored jobs become the refunded jobs; other collections unchanged |
| Earnings.RefundedAt | src/pages/Earnings.tsx:25-30 | with distinct ids, the refund rewrites exactly the position holding the id |
| Earnings.RefundedNotIn | src/pages/Earnings.tsx:25-30 | with distinct ids, a refunded paid job no longer occurs in the stored jobs as it was |
| Earnings.HistoricalSwap | src/pages/Earnings.tsx:15 | replacing one job changes the all-time total by the paid price that leaves and the one that arrives |
| Earnings.RefundLeavesHistory | src/pages/Earnings.tsx:11-15 | refunding a paid job with a unique id removes it from the history and lowers the all-time total by exactly its price |
| Earnings.RefundLeavesMonth | src/pages/Earnings.tsx:17-30 | refunding a paid job with a unique id lowers the month total by its price when it is dated within the month, and leaves it as it was otherwise |
| Clients.FilteredClients | src/pages/Clients.tsx:30-33 | holds a client iff it is stored and its lower-cased name contains the lower-cased term or its phone contains the term as typed |
| Clients.EmptySearchKeepsAll | src/pages/Clients.tsx:30-33 | an empty search lists every client in store order |
| Clients.SearchKeepsOrder | src/pages/Clients.tsx:30-33 | searching a concatenation gives the concatenated results, so store order is kept |
| Clients.FormFor | src/pages/Clients.tsx:51-65 | the form shows name and phone; each of the seven address fields shows its value when present and the empty string when missing |
| Clients.EditedClient | src/pages/Clients.tsx:83-87 | the edited client keeps id, creation date and declared address |
| Clients.NewClient | src/pages/Clients.tsx:88-94 | the new client has the given id and creation date and no declared address |
| Clients.FormRoundTrip | src/pages/Clients.tsx:71-94 | reopening a saved or added client shows exactly the submitted fields |
| Clients.EditUntouched | src/pages/Clients.tsx:56-62 | saving an opened client untouched gives it back iff none of its seven address fields was missing |
| Clients.ClientsPage.constructor | src/pages/Clients.tsx:16-28 | empty form, nothing edited, no delete pending |
| Clients.ClientsPage.OpenAdd | src/pages/Clients.tsx:35-49 | clears the form and the editing target |
| Clients.ClientsPage.OpenEdit | src/pages/Clients.tsx:51-65 | sets the editing target and fills the form from it |
| Clients.ClientsPage.Submit | src/pages/Clients.tsx:67-109 | saves iff name and phone are filled; edits replace by id, adds append one new client; then the form is empty and nothing is being edited; otherwise nothing changes |
| Clients.ClientsPage.ConfirmDelete | src/pages/Clients.tsx:111-114 | remembers the id awaiting confirmation |
| Clients.ClientsPage.Delete | src/pages/Clients.tsx:116-122 | deletes only when a non-empty id is pending and then clears it; jobs and quotes are kept |
| Clients.DeleteRemovesOne | src/pages/Clients.tsx:116-122 | deleting a client with a unique id removes exactly that client and leaves none with its id |
| Onboarding.CompletedSettings | src/components/Onboarding.tsx:24-32 | onboarding is completed; the name is the typed one or "Minha Empresa" when empty; the logo is the chosen one, or none |
| Onboarding.CompletionOverwritesAll | src/components/Onboarding.tsx:26-31 | the outcome does not depend on the previous settings, so completing again changes nothing |
| Onboarding.HandleComplete | src/components/Onboarding.tsx:24-32 | the settings become the completed settings; the collections are unchanged |
| Onboarding.CompletionSurvivesReload | src/context/AppContext.tsx:30-52 | after completing and saving, a reload shows onboarding completed with the chosen logo |

## Left out

- Document rendering and download (the PDF library, blob, link and dialog plumbing) and logging. `Quotes.Export` takes a `rendered` flag; when it is false, the thrown error skips the status change.
- Storage I/O and JSON. Start-up takes what storage yielded: missing, unparsable, or a parsed snapshot whose keys may each be absent.
- The stored string "null" parses but then throws when its settings are read. The model counts it as unparsable, as the code's catch does.
- Saved JSON of the wrong shape (a collection that is not an array, extra keys) is not modelled. `Store.InitialState` assumes every present key has the declared shape.
- Date parsing, formatting, the clock and time zones. Days and months are given as bounds, and date stamps in file names as strings.
- `Quotes.QuoteForm.Submit`: a filled but invalid date string, on which `toISOString` would throw, is not modelled. The date field is a timestamp.
- `Schedule.JobForm.Submit`: a filled but invalid date string, on which `toISOString` would throw, is not modelled. The date field is either empty or a timestamp.
- Floating-point prices, quantities and sums, and currency formatting. Money is exact integer centavos, so `Quotes.TotalAppend` and the page totals have no rounding.
- Id generation. Fresh ids are parameters with a precondition that they are not yet stored.
- Reading the logo file. `Onboarding.HandleComplete` takes the chosen logo as a value.
- `Clients.FilteredClients`: upper/lower-case mapping is ASCII only. The source's Unicode case mapping of other letters is not modelled.
- `Text.Sanitise`: works on Unicode scalar values. The source's regular expression sees UTF-16 code units, so a character outside the Basic Multilingual Plane yields two underscores there and one here.
- `Text.DocumentNumber`: takes the first 8 Unicode scalar values rather than 8 UTF-16 code units. Its upper-casing is ASCII only, so the result keeps its length, while the source's `toUpperCase` can lengthen a string ('ß' becomes "SS").
- `Types.QuoteStatus`: `Undeclared(name)` can carry one of the four declared names, such as "draft", and is then a different value from `Draft`. In the source the stored string "draft" is the draft status. Stored strings are not decoded here, so a store is expected to use the four constructors for the declared names.
- The browser's own form checks are not modelled: the `required` attributes and the `min="0"`/`min="1"` bounds on the inputs of the client, quote and job forms (for example src/pages/Clients.tsx:213, src/pages/Quotes.tsx:318-328 and src/pages/Schedule.tsx:408). The forms' submit handlers are modelled with only their own guards, so values those checks would stop, such as a negative price, are still accepted here.
- `Onboarding.CompletionOverwritesAll`: carrying over the other settings fields is vacuous here, because the settings record has exactly the three fields the screen overwrites.
- `Sorting.SortByKey`: stability (equal dates keep their store order) is built in but not stated.
- Modal open/close flags, the search-term and form-field setters, and the quote and job card badges are not modelled, since they are presentation only.
- The quote line editor can only set description, quantity and unit price. The source's generic field setter could also overwrite `id`, which no control does.
- Deleting a quote from its card is `Store.AppStore.DeleteQuote` and has no separate member.
- The settings page, tutorial, layout, app shell and UI components are not part of this model.
