# Litteflux agency dashboard — a Dafny model of its core

Litteflux is a dashboard for an influencer agency. Its staff use it to:
- track prospects ("leads") through a pipeline;
- turn a closed lead into a campaign;
- follow each campaign's checklist (contract, product, script, content items, posting, metrics, invoice, transfer to the creator);
- see deadlines, a calendar and cash figures;
- manage creators ("influencers") and checklist templates.

This project models the logic behind those screens. It covers:
- the derivations the screens compute from the records in memory;
- the validation and record construction of the form dialogs;
- the row mappers of the service layer;
- the write handlers of the application, with each database write recorded in order in an effect log.

Modules, one per source file:
- `Js`: the JavaScript semantics the code relies on:
  - values, truthiness and `||`, `Number(...)`;
  - `String(...)` of numbers;
  - `includes`, `toLowerCase`/`toUpperCase`, `split`/`join`, `trim`, `encodeURIComponent`.
- `Lists`: filters, sorting and other helpers on sequences.
- `Dates`: ECMAScript day arithmetic on day numbers, with 1970-01-01 as day 0.
- `Domain`: the records and enumerations of `types.ts`.
- `Dashboard` (components/Dashboard.tsx).
- `Mappers` (services/supabase.ts).
- `Campaigns` (components/Campaigns.tsx).
- `Finance` (components/Financial.tsx).
- `Calendar` (components/Calendar.tsx).
- `Modals` (components/Modals.tsx).
- `Pipeline` (components/Pipeline.tsx).
- `Handlers` (App.tsx).
- `Permissions` (hooks/usePermissions.ts).
- `Auth` (components/Auth.tsx).
- `History` (components/History.tsx).
- `Influencers` (components/InfluencerManager.tsx).
- `Templates` (components/Templates.tsx).

How the model is shaped:
- Code that accumulates step by step is a `method` with a loop, proved equal to a specification function. This covers:
  - the deadline scan;
  - the calendar's event list;
  - the cash metrics;
  - the content-item resize;
  - the row mappers;
  - the password meter.
- Screens whose handlers update state are classes:
  - the checklist editor;
  - the application's handlers;
  - the sign-in form;
  - the archive, creators and templates screens;
  - the pipeline's lead detail.
- The current time, generated UUIDs, random draws, server replies and whether the clipboard accepted a text are all parameters.
- Money is `real`.
- A JavaScript number is `Num`: `NaN` or a finite real.

Where the code and its design notes disagree, the model follows the code. For example, a new campaign's content block starts with `quantidadeConteudos` 1 and an empty item list, not with one empty item.

## Model

| member | source | states |
|---|---|---|
| Dashboard.ActiveCampaignsCount | components/Dashboard.tsx:66 | the count is the number of campaigns not FINALIZADA; with the finished ones it makes up the whole list |
| Dashboard.ForecastStep | components/Dashboard.tsx:67-69 | the forecast adds each active campaign's `grossValue \|\| 0` once and ignores finished campaigns |
| Dashboard.SumGrossAppend | components/Dashboard.tsx:67-69 | the `reduce` sum over two lists one after the other is the sum of their sums |
| Dashboard.ActiveLeadsCount | components/Dashboard.tsx:72 | the count is the number of AGUARDANDO leads; it equals the list's length exactly when every lead waits |
| Dashboard.ParseDeadline | components/Dashboard.tsx:84-86 | a text without '/' is read as an ISO date (or rejected); the result is in milliseconds |
| Dashboard.DayMonthYear | components/Dashboard.tsx:84-85 | "d/m/y" is read with parts[2] as year, parts[1]-1 as month and parts[0] as day |
| Dashboard.DmyParts | components/Dashboard.tsx:84-85 | a text split by '/' into three parts goes to the Date constructor as (year, month-1, day) |
| Dashboard.ConstructFromDigits | components/Dashboard.tsx:85 | the Date constructor on three digit strings gives the day of MakeDay, or nothing when out of the time range |
| Dashboard.ConstructWhole | components/Dashboard.tsx:85 | the Date constructor on whole numbers with a year of at least 100 is MakeDay within the time range |
| Dashboard.CeilDays | components/Dashboard.tsx:93 | `Math.ceil(x / day)` is the least whole number of days covering x, and is not negative |
| Dashboard.Classify | components/Dashboard.tsx:81-95 | no alert for an empty, "A definir", non-text or unparseable date or a done status; a delay iff the date is before now; an upcoming alert iff within now+7 days, with diff = ceil of days, 0..7; otherwise an alert exists |
| Dashboard.ItemCheck | components/Dashboard.tsx:105-107 | each content item is checked on its postDate against the status "Postado" |
| Dashboard.Checks | components/Dashboard.tsx:101-118 | a campaign gives 8 + (number of items) checks in call order, all with its brand display and id; the item checks follow the first two |
| Dashboard.PaymentDueCheck | components/Dashboard.tsx:116 | the payment-due check reads nfDataPrevistaPagamento and counts as done when nfStatus is "Pendente" |
| Dashboard.BrandDisplay | components/Dashboard.tsx:98-99 | the brand alone when no influencer matches the first id; otherwise the brand with "(@usuario)" of the first listed influencer that matches, as `find` returns it |
| Dashboard.RunCheck | components/Dashboard.tsx:81-95 | one `check` call pushes the field's alert, if any, onto the list it belongs to |
| Dashboard.RunChecks | components/Dashboard.tsx:101-118 | running a campaign's checks in order extends both lists as the specification of all checks does |
| Dashboard.Deadlines | components/Dashboard.tsx:74-125 | both lists are the pushed alerts of all campaigns, sorted by date and cut to five |
| Dashboard.PushedBounds | components/Dashboard.tsx:90-94 | every delay lies before now and every upcoming alert in [now, now+7 days], so the lists are disjoint |
| Dashboard.SkippedCheck | components/Dashboard.tsx:82-88 | a check with an empty or "A definir" date, or a done status, adds to neither list |
| Dashboard.PaymentDueSuppressed | components/Dashboard.tsx:116 | with nfStatus "Pendente" the payment-due field never raises an alert, however late its date |
| Dashboard.EarliestFive | components/Dashboard.tsx:121-124 | each list has exactly min(5, pushed) alerts, sorted by date, drawn from the pushed ones, none later than any pushed alert left out |
| Lists.SortByStable | components/Dashboard.tsx:122-123 | the sort is stable, as `Array.prototype.sort` is: alerts with equal dates keep the order in which they were pushed |
| Dates.DaysInMonth | components/Calendar.tsx:123 | a month has 28 to 31 days |
| Dates.MakeDay | components/Dashboard.tsx:85 | ECMAScript MakeDay; a month in range gives the plain day number |
| Dates.YearStep | components/Calendar.tsx:123 | consecutive years are one year length apart |
| Dates.MonthsMakeYear | components/Calendar.tsx:123 | the twelve months make up the year |
| Dates.NextYear | components/Calendar.tsx:128 | the 32nd of December is the 1st of January of the next year |
| Dates.MonthCarry | components/Calendar.tsx:128 | a day past the month's end carries into the next month |
| Dates.Normalize | components/Calendar.tsx:97-111 | `Date` normalisation gives a valid date with the same day number as MakeDay |
| Dates.FromDays | components/Calendar.tsx:117-120 | every day number has a valid calendar date |
| Dates.DaysInjective | components/Calendar.tsx:117-120 | two valid dates with the same day number are the same date |
| Dates.Weekday | components/Calendar.tsx:120 | `getDay` is 0..6, with Sunday 0 |
| Dates.ConstructDate | components/Dashboard.tsx:85 | NaN in any argument gives an invalid date; a valid one lies within the time range |
| Dates.ParseIsoDate | components/Dashboard.tsx:85 | accepted iff the text is YYYY-MM-DD with month 1 to 12 and day 1 to 31; the day is then MakeDay(year, month - 1, day) |
| Calendar.DayKeyReadsBack | components/Calendar.tsx:161-165 | for years 1000 to 9999, the `YYYY-MM-DD` key a cell is matched by reads back through `new Date(text)` as that same day |
| Domain.ParseLeadStatus | services/supabase.ts:33 | a stored status reads as a status iff it is one of the three texts, and then reads back as that text |
| Domain.ParseLeadPhase | services/supabase.ts:32 | the same for the lead phase |
| Domain.ParseCampaignStatus | services/supabase.ts:53 | the same for the campaign status |
| Domain.WithDoc | components/Campaigns.tsx:60-64 | `{...c, [doc]: o}` sets that sub-document and keeps every other field |
| Domain.NewFinancial | App.tsx:184-189 | a new financial block carries the budget and starts with every status "Pendente" |
| Mappers.FillTemplate | services/supabase.ts:18-21 | the filled template keeps its length and fixed characters; each x becomes a lower-case hex digit, each y one of 8, 9, a, b |
| Mappers.UuidShape | services/supabase.ts:14-22 | the fallback UUID has 36 characters, hyphens at 8, 13, 18, 23, '4' at 14 and one of 8, 9, a, b at 19 |
| Mappers.NumberOr0 | services/supabase.ts:29-31 | `Number(x) \|\| 0`: the number unless it is 0 or NaN, then 0 |
| Mappers.LeadToFE | services/supabase.ts:24-40 | every field: text columns `x || ''`, amounts `Number(x) || 0`, arrays kept or [], phase and status parsed, createdAt the stored value or the reading time |
| Mappers.WithDefaults | services/supabase.ts:54-61 | `{...defaults, ...stored}` has both key sets; stored keys win, the others keep their default |
| Mappers.CampaignDocsComplete | services/supabase.ts:66-73 | every sub-document of a mapped campaign has every default key, and a stored key keeps its stored value |
| Mappers.CampaignFinancialComplete | services/supabase.ts:75 | the financial block of a mapped campaign has every key of `defaultFinancial` (line 52), and a stored key keeps its stored value |
| Mappers.InfluencerToFE | services/supabase.ts:81-125 | status defaults to 'Ativo' and bancoTipo to 'PF'; every optional field passes through from its column |
| Mappers.Row | services/supabase.ts:127-220 | a column is present iff its line's condition (truthy, or not undefined) holds, and then holds the field's value |
| Mappers.MapToDB | services/supabase.ts:127-220 | the one-line-at-a-time assignment loop builds exactly that row |
| Mappers.MapLeadToDB | services/supabase.ts:127-144 | `mapLeadToDB` builds the lead row |
| Mappers.MapCampaignToDB | services/supabase.ts:146-172 | `mapCampaignToDB` builds the campaign row |
| Mappers.MapInfluencerToDB | services/supabase.ts:174-220 | `mapInfluencerToDB` builds the influencer row |
| Mappers.LeadRoundTrip | services/supabase.ts:24-40 | reading back the row written for a lead with an id gives the same lead, except createdAt becomes the reading time |
| Mappers.LeadFromRow | services/supabase.ts:24-40 | a row whose columns read as a lead's fields, without created_at, reads back as that lead |
| Mappers.LeadRowNoCreatedAt | services/supabase.ts:127-144 | the lead row never carries created_at |
| Mappers.LeadRowIds | services/supabase.ts:129-132 | the id and both lists survive the lead row |
| Mappers.LeadRowAmounts | services/supabase.ts:133-135 | the three amounts survive the lead row, zero included |
| Mappers.LeadRowEnums | services/supabase.ts:136-137 | phase and status survive the lead row |
| Mappers.LeadRowTexts | services/supabase.ts:130-131 | brand, object and responsible survive, empty text included |
| Mappers.LeadRowDates | services/supabase.ts:139-141 | scope, start date and last contact survive the lead row |
| Mappers.LeadRowEmptyAndZero | services/supabase.ts:129-142 | empty text fields are left out, amounts equal to 0 are kept |
| Mappers.CampaignRowKeepsEmptyNotes | services/supabase.ts:156-158 | driveLink and the three notes fields are copied even when empty; an empty briefing is not |
| Mappers.InfluencerRowAge | services/supabase.ts:184 | an age of 0 is dropped, any other age copied |
| Campaigns.FilteredCampaigns | components/Campaigns.tsx:43-57 | an order-preserving subsequence; a campaign is listed iff brand or title contains the term and its status passes the filter |
| Campaigns.EmptySearchListsAll | components/Campaigns.tsx:43-57 | with no term and ALL, every campaign is listed |
| Campaigns.Toggle | components/Campaigns.tsx:66-71 | FINALIZADA becomes EM ANDAMENTO and anything else FINALIZADA (both directions) |
| Campaigns.ToggleTwice | components/Campaigns.tsx:66-71 | toggling twice from EM ANDAMENTO or FINALIZADA restores the status |
| Campaigns.Apply | components/Campaigns.tsx:60-64 | the named field takes the new value; every other field is unchanged |
| Campaigns.ContentSlot | components/Campaigns.tsx:335-344 | slot i has title "Conteúdo i+1", type Reels, status Pendente, platform Instagram and an empty postDate |
| Campaigns.Slots | components/Campaigns.tsx:334-345 | the appended slots, one per missing index, in order |
| Campaigns.SliceEnd | components/Campaigns.tsx:348 | where `slice(0, qty)` ends, negative quantities counting from the end |
| Campaigns.ResizeItems | components/Campaigns.tsx:330-355 | the push loop and slice compute the resized item list |
| Campaigns.ResizeToQuantity | components/Campaigns.tsx:330-355 | for a whole quantity n the list has n items; the first min(n, old length) are the old ones and the rest fresh slots |
| Campaigns.EditItem | components/Campaigns.tsx:375-377 | a per-item edit changes only the key of the item at index; every other item is unchanged |
| Campaigns.Shares | components/Campaigns.tsx:531-537 | the 80% creator share and 20% commission add up to the budget |
| Campaigns.CampaignEditor.LocalUpdate | components/Campaigns.tsx:60-64 | nothing without a selection; otherwise the selection is the edited campaign |
| Campaigns.CampaignEditor.ToggleStatus | components/Campaigns.tsx:66-71 | the selected campaign's status is toggled |
| Campaigns.CampaignEditor.SetQuantity | components/Campaigns.tsx:329-355 | the content block holds the new quantity and the resized items |
| Campaigns.CampaignEditor.SetItemField | components/Campaigns.tsx:374-377 | the content block holds the edited item list |
| Finance.Value | components/Financial.tsx:22 | `grossValue \|\| 0`, the same value the dashboard sums |
| Finance.Tax | components/Financial.tsx:23 | a stored non-zero commission as stored; 20% of the budget when it is 0 or missing |
| Finance.Cut | components/Financial.tsx:24 | a stored non-zero cut as stored; 80% of the budget when it is 0 or missing |
| Finance.DefaultsDivideBudget | components/Financial.tsx:23-24 | with neither stored, commission and cut add up to the budget |
| Finance.Contribution | components/Financial.tsx:26-34 | a paid campaign adds its commission to the balance and, when its transfer is unpaid, its cut to pending transfers; any other adds its budget to receivables; never both |
| Finance.ComputeMetrics | components/Financial.tsx:15-37 | the `forEach` accumulation equals the metrics of the list |
| Finance.ReceivablesAreUnpaidBudgets | components/Financial.tsx:26-34 | receivables are the summed budgets of the unpaid campaigns |
| Finance.NothingPaid | components/Financial.tsx:26-34 | with nothing paid there is no balance and no pending transfer |
| Finance.ChartPoint | components/Financial.tsx:42-46 | the name is the brand's first eight characters, entrada the budget, saida the cut plus the partner split |
| Finance.DataFin | components/Financial.tsx:39-47 | min(6, n) points, the first six campaigns last first |
| Finance.Share | components/Financial.tsx:96-98 | each partner gets balance × pct / 100; NaN iff the rule is NaN |
| Finance.SharesSumToBalance | components/Financial.tsx:96-98 | percentages adding up to 100 divide the whole balance |
| Calendar.FormatDate | components/Calendar.tsx:34-37 | no date iff "" or "A definir"; a text without '/' is kept as it is |
| Calendar.FormatDayMonthYear | components/Calendar.tsx:36 | "DD/MM/YYYY" becomes "YYYY-MM-DD" |
| Calendar.AddEvent | components/Calendar.tsx:44-51 | no event iff the date is empty; the event keeps date, type and isReal, and the title gets " (Real)" iff isReal |
| Calendar.InfluencerName | components/Calendar.tsx:40-41 | the first influencer's name, or 'Assessorado'; never empty |
| Calendar.ItemEvents | components/Calendar.tsx:65-73 | a dated item gives a CONTEUDO event, and a second, real POSTAGEM event iff its status is Postado |
| Calendar.Normalized | components/Calendar.tsx:89 | only the date changes, and an undated event gets '' |
| Calendar.Events | components/Calendar.tsx:89 | an event is listed iff it is a normalised push with a date, as often as it was pushed, in push order |
| Calendar.BuildEvents | components/Calendar.tsx:31-90 | the nested loops, map and filter compute the event list |
| Calendar.PushItems | components/Calendar.tsx:65-73 | the inner loop appends each item's events in order |
| Calendar.MonthLengthIsDaysInMonth | components/Calendar.tsx:123 | day 0 of the next month is the month's last day |
| Calendar.StartOffset | components/Calendar.tsx:124 | the weekday of the first of the month, 0..6 |
| Calendar.MonthGrid | components/Calendar.tsx:122-139 | 42 cells; cell i shows day i - startOffset + 1, is in range iff 1 <= day <= numDays, and only then is dated with that day |
| Calendar.MonthGridCoversMonth | components/Calendar.tsx:122-139 | every day of the month has its cell, in range and dated with that day |
| Calendar.WeekStart | components/Calendar.tsx:142-143 | the Sunday on or before the view date |
| Calendar.WeekGrid | components/Calendar.tsx:140-153 | seven in-range cells; the i-th is the day i after the Sunday on or before the view date (`WeekStart`: a Sunday, at most six days before it), carrying that day of the month |
| Calendar.DayEvents | components/Calendar.tsx:159-168 | [] for an undated cell, otherwise exactly the events dated with the cell's zero-padded YYYY-MM-DD, in order |
| Calendar.SlashDateOnItsDay | components/Calendar.tsx:161-167 | an event dated "DD/MM/YYYY" (reordered by `formatDate`, line 36) has the zero-padded key of that day's cell, so it shows there |
| Calendar.WeekNavigationReturns | components/Calendar.tsx:95-113 | in week mode next moves seven days and prev undoes it |
| Calendar.MonthNavigationKeepsDay | components/Calendar.tsx:95-113 | in month mode a day up to the 28th keeps its day in the neighbouring month |
| Modals.Field | components/Modals.tsx:98 | a form entry, or undefined without one |
| Modals.Text | components/Modals.tsx:151-160 | `String(data.x)`: the entry, or "undefined" |
| Modals.TextOrEmpty | components/Modals.tsx:359-401 | `String(data.x \|\| '')`: the entry, or '' |
| Modals.AdjustmentSave | components/Modals.tsx:95-101 | the adjustment is passed on, unchanged, iff the amount is non-empty |
| Modals.Add | components/Modals.tsx:122 | the sum is NaN iff a term is NaN |
| Modals.SplitSave | components/Modals.tsx:118-125 | the split is passed on, unchanged, iff the three percentages add up to 100 |
| Modals.SplitDefault | components/Modals.tsx:133-135 | a stored rule of 0 or none is replaced by its default |
| Modals.SplitInitial | components/Modals.tsx:133-135 | each field: the stored value when it is non-zero, else its default (30, 30, 40); all defaults without stored rules |
| Modals.NewLeadSubmission | components/Modals.tsx:145-162 | rejected iff brand, object or influencer is missing; otherwise one influencer id, proposedValue `Number(x) \|\| 0`, an empty timeline |
| Modals.NewCampaignSubmission | components/Modals.tsx:204-225 | rejected iff brand, title, influencer or closed value is missing; otherwise PLANEJAMENTO, an empty checklist, the budget in financial, and no `value` or `influencer` key |
| Modals.DirectCampaignObj | components/Modals.tsx:210-222 | the submitted literal: planning status, empty checklist, one influencer id |
| Modals.CampaignEdit | components/Modals.tsx:260-280 | title, brand, startDate, briefing, driveLink and internalNotes become the form's text, status the parsed status, the influencer the one chosen, and nothing else changes; grossValue is `Number(input)`, else the old value, else 0; other financial keys kept |
| Modals.EmptyBudgetKeepsOld | components/Modals.tsx:277 | an empty budget entry keeps a non-zero old budget |
| Modals.InitialTasks | components/Modals.tsx:306 | the template's tasks, or one empty row |
| Modals.TemplateSave | components/Modals.tsx:307-313 | rejected iff no title; the saved tasks are the non-blank rows in order, each as often as typed; title and description from the form; an existing id kept, else the fresh UUID |
| Modals.EditTask | components/Modals.tsx:327 | only row i changes |
| Modals.RemoveTask | components/Modals.tsx:328 | removing row i deletes exactly that row |
| Modals.AddTask | components/Modals.tsx:322 | the add button appends one empty row |
| Modals.AddedRowDropped | components/Modals.tsx:312-322 | an added row left empty never reaches the saved template |
| Modals.Resolve | components/Modals.tsx:349-352 | a non-admin keeps the stored email, usuario, status and notes; an admin's usuario loses its first '@' |
| Modals.BuildInfluencer | components/Modals.tsx:359-401 | editing keeps the id; the resolved fields and every optional text field from the form |
| Modals.InfluencerSaveAsWritten | components/Modals.tsx:354-356 | rejected iff nome, the form's own usuario, the resolved email or telefone is missing |
| Modals.NonAdminSaveRefused | components/Modals.tsx:354-356 | without a usuario entry (the control is disabled for non-admins) the save as written is always rejected |
| Modals.InfluencerSave | components/Modals.tsx:342-402 | the corrected check on the resolved usuario; a saved record has a usuario and an email |
| Modals.SelfEditKeepsProtectedFields | components/Modals.tsx:349-360 | a non-admin's save succeeds and keeps id, email, usuario, status and notes |
| Modals.AdminUsernameStripsAt | components/Modals.tsx:350 | an admin's "@name" is saved as "name" |
| Pipeline.FilteredLeads | components/Pipeline.tsx:24-33 | an order-preserving subsequence of AGUARDANDO leads; a lead is kept iff brand or object contains the term and the phase passes |
| Pipeline.EmptySearchListsWaiting | components/Pipeline.tsx:24-33 | with no term and every phase, exactly the waiting leads |
| Pipeline.FormGet | components/Pipeline.tsx:38-55 | `formData.get`: the entry, or null |
| Pipeline.AdditionalData | components/Pipeline.tsx:46-55 | the reason is the form's, amounts are `Number(...)`, and no status or timeline key is sent |
| Pipeline.PipelineScreen.EditSubmit | components/Pipeline.tsx:35-60 | a refusal without a non-blank reason makes no call; otherwise one call with the lead's id and status, and the detail closes |
| Pipeline.RefusalReasonRecorded | components/Pipeline.tsx:41-44 | an accepted refusal has a non-empty reason, which becomes the timeline entry's notes |
| Handlers.ProfileName | App.tsx:145 | `profile?.full_name \|\| fallback` |
| Handlers.Or | App.tsx:143-146 | `x \|\| fallback` |
| Handlers.LeadLiteral | App.tsx:142-147 | the lead literal: value and proposed value alike, closedValue 0, an empty timeline |
| Handlers.NewLeadAsWritten | App.tsx:143 | the lead reads `data.object` and `data.influencer` |
| Handlers.NewLeadLosesObjectAndInfluencer | App.tsx:143 | whatever the form accepts, that lead has no object and links the id undefined |
| Handlers.NewLead | App.tsx:140-153 | the corrected lead: the form's object and influencers, closedValue 0, value = proposed value, empty timeline, defaults 1º CONTATO and AGUARDANDO |
| Handlers.NewLeadKeepsForm | App.tsx:142-147 | the corrected lead keeps the form's object, influencer and proposed value |
| Handlers.CampaignShell | App.tsx:163-195 | planning status, no end date, default sub-documents, an empty history |
| Handlers.DirectCampaignAsWritten | App.tsx:422 | the direct campaign reads `data.influencer` and `data.value` |
| Handlers.DirectCampaignLosesBudget | App.tsx:422 | whatever the form accepts, that campaign has budget 0 and links the id undefined |
| Handlers.DirectCampaign | App.tsx:422 | the corrected campaign reads the form's influencer list and budget |
| Handlers.DirectCampaignKeepsForm | App.tsx:422 | the corrected campaign keeps the form's budget and influencer |
| Handlers.LeadById | App.tsx:158-159 | a found lead is in the list with the id; none found means no lead has it |
| Handlers.ChecklistItem | App.tsx:191-194 | a checklist entry of its module, not done |
| Handlers.ClosureCampaign | App.tsx:162-195 | title "brand - object", PLANEJAMENTO, no end date, the lead's influencers; startDate from the form, else the lead, else today; grossValue `Number(closedValue)`, else the lead's value; notes quoting the closed value, else the proposed value; two open checklist items (Contrato, Roteiro) |
| Handlers.ClosureFallbacks | App.tsx:173-185 | without a closed value the budget is the lead's value while the notes quote the proposed value |
| Handlers.ClosureNotification | App.tsx:197-204 | the notification names the new campaign's id |
| Handlers.TimelineEntry | App.tsx:208-214 | the entry's action names the status; its notes are lastMessage or '' |
| Handlers.LeadPatch | App.tsx:217 | `{status, ...additionalData, timeline}`: the form's keys win over status, the timeline is the old one plus the entry |
| Handlers.StatusChange | App.tsx:155-221 | no writes for an influencer or an unknown lead; otherwise 3 writes on conversion and 1 else, the last updating the lead |
| Handlers.LeadWrites | App.tsx:162-217 | the writes for a found lead, ending with its update |
| Handlers.ConversionOrder | App.tsx:196-217 | on conversion: the campaign, then its notification naming it, then the lead update |
| Handlers.NoSecondConversion | App.tsx:162 | closing a lead that is already closed creates no campaign |
| Handlers.HistoryGrowsByOne | App.tsx:208-217 | every accepted change appends exactly one entry to the lead's timeline, with notes lastMessage or '' |
| Handlers.SplitFromForm | App.tsx:247-251 | the new rules are the form's numbers; an accepted split adds up to 100 |
| Handlers.App.CreateLead | App.tsx:140-153 | one write of the lead as the handler builds it, from `data.object` and `data.influencer` (`NewLeadAsWritten`); nothing else changes |
| Handlers.App.CreateLeadCorrected | App.tsx:140-153 | the corrected handler of the first finding: one write of the lead that keeps the dialog's `campaignObject` and `influencerIds` (`NewLead`) |
| Handlers.App.CreateDirectCampaign | App.tsx:422 | one write of the campaign as the handler builds it, from `data.influencer` and `data.value` (`DirectCampaignAsWritten`); nothing else changes |
| Handlers.App.CreateDirectCampaignCorrected | App.tsx:422 | the corrected handler of the second finding: one write of the campaign that keeps the dialog's `influencerIds` and `financial.grossValue` (`DirectCampaign`) |
| Handlers.App.UpdateLeadStatus | App.tsx:155-221 | the log grows by the writes of the status change |
| Handlers.App.SaveSplit | App.tsx:246-266 | the rules are replaced, stored, then audited with both versions |
| Handlers.App.UpdateCampaign | App.tsx:223-231 | no write for an influencer; otherwise the campaign is written under its id |
| Handlers.App.SaveInfluencer | App.tsx:233-244 | the edit dialog updates under the id; the new dialog creates |
| Handlers.App.RegisterAdjustment | App.tsx:268-280 | the adjustment is only audited |
| Permissions.AllActions | hooks/usePermissions.ts:100-105 | every action maps to the same flag |
| Permissions.ModulePermissions | hooks/usePermissions.ts:100-105 | all false without a profile, all true for an admin |
| Permissions.AdminHasAll | hooks/usePermissions.ts:69-95 | an admin has every permission and some permission in every module |
| Permissions.PermissionImpliesAny | hooks/usePermissions.ts:69-95 | `hasPermission(m, a)` implies `hasAnyPermission(m)` |
| Permissions.ModulePermissionsAgree | hooks/usePermissions.ts:100-105 | for each action, the module's object says true iff `hasPermission` holds |
| Auth.PasswordStrength | components/Auth.tsx:29-37 | the four `+=` tests compute the strength, a multiple of 25 up to 100 |
| Auth.FullStrength | components/Auth.tsx:29-37 | 100 iff longer than 8, with an upper-case letter and a digit or symbol |
| Auth.LongIsAtLeastHalf | components/Auth.tsx:32-33 | a password longer than 8 scores at least 50 |
| Auth.LongerIsNoWeaker | components/Auth.tsx:29-37 | typing more never lowers the strength |
| Auth.StrengthColor | components/Auth.tsx:39-44 | one of four colours: emerald iff > 75, rose iff <= 25 |
| Auth.StrengthLabel | components/Auth.tsx:173 | "Fraca" iff <= 50, otherwise "Segura" |
| Auth.LabelMatchesColor | components/Auth.tsx:39-44 | the label (line 173) says "Segura" iff the bar is blue or emerald |
| Auth.FriendlyMessage | components/Auth.tsx:46-52 | never empty; a message matching no known phrase is shown as it is, or the generic text when empty |
| Auth.FirstKnown | components/Auth.tsx:47-50 | none iff no phrase of the table occurs |
| Auth.FriendlyMessageFollowsTable | components/Auth.tsx:46-52 | the first phrase found decides the translation |
| Auth.KnownPhrasesTranslate | components/Auth.tsx:47-50 | each server phrase gets its own translation, none shadowed |
| Auth.RequestFor | components/Auth.tsx:77-101 | the e-mail is sent trimmed; recovery iff FORGOT mode |
| Auth.AuthScreen.constructor | components/Auth.tsx:21-27 | a remembered e-mail fills the field and ticks "remember me" |
| Auth.AuthScreen.Submit | components/Auth.tsx:68-110 | missing fields make no request; otherwise one request, and the reply decides toast, mode, session and remembered e-mail per mode |
| Auth.RecoveryNeedsOnlyEmail | components/Auth.tsx:70 | FORGOT needs only the e-mail; the other modes also a password |
| History.ArchivedCampaigns | components/History.tsx:16-22 | an order-preserving subsequence; a campaign is listed iff FINALIZADA and title or brand contains the term |
| History.ArchivedLeads | components/History.tsx:23-28 | an order-preserving subsequence; a lead is listed iff RECUSADO and brand or object contains the term |
| History.ArchiveCompletesActiveList | components/History.tsx:19-22 | with no term a campaign is archived iff it is not among the active jobs of the campaigns screen |
| History.LeadsSplitBetweenScreens | components/History.tsx:24-27 | with no term a lead is archived iff refused, and in the archive or the pipeline iff refused or waiting |
| History.HistoryScreen.Shown | components/History.tsx:16-28 | the rows of the current tab for the current term |
| History.HistoryScreen.SelectTab | components/History.tsx:40-46 | switching tabs clears the search |
| History.HistoryScreen.Search | components/History.tsx:16-28 | typing changes the term and keeps the tab |
| History.SwitchShowsWholeTab | components/History.tsx:16-28 | with an empty term every record of the tab's status is listed |
| Influencers.FilteredInfluencers | components/InfluencerManager.tsx:21-27 | an order-preserving subsequence; listed iff nome or usuario contains the term |
| Influencers.EmptySearchListsAll | components/InfluencerManager.tsx:21-27 | an empty search lists every influencer in order |
| Influencers.InfluencerCampaigns | components/InfluencerManager.tsx:29-32 | empty without a selection; otherwise exactly the campaigns whose ids contain the selected id, in order |
| Influencers.CampaignsFollowIds | components/InfluencerManager.tsx:31 | records with the same id see the same campaigns |
| Influencers.InfluencerScreen.OpenDetails | components/InfluencerManager.tsx:119 | the detail opens on the general tab |
| Influencers.InfluencerScreen.EditFromDetails | components/InfluencerManager.tsx:155 | the editor is asked for the selected influencer and the detail closes |
| Influencers.InfluencerScreen.Delete | components/InfluencerManager.tsx:85 | a delete is requested only when there is a handler |
| Influencers.InfluencerScreen.OpenDrive | components/InfluencerManager.tsx:34-36 | an empty link opens nothing |
| Influencers.InfluencerScreen.Close | components/InfluencerManager.tsx:143 | closing clears the selection |
| Templates.CopyText | components/Templates.tsx:37-39 | the text starts with the header, the upper-cased title and the description, and ends with "CHECKLIST:\n" when there are no tasks |
| Templates.CopyTextIsLines | components/Templates.tsx:37-39 | the text is the header lines and the checklist joined by newlines |
| Templates.CopiedLines | components/Templates.tsx:37-39 | read back line by line: the header, then one "[ ] task" line per task in order |
| Templates.TemplatesScreen.Fetch | components/Templates.tsx:21-31 | the list is replaced, or kept with an error toast; loading ends |
| Templates.TemplatesScreen.Copy | components/Templates.tsx:37-46 | the clipboard gets the copy text with a success toast, or an error toast |
| Templates.TemplatesScreen.DeleteLocal | components/Templates.tsx:48-54 | without a handler nothing happens; otherwise one delete and a refetch |

## Left out

- Rendering, navigation, modals' markup, `alert`, `confirm` and toasts outside the handlers modelled. The App handlers' toasts and their `try`/`catch` are left out too: a failed write is not modelled.
- The database and auth calls of services/supabase.ts (lines 222-431). They are network I/O; the handlers record the writes they request in an effect log instead.
- Profile loading in hooks/usePermissions.ts and App.tsx (`loadProfile`, `initAuth`, timers, the auth listener). These are asynchronous foreign calls; the permission predicates take the loaded profile as an argument.
- Google sign-in (`handleGoogleLogin`) in components/Auth.tsx: it is an OAuth redirect.
- Campaigns `handleSaveChanges` and `openDrive`: an awaited write and `window.open`/`alert`.
- The auto-open effect of components/Campaigns.tsx: it is a React effect.
- `formatDate` of components/InfluencerManager.tsx: it is locale formatting.
- Calendar `headerTitle`: it is display text from month names.
- The rejection path of Templates `onDelete`: it is an asynchronous callback.
- Time zones: every date is UTC. `Date` objects are day numbers, the dashboard's times are whole milliseconds, and the calendar's view date keeps only its day.
- Floating-point rounding: money and percentages are exact reals (`* 0.2`, `* 0.8`, `/ 100`).
- `crypto.randomUUID`, `Math.random` and the current time are parameters.
- Campaigns.Apply: stated field by field over the three edit kinds the checklist editor uses, not for every key of the record.
- Finance.ChartPoint: `substring(0, 8)` counts characters, not UTF-16 code units.
- Domain.ContentItems (used by Dashboard.Checks and Calendar.ItemsEvents): `items` that is neither an array nor falsy is treated as an empty list, where the source would call `forEach` on it.
- Js.Truthy: objects, arrays and non-empty strings are truthy, as in JavaScript; symbols and big integers do not occur.
- Dates.ParseIsoDate: `new Date(text)` for text without '/' (components/Dashboard.tsx:85) accepts only the date-only form `YYYY-MM-DD`. A JavaScript engine also accepts `YYYY`, `YYYY-MM`, date-times and other formats, which the model reads as invalid.
- Js.ToNumber: `Number(text)` reads only optionally signed decimals, with an optional fraction. Exponents, hexadecimal, binary and octal literals and `Infinity` read as NaN, and infinities are not modelled at all.
- Js.JsNumber: arrays read as NaN, while JavaScript reads `Number([5])` as 5 and `Number([])` as 0.
- Js.Lower and Js.Upper: case mapping covers ASCII and Latin-1 only (plus the special cases ß, ÿ and µ), not the whole of Unicode.
- Dashboard.Classify: a truthy date that is not a string counts as no date. The source would throw at `dateStr.includes` (components/Dashboard.tsx:84).
- Calendar.DateText: a truthy date that is not a string counts as no date. The source's `formatDate` would throw (components/Calendar.tsx:36).
- Js.Spread: spreading a string or an array contributes nothing, while JavaScript spreads their indices as keys.
- Js.AmountOr and Js.TextOr: a truthy value of another type (a string amount, a numeric text) counts as missing. This is the reading `Finance.Tax`, `Finance.Cut`, `Finance.Value` and the mappers rely on; in JavaScript the value would pass through `||`.
- Modals.TemplateSave: an absent description, which `fd.get` returns as `null`, is saved as the empty string.
- Handlers.App.CreateLeadCorrected and Handlers.App.CreateDirectCampaignCorrected model the handlers as evidently intended, not as written; `Handlers.App.CreateLead` and `Handlers.App.CreateDirectCampaign` are the handlers as written.

## Findings

| source | as written | input that shows it | evidently intended | confidence | as-written member | corrected member |
|---|---|---|---|---|---|---|
| App.tsx:143 | the new lead reads `data.object` and `data.influencer`, but the new-lead dialog (components/Modals.tsx:151-160) sends `campaignObject` and `influencerIds` | any accepted new-lead form, e.g. brand "X", object "Reels", influencer "i1" | the lead keeps the form's campaign object and influencer list | high, not executed | Handlers.NewLeadLosesObjectAndInfluencer | Handlers.NewLeadKeepsForm |
| App.tsx:422 | the direct campaign reads `data.influencer` and `data.value`, but the direct-campaign dialog (components/Modals.tsx:210-222) sends `influencerIds` and `financial.grossValue` | any accepted direct-campaign form, e.g. closed value "1000" | the campaign keeps the form's influencer and budget | high, not executed | Handlers.DirectCampaignLosesBudget | Handlers.DirectCampaignKeepsForm |
| components/Modals.tsx:354 | the required-field check reads `data.usuario`, but for a non-admin the usuario control is disabled (components/Modals.tsx:413), so the form has no such entry | a non-admin editing their own record with nome and telefone filled | the check uses the resolved usuario (the stored one for non-admins) | high, not executed | Modals.NonAdminSaveRefused | Modals.SelfEditKeepsProtectedFields |
