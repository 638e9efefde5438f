# KommoAnalytics ETL core, modelled in Dafny

KommoAnalytics pulls leads, status changes, tasks, calls, notes and events from the Kommo CRM. It turns them into analytics tables for a sales dashboard. This project models the transformation logic of its six ETL modules and proves properties of it:

- **Lead sources** (`LeadSource`, module 1): how a lead's custom fields (UTM tags, click ids, the "Origem Lead" field) become a primary and a detailed source. Also source-name standardisation, the pipeline fallback, the first-response time and the lead-cost extraction.
- **Funnel history** (`Funnel`, module 2): status names are classified into stage buckets, and each lead's status-change events become stage records. Each record has an entry time, an exit time, the time spent in the stage and the kind of transition. This module also covers loss-reason naming and the daily funnel rates.
- **Activities** (`Activities`, module 3): how tasks, calls, notes and events are classified. It also covers the per-lead scan that matches each contact with a reply within 24 hours, which activity records are kept, and the derived per-user and team rates.
- **Conversion** (`Conversion`, module 4): the conversion status classifier, the sales cycle, the proposal date, the loss reason, the conversion records and the win rates.
- **Performance** (`Performance`, module 5): per-seller and per-channel counters kept in insertion-ordered dictionaries, the derived rates, and the daily delete-then-insert load.
- **Forecast** (`Forecast`, module 6): the month forecast from the module totals (run rate, growth target), the gaps, the risk level, the alerts and the recommended actions.

Shared modules:
- `Wrappers` holds `Option` and `Slot`. A `Slot` tells a missing dict key from one holding `null`, as Python's `dict.get` does.
- `Text` holds lower-casing, title-casing, stripping, substring search and joining.
- `Sorting` holds a stable sort by key: a function, and an in-place array method proved equal to it.
- `Rates` holds percentages and ratios that are 0 on a zero denominator.
- `Crm` holds the entities several modules share.

Objects whose fields the ETL updates in place are classes:
- `Funnel.FunnelEtl`, with the status cache;
- `Conversion.ConversionEtl`, with the status and user caches;
- `Performance.PerformanceDb`, with the two performance tables.

Loops in the source are methods with loop invariants. Each is proved equal to a specification function, and the properties are proved about those functions.

Times are Unix seconds (`int`), and money and rates are `real`. "Now" is a parameter.

## Model

| member | source | states |
|---|---|---|
| Funnel.ClassifyStatusType | ETL/kommo_etl_modulo2_funil.py:101-145 | A missing or empty name is `other`. A name in the fixed table gets its mapped bucket. `other` comes from nothing else (as written, see Findings). |
| Funnel.ClassifyStatusTypeFallsOff | ETL/kommo_etl_modulo2_funil.py:130-145 | The name "OK", which is in no table and matches no keyword, gets no bucket at all. |
| Funnel.ClassifyStatusTypeOrOther | ETL/kommo_etl_modulo2_funil.py:101-145 | The corrected classifier agrees with the as-written one wherever that one answers. It gives `other` exactly when that one gives `other` or nothing. |
| Funnel.MeetingFailedOnlyForNoShow | ETL/kommo_etl_modulo2_funil.py:116-135 | A failed meeting arises exactly for the name "No Show". |
| Funnel.OtherMeansUnrecognised | ETL/kommo_etl_modulo2_funil.py:105-145 | `other` arises exactly for an empty name or a name outside the table that matches no keyword group. |
| Funnel.DetermineConversion | ETL/kommo_etl_modulo2_funil.py:633-659 | `unknown` iff a bucket is missing. `won` and `lost` iff the target is won or lost. |
| Funnel.ConversionFollowsOrder | ETL/kommo_etl_modulo2_funil.py:644-659 | For a target other than won or lost: `advance` iff both buckets are in the order lead < qualified < meeting < proposal < negotiation < won < lost and the target comes later; `regression` iff it comes earlier; `same_stage` iff the buckets are equal. |
| Funnel.ConversionAntisymmetric | ETL/kommo_etl_modulo2_funil.py:648-657 | Reversing a move between ordered stages swaps advance and regression. |
| Funnel.MeetingFailedIsLateral | ETL/kommo_etl_modulo2_funil.py:648-659 | A failed meeting is outside the stage order, so moves to or from it are lateral. |
| Funnel.CacheAfterHolds | ETL/kommo_etl_modulo2_funil.py:74-86 | Every loaded status is cached, as a status of the main pipeline. A status id that does not recur later keeps the bucket `Funnel.ClassifyStatusTypeOrOther` gives that status's name (the corrected bucket, see Left out). |
| Funnel.CacheAfterMain | ETL/kommo_etl_modulo2_funil.py:74-86 | Loading keeps every cache entry in the main pipeline. |
| Funnel.FunnelEtl.constructor | ETL/kommo_etl_modulo2_funil.py:19-44 | The status cache starts empty and valid. |
| Funnel.FunnelEtl.LoadStatuses | ETL/kommo_etl_modulo2_funil.py:74-86 | The new cache is the old one with the statuses loaded on top, and it stays valid (main pipeline only). |
| Funnel.OtherPipelineHasNoRecords | ETL/kommo_etl_modulo2_funil.py:502-504 | A lead outside the main pipeline yields no records. |
| Funnel.NoEventsOneOpenRecord | ETL/kommo_etl_modulo2_funil.py:506-529 | A main-pipeline lead with a non-null price and no events yields exactly one record: open, of its current status, entered at creation. |
| Funnel.NullPriceNoRecords | ETL/kommo_etl_modulo2_funil.py:608-617 | A `null` price makes every event fail, so the lead yields no event records. |
| Funnel.AtMostOneRecordPerEvent | ETL/kommo_etl_modulo2_funil.py:532-617 | n events yield at most n records. |
| Funnel.EarlierRecordsClosed | ETL/kommo_etl_modulo2_funil.py:567-577 | A record is open iff it has no exit time, and records of events that have a successor are closed. |
| Funnel.OnlyLastRecordOpen | ETL/kommo_etl_modulo2_funil.py:567-577 | In a lead's records only the last can be open. |
| Funnel.ClosedDurationsNonNegative | ETL/kommo_etl_modulo2_funil.py:567-572 | On time-ordered events every closed stage ends no earlier than it began. |
| Funnel.LossOnlyOnLostStages | ETL/kommo_etl_modulo2_funil.py:610-611 | Loss-reason fields are set only on event records of a lost stage. (The single record of a lead without events carries the lead's loss fields whatever its bucket.) |
| Funnel.ContiguousWhenAllEmit | ETL/kommo_etl_modulo2_funil.py:557-605 | When every event emits, there is one record per event and each stage exits exactly when the next one is entered. |
| Funnel.RecordsBelongToLead | ETL/kommo_etl_modulo2_funil.py:594-598 | Every record carries the id of the lead it was built for. |
| Funnel.FunnelEtl.CalculateLeadFunnelMetrics | ETL/kommo_etl_modulo2_funil.py:490-623 | The loop over a lead's sorted events returns exactly `LeadRecords` over the cached statuses. The funnel lemmas above (open and closed records, durations, loss fields) are proved about `LeadRecords`. |
| Funnel.GroupByLead | ETL/kommo_etl_modulo2_funil.py:450-456 | Each grouped list is exactly that lead's events in their original order, and leads without events have no group. |
| Funnel.FunnelEtl.TransformFunnelData | ETL/kommo_etl_modulo2_funil.py:439-488 | Grouping by lead, sorting each group and reconstructing each lead return exactly `FunnelHistory`, whose durations and pipeline are proved below. |
| Funnel.LeadRecordsDurations | ETL/kommo_etl_modulo2_funil.py:567-577 | On time-ordered events, a lead's closed stages end no earlier than they began and their hours are non-negative. Every record is the record of one of the lead's events: it enters that event's status at the event's time, and either exits at the next event with exactly the hours between the two, or is the last event's open stage measured up to "now". |
| Funnel.EventRecordTiming | ETL/kommo_etl_modulo2_funil.py:567-577 | The record one event emits is timed by that event and the next raw event (whether or not that one emits), or stays open up to "now" when it is the last. |
| Funnel.EventRecordsTimed | ETL/kommo_etl_modulo2_funil.py:532-617 | Every record of the first n events is the timed record of one of those n events. |
| Funnel.FunnelHistoryDurations | ETL/kommo_etl_modulo2_funil.py:458-475 | Every closed stage in the whole history has a non-negative duration (its exact value is `Funnel.FunnelHistoryTiming`). |
| Funnel.FunnelHistoryTiming | ETL/kommo_etl_modulo2_funil.py:458-475 | Every closed stage of the whole history belongs to a listed lead with its id, and is the record of an event of that lead's time-sorted events: it exits at the next event, with the hours between the two. |
| Funnel.FunnelHistoryMainOnly | ETL/kommo_etl_modulo2_funil.py:502-504 | Only leads of the main pipeline contribute records. |
| Funnel.LossReasonName | ETL/kommo_etl_modulo2_funil.py:393-403 | A truthy id in the mapping gives the mapped name. Otherwise a non-blank API name is kept. There is no name exactly when the id is falsy and the API name is blank. |
| Funnel.LossReasonNamedAfterId | ETL/kommo_etl_modulo2_funil.py:399-401 | A non-zero id unknown to the mapping, with a blank API name, gives exactly "Motivo ID " followed by the id in decimal. |
| Funnel.NewLeads | ETL/kommo_etl_modulo2_funil.py:217-219 | An id is new iff it is on the page and not yet in the list. |
| Funnel.AppendNewLeadsKeepsAll | ETL/kommo_etl_modulo2_funil.py:217-220 | After extending, the list holds exactly the old ids and the page's ids. |
| Funnel.AppendNewLeadsDistinct | ETL/kommo_etl_modulo2_funil.py:217-220 | A page with distinct ids never introduces a duplicate. |
| Funnel.AppendNewLeadsKeepsPageDuplicates | ETL/kommo_etl_modulo2_funil.py:218-219 | A duplicate inside one page is kept, because the id set is built once per page. |
| Funnel.DailyFunnelRatesBounded | ETL/kommo_etl_modulo2_funil.py:857-862 | Each daily rate lies in [0, 100], all are 0 on an empty day, and together they never exceed 100. |
| Conversion.ClassifyStatusForConversion | ETL/kommo_etl_modulo4_conversao.py:110-131 | Never a failed meeting. Won iff a won keyword occurs. `other` iff no keyword group matches. |
| Conversion.WonBeforeLost | ETL/kommo_etl_modulo4_conversao.py:116-119 | Any name matching both a won and a lost keyword is classified won, because the won test comes first. |
| Conversion.WonAndLostOverlap | ETL/kommo_etl_modulo4_conversao.py:110-119 | The overlap is real: "won/lost" contains a won keyword and a lost keyword, and it is classified won. |
| Conversion.LastClosingFound | ETL/kommo_etl_modulo4_conversao.py:277-292 | The backward scan finds a closing time iff some event moves to won or lost, and the time found is that of a closing event. |
| Conversion.LastClosingIsLatest | ETL/kommo_etl_modulo4_conversao.py:269-292 | On sorted events the closing time is the latest time of any closing event. |
| Conversion.SalesCycleShape | ETL/kommo_etl_modulo4_conversao.py:243-298 | The cycle exists iff the current status is won or lost. When the lead has a closing event, the cycle is the non-negative day count from creation to the newest closing event (no closing event is later). |
| Conversion.SalesCycleFallsBack | ETL/kommo_etl_modulo4_conversao.py:262-267 | A closed deal whose lead-typed events never reach won or lost, including one with no such events, measures the cycle from creation to `updated_at`, clamped at 0. |
| Conversion.ConversionEtl.CalculateSalesCycle | ETL/kommo_etl_modulo4_conversao.py:243-302 | The filter, the sort and the backward loop compute exactly `SalesCycleOf`, characterised by `SalesCycleShape`. |
| Conversion.FirstProposalIsEarliest | ETL/kommo_etl_modulo4_conversao.py:317-333 | On sorted events the first proposal move is the earliest, and one exists iff some event moves to a proposal. |
| Conversion.ProposalDateExists | ETL/kommo_etl_modulo4_conversao.py:304-340 | A proposal date exists iff an event reaches a proposal or the lead currently sits in one, and it is no later than any proposal move. |
| Conversion.FirstProposalAttained | ETL/kommo_etl_modulo4_conversao.py:320-333 | A first proposal time found is the time of a move to a proposal status in the list. |
| Conversion.ProposalDateAttained | ETL/kommo_etl_modulo4_conversao.py:304-340 | When some event moves to a proposal, the date is the time of such a move (and, by `ProposalDateExists`, the earliest one). Without such a move, a lead currently in a proposal status dates from its creation. |
| Conversion.ConversionEtl.IdentifyProposalStage | ETL/kommo_etl_modulo4_conversao.py:304-344 | The forward loop with early return computes exactly `ProposalDateOf`, characterised by `ProposalDateExists`. |
| Conversion.ScanFindsFirst | ETL/kommo_etl_modulo4_conversao.py:360-367 | A value found is the rendered value of the first qualifying reason field, and no earlier field has a null name (which would raise). |
| Conversion.ScanFindsNothing | ETL/kommo_etl_modulo4_conversao.py:360-367 | Nothing is found iff no field qualifies and none has a null name. |
| Conversion.ExtractLossReason | ETL/kommo_etl_modulo4_conversao.py:346-373 | With a loss object: its name, "Não especificado" when the name is missing, nothing when it is `null`. Without one: the value of the first qualifying reason field, "Não especificado" when none qualifies, "Erro" when a field with a `null` name raises first. Nothing comes only from a loss object. |
| Conversion.LossReasonDefault | ETL/kommo_etl_modulo4_conversao.py:353-369 | Without a loss object and custom fields the reason is "Não especificado". |
| Conversion.ConversionRecordsConsistent | ETL/kommo_etl_modulo4_conversao.py:387-451 | Every record's flags agree: won and lost are exclusive, revenue only when won, a loss reason only when lost, won-from-proposal is won and proposal. A closed deal carries a sales cycle. There are never more records than leads. |
| Conversion.ConversionRecordsCount | ETL/kommo_etl_modulo4_conversao.py:387-455 | Exactly the leads with a readable price get a record. |
| Conversion.ConversionEtl.constructor | ETL/kommo_etl_modulo4_conversao.py:22-45 | The caches are the given status and user maps. |
| Conversion.ConversionEtl.TransformConversionData | ETL/kommo_etl_modulo4_conversao.py:375-476 | The loop over the leads returns exactly `ConversionRecords`, whose consistency and count are proved. |
| Conversion.TallyBounds | ETL/kommo_etl_modulo4_conversao.py:641-660 | Over consistent records, wins plus losses fit in the deals, and wins from proposals fit in both the wins and the proposals. |
| Conversion.UserRatesBounded | ETL/kommo_etl_modulo4_conversao.py:689-690 | A user's win rate and proposal win rate lie in [0, 100]. |
| Conversion.TeamWinRate | ETL/kommo_etl_modulo4_conversao.py:774 | The team win rate is 0 without deals and lies in [0, 100] when wins do not exceed deals. |
| Conversion.TeamProposalWinRateAsWritten | ETL/kommo_etl_modulo4_conversao.py:775 | All wins over the proposals, in percent, 0 without proposals (as written, see Findings). |
| Conversion.TeamProposalWinRateExceeds100 | ETL/kommo_etl_modulo4_conversao.py:775 | Three consistent won deals, one through a proposal, give a team proposal win rate of 300. |
| Conversion.TeamProposalWinRateBounded | ETL/kommo_etl_modulo4_conversao.py:690 | The corrected team rate (wins from proposals over proposals) of consistent records lies in [0, 100]. |
| Performance.CountAllShape | ETL/kommo_etl_modulo5_performance.py:188-206 | Every lead is counted once, and won plus lost never exceed the leads. Cycles are counted only for wins. A sum is 0 when nothing was counted for it. Cost is counted only for channels. |
| Performance.ChannelCostIsCostSum | ETL/kommo_etl_modulo5_performance.py:259-260 | A channel's cost is the sum of its leads' truthy costs. |
| Performance.GroupLeadsDistinct | ETL/kommo_etl_modulo5_performance.py:170-186 | New keys are appended, so no key occurs twice. |
| Performance.GroupLeadsComplete | ETL/kommo_etl_modulo5_performance.py:166-188 | A key has a group iff some lead has that key. |
| Performance.GroupLeadsCounts | ETL/kommo_etl_modulo5_performance.py:166-206 | Each group's counters are exactly the counts over the leads with its key. |
| Performance.GroupLeadsExact | ETL/kommo_etl_modulo5_performance.py:164-206 | One group per distinct key, each with exactly its leads' counts. |
| Performance.GroupTotalsSumToLeads | ETL/kommo_etl_modulo5_performance.py:189 | The groups' lead totals add up to the number of leads. |
| Performance.CountIntoGroups | ETL/kommo_etl_modulo5_performance.py:166-206 | The dictionary loop builds exactly `GroupLeads`: one group per distinct key with that key's counts (`GroupLeadsExact`). |
| Performance.Average | ETL/kommo_etl_modulo5_performance.py:209-213 | The mean once something was counted, otherwise the sum (still 0) is kept. |
| Performance.SellerRatesBounded | ETL/kommo_etl_modulo5_performance.py:216-219 | A seller's win and conversion rates lie in [0, 100], are 0 with nothing closed, and the ticket is 0 without a win. |
| Performance.AddActivityKeepsSellers | ETL/kommo_etl_modulo5_performance.py:222-228 | An activity row never creates a seller and changes only the activity totals of the seller it names. |
| Performance.AddActivityOfStranger | ETL/kommo_etl_modulo5_performance.py:224 | A row for a user without leads changes nothing. |
| Performance.AddActivityKeepsCompletedBounded | ETL/kommo_etl_modulo5_performance.py:226-227 | Completed activities stay within the total when each row's do. |
| Performance.ChannelKeyMergesNullWithNone | ETL/kommo_etl_modulo5_performance.py:234-239 | A `NULL` channel and a channel named "None" share one key. |
| Performance.Roi | ETL/kommo_etl_modulo5_performance.py:290 | ROI is 0 without cost; otherwise ROI × cost = (revenue − cost) × 100, non-negative when revenue covers cost. |
| Performance.ChannelRatesBounded | ETL/kommo_etl_modulo5_performance.py:280-291 | The finalized channel row agrees with the leads counted: rates in [0, 100], cost per lead × leads = cost, ticket 0 without wins. |
| Performance.ChannelMetrics | ETL/kommo_etl_modulo5_performance.py:233-291 | Each channel row stands for a non-empty set of leads, those with its key, and agrees with them. |
| Performance.TransformPerformanceData | ETL/kommo_etl_modulo5_performance.py:154-298 | The seller and channel rows returned are exactly `SellersOf` and `ChannelsOf`, in first-appearance order. |
| Performance.CompletionRate | ETL/kommo_etl_modulo5_performance.py:407 | 0 without activities, and in [0, 100] when completed ≤ total. |
| Performance.OtherDays | ETL/kommo_etl_modulo5_performance.py:391-392 | After the delete, a row remains iff it was there and is dated another day. |
| Performance.Stamp | ETL/kommo_etl_modulo5_performance.py:405-466 | Each inserted row carries the load day, one per incoming row, in order. |
| Performance.FinalizeSellers | ETL/kommo_etl_modulo5_performance.py:209-219 | One seller row per group, in first-appearance order. |
| Performance.FinalizeChannels | ETL/kommo_etl_modulo5_performance.py:280-291 | One channel row per group, in first-appearance order. |
| Performance.OtherDaysIdempotent | ETL/kommo_etl_modulo5_performance.py:391-392 | Deleting a day's rows twice is deleting them once. |
| Performance.ReplaceDayCorrect | ETL/kommo_etl_modulo5_performance.py:390-431 | For the seller table: after the load the day's rows are exactly the new rows, other days keep theirs, and loading twice equals loading once. |
| Performance.Stored | ETL/kommo_etl_modulo5_performance.py:446-449 | The stored channel row keeps the channel and the counters, and a UTM column is "" exactly when the value is `None` or "", otherwise the value itself. |
| Performance.InsertChannelsUnique | ETL/kommo_etl_modulo5_performance.py:366 | Inserting a day's channels on top of other days' rows never leaves two rows of that day clashing on (channel, UTM source, UTM medium, day). |
| Performance.InsertChannelsCover | ETL/kommo_etl_modulo5_performance.py:443-466 | Every incoming channel is stored, or clashes with a row stored before it. |
| Performance.ReplaceChannelDayCorrect | ETL/kommo_etl_modulo5_performance.py:390-466 | After the channel load the day's rows are stored rows of incoming channels with no two clashing on the unique key, every channel is stored or clashes with one stored earlier, other days keep their rows, and loading twice equals loading once. |
| Performance.NullAndEmptyUtmClash | ETL/kommo_etl_modulo5_performance.py:447-448 | A channel with a `NULL` UTM source and one with "" (same channel and medium) are stored as one row: the second insert clashes and only the first is kept. |
| Performance.SellerRows | ETL/kommo_etl_modulo5_performance.py:405-427 | One stored row per seller, in order, each with that seller's completion rate. |
| Performance.PerformanceDb.constructor | ETL/kommo_etl_modulo5_performance.py:304-380 | Both tables start empty. |
| Performance.PerformanceDb.InsertSellerRows | ETL/kommo_etl_modulo5_performance.py:404-431 | Appends one stamped row per seller and leaves the channel table alone. |
| Performance.PerformanceDb.InsertChannelRows | ETL/kommo_etl_modulo5_performance.py:442-466 | The loop inserts each channel with `None` UTM columns stored as "", skipping one that clashes on the unique key with a stored row, exactly as `InsertChannels` specifies; the seller table is untouched. |
| Performance.PerformanceDb.LoadPerformanceData | ETL/kommo_etl_modulo5_performance.py:382-476 | The seller table becomes its old rows with today's replaced by the new rows; the channel table becomes `ReplaceChannelDay` of its old rows (see `ReplaceChannelDayCorrect`). |
| Forecast.DaysInMonth | ETL/kommo_etl_modulo6_forecast_integrado.py:165-167 | Month lengths lie in 28..31, and February has 29 days exactly in leap years. |
| Forecast.LeapsBeforeStep | ETL/kommo_etl_modulo6_forecast_integrado.py:166 | A year adds a leap day to the day count exactly when it is a leap year. |
| Forecast.DaysBeforeDecember | ETL/kommo_etl_modulo6_forecast_integrado.py:166 | The days before December are 334, one more in a leap year. |
| Forecast.MonthLengthIsDaysInMonth | ETL/kommo_etl_modulo6_forecast_integrado.py:165-167 | The next month's start minus this month's start is the Gregorian month length. |
| Forecast.Trunc | ETL/kommo_etl_modulo6_forecast_integrado.py:208-209 | `int()` truncates toward zero. |
| Forecast.RunRate | ETL/kommo_etl_modulo6_forecast_integrado.py:184-189 | 0 when no day has passed; otherwise rate × elapsed = value × month length. |
| Forecast.DaysElapsed | ETL/kommo_etl_modulo6_forecast_integrado.py:168 | The whole days since the first of the month, rounded down, plus one, capped at the month length. Before the month starts it is not positive. |
| Forecast.SalesOf | ETL/kommo_etl_modulo6_forecast_integrado.py:201 | Sales × 100 = projected leads × win rate. |
| Forecast.ForecastProjection | ETL/kommo_etl_modulo6_forecast_integrado.py:168-206 | Days elapsed are min(whole days since the first of the month + 1, month length). Projected revenue is the revenue's run rate over those days; projected leads and sales are `int()` of the leads' run rate and of that times the win rate / 100. Before the month starts all three are 0. |
| Forecast.CalculateForecast | ETL/kommo_etl_modulo6_forecast_integrado.py:151-219 | A forecast exists iff there are totals and the month is a valid month of years 1..9999 other than December 9999. The projected values are stated by `Forecast.ForecastProjection`. |
| Forecast.ForecastDays | ETL/kommo_etl_modulo6_forecast_integrado.py:165-169 | Elapsed plus remaining days equal the month length. Remaining days are non-negative, and the month length is the Gregorian one. |
| Forecast.ForecastFields | ETL/kommo_etl_modulo6_forecast_integrado.py:188-198 | The target is 1.15 × the projected revenue, and never below a non-negative projection. The forecast win rate and ticket are the current ones. No revenue gives target 0. |
| Forecast.FullMonthProjectsActuals | ETL/kommo_etl_modulo6_forecast_integrado.py:184-189 | With no day left the projected revenue is the actual revenue. |
| Forecast.RiskMonotone | ETL/kommo_etl_modulo6_forecast_integrado.py:255-261 | Under a non-negative target a larger gap never lowers the risk. |
| Forecast.RiskLevels | ETL/kommo_etl_modulo6_forecast_integrado.py:255-261 | No gap is low risk, a gap of exactly 30% is high rather than critical, and above 30% is critical. |
| Forecast.PerDay | ETL/kommo_etl_modulo6_forecast_integrado.py:243-244 | 0 without remaining days; otherwise pace × days = gap. |
| Forecast.AlertsOf | ETL/kommo_etl_modulo6_forecast_integrado.py:264-270 | Each alert appears iff its condition holds: a positive revenue gap, a positive lead gap, the win rate below forecast. |
| Forecast.ActionsOf | ETL/kommo_etl_modulo6_forecast_integrado.py:273-279 | Each action appears iff its condition holds. |
| Forecast.SalesNeeded | ETL/kommo_etl_modulo6_forecast_integrado.py:248 | 0 without a positive ticket; otherwise sales × ticket = gap, positive iff the gap is. |
| Forecast.TicketNeeded | ETL/kommo_etl_modulo6_forecast_integrado.py:252 | 0 unless sales needed are positive; otherwise ticket × sales = gap. |
| Forecast.WinRateNeeded | ETL/kommo_etl_modulo6_forecast_integrado.py:247-249 | 0 without leads needed; otherwise rate × leads = sales × 100. |
| Forecast.CalculateGaps | ETL/kommo_etl_modulo6_forecast_integrado.py:221-299 | Gaps exist iff there are a forecast and totals. The revenue and lead gaps are forecast minus actual, the risk is graded on the revenue gap against the target, and the daily revenue and lead paces are those gaps spread over the remaining days (see `Forecast.PerDay`). |
| Forecast.NeededTicketIsForecastTicket | ETL/kommo_etl_modulo6_forecast_integrado.py:248-252 | With a positive ticket and a positive revenue gap, the ticket needed is the forecast ticket; otherwise 0. |
| Forecast.ForecastThenGaps | ETL/kommo_etl_modulo6_forecast_integrado.py:195-198 | Gaps of a forecast made from the same totals have zero win-rate and ticket gaps and never raise the win-rate alert. |
| LeadSource.TableLookup | ETL/kommo_etl_modulo1_leads.py:569-570 | A hit is the value of an entry with that key, and a miss means no entry has it. |
| LeadSource.StandardNamesNonEmpty | ETL/kommo_etl_modulo1_leads.py:494-566 | Every standard name in the table is non-empty. |
| LeadSource.Standardize | ETL/kommo_etl_modulo1_leads.py:483-573 | Empty gives "Não Classificado". A table hit for the lower-cased, stripped name gives the entry, a miss gives the title-cased name. Non-empty input never gives an empty result. |
| LeadSource.CollectStep | ETL/kommo_etl_modulo1_leads.py:350-385 | One field stores under an id exactly when it writes that id, and other ids keep their values. |
| LeadSource.CollectAllHas | ETL/kommo_etl_modulo1_leads.py:350-385 | An id holds a value iff some field writes a usable value under it. |
| LeadSource.CollectAllLastWins | ETL/kommo_etl_modulo1_leads.py:350-385 | The value stored under an id is the last usable value written to it. |
| LeadSource.LowerOrEmpty | ETL/kommo_etl_modulo1_leads.py:419-422 | The lower-cased text of a truthy value; "" exactly when the value is `None` or empty. |
| LeadSource.ClickIdsFirst | ETL/kommo_etl_modulo1_leads.py:426-430 | A gclid means Google Ads, and otherwise an fbclid means Meta Ads. |
| LeadSource.OriginFieldNext | ETL/kommo_etl_modulo1_leads.py:432-436 | Without click ids, an "Origem Lead" that standardises to a known name decides. |
| LeadSource.UtmRulesNonEmpty | ETL/kommo_etl_modulo1_leads.py:439-469 | The UTM rules never produce an empty source. |
| LeadSource.UtmSourceThird | ETL/kommo_etl_modulo1_leads.py:438-454 | Without click ids or an "Origem Lead" that standardises to a known name, a filled UTM source decides through the utm_source rules, read with the lower-cased medium. |
| LeadSource.UtmMediumFourth | ETL/kommo_etl_modulo1_leads.py:456-469 | With no UTM source either, a filled UTM medium decides through the utm_medium rules. |
| LeadSource.ReferrerLast | ETL/kommo_etl_modulo1_leads.py:471-473 | With no UTM source or medium, a filled referrer decides by its standardised, lower-cased name. |
| LeadSource.GoogleSourceSplit | ETL/kommo_etl_modulo1_leads.py:439-444 | A Google UTM source is paid traffic iff the medium mentions cpc, paid or ads. |
| LeadSource.PrimarySourceFallback | ETL/kommo_etl_modulo1_leads.py:413-475 | The primary source is never empty, and a lead without click ids, origin, UTM source, UTM medium or referrer is "Não Classificado". |
| LeadSource.Part | ETL/kommo_etl_modulo1_leads.py:806-827 | One "caption: value" part for a truthy value, none otherwise. |
| LeadSource.FilledPositions | ETL/kommo_etl_modulo1_leads.py:806-827 | The positions of exactly the truthy values, in ascending order. |
| LeadSource.CaptionedParts | ETL/kommo_etl_modulo1_leads.py:803-827 | One "caption: value" part per truthy value, in caption order, and nothing else. |
| LeadSource.NoFilledPositions | ETL/kommo_etl_modulo1_leads.py:806-827 | No detailed-source field is filled exactly when none of the nine is truthy. |
| LeadSource.DetailParts | ETL/kommo_etl_modulo1_leads.py:803-827 | Exactly one "Caption: value" part per truthy field, in the order Origem, Source, Medium, Campaign, Content, Term, Referrer, GCLID, FBCLID. No parts iff no field is set; the origin part comes first when present. |
| LeadSource.DetailedSource | ETL/kommo_etl_modulo1_leads.py:799-829 | The primary source when no field is set; otherwise the parts joined with a separator of space, vertical bar, space, starting with the origin part when there is one. |
| LeadSource.SourceFromPipeline | ETL/kommo_etl_modulo1_leads.py:831-847 | "Não Classificado" iff the pipeline is not 1..8. |
| LeadSource.Decide | ETL/kommo_etl_modulo1_leads.py:387-391 | Every UTM, referrer, origin and click field is the collected value under its field id (`None` when absent). The primary source is the one the priority rules give for those fields and is never empty. The detailed source is the primary source when no field is filled, otherwise the joined parts. |
| LeadSource.NoFieldsUsesPipeline | ETL/kommo_etl_modulo1_leads.py:343-347 | Without custom fields the primary source comes from the pipeline and every other field stays unset. |
| LeadSource.UnusableFieldsUnclassified | ETL/kommo_etl_modulo1_leads.py:354-361 | Fields with only unusable values leave the lead unclassified. |
| LeadSource.ClassifyLeadSource | ETL/kommo_etl_modulo1_leads.py:319-391 | The loop over the custom fields computes exactly `LeadSourceOf`: the last usable value per field id, then the primary and detailed sources. |
| LeadSource.SortedFirstIsLeast | ETL/kommo_etl_modulo1_leads.py:865-866 | The first of the sorted events is one of them with the least time. |
| LeadSource.ResponseTimeIsEarliest | ETL/kommo_etl_modulo1_leads.py:849-876 | There is a time iff the lead has lead-typed events and a non-null creation time. It is measured to the earliest of them and is not clamped. |
| LeadSource.KeepNumeric | ETL/kommo_etl_modulo1_leads.py:905 | Only digits and dots remain. |
| LeadSource.KeepNumericOfNumeric | ETL/kommo_etl_modulo1_leads.py:905 | A string of digits and dots is kept whole. |
| LeadSource.CommaToDot | ETL/kommo_etl_modulo1_leads.py:903 | No comma remains and every other character stays. |
| LeadSource.NumericOfNoise | ETL/kommo_etl_modulo1_leads.py:899-905 | Text without digits, dots or commas contributes nothing. |
| LeadSource.NumericOfReplaceAll | ETL/kommo_etl_modulo1_leads.py:901 | Removing a pattern of noise characters does not change what is kept. |
| LeadSource.NumericOfTrimStart | ETL/kommo_etl_modulo1_leads.py:899 | Trimming leading whitespace does not change what is kept. |
| LeadSource.NumericOfTrimEnd | ETL/kommo_etl_modulo1_leads.py:899 | Trimming trailing whitespace does not change what is kept. |
| LeadSource.CleanCostIsNumeric | ETL/kommo_etl_modulo1_leads.py:899-905 | The cleaned cost is exactly the digits and dots of the raw text, commas read as dots. |
| LeadSource.ThousandsSeparatorNotParsed | ETL/kommo_etl_modulo1_leads.py:899-912 | "R$ 1.234,50" cleans to "1.234.50", which does not parse. |
| LeadSource.ParseDecimal | ETL/kommo_etl_modulo1_leads.py:907-912 | On cleaned text (digits and dots only), `float` succeeds iff there is at most one dot and some digit, and the number is never negative. |
| LeadSource.EstimatedCost | ETL/kommo_etl_modulo1_leads.py:915-930 | The estimated cost of a source is never negative. |
| LeadSource.LeadCostShape | ETL/kommo_etl_modulo1_leads.py:883-930 | No custom fields gives no cost. A found cost is never negative. Without a cost field the estimate for the primary source is used. |
| LeadSource.ScanCostNonNegative | ETL/kommo_etl_modulo1_leads.py:888-912 | A cost found in the fields is never negative. |
| LeadSource.ExtractLeadCost | ETL/kommo_etl_modulo1_leads.py:878-934 | The loop with early return computes exactly `LeadCostOf`, characterised by `LeadCostShape`. |
| Activities.BaseCategory | ETL/kommo_etl_modulo3_atividades.py:268-281 | `other` iff the type is not one of the ids 1 to 5. |
| Activities.CategorizeTaskActivity | ETL/kommo_etl_modulo3_atividades.py:263-298 | Without any keyword the category is the one the type id maps to. `other` only for an unknown type and `contact` only for type 1. A call word always gives `call`. |
| Activities.KeywordRungs | ETL/kommo_etl_modulo3_atividades.py:283-296 | The keyword lists are tried in the order call, meeting, email, whatsapp, follow_up: each category comes from its own words only when no earlier list matches, or from its type id when no keyword matches at all. |
| Activities.KeywordOverridesType | ETL/kommo_etl_modulo3_atividades.py:283-298 | Once the text holds a keyword, the task type does not matter. |
| Activities.ProposalIsLastResort | ETL/kommo_etl_modulo3_atividades.py:283-296 | `proposal` iff a proposal word occurs and no word of an earlier list does. |
| Activities.ShortTextUsesType | ETL/kommo_etl_modulo3_atividades.py:278-298 | A text under three characters is categorised by its type alone. |
| Activities.ClassifyContactType | ETL/kommo_etl_modulo3_atividades.py:772-842 | Each kind yields only its own types, and an unknown kind gives `outro`. `erro` iff a task has a null text or an event has no type. `ligacao_feita` iff an outgoing call. A note is `email` iff its params mention email or it is `email_out`; `sms` and `nota` iff the earlier tests fail and the params do or do not mention sms. An event is `ligacao`, `sms`, `nota` or `evento` iff its type is the first to contain call, sms, note, or none of them. A task with text is `tarefa` iff its type is 4, or it has no type 1..5 and its text holds none of the meeting, call, email and follow-up words. |
| Activities.TaskTypeBeforeText | ETL/kommo_etl_modulo3_atividades.py:799-815 | A task type 1..5 decides whatever the (non-null) text says. |
| Activities.EventContactsAreSmsOnly | ETL/kommo_etl_modulo3_atividades.py:876-895 | Classified as events, only sms counts as a contact and only nota as a reply. |
| Activities.ReplyFromWitness | ETL/kommo_etl_modulo3_atividades.py:883-899 | A reply found is a later answer from someone else within 86400 s, and no earlier event in the scan answered. |
| Activities.NoReplyWithinDay | ETL/kommo_etl_modulo3_atividades.py:883-899 | On sorted events, no reply means nobody else answered within 24 hours. |
| Activities.ReplyDelayBounded | ETL/kommo_etl_modulo3_atividades.py:886-898 | On sorted events a reply comes 0 to 86400 s after the contact. |
| Activities.TallyShape | ETL/kommo_etl_modulo3_atividades.py:873-899 | Responses equal the recorded times and never exceed the contacts. |
| Activities.TallyTimesWithinDay | ETL/kommo_etl_modulo3_atividades.py:896-898 | On sorted events every response time lies in [0, 24] hours. |
| Activities.ContactsAreSmsEvents | ETL/kommo_etl_modulo3_atividades.py:875-879 | The contacts counted are exactly the sms events. |
| Activities.FindReply | ETL/kommo_etl_modulo3_atividades.py:883-899 | The inner loop with its two breaks finds exactly `ReplyFrom`: the delay to the first answer by someone else, stopping after 24 hours. |
| Activities.ScanLead | ETL/kommo_etl_modulo3_atividades.py:871-899 | The outer loop computes exactly the counters `TallyUpTo` specifies over the whole list. |
| Activities.LeadMetricsWellFormed | ETL/kommo_etl_modulo3_atividades.py:900-909 | On sorted events: responses ≤ contacts; the rate is in [0, 100], 0 without contacts, and positive iff some reply arrived; the mean time is in [0, 24] and 0 without replies. |
| Activities.LeadKeysHaveActivities | ETL/kommo_etl_modulo3_atividades.py:859-865 | A lead is grouped iff it has activities of entity type 'leads' or 'lead', and its group holds only those. |
| Activities.GroupLeadActivities | ETL/kommo_etl_modulo3_atividades.py:859-865 | The grouping loop yields exactly each lead's activities, in their original order. |
| Activities.SortActivities | ETL/kommo_etl_modulo3_atividades.py:869 | The in-place sort gives the stable sort by creation time. |
| Activities.CalculateResponseMetrics | ETL/kommo_etl_modulo3_atividades.py:844-915 | One entry per lead with activities, equal to the specified scan of its sorted activities and well formed. |
| Activities.Reported | ETL/kommo_etl_modulo3_atividades.py:1055-1056 | A lead gets a response record iff it has at least one contact sent. |
| Activities.ReportedSuccess | ETL/kommo_etl_modulo3_atividades.py:1066 | A response record is successful (rate above 0) iff a reply arrived. |
| Activities.OnTime | ETL/kommo_etl_modulo3_atividades.py:963-971 | On time iff both deadline and completion are truthy and completion is not after the deadline. |
| Activities.TaskRecordsExact | ETL/kommo_etl_modulo3_atividades.py:957-1001 | A task record exists exactly for each task with a truthy responsible user. |
| Activities.NoteRecordsExact | ETL/kommo_etl_modulo3_atividades.py:1002-1027 | A note record exists exactly for each note with a truthy responsible user and non-null params (`null` params raise and the note is skipped). |
| Activities.EventRecordsExact | ETL/kommo_etl_modulo3_atividades.py:1029-1052 | An event record exists exactly for each event with a truthy creator. |
| Activities.CallRecordsExact | ETL/kommo_etl_modulo3_atividades.py:932-953 | A call record exists exactly for each call whose note is not `null` (a `null` note raises and the call is skipped). |
| Activities.TransformActivityRecords | ETL/kommo_etl_modulo3_atividades.py:917-1052 | The four record loops return exactly the call, task, note and event records, in that order. |
| Activities.DeriveUserRates | ETL/kommo_etl_modulo3_atividades.py:1311-1313 | Total contacts are the calls, e-mails, WhatsApp messages and meetings summed. Compliance is 0 without follow-ups, otherwise compliance × follow-ups = on-time × 100, and lies in [0, 100]. Activities per lead is 0 without leads, otherwise per-lead × leads = activities. |
| Activities.ContactsPerUser | ETL/kommo_etl_modulo3_atividades.py:1427 | 0 without active users; otherwise per-user × users = team contacts. |
| Activities.TeamContactsAddUp | ETL/kommo_etl_modulo3_atividades.py:1396-1400 | The team's contacts (a sum of per-user totals, each the sum of the four channels as at line 1311) equal its calls, e-mails, WhatsApp messages and meetings summed. |
| Crm.LeadEventsOf | ETL/kommo_etl_modulo1_leads.py:858-861 | An event is kept iff it has the lead's id and entity type "lead". |
| Crm.SortEvents | ETL/kommo_etl_modulo1_leads.py:865 | Returns the stable sort of the events by creation time. |
| Crm.EventsOf | ETL/kommo_etl_modulo2_funil.py:450-456 | An event is kept iff it has the lead's id. |
| Crm.Render | ETL/kommo_etl_modulo4_conversao.py:367 | A truthy field value renders as a non-empty string. |
| Sorting.SortByKeyIdempotent | ETL/kommo_etl_modulo2_funil.py:471 | Sorting a sorted list again changes nothing. |
| Rates.PercentMonotone | ETL/kommo_etl_modulo2_funil.py:859-862 | A larger part never gives a smaller percentage of the same whole. |
| Wrappers.Slot.Get | ETL/kommo_etl_modulo3_atividades.py:802 | `dict.get(key, default)`: nothing iff the key holds `null`, the default iff the key is missing. |
| Sorting.SortByKeyCorrect | ETL/kommo_etl_modulo2_funil.py:471 | The sort yields a sorted permutation of its input. |
| Sorting.SortByKeyOfSorted | ETL/kommo_etl_modulo2_funil.py:471 | A sorted list is left exactly as it is. |
| Sorting.InsertByKeyStable | ETL/kommo_etl_modulo2_funil.py:471 | An inserted element lands after every element with its own key. |
| Sorting.SortByKeyStable | ETL/kommo_etl_modulo2_funil.py:471 | The sort is stable: for every key, the elements with that key appear in the same order as in the input. |
| Sorting.SortInPlace | ETL/kommo_etl_modulo2_funil.py:471 | The array ends up as the stable sort of its old contents. |
| Rates.Percent | ETL/kommo_etl_modulo4_conversao.py:689-690 | 0 on a non-positive denominator; otherwise rate × den = num × 100, and in [0, 100] when 0 ≤ num ≤ den. |
| Rates.Ratio | ETL/kommo_etl_modulo5_performance.py:289 | 0 on a non-positive denominator; otherwise ratio × den = num. |
| Rates.PercentAdd | ETL/kommo_etl_modulo2_funil.py:859-862 | Percentages of disjoint parts of one whole add up. |

## Left out

- HTTP extraction, pagination and rate limiting, and the MySQL code (table creation, DELETE/INSERT statements, aggregate queries). The rows and counts the queries return are inputs. The daily delete-then-insert of the performance tables is modelled on sequences, including the channel table's unique key.
- `datetime.now()` is a parameter, and timestamps are whole seconds with no time zone. `round(...)`, float formatting and the wording of log lines, alerts and actions are left out. Real arithmetic stands for Python floats.
- Python's `lower()` and `title()` are modelled for ASCII and Latin-1 characters only, including the cased ª, º, µ, ß and ÿ and the title-case forms µ → Μ and ÿ → Ÿ. Other Unicode case mappings are not modelled. `strip()` uses Python's full `str.isspace` set.
- `Text.Title`, `LeadSource.Standardize`: at the start of a word Python title-cases ß as the two characters "Ss". The model keeps ß as it is, so a name starting a word with ß is one character shorter than in the source.
- `hash(user_name) % 1000000` in the performance step is randomised per process and is not part of this model.
- `LeadSource.ClassifyLeadSource`: the `'Erro'` result of the exception handler is not modelled. The typed lead record cannot make any of its lookups raise.
- `LeadSource.ResponseTime`, `Activities.CalculateResponseMetrics`: a `null` `created_at` is not modelled (in the source it makes the sort or `fromtimestamp` raise). A missing one is taken as 0 by the caller.
- `Activities.ActivityData`: the event `type` is a string or missing; a non-string type is not modelled. `str(params)` is taken as the already-rendered text of the parameters.
- `Activities.TransformActivityRecords`: records keep only the kind, contact type, user, success flag and on-time flag. Ids, names, dates, durations and note texts are not modelled.
- `Forecast.CalculateForecast`: the month length is computed as the distance between the first days of this month and the next. The source instead jumps 32 days and steps back one (line 166); both give the same day count, which `Forecast.MonthLengthIsDaysInMonth` proves. The module totals are inputs, and their extraction queries are left out.
- The project documentation describes a forecast target with a fallback and tiered growth. The code uses a flat 1.15 × projected revenue, and the model follows the code.
- The project documentation says negative stage durations are clamped. The code does not clamp the open interval up to "now", and the model follows the code.
- `Performance.TransformPerformanceData`: the funnel rows the step reads but never uses are left out.
- `Activities.ReportedSuccess`: the source compares the rate after rounding to two decimals, and the model compares the exact rate. The two differ only for a lead with more than 20000 contacts and one reply.
- `Activities.TransformActivityRecords`: the `task_types_count` tally feeds only a log line and is not modelled.
- `LeadSource.ParseDecimal` is stated only for cleaned text (digits and dots), which is all the cost scan ever passes to `float`.
- The `determine_primary_source_improved` wrapper and the first, overridden `standardize_source_name` (`ETL/kommo_etl_modulo1_leads.py:54`) are not separate members; the class uses the later definition.
- The reporting functions (`generate_*_report`, the quality checks and suggestions) only format or print data and are not part of this model.
- `Funnel.CacheAfterHolds`: the cache holds the corrected classifier `Funnel.ClassifyStatusTypeOrOther`, so a status name that matches no keyword is cached as `other`. As written (see Findings) the source caches `None` for such a name. The same holds for `Funnel.CacheAfter`, which defines the cache.
- `Funnel.FunnelEtl.LoadStatuses`: like `Funnel.CacheAfter`, it caches `other` where the source as written caches `None`.
- `Funnel.FunnelEtl.CalculateLeadFunnelMetrics`: because the cache holds the corrected bucket, a record never lacks a `status_type`. A move to or from an unmatched status is graded on `other`: `won` or `lost` by the target, `same_stage` between two unmatched statuses, otherwise `lateral`. The record's `status_type` is `other`. The source as written gives `unknown` and a `NULL` status type.
- `Funnel.FunnelEtl.TransformFunnelData`: it inherits the `other` bucket for unmatched status names described for `Funnel.FunnelEtl.CalculateLeadFunnelMetrics`.
- `Funnel.FunnelHistoryDurations` states only the sign of each closed duration. The exact exit time and hours are stated by `Funnel.FunnelHistoryTiming`.
- `Funnel.LeadRecordsDurations`, `Funnel.FunnelHistoryTiming`: hours are exact rationals. The source rounds every record's hours to two decimals (`ETL/kommo_etl_modulo2_funil.py:604`; the open stage also at 630-631), and the column is `DECIMAL(10,2)` (line 682).
- `LeadSource.IsDigit`: only '0' to '9' count as digits. Other characters that Python's `str.isdigit` accepts, such as '¹' or '٣', are dropped by the model. The source keeps them, and `float` then rejects a superscript, so such a cost field is skipped there.
- `Crm.FieldValue`: a custom-field value is text, an integer or `null`. Floats and booleans, which `str()` renders as "12.5" or "True", are not modelled.
- `Performance.SameChannelKey`: the unique key compares text exactly. The table's case-insensitive `utf8mb4_unicode_ci` collation, under which "Google" and "google" clash, is not modelled.
- `Performance.ReplaceDayCorrect`: the seller table's unique key on (user_id, created_date) is not modelled, because `user_id` is the per-process hash of the user name (see above).
- `Crm.Event`: the status an event moves to is an `Option<int>`, so a `"lead_status": null` inside `value_after` is read as no status. The funnel step's read of the next event's status (`ETL/kommo_etl_modulo2_funil.py:563`) raises on such a `null`, and the per-event handler (lines 613-615) then skips the current event. The model does not represent that raise. Timestamps are plain integers, so a `null` `created_at` is not representable either.
- `Funnel.EventRecord`: an event whose successor has a `null` `lead_status` is still recorded, with its exit, hours and conversion. The source skips it. A `null` `created_at` on the event or its successor (lines 534, 569) also raises and skips the event, and on the lead (line 500) it leaves the lead without records. Neither raise is modelled.
- `Conversion.SalesCycleOf`: a `null` `created_at` or `updated_at` on the lead, or a `null` `created_at` on the closing event, makes `fromtimestamp` raise (`ETL/kommo_etl_modulo4_conversao.py:263-264`, 272, 291, 295), and the cycle is then `None`. The same raise makes the proposal date `None` (lines 333, 338) and skips the lead's conversion record (lines 396-397, 452-455). These raises are not modelled.
- `Activities.TransformActivityRecords`: a `null` `created_at` on a call, task, note or event makes `fromtimestamp` raise (`ETL/kommo_etl_modulo3_atividades.py:943`, 985, 1015, 1042), and the record is skipped. This raise is not modelled.
- `Performance.InsertChannelsCover`: only unique-key clashes are modelled as rejected inserts. The per-row handlers (`ETL/kommo_etl_modulo5_performance.py:429-431` for sellers, 464-466 for channels) also skip any row MySQL rejects for a column's range or type, such as an ROI above the 999999.99 that `roi DECIMAL(8,2)` holds (line 356). Such rejections are not modelled, so `Performance.ReplaceChannelDayCorrect` and `Performance.PerformanceDb.InsertSellerRows` store rows the database may refuse.

## Findings

| source | as written | input that shows it | evidently intended | confidence | as-written member | corrected member |
|---|---|---|---|---|---|---|
| ETL/kommo_etl_modulo2_funil.py:142-145 | the final `return 'other'` is indented inside the last `elif`, after its `return 'lost'`, so it never runs and an unmatched name returns `None` | status name "OK" | an unmatched name is classified `other` | high (not executed) | Funnel.ClassifyStatusTypeFallsOff | Funnel.ClassifyStatusTypeOrOther |
| ETL/kommo_etl_modulo4_conversao.py:775 | the team proposal win rate divides all wins, including wins without a proposal, by the proposals sent | three won deals, only one of them through a proposal: 300% | wins from proposals over proposals, as the per-user rate at line 690 does, staying within [0, 100] | high (not executed) | Conversion.TeamProposalWinRateExceeds100 | Conversion.TeamProposalWinRateBounded |
