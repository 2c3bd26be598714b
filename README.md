# TickIT core in Dafny

This project models the deterministic logic of the TickIT incident-ticket backend. The
surrounding web framework, database, machine-learning and language-model plumbing is left
out. One Dafny module corresponds to each core source file:

| module | file | what it models |
|---|---|---|
| `TicketSchema` | `ticket_schema.dfy` | the status and priority enumerations with their wire strings; validation of a creation request (length bounds, enumeration lookup by value, defaults); the all-optional update request |
| `TicketCrud` | `ticket_crud.dfy` | the ticket table as a `TicketStore` object holding a map from id to row; create, lookup, newest-first pagination, the partial-update `setattr` loop with its `updated_at` stamp, and delete |
| `TicketsRouter` | `tickets_router.dfy` | the ticket endpoints: who may update or delete which ticket, and the order of the 404 and 403 answers |
| `Recommend` | `recommend.dfy` | the fifteen-record knowledge base; index initialisation; the walk over the vector-search candidates (range check, de-duplication, category filter, cap of three, similarity score); the random fallback and the 503 answer |
| `SlaRisk` | `sla.dfy` | the SLA risk endpoint: the allowance table, the clamped progress score, the category bumps, the tier ladder and the breach-time projection |
| `SlaModel` | `sla_model.dfy` | the training module's copy of the allowance table, `predict_breach_time`, and the labelling of synthetic samples |
| `Dashboard` | `dashboard.dfy` | the status counts and mean time to resolution; the per-day open and resolved counters of the trend chart |
| `Chatbot` | `chatbot.dfy` | the agent tool `get_open_tickets`: status and case-insensitive filters, the count, and the summary sentence |
| `SeedData` | `seed_data.dfy` | start-up seeding: default users into an empty user table; fifty generated tickets into an empty ticket table |
| `Preprocessing` | `preprocessing.dfy` | `TextPreprocessor.preprocess`: lower-casing, punctuation and digit removal, stop-word removal with lemmatization, joining with spaces |
| `Common` | `common.dfy` | the Python built-ins the above rely on: ASCII `lower()`, substring `in`, `str.join`, list-comprehension filtering, truthiness of optional strings, decimal rendering of counts |

Conventions:

- Times are integer seconds in the store, the dashboard and the seeding. They are `real`
  hours in the two SLA modules.
- Every random draw is a parameter whose range is a precondition. `random.uniform(a, b)`
  is `a + (b - a) * u` for a draw `u` in [0, 1].
- The current time is a parameter `now`, read once per call.
- The vector search, the tokenizer, the lemmatizer and the stop-word list are inputs.
- Where the state changes in place (the ticket table, the user table, the recommender's
  globals, the dashboard's counter table, the loops that build lists), the model is a
  class or a method with a loop. It is proved against a specification function, and the
  properties are proved as lemmas about that function.

Where the design description of the system and the code disagree, the model follows the
code:

- There is no initialisation lifecycle and no persisted index.
- The search always asks for five neighbours and keeps at most three.
- The risk endpoint uses its heuristic, not the trained model.
- The "resolved today" metric counts every resolved ticket, whatever its date.
- The route that lists all tickets requests no ordering.

## Model

| member | source | states |
|---|---|---|
| `TicketSchema.StatusValue` | backend/schemas/ticket.py:9-14 | every status is stored and sent as a non-empty string |
| `TicketSchema.PriorityValue` | backend/schemas/ticket.py:16-20 | every priority is stored and sent as a non-empty string |
| `TicketSchema.ParseStatus` | backend/schemas/ticket.py:9-14 | lookup by value: any status it returns has exactly the looked-up string as its value |
| `TicketSchema.ParsePriority` | backend/schemas/ticket.py:16-20 | lookup by value: any priority it returns has exactly the looked-up string as its value |
| `TicketSchema.StatusRoundTrip` | backend/schemas/ticket.py:9-14 | every status is found again from its string, so the five strings are distinct |
| `TicketSchema.PriorityRoundTrip` | backend/schemas/ticket.py:16-20 | every priority is found again from its string, so the four strings are distinct |
| `TicketSchema.EnumValueSets` | backend/schemas/ticket.py:9-20 | there are exactly five statuses and four priorities, with the listed strings |
| `TicketSchema.ValidateCreate` | backend/schemas/ticket.py:22-34 | accepted iff the title has 5 to 200 characters, the description at least 10, a sent category at most 100, and a sent priority or status is one of the enumeration's strings. An accepted request keeps the sent fields, the enumeration members being those whose string was sent; category defaults to "Uncategorized", priority to Medium and status to Open; the deadline is optional. A bad title is reported first, an unknown priority after the length checks |
| `TicketSchema.ValidateUpdate` | backend/schemas/ticket.py:36-43 | accepted iff every field that is present obeys the creation bounds and every sent priority or status string names an enumeration member. An accepted update sets exactly the sent fields, with the same text fields and deadline and the members whose strings were sent; a bad title is the error reported |
| `TicketSchema.EmptyUpdateValid` | backend/schemas/ticket.py:36-43 | no field of an update is required |
| `TicketCrud.SetFields` | backend/models/ticket_crud.py:88 | the sent fields, in declaration order, at most one per field; their effect is stated by `SetFieldsMerge` |
| `TicketCrud.AssignAllKeepsIdentity` | backend/models/ticket_crud.py:91-96 | the assignment loop never changes the id, creation time, creator or update stamp |
| `TicketCrud.ContentFieldsApply` | backend/models/ticket_crud.py:91-96 | the title, description and category assignments set exactly the sent ones of those fields |
| `TicketCrud.TriageFieldsApply` | backend/models/ticket_crud.py:91-96 | the priority and status assignments store the enum's string value; the deadline assignment stores the sent deadline; unsent fields keep their value |
| `TicketCrud.SetFieldsMerge` | backend/models/ticket_crud.py:88-99 | the loop over the sent fields followed by the stamp gives the field-wise merge: sent fields take the sent value, every other field is kept, and `updatedAt` is now |
| `TicketCrud.Page` | backend/models/ticket_crud.py:73 | OFFSET/LIMIT: at most `limit` rows, which are the listing's rows from position `skip` on; none when `skip` is past the end |
| `TicketCrud.InsertNewestMultiset` | backend/models/ticket_crud.py:73 | inserting a row into the ordered listing adds exactly that row |
| `TicketCrud.InsertNewestSorted` | backend/models/ticket_crud.py:73 | inserting a row keeps the listing newest first |
| `TicketCrud.InsertNewestDistinct` | backend/models/ticket_crud.py:73 | inserting a row with a new id keeps the ids distinct |
| `TicketCrud.SortingStep` | backend/models/ticket_crud.py:73 | moving one row into the ordered listing keeps it newest first, duplicate-free, and holding exactly the rows moved so far |
| `TicketCrud.SortingDone` | backend/models/ticket_crud.py:73 | once every row is moved, the ordered listing lists the whole table once each, newest first |
| `TicketCrud.TicketStore.CreateTicket` | backend/models/ticket_crud.py:27-42 | a new row under a fresh id, holding the request's fields, the enum strings and the creator's email, with both stamps set to now; the table grows by one and no other row changes |
| `TicketCrud.TicketStore.GetTicketById` | backend/models/ticket_crud.py:58 | the stored row with that id, or none exactly when the id is absent |
| `TicketCrud.TicketStore.GetAllTickets` | backend/models/ticket_crud.py:73 | the page is OFFSET `skip` LIMIT `limit` of a listing that holds every row once, newest `createdAt` first; at most `limit` rows, newest first |
| `TicketCrud.TicketStore.UpdateTicket` | backend/models/ticket_crud.py:88-99 | the stored row becomes the field-wise merge of the sent fields, stamped now; no other row changes |
| `TicketCrud.TicketStore.DeleteTicket` | backend/models/ticket_crud.py:120-121 | exactly that row is removed; the others are unchanged |
| `TicketsRouter.StatusCode` | backend/routers/tickets.py:127-135 | the code is 404 exactly for "not found" and 403 exactly for "forbidden" |
| `TicketsRouter.UpdateRefusal` | backend/routers/tickets.py:96-103 | admins and agents are never refused. Anyone else is refused with 403 exactly when setting a status on a ticket they did not create, or sending a non-empty category, a priority or a non-null deadline |
| `TicketsRouter.StaffMayUpdate` | backend/routers/tickets.py:96 | admins and agents pass the update check unconditionally |
| `TicketsRouter.EndUserPermittedUpdates` | backend/routers/tickets.py:97-103 | an end user may change the title and description of any ticket and the status of their own, may clear the deadline, and may send an empty category |
| `TicketsRouter.GetTicket` | backend/routers/tickets.py:68-72 | 404 exactly when the id is absent; otherwise the stored row |
| `TicketsRouter.CreateTicket` | backend/routers/tickets.py:31-36 | the new row, under the fresh id, holds the request's title, description, category and deadline, the priority's and status's strings, the caller's email as creator, and both stamps at now; the table gains exactly that row |
| `TicketsRouter.GetAllTickets` | backend/routers/tickets.py:52 | OFFSET/LIMIT over a listing of every row in the table's own order |
| `TicketsRouter.UpdateTicket` | backend/routers/tickets.py:90-108 | a missing ticket gives 404 before any authorization check; a refused update gives 403 and changes nothing; an accepted one stores the field-wise merge stamped now |
| `TicketsRouter.DeleteTicket` | backend/routers/tickets.py:127-138 | a non-admin gets 403 even for a missing ticket; an admin gets 404 for a missing ticket; otherwise exactly that row is removed |
| `Recommend.MockResolutionsWellFormed` | backend/routers/recommend.py:20-36 | the knowledge base has fifteen records with pairwise distinct ids |
| `Recommend.MockIdsDistinct` | backend/routers/recommend.py:20-36 | the fifteen ids differ pairwise |
| `Recommend.Similarity` | backend/routers/recommend.py:151-153 | the score is never negative; it is at most 1 for a non-negative distance; it is 1 − d/2 up to distance 2 and 0 beyond |
| `Recommend.SimilarityMonotone` | backend/routers/recommend.py:153 | a nearer candidate never scores lower |
| `Recommend.WalkSkip` | backend/routers/recommend.py:127-141 | skipping a candidate that is out of range, filtered out or already seen keeps the walk's invariant |
| `Recommend.WalkAccept` | backend/routers/recommend.py:143-161 | appending an eligible candidate with a new id keeps the walk's invariant |
| `Recommend.WalkDone` | backend/routers/recommend.py:127-161 | when the walk stops, its result has the properties `SelectRecommendations` promises |
| `Recommend.SelectRecommendations` | backend/routers/recommend.py:124-161 | at most three recommendations, with distinct ids and the filter's category when one is given. They appear in candidate order; each comes from an in-range candidate scored by its distance, and it is the first eligible candidate naming its record (no earlier eligible candidate has the same id). Every eligible candidate up to the last kept one is represented. The result is empty iff no candidate is eligible |
| `Recommend.ScoresWithinUnit` | backend/routers/recommend.py:151-153 | with non-negative distances every kept score lies in [0, 1] |
| `Recommend.ScoresNonIncreasing` | backend/routers/recommend.py:151-153 | with candidates nearest first, kept scores never increase along the result |
| `Recommend.Fallback` | backend/routers/recommend.py:168-176 | min(3, size) recommendations, built from the sampled records, with scores in [0.3, 0.6] and distinct ids; the category filter is not applied |
| `Recommend.RecommendationService.constructor` | backend/routers/recommend.py:79-83 | the index is built at import iff the encoder loaded and SKIP_AI_INIT is not "true" in any letter case |
| `Recommend.RecommendationService.InitializeFaissIndex` | backend/routers/recommend.py:60-77 | does nothing without an encoder; otherwise texts, metadata and indexed vectors number fifteen each and are aligned with the knowledge base |
| `Recommend.RecommendationService.RecommendResolution` | backend/routers/recommend.py:111-176 | 503 iff the index or the encoder is absent. Otherwise one to three recommendations with distinct ids. With no eligible candidate it is the random fallback; with one, it is the walk's answer: each recommendation is drawn from an in-range candidate, in candidate order and scored by its distance, from the first eligible candidate naming its record, the filter holds, every eligible candidate up to the last one kept is represented, and the scores lie in [0, 1] |
| `SlaRisk.SlaHours` | backend/routers/sla.py:63 | the table's allowance for a listed priority, 48 hours otherwise, always positive |
| `SlaRisk.EveryPriorityHasAllowance` | backend/routers/sla.py:28-33 | every priority of the enumeration is in the table, with 4, 8, 24 and 48 hours |
| `SlaRisk.Clamp01` | backend/routers/sla.py:74 | the result is in [0, 1]: the value itself inside, 1 above, 0 below |
| `SlaRisk.ClampOrdersAgree` | backend/routers/sla.py:82 | the final clamp, written the other way round, is the same clamp |
| `SlaRisk.RiskStatusValueInjective` | backend/routers/sla.py:23 | the four tiers are sent as four distinct names |
| `SlaRisk.Tier` | backend/routers/sla.py:85-92 | Critical iff score > 0.8; High iff 0.6 < score ≤ 0.8; Medium iff 0.3 < score ≤ 0.6; Low iff score ≤ 0.3 |
| `SlaRisk.TierMonotone` | backend/routers/sla.py:85-92 | a higher score never lands in a lower tier |
| `SlaRisk.TierBoundaries` | backend/routers/sla.py:85-92 | 0.8 is High, 0.6 is Medium, 0.3 is Low |
| `SlaRisk.BaseScore` | backend/routers/sla.py:71-74 | the perturbed progress score is clamped into [0, 1] and left as it is when already inside |
| `SlaRisk.CategoryBump` | backend/routers/sla.py:77-80 | one of 0, 0.05, 0.1 and 0.15. It includes 0.1 iff the category contains "Security" or "Network" (once even when both occur). It includes 0.05 iff the category contains "Software" and the ticket is open more than 12 hours |
| `SlaRisk.RiskScore` | backend/routers/sla.py:74-82 | the final score is in [0, 1] |
| `SlaRisk.BumpOnlyRaises` | backend/routers/sla.py:76-82 | the category adjustment never lowers the score; without the three words the score is the base score |
| `SlaRisk.PredictedBreachTime` | backend/routers/sla.py:95-100 | a breach time exists iff the open time is below the allowance; it is the remaining allowance after now |
| `SlaRisk.PredictSlaRisk` | backend/routers/sla.py:63-113 | the score is the clamped, bumped risk score, in [0, 1]; tier from the unrounded score; breach time iff within the allowance, and then exactly now plus the allowance left; the fixed model name |
| `SlaRisk.OverdueScoresHigh` | backend/routers/sla.py:71-100 | a ticket past its allowance scores at least 0.7 for any perturbation and gets no breach time |
| `SlaModel.SameTableAsRiskEndpoint` | backend/routers/sla_model.py:23-28 | the training module's table equals the risk endpoint's |
| `SlaModel.BaseSlaHours` | backend/routers/sla_model.py:115 | the table's allowance for a listed priority, 48 hours otherwise |
| `SlaModel.PredictBreachTime` | backend/routers/sla_model.py:107-123 | none iff the open time reaches the allowance; otherwise the remaining allowance after now, strictly later than now |
| `SlaModel.ProjectionsAgree` | backend/routers/sla_model.py:115-123 | for a priority of the enumeration it gives the same answer as the risk endpoint's projection |
| `SlaModel.UniformBounds` | backend/routers/sla_model.py:46-48 | a uniform draw lies between its bounds |
| `SlaModel.OpenTimeHours` | backend/routers/sla_model.py:45-48 | the 30% branch gives 0.7 to 1.5 times the allowance; the other branch gives 0.1 to 0.8 times it |
| `SlaModel.MakeSample` | backend/routers/sla_model.py:39-58 | the priority and category come from the lists; the base allowance is the table's; breached is 1 iff the open time reaches it, and 0 otherwise |
| `SlaModel.LabelMatchesProjection` | backend/routers/sla_model.py:51 | a sample is labelled breached iff no breach time is projected for it |
| `SlaModel.WithinBranchNotBreached` | backend/routers/sla_model.py:47-51 | a sample from the "well within" branch is never labelled breached |
| `SlaModel.GenerateSyntheticData` | backend/routers/sla_model.py:37-62 | one sample per draw, in order, each labelled by the breach rule |
| `Dashboard.StatusCountsPartition` | backend/routers/dashboard.py:33-35 | the resolved and not-resolved counts add up to the total |
| `Dashboard.ResolvedWithUpdate` | backend/routers/dashboard.py:38-40 | only resolved rows with an update time; the same contributing count and total time as the whole table |
| `Dashboard.MeanZeroWithoutTimedRows` | backend/routers/dashboard.py:51-55 | with no resolved row carrying both timestamps, nothing is counted and the mean is 0 |
| `Dashboard.MeanResolutionNonNegative` | backend/routers/dashboard.py:42-55 | when no resolved row was updated before its creation, the total and the mean are not negative |
| `Dashboard.MeanTimesCount` | backend/routers/dashboard.py:51-53 | with a contributing row, mean × count × 3600 is the total resolution time in seconds |
| `Dashboard.GetDashboardMetrics` | backend/routers/dashboard.py:33-61 | total, not-resolved and resolved counts, where open + resolved = total; the mean over the resolved rows with both timestamps |
| `Dashboard.CreatedSince` | backend/routers/dashboard.py:140 | a subsequence of the rows, in table order, each created no earlier than the window start |
| `Dashboard.CreatedSinceComplete` | backend/routers/dashboard.py:140 | every occurrence of a row created at or after the window start is kept, and nothing else is |
| `Dashboard.TableStep` | backend/routers/dashboard.py:142-148 | one more row bumps the resolved or open counter of its own day when that day is in the table; otherwise the table is unchanged |
| `Dashboard.ZeroTable` | backend/routers/dashboard.py:135-138 | one entry per date of the window, `days + 1` of them, all at zero |
| `Dashboard.CountDays` | backend/routers/dashboard.py:142-148 | after the loop each date's counters are the numbers of resolved and of other rows created that day |
| `Dashboard.TableItems` | backend/routers/dashboard.py:150-153 | the items in ascending date order, one per date, with their counters |
| `Dashboard.GetDashboardTrends` | backend/routers/dashboard.py:131-156 | `days + 1` points, oldest first with strictly increasing dates, counting the window's rows by creation day and resolved-ness |
| `Dashboard.TrendCountsEveryRowOnce` | backend/routers/dashboard.py:142-153 | the counters sum to the number of rows created on a day of the window |
| `Chatbot.MatchingTickets` | backend/routers/chatbot.py:45-52 | a subsequence of the listing holding exactly the open or in-progress tickets that match the truthy filters, ignoring case, each as many times as it is listed, so the reported count is the number of matching rows |
| `Chatbot.MatchingIsOneFilter` | backend/routers/chatbot.py:48-52 | the three successive filters select what one combined filter selects |
| `Chatbot.SummaryNoMatch` | backend/routers/chatbot.py:54-56 | the no-match message is given iff nothing matched |
| `Chatbot.SummaryShape` | backend/routers/chatbot.py:58-61 | with matches, the answer starts with the "Found …" heading and goes on past it iff there are at most five |
| `Chatbot.GetOpenTickets` | backend/routers/chatbot.py:36-63 | the no-match message iff no ticket of the listing matches |
| `Chatbot.DetailInSentence` | backend/routers/chatbot.py:61 | every match's detail occurs in the details sentence |
| `Chatbot.DetailsListed` | backend/routers/chatbot.py:59-61 | with at most five matches, every match's detail appears in the answer |
| `Chatbot.OpenTicketsSummary` | backend/routers/chatbot.py:41-43 | the summary is computed over the first thousand rows of the newest-first listing of the store |
| `Common.AsciiLower` | backend/routers/chatbot.py:50 | same length, each character lowered, no upper-case letter left |
| `Common.AsciiLowerIdempotent` | backend/utils/preprocessing.py:47 | lowering twice is lowering once |
| `Common.NatToStringRoundTrip` | backend/routers/chatbot.py:58 | the rendered count reads back as the count |
| `Common.Contains` | backend/routers/sla.py:77 | substring `in`: true iff the text occurs at some position |
| `Common.Filter` | backend/routers/chatbot.py:46 | a subsequence of the input that keeps every occurrence of each element satisfying the condition and nothing else |
| `Common.JoinContainsParts` | backend/routers/chatbot.py:61 | each part of a join occurs in the joined text |
| `SeedData.UsersAfterSeeding` | backend/utils/seed_data.py:22-36 | the defaults when the user table is empty, the table unchanged otherwise; never empty afterwards |
| `SeedData.CreatorEmailsAreStaff` | backend/utils/seed_data.py:65-67 | an email may be drawn as creator iff it belongs to an agent or an end user |
| `SeedData.DefaultUsersCanCreate` | backend/utils/seed_data.py:24-29 | the default users include someone who can create tickets |
| `SeedData.SeedSlaMatchesRiskTable` | backend/utils/seed_data.py:86-91 | seeding uses the risk endpoint's allowances |
| `SeedData.BeforeFirstComma` | backend/utils/seed_data.py:99 | the text up to, not including, its first comma, or all of it when there is none |
| `SeedData.SeedTicket` | backend/utils/seed_data.py:70-108 | the row is stored under the draw's id; its times, status, deadline and title are stated by the four lemmas below |
| `SeedData.SeedTicketTimes` | backend/utils/seed_data.py:71-80 | created between 60 days 23 hours and one day before now. A resolved or closed ticket is updated after creation and not in the future. Any other is updated at its creation time |
| `SeedData.SeedTicketStatus` | backend/utils/seed_data.py:73 | the stored status is the drawn status's string, "Resolved" or "Closed" exactly for the closed-out statuses |
| `SeedData.SeedTicketDeadline` | backend/utils/seed_data.py:86-92 | the stored priority is the drawn one's string; the deadline is its allowance in hours after creation |
| `SeedData.SeedTicketTitle` | backend/utils/seed_data.py:95-99 | the title is "Issue {i+1}: " followed by comma-free text; the creator is one of the possible creators |
| `SeedData.GeneratedTickets` | backend/utils/seed_data.py:69-109 | fifty rows, row k carrying draw k's id, so distinct draw ids give distinct rows; every creator is one of the possible creators, every creation lies between 60 days 23 hours and one day before now, and every deadline is the row's own priority's allowance after its creation |
| `SeedData.AddAllContents` | backend/utils/seed_data.py:111 | adding rows with distinct fresh ids keeps the old rows and stores each new row under its id, one new key per row |
| `SeedData.AddAllOnlyRows` | backend/utils/seed_data.py:111 | adding rows introduces no key other than the rows' ids |
| `SeedData.AddAllKeeps` | backend/utils/seed_data.py:111 | adding rows removes no key |
| `SeedData.AddAllNonEmpty` | backend/utils/seed_data.py:111 | adding at least one row leaves the table non-empty |
| `SeedData.AddAllKeyed` | backend/utils/seed_data.py:111 | adding rows keeps every row stored under its own id |
| `SeedData.SeededTable` | backend/utils/seed_data.py:39-111 | seeding an empty table with distinct ids gives exactly fifty rows, the row under draw k's id generated from draw k |
| `SeedData.SeedingIsIdempotent` | backend/utils/seed_data.py:22-39 | a second seeding changes neither table |
| `SeedData.TicketSeedingIdempotent` | backend/utils/seed_data.py:38 | with the same possible creators, a second ticket seeding leaves the table as the first left it |
| `SeedData.MakeTicket` | backend/utils/seed_data.py:71-108 | the loop body builds the generated row, including the clamp of a future update time |
| `SeedData.GenerateTickets` | backend/utils/seed_data.py:69-109 | the loop builds the fifty generated rows in order |
| `SeedData.SeedUsers` | backend/utils/seed_data.py:22-34 | the user table after seeding |
| `SeedData.SeedTickets` | backend/utils/seed_data.py:39-117 | the ticket table after seeding, still keyed by id; fails only on an empty table with nobody to draw as creator |
| `SeedData.SeedInitialData` | backend/utils/seed_data.py:22-117 | users first, then tickets created by the agents and end users found afterwards; both tables as after seeding |
| `Preprocessing.RemovePunctuation` | backend/utils/preprocessing.py:50 | no punctuation character is left; every occurrence of every other character survives, in order |
| `Preprocessing.RemoveDigits` | backend/utils/preprocessing.py:53 | no digit is left; every occurrence of every other character survives, in order |
| `Preprocessing.NormalizedIsClean` | backend/utils/preprocessing.py:47-53 | after steps 1-3 no upper-case letter, punctuation character or digit is left, and every occurrence of any other character of the lowered text survives |
| `Preprocessing.NormalizeIdempotent` | backend/utils/preprocessing.py:47-53 | steps 1-3 applied twice equal steps 1-3 applied once |
| `Preprocessing.KeptLemmas` | backend/utils/preprocessing.py:59-63 | at most as many lemmas as tokens |
| `Preprocessing.KeptLemmasAreNonStopTokens` | backend/utils/preprocessing.py:59-63 | the kept lemmas are, in token order, the lemmas of exactly the tokens that are not stop words |
| `Preprocessing.NoStopWordsKeepsAll` | backend/utils/preprocessing.py:59-63 | without stop words every token's lemma is kept, one for one |
| `Preprocessing.JoinSplitRoundTrip` | backend/utils/preprocessing.py:66 | splitting a join at its one-character separator gives back the parts when no part contains it |
| `Preprocessing.OutputWords` | backend/utils/preprocessing.py:66 | the output's words, split at single spaces, are the kept lemmas in order |
| `Preprocessing.TextPreprocessor.constructor` | backend/utils/preprocessing.py:32-34 | the stop-word set and the lemmatizer are fixed at construction |
| `Preprocessing.TextPreprocessor.Preprocess` | backend/utils/preprocessing.py:36-66 | the kept lemmas of the tokens of the normalized text, joined with single spaces |

## Left out

- Rounding is not modelled: `round(…, 3)` of the similarity and risk scores and `round(…, 2)` of the mean. The arithmetic is exact in `real`. The tier is computed from the unrounded score, as in the code.
- Floating-point and datetime behaviour: times are exact integers or reals, and a date is a time divided by 86400 seconds.
- The sentence encoder and the vector index are foreign libraries. Their search result is an input sequence of (position, distance) pairs; whether the encoder loaded is a constructor parameter.
- The NLTK tokenizer, lemmatizer and English stop-word list are foreign data and code. They are parameters of the preprocessor.
- Only ASCII letter case and ASCII digits are modelled. Python's Unicode `lower()` and `\d` cover more characters.
- The database is a map from id to row. Sessions, commits, refreshes and the SQL engine are not modelled.
- An explicit null sent for a non-nullable update field is not modelled; the database would reject it.
- `TicketCrud.TicketStore.GetAllTickets`: rows created at the same instant may come in any order, as with the SQL sort; the model does not fix a tie order.
- `Dashboard.TableItems`: the items are produced by walking the dates in ascending order. This is the order the code obtains by sorting the ISO date strings.
- `Recommend.RecommendationService.RecommendResolution`: the search answer is required to hold exactly five candidates, each with a position of at least −1 (the index's marker for a missing neighbour). This is what a fifteen-vector index returns for five neighbours; shorter answers are not modelled.
- The knowledge base is stored column by column (ids, texts, categories), and the records are assembled from the three columns.
- `SeedData.SeedInitialData`: the draws' title and description texts are free strings. The model does not require them to come from the sixteen-entry description list.
- Uniqueness of the seeded ids is a precondition of `SeedData.SeededTable`, not of seeding itself; the model does not prove that fresh random ids are distinct.
- Passwords and their hashes in the default users are not modelled; users are emails with roles.
- Authentication and authorization plumbing is not modelled: token decoding, the role dependency of the recommendation and risk routes, and password hashing. The caller's identity and role are parameters.
- The dashboard heatmap is random mock data.
- Training, saving and loading the SLA model, and the other classifiers, are library and file I/O.
- The language-model agent of the chatbot is an external service; only its open-ticket tool is modelled.
- The undeclared `Optional` in the risk response at backend/routers/sla.py:24 is a wiring defect, not logic.
- `Recommend.RecommendationService.RecommendResolution` and `SlaRisk.PredictSlaRisk`: as written, both routes fail before doing any work. Their first statement, the log line at backend/routers/recommend.py:109 and backend/routers/sla.py:49, reads `current_user['email']`. But `current_user` is the `UserPayload` model that the dependency returns (backend/dependencies.py:32-36), and that model cannot be indexed by key. Each request therefore ends in a TypeError and a 500 answer, before the 503 check and before the scoring. The model describes both routes from the statement after the log line, as they behave once the caller's email is read as an attribute (the way backend/routers/tickets.py does).
- Default argument values are not modelled: the trend window's `days=30` (backend/routers/dashboard.py:122), the listing's `skip=0` and `limit=100` (backend/routers/tickets.py:43-44), and `num_samples=1000` (backend/routers/sla_model.py:32). The models take these values as parameters.
- There is no concurrency in the code.
- Logging is not modelled.
