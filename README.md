# LUDIFY mission orchestrator, modelled in Dafny

LUDIFY is a housing-search screen. The user enters a work location, a budget
with a currency, a way of travelling and a commute limit. Pressing the start
button launches a *mission* with three phases:

1. A strategist phase. The AI service analyses the commute and its strategy
   text is stored.
2. A hunter phase. The service returns listings and their citations.
3. A closer phase. The first three listings are each sent an inquiry, and
   each one is marked `replied` or `rejected` from the reply's wording.

The status moves from STRATEGIZING through HUNTING and CLOSING to COMPLETED.
Any failed call logs a warning and sends the status back to IDLE. The
"verified schedule" shows the replied listings. The budget field shows the
symbol of the chosen currency.

The project models that orchestrator in App.tsx:

- `types.dfy`: the records and enumerations of types.ts.
- `text.dfy`: upper-casing and substring search, the two string operations
  the availability test uses.
- `helpers.dfy`: the pure helpers, with lemmas about them:
  - the currency table and symbol lookup;
  - the availability test;
  - the by-id update of the results;
  - the schedule filter;
  - the input guard and the button's enable condition.
- `orchestrator.dfy` has three parts:
  - `Service`, which stands for the answers of the external service and the
    clock during one run;
  - `Run`, a *specification* of a run as a function of the query, the
    position and those answers, built phase by phase from `Opening`,
    `Strategized`, `Hunt` and `Outreach`;
  - the class `MissionControl`, holding the screen's React state as fields.
    Its `StartMission` performs a run step by step, with the outreach loop as
    a `for` loop, and is proved to leave exactly the state `Run` describes.
- `run_properties.dfy`: what every run guarantees. This covers how it ends,
  the order of the statuses, how the log grows, which listings are changed,
  and what survives a failure.

A log line is written as a `Note`, meaning its template and the values
filled in, and rendered by a wording `text: Note -> string`. Every property
in `run_properties.dfy` holds for any wording. `Orchestrator.Wording` holds
the exact texts App.tsx writes, and `PressStart` runs with it.

## Model

| member | source | states |
|---|---|---|
| Text.UpperChar | App.tsx:115 | the upper-case form of a character is never a lower-case ASCII letter; `a`–`z` move down by 32 code points; every other character is unchanged |
| Text.Upper | App.tsx:115 | `toUpperCase` on the reply: each character upper-cased in place; `UpperIsUpper`, `UpperOfUpper` and `UpperIdempotent` state what it guarantees |
| Text.UpperIsUpper | App.tsx:115 | `toUpperCase` keeps the length and leaves no lower-case ASCII letter |
| Text.UpperOfUpper | App.tsx:115 | upper-casing text that is already upper-case changes nothing |
| Text.UpperIdempotent | App.tsx:115 | upper-casing twice is the same as upper-casing once |
| Text.Includes | App.tsx:115 | `includes` returns true exactly when some position of the text starts an occurrence of the pattern |
| Text.IncludesAt | App.tsx:115 | an occurrence at any position makes `includes` true |
| Text.AbsentCharExcludes | App.tsx:115 | a pattern containing a character the text lacks is not included |
| MissionHelpers.FirstMatch | App.tsx:147 | `find` returns the first index whose code matches, with no match before it; it finds nothing exactly when no entry matches |
| MissionHelpers.SymbolFor | App.tsx:147 | `find(...)?.symbol \|\| '$'` is never empty; it is `$` when no code matches; otherwise it is the symbol of the first matching entry, or `$` when that symbol is empty |
| MissionHelpers.CurrencyTableWellFormed | App.tsx:30-40 | the nine currency codes are pairwise distinct and every symbol is non-empty |
| MissionHelpers.CurrentSymbol | App.tsx:147 | `currentSymbol`: the lookup in the nine-currency table for the query's code; `CurrentSymbolSpec` states its value |
| MissionHelpers.CurrentSymbolSpec | App.tsx:147 | the symbol shown beside the budget is that of the table entry with the query's code, or `$` when no entry has it |
| MissionHelpers.IsAvailable | App.tsx:115 | `isAvailable` for an outreach reply; `AvailableMeaning` states what it decides |
| MissionHelpers.AvailableMeaning | App.tsx:115 | a reply counts as available exactly when its upper-cased form contains "AVAILABLE" and does not contain "SOLD OUT" |
| MissionHelpers.AvailabilityIgnoresCase | App.tsx:115 | a reply and its upper-cased form are classified alike |
| MissionHelpers.SoldOutOverrides | App.tsx:115 | a reply containing "SOLD OUT" in any letter case is never available, even if it also contains "AVAILABLE" |
| MissionHelpers.BareAvailable | App.tsx:115 | the reply "AVAILABLE" is available |
| MissionHelpers.BareSoldOut | App.tsx:115 | the reply "SOLD OUT" is not available |
| MissionHelpers.MixedCaseConfirmation | App.tsx:115 | "Unit is AVAILABLE now" is available |
| MissionHelpers.SoldOutAfterAvailable | App.tsx:115 | "AVAILABLE but SOLD OUT" is not available |
| MissionHelpers.RentedReply | App.tsx:115 | every reply whose upper-cased form never mentions "AVAILABLE" is not available |
| MissionHelpers.RentedLastWeek | App.tsx:115 | the reply "Rented last week" is not available |
| MissionHelpers.UnavailableCountsAsAvailable | App.tsx:115 | the test searches for the letters, not the word: the reply "UNAVAILABLE" is available, so such a reply marks the listing `replied` |
| MissionHelpers.Mark | App.tsx:119-125 | the spread `{ ...l, status, agentNote }`: `replied` with the "Confirmed…" note or `rejected` with the "Update…" note; the schedule and update lemmas state its effect |
| MissionHelpers.UpdateById | App.tsx:117-127 | the `map` keeps the length and the order; each entry with the processed id becomes `replied` with the "Confirmed…" note or `rejected` with the "Update…" note, its other fields kept; every other entry is unchanged |
| MissionHelpers.UpdateKeepsIds | App.tsx:117-127 | the update keeps the sequence of ids |
| MissionHelpers.UpdateIdempotent | App.tsx:117-127 | recording the same verdict for the same id twice is the same as recording it once |
| MissionHelpers.UpdatesCommute | App.tsx:117-127 | updates for two different ids can be applied in either order |
| MissionHelpers.Schedule | App.tsx:146 | the schedule is never longer than the results |
| MissionHelpers.ScheduleMembers | App.tsx:146 | a listing is in the schedule exactly when it is in the results with status `replied` |
| MissionHelpers.ScheduleIsSubsequence | App.tsx:146 | the schedule keeps the results' relative order, since it is a subsequence of them |
| MissionHelpers.ScheduleHeadIsReplied | App.tsx:146 | the first scheduled listing is `replied` |
| MissionHelpers.ScheduleAppend | App.tsx:146 | the filter distributes over concatenation, so each replied entry is kept with its multiplicity |
| MissionHelpers.UpdateAndSchedule | App.tsx:117-146 | after a reply is recorded, an entry with that id is in the schedule exactly when the reply was available |
| MissionHelpers.HasInputs | App.tsx:75 | the guard of `startMission`: both the work location and the budget are non-empty; `StartMission` does nothing without it |
| MissionHelpers.CanStart | App.tsx:265 | the start button is enabled in IDLE and COMPLETED only; `PressStart` acts exactly when it holds |
| Orchestrator.DecimalString | App.tsx:103 | `${listings.length}` prints digits only, with no leading zero, and they denote the length |
| Orchestrator.Wording | App.tsx:83-137 | the exact text of every log line `startMission` writes, by template |
| Orchestrator.VerdictNote | App.tsx:129-133 | the verdict line names the listing's title: "Inquiry Success…" when available, "…marked as SOLD OUT." otherwise; `Advance` states it per iteration |
| Orchestrator.VerdictKind | App.tsx:129-133 | the verdict line is a success when available and a warning otherwise; `Advance` states it per iteration |
| Orchestrator.Say | App.tsx:66-72 | `addLog` on the specification state: one entry appended, stamped for its position; `SayStamped` and the `...Appends` lemmas state what it keeps |
| Orchestrator.Enter | App.tsx:77 | `setStatus` on the specification state, recorded in the trail; `RunTrail` and `RunMovesForward` state the trail of a run |
| Orchestrator.Abort | App.tsx:139-142 | the catch block: the "Critical Mission Error" warning, then IDLE, with everything fetched kept; `OutreachErrorLog` and `RunKeepsFetched` state it |
| Orchestrator.Opening | App.tsx:77-85 | the reset and the three opening lines; `OpeningStamped` and `RunLogs` state them |
| Orchestrator.Strategized | App.tsx:88-90 | the strategy stored and its success line; `RunKeepsFetched` states the strategy kept |
| Orchestrator.StartHunt | App.tsx:92-94 | HUNTING and its two lines; `HuntStatus` and `HuntAppends` state them |
| Orchestrator.Discovered | App.tsx:96-107 | the listings and sources stored, the count or the zero-matches warning, then CLOSING and its line; `HuntReachesOutreach`, `RunReachesClosing` and `RunWithNoListings` state it |
| Orchestrator.Record | App.tsx:117-133 | one reply recorded on every result with the listing's id, then the verdict line; `MarkStep` and `Advance` state it |
| Orchestrator.Outreach | App.tsx:109-142 | the outreach loop and the completion or the catch block; `MissionControl.Close` is proved to perform it, and the `Outreach…`, `Transcript…` lemmas state its properties |
| Orchestrator.Hunt | App.tsx:92-142 | the hunting phase after the strategy; `MissionControl.HuntAndClose` is proved to perform it, and the `Hunt…` lemmas state its properties |
| Orchestrator.Run | App.tsx:74-144 | a whole run from the query, the position and the service's answers; `MissionControl.StartMission` is proved to perform it, and the `Run…` lemmas state its properties |
| Orchestrator.Batch | App.tsx:109 | `slice(0, 3)` holds the first min(3, n) listings, in order |
| Orchestrator.MissionControl.constructor | App.tsx:43-55 | the initial state: IDLE, an empty query in USD by car with a 25-minute limit, no position, nothing logged, found or fetched |
| Orchestrator.MissionControl.EditQuery | App.tsx:199 | `setQuery` replaces the query |
| Orchestrator.MissionControl.Locate | App.tsx:57-64 | the geolocation callback stores the reported position |
| Orchestrator.MissionControl.AddLog | App.tsx:66-72 | the log grows by exactly one entry at its end, holding the message, the type and the timestamp |
| Orchestrator.MissionControl.SetStatus | App.tsx:43 | `setStatus` sets the status and records it in the trail of statuses |
| Orchestrator.MissionControl.Fail | App.tsx:139-142 | the catch block logs "Critical Mission Error: " plus the message as a warning, then sets IDLE; nothing else changes |
| Orchestrator.MissionControl.Reset | App.tsx:77-85 | a run starts in STRATEGIZING with the log, results, strategy and sources emptied, then writes its three opening lines |
| Orchestrator.MissionControl.StartMission | App.tsx:74-144 | without a work location or a budget nothing changes; otherwise the screen ends in exactly the state `Run` gives for the query and position held at the start, whatever it showed before; the query and position are not changed |
| Orchestrator.MissionControl.HuntAndClose | App.tsx:92-137 | after the strategy is stored, the remaining steps leave the state `Hunt` gives |
| Orchestrator.MissionControl.Close | App.tsx:109-137 | the outreach loop and the completion leave the state `Outreach` gives, with one inquiry per listing in list order and a failed inquiry aborting the run |
| Orchestrator.MissionControl.PressStart | App.tsx:263-265 | a press is acted on exactly when the status is IDLE or COMPLETED; a press of the disabled button changes nothing; an accepted press runs `startMission` with App.tsx's wording |
| Orchestrator.MissionControl.VerifiedSchedule | App.tsx:146 | `schedule` of the current results; `ScheduleMembers` and `ScheduleIsSubsequence` state its contents |
| Orchestrator.MissionControl.BudgetSymbol | App.tsx:147 | `currentSymbol` of the current query; `CurrentSymbolSpec` states its value |
| RunProperties.FirstUnanswered | App.tsx:109-112 | the index of the first inquiry from a given one on whose call throws, with every earlier one answered, or the batch size when none throws |
| RunProperties.SayStamped | App.tsx:66-72 | appending an entry keeps every entry stamped with the clock reading for its position |
| RunProperties.OutreachStatus | App.tsx:109-142 | the outreach loop sets exactly one more status: COMPLETED when every remaining inquiry is answered, IDLE otherwise |
| RunProperties.OutreachCompletionLog | App.tsx:136-137 | when every inquiry is answered, the last log line is the "Lifecycle Completed" success line |
| RunProperties.OutreachErrorLog | App.tsx:139-142 | when an inquiry fails, the last log line is the warning carrying the message of the first failed inquiry |
| RunProperties.OutreachAppends | App.tsx:66-72 | the outreach loop only appends to the log: it adds at least one line, changes no earlier entry and keeps every entry stamped |
| RunProperties.UpdateRestyles | App.tsx:117-127 | recording a reply changes only the status and the note of any result, never a display field |
| RunProperties.OutreachKeeps | App.tsx:109-134 | the outreach loop keeps the strategy, the sources, the ids of the results and every display field of each result, whether or not an inquiry fails |
| RunProperties.Advance | App.tsx:110-133 | one answered iteration appends two lines: the inquiry to the listing's source (info), then the verdict line whose text and type follow the reply's classification |
| RunProperties.OutreachWrites | App.tsx:109-137 | when every inquiry is answered, the loop writes exactly the transcript: two lines per listing, then the completion line |
| RunProperties.TranscriptExtends | App.tsx:109-137 | the transcript keeps the earlier log and adds 2 lines per remaining listing plus 1 |
| RunProperties.TranscriptFirst | App.tsx:110-133 | the first two lines of the transcript are the inquiry about the current listing and its verdict |
| RunProperties.TranscriptAt | App.tsx:109-133 | lines 2(j−k) and 2(j−k)+1 of the transcript are the inquiry about listing j and its verdict |
| RunProperties.MarkStep | App.tsx:117-127 | with unique ids, recording the k-th reply marks the k-th listing and no other |
| RunProperties.OutreachMarks | App.tsx:109-142 | with unique ids, each listing before the first failed inquiry (each of the first three when all answer) carries the verdict of its own reply, and every later listing, including those from index 3 on, keeps what discovery returned; a failure rolls no verdict back |
| RunProperties.HuntStatus | App.tsx:92-142 | the hunting phase ends COMPLETED exactly when discovery and every inquiry answer, otherwise IDLE; it sets HUNTING, then IDLE on a failed discovery or CLOSING and the final status |
| RunProperties.HuntLastLog | App.tsx:136-142 | the hunting phase's last log line is the completion line on success and otherwise the warning with the first failure's message |
| RunProperties.HuntAppends | App.tsx:92-137 | the hunting phase appends at least three lines, changes no earlier entry and keeps every entry stamped |
| RunProperties.HuntKeeps | App.tsx:96-98 | the hunting phase keeps the strategy; a failed discovery keeps the results and sources; a successful one stores the sources and the listings, their ids in order and every display field kept |
| RunProperties.HuntReachesOutreach | App.tsx:92-109 | when discovery answers, the hunting phase is the outreach loop started four log lines later |
| RunProperties.HuntTranscript | App.tsx:92-137 | a successful hunting phase logs 5 + 2·min(3, n) lines, and line 4 + 2j announces the inquiry to listing j |
| RunProperties.RunOutcome | App.tsx:87-142 | a run reaches COMPLETED exactly when no external call fails, and then its last line is the completion line; otherwise it ends IDLE with the warning of the first failure as its last line |
| RunProperties.RunTrail | App.tsx:77-142 | the statuses a run sets, in order: STRATEGIZING; HUNTING once the analysis answers; CLOSING once discovery answers; then its final status |
| RunProperties.RunMovesForward | App.tsx:77-142 | the status only moves forward through STRATEGIZING, HUNTING and CLOSING, ends COMPLETED or IDLE, and reaches COMPLETED only after all three; a run without failures sets exactly STRATEGIZING, HUNTING, CLOSING, COMPLETED |
| RunProperties.OpeningStamped | App.tsx:77-85 | the opening writes three stamped lines, the first naming the work location |
| RunProperties.RunLogs | App.tsx:77-85 | a run starts from an empty log: its first three lines are the opening, every entry carries the clock reading for its position, and at least four lines are written |
| RunProperties.RunKeepsFetched | App.tsx:87-143 | a failure keeps what was fetched before it: the strategy once the analysis answered; the sources and the listings (ids in order, every display field) once discovery answered; a failed analysis leaves the strategy, results and sources empty |
| RunProperties.RunReachesClosing | App.tsx:74-108 | when the analysis and discovery answer, the outreach loop starts after eight lines, with the listings found as results and the trail STRATEGIZING, HUNTING, CLOSING |
| RunProperties.RunMarksFirstThree | App.tsx:109-142 | with unique ids, a run keeps the number and order of the listings and never changes those past the first three; each listing contacted before the first failed inquiry carries its own reply's verdict even when the run then fails, later ones keep what discovery returned, and the run succeeds exactly when no inquiry fails |
| RunProperties.RunTranscript | App.tsx:109-110 | a successful run logs 9 + 2·min(3, n) lines and contacts the listings in list order: line 8 + 2j is the inquiry to listing j |
| RunProperties.RunWithNoListings | App.tsx:100-101 | zero listings is not a failure: the run logs the zero-matches warning as line 6, contacts nobody and still completes, in nine lines |
| RunProperties.ScheduleOfScenario | App.tsx:146 | results marked replied, rejected, replied, new, new give the schedule of the first and the third |
| RunProperties.FiveListingScenario | App.tsx:74-146 | end to end: five new listings, with replies "AVAILABLE", "SOLD OUT" and "AVAILABLE" to the three inquiries, give a completed run with three replied/rejected/replied results, the last two untouched, and the first and third scheduled |

## Left out

- The JSX tree (App.tsx:149-493) and the `Terminal` component are rendering only. `VerifiedSchedule` and `BudgetSymbol` name the two values the screen derives for display.
- The geolocation effect (App.tsx:57-64) is browser I/O. `Locate` stores a position the browser reports, and a run takes the position as an optional value.
- `analyzeCommute`, `findListings` and `simulateOutreach` call an external AI service whose code is not part of this model. A `Service` gives, for each call, a value or a thrown error's message. Every lemma holds for every `Service`.
- `simulateOutreach` is given the call number as well as the listing, so two identical listings may get different replies. This makes the model more general than the source, not less.
- The 1500 ms pause (App.tsx:113) changes no state, and the model leaves it out.
- Timestamps from `toLocaleTimeString` are locale text. `Service.clock(k)` is the reading taken when the k-th entry of the run is appended. The log is emptied at the start, so k is the entry's position.
- React batching of state updates and asynchronous rendering are not modelled. Setters take effect in program order, and `setResults(prev => …)` becomes an update of the current results.
- A second press during a run is excluded by the disabled button, which `PressStart` models, so concurrent runs are out of scope.
- `console.error` and `console.warn` are left out.
- The `parseInt(...) \|\| 0` of the commute field (App.tsx:238) is not modelled; `maxCommute` is an integer.
- `toUpperCase` is modelled for ASCII letters only; other characters are left as they are.
- `(error as any).message` is taken as a string. Two cases are not modelled. An error object without a `message` gives the text "undefined". A thrown or rejected `null` or `undefined` makes `.message` itself throw at App.tsx:141: the warning is never logged, `setStatus(IDLE)` at App.tsx:142 never runs, and the status stays in its active phase, so the start button stays disabled.
- `sources` is `any[]` in the source and is modelled as a sequence of optional uri/title citations.
- Repeated ids: the update in App.tsx:117-127 changes every result whose id matches. If discovery returns repeated ids, a listing at index 3 or beyond can change too, although the outreach phase is meant to touch only the first three. The model follows the code. The lemmas that promise "only the first three" (`OutreachMarks`, `RunMarksFirstThree`) require distinct ids.
- The status `contacted` of types.ts is never set by the orchestrator and has no role here.
- Wording: log lines are stated through a wording parameter. The lemmas of `RunProperties` speak of `text(note)` and hold for every wording, including `Orchestrator.Wording`, the exact texts App.tsx writes.
- RunProperties.OutreachCompletionLog: states the message and type of the last line, not its timestamp. `RunLogs` proves that every entry carries the clock reading for its position.
- RunProperties.HuntLastLog: likewise states message and type only; timestamps are covered by `RunLogs`.
- RunProperties.RunOutcome: likewise states message and type only; timestamps are covered by `RunLogs`.
- MissionHelpers.Schedule: its own contract only bounds the length. Membership is stated in `ScheduleMembers` and order in `ScheduleIsSubsequence`.
- MissionHelpers.IsAvailable: has no contract of its own. Its meaning is stated by `AvailableMeaning`.
